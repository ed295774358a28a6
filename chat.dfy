/**
 * The chat page (`chat_interface`) and the voice assistant page
 * (`voice_assistant_interface`): how one input is classified, which prompt
 * goes to the model, and how the turn is recorded in the history list.
 *
 * The hosted model is the parameter `generate` (the text it answers a
 * prompt with, or the error text that replaces it); what the microphone
 * heard is the parameter `heard`.
 */
module Chat {
  import opened Text
  import opened Prompt

  datatype Option<T> = None | Some(value: T)

  /** Inputs that end the conversation, compared after lower-casing. */
  const GoodbyeWords: seq<string> := ["quit", "exit", "bye"]
  /** The command that asks for a summary of the rest of the input. */
  const SummarizeCommand: string := "summarize:"

  const UserLabel: string := "You: "
  const BotLabel: string := "Chatbot: "

  /** What the chat page makes of one input. */
  datatype Command =
    | Goodbye
    | Summarize(text: string)   // the text to summarize
    | Ask(question: string)     // an ordinary chat message

  /** The classification at the head of `chat_interface`. */
  function Classify(input: string): Command {
    var lower := ToLower(input);
    if lower in GoodbyeWords then Goodbye
    else if StartsWith(lower, SummarizeCommand) then Summarize(Strip(input[|SummarizeCommand|..]))
    else Ask(input)
  }

  /** The goodbye test comes first; the summarize command is recognised in
      any letter case; everything else is an ordinary message, unchanged. */
  lemma ClassifySpec(input: string)
    ensures Classify(input).Goodbye? <==> ToLower(input) in GoodbyeWords
    ensures Classify(input).Summarize? <==>
      ToLower(input) !in GoodbyeWords && StartsWith(ToLower(input), SummarizeCommand)
    ensures Classify(input).Ask? <==>
      ToLower(input) !in GoodbyeWords && !StartsWith(ToLower(input), SummarizeCommand)
    ensures Classify(input).Ask? ==> Classify(input).question == input
  {
  }

  /** The two history lines that record one turn, the user's first. */
  function TurnEntries(input: string, reply: string): (r: seq<string>)
    ensures |r| == 2
    ensures StartsWith(r[0], UserLabel) && r[0][|UserLabel|..] == input
    ensures StartsWith(r[1], BotLabel) && r[1][|BotLabel|..] == reply
  {
    [UserLabel + input, BotLabel + reply]
  }

  /** The page-local `history` list; `Append` is `list.append`. */
  class History {
    var entries: seq<string>

    constructor ()
      ensures entries == []
    {
      entries := [];
    }

    method Append(entry: string)
      modifies this
      ensures entries == old(entries) + [entry]
    {
      entries := entries + [entry];
    }
  }

  /** What the chat page writes back. */
  datatype Reply =
    | Farewell                    // "Chatbot: Goodbye!"
    | SummaryReply(summary: string)
    | ChatReply(response: string)

  /** Lines 113-125 of `chat_interface` for a given history: a goodbye
      neither calls the model nor records anything; a summary request sends
      the summarization prompt; anything else sends the chat prompt built
      from the history. Both of the latter append exactly one turn. */
  method ChatTurn(history: History, input: string, generate: string -> string) returns (reply: Reply)
    modifies history
    ensures Classify(input).Goodbye? ==> reply == Farewell && history.entries == old(history.entries)
    ensures Classify(input).Summarize? ==>
      var summary := generate(SummarizePrompt(Classify(input).text));
      reply == SummaryReply(summary) &&
      history.entries == old(history.entries) + TurnEntries(input, summary)
    ensures Classify(input).Ask? ==>
      var response := generate(FullPrompt(old(history.entries), input));
      reply == ChatReply(response) &&
      history.entries == old(history.entries) + TurnEntries(input, response)
  {
    match Classify(input)
    case Goodbye =>
      reply := Farewell;
    case Summarize(textToSummarize) =>
      var summary := generate(SummarizePrompt(textToSummarize));
      reply := SummaryReply(summary);
      history.Append(UserLabel + input);
      history.Append(BotLabel + summary);
    case Ask(question) =>
      var response := generate(FullPrompt(history.entries, question));
      reply := ChatReply(response);
      history.Append(UserLabel + input);
      history.Append(BotLabel + response);
  }

  /** `chat_interface` after "Send": the history starts empty on every call,
      so an ordinary message reaches the model with no earlier turns. */
  method ChatInterface(input: string, generate: string -> string) returns (reply: Reply, history: History)
    ensures fresh(history)
    ensures Classify(input).Goodbye? ==> reply == Farewell && history.entries == []
    ensures Classify(input).Summarize? ==>
      var summary := generate(SummarizePrompt(Classify(input).text));
      reply == SummaryReply(summary) && history.entries == TurnEntries(input, summary)
    ensures Classify(input).Ask? ==>
      reply == ChatReply(generate(input)) && history.entries == TurnEntries(input, generate(input))
  {
    history := new History();
    reply := ChatTurn(history, input, generate);
  }

  /** Lines 173-178 of `voice_assistant_interface` for a given history: a
      missing or empty transcription does nothing; otherwise the chat prompt
      goes to the model and one turn is appended. */
  method VoiceTurn(history: History, heard: Option<string>, generate: string -> string)
    returns (response: Option<string>)
    modifies history
    ensures (heard.None? || heard.value == "") ==>
      response == None && history.entries == old(history.entries)
    ensures heard.Some? && heard.value != "" ==>
      var r := generate(FullPrompt(old(history.entries), heard.value));
      response == Some(r) && history.entries == old(history.entries) + TurnEntries(heard.value, r)
  {
    if heard.Some? && heard.value != "" {
      var userInput := heard.value;
      var r := generate(FullPrompt(history.entries, userInput));
      response := Some(r);
      history.Append(UserLabel + userInput);
      history.Append(BotLabel + r);
    } else {
      response := None;
    }
  }

  /** `voice_assistant_interface` after "Start Listening", again with a
      history that starts empty. */
  method VoiceAssistantInterface(heard: Option<string>, generate: string -> string)
    returns (response: Option<string>, history: History)
    ensures fresh(history)
    ensures (heard.None? || heard.value == "") ==> response == None && history.entries == []
    ensures heard.Some? && heard.value != "" ==>
      response == Some(generate(heard.value)) &&
      history.entries == TurnEntries(heard.value, generate(heard.value))
  {
    history := new History();
    response := VoiceTurn(history, heard, generate);
  }

  /** A goodbye word in any letter case ends the conversation; it is never
      taken for a summarize command nor sent to the model. */
  lemma GoodbyeAnyCase(input: string)
    requires ToLower(input) in GoodbyeWords
    ensures Classify(input) == Goodbye
    ensures !StartsWith(ToLower(input), SummarizeCommand)
  {
  }

  /** After "summarize:" in any case, the text to summarize is the rest of
      the original input with its case kept, only the whitespace at both
      ends removed. */
  lemma SummarizeTakesRemainder(input: string)
    requires StartsWith(ToLower(input), SummarizeCommand)
    ensures Classify(input) == Summarize(Strip(input[|SummarizeCommand|..]))
    ensures var rest := input[|SummarizeCommand|..];
      var t := Classify(input).text;
      var a := LeadingSpaces(rest);
      a + |t| <= |rest| && rest[a..a + |t|] == t &&
      AllSpace(rest[..a]) && AllSpace(rest[a + |t|..]) &&
      (t != [] ==> !IsSpace(t[0]) && !IsSpace(t[|t| - 1]))
  {
    var lower := ToLower(input);
    assert |lower| >= |SummarizeCommand|;
    assert lower !in GoodbyeWords by {
      forall w | w in GoodbyeWords
        ensures lower != w
      {
        assert |w| < |SummarizeCommand|;
      }
    }
    StripSpec(input[|SummarizeCommand|..]);
  }

  /** The lower-case command followed by any text asks for a summary of
      that text, stripped. */
  lemma ClassifyCommand(rest: string)
    ensures Classify(SummarizeCommand + rest) == Summarize(Strip(rest))
  {
    var input := SummarizeCommand + rest;
    assert ToLower(SummarizeCommand) == SummarizeCommand;
    ToLowerAppend(SummarizeCommand, rest);
    assert ToLower(input)[..|SummarizeCommand|] == SummarizeCommand;
    SummarizeTakesRemainder(input);
    assert input[|SummarizeCommand|..] == rest;
  }

  /** Stripping " the quick brown fox" drops its one leading space. */
  lemma StripFox(rest: string)
    requires rest == " the quick brown fox"
    ensures Strip(rest) == "the quick brown fox"
  {
    assert LeadingSpaces(rest) == 1 by {
      assert LeadingSpaces(rest[1..]) == 0;
    }
    assert TrailingSpaces(rest[1..]) == 0;
  }

  /** The input "summarize: the quick brown fox" asks for a summary of
      "the quick brown fox". */
  lemma SummarizeExample()
    ensures Classify(SummarizeCommand + " the quick brown fox") == Summarize("the quick brown fox")
  {
    ClassifyCommand(" the quick brown fox");
    StripFox(" the quick brown fox");
  }

  /** Stripping " Keep THIS " drops one space at each end and keeps the case. */
  lemma StripKeepThis(rest: string)
    requires rest == " Keep THIS "
    ensures Strip(rest) == "Keep THIS"
  {
    assert LeadingSpaces(rest) == 1 by {
      assert LeadingSpaces(rest[1..]) == 0;
    }
    assert TrailingSpaces(rest[1..]) == 1 by {
      assert TrailingSpaces(rest[1..][..|rest| - 2]) == 0;
    }
  }

  /** The command is recognised in capitals, and the text keeps its case:
      "SUMMARIZE: Keep THIS " asks for a summary of "Keep THIS". */
  lemma SummarizeKeepsCase()
    ensures Classify("SUMMARIZE:" + " Keep THIS ") == Summarize("Keep THIS")
  {
    var command, rest := "SUMMARIZE:", " Keep THIS ";
    var input := command + rest;
    assert ToLower(command) == SummarizeCommand;
    ToLowerAppend(command, rest);
    assert ToLower(input)[..|SummarizeCommand|] == SummarizeCommand;
    SummarizeTakesRemainder(input);
    assert input[|SummarizeCommand|..] == rest;
    StripKeepThis(rest);
  }

  /** An ordinary message is passed on unchanged. */
  lemma AskKeepsInput(input: string)
    requires ToLower(input) !in GoodbyeWords
    requires !StartsWith(ToLower(input), SummarizeCommand)
    ensures Classify(input) == Ask(input)
  {
  }

  /** Recording a turn keeps the earlier lines and their order, and adds
      exactly two lines, the user's first. */
  lemma TurnKeepsHistory(history: seq<string>, input: string, reply: string)
    ensures var h := history + TurnEntries(input, reply);
      |h| == |history| + 2 && h[..|history|] == history &&
      h[|history|] == UserLabel + input && h[|history| + 1] == BotLabel + reply
  {
  }

  /** If a history that had recorded a turn were used for the next prompt,
      the turn would appear in it as two lines, in order, before the new
      prompt. */
  lemma RecordedTurnInPrompt(history: seq<string>, input: string, reply: string, prompt: string)
    ensures FullPrompt(history + TurnEntries(input, reply), prompt) ==
      JoinLines(history + [UserLabel + input, BotLabel + reply, prompt])
  {
    var turn := TurnEntries(input, reply);
    FullPromptIsJoin(history + turn, prompt);
    assert history + turn + [prompt] == history + [UserLabel + input, BotLabel + reply, prompt];
  }
}
