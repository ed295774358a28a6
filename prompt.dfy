/**
 * The two prompts the chatbot sends to the hosted model: the chat prompt
 * built from the conversation history (`get_gemini_response`) and the
 * summarization prompt (`summarize_text`). The model call itself is not
 * part of this module.
 */
module Prompt {
  import opened Text

  /** The fixed opening of every summarization request. */
  const SummarizePrefix: string := "Summarize the following text:\n\n"

  /** The chat prompt: the history lines joined by newlines, then a newline
      and the new prompt; with no history, the new prompt alone. */
  function FullPrompt(history: seq<string>, prompt: string): string {
    if |history| > 0 then JoinLines(history) + "\n" + prompt else prompt
  }

  /** The summarization request: the fixed prefix, then the text verbatim. */
  function SummarizePrompt(text: string): (r: string)
    ensures |r| == |SummarizePrefix| + |text|
    ensures StartsWith(r, SummarizePrefix)
    ensures r[|SummarizePrefix|..] == text
  {
    SummarizePrefix + text
  }

  /** The text of a summarization request can be read back from it, so two
      different texts never give the same request. */
  lemma SummarizePromptInjective(a: string, b: string)
    requires SummarizePrompt(a) == SummarizePrompt(b)
    ensures a == b
  {
    assert a == SummarizePrompt(a)[|SummarizePrefix|..];
  }

  /** With no history the model sees exactly the new prompt. */
  lemma FullPromptEmptyHistory(prompt: string)
    ensures FullPrompt([], prompt) == prompt
  {
  }

  /** The chat prompt is `"\n".join(history + [prompt])`: every history line
      and then the prompt, each pair separated by a single newline. */
  lemma FullPromptIsJoin(history: seq<string>, prompt: string)
    ensures FullPrompt(history, prompt) == JoinLines(history + [prompt])
  {
    if history == [] {
      assert history + [prompt] == [prompt];
    } else {
      JoinLinesSnoc(history, prompt);
    }
  }

  /** With a history, the chat prompt opens with the oldest history line,
      closes with the new prompt, and is as long as all lines and the prompt
      plus one newline per history line. */
  lemma FullPromptShape(history: seq<string>, prompt: string)
    requires history != []
    ensures StartsWith(FullPrompt(history, prompt), history[0])
    ensures EndsWith(FullPrompt(history, prompt), prompt)
    ensures |FullPrompt(history, prompt)| == TotalLength(history) + |history| + |prompt|
  {
    var joined := JoinLines(history);
    JoinLinesEnds(history);
    JoinLinesLength(history);
    assert (joined + "\n" + prompt)[..|history[0]|] == joined[..|history[0]|];
  }
}
