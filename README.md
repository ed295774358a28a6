# Chatbot string logic in Dafny

`Chatbot.py` is a Streamlit page that forwards text to a hosted Gemini
model. Almost everything in it is a call into a library or a remote
service. This project models the small deterministic string routines that
sit between those calls, and proves properties of them:

- **Prompt assembly** (`get_gemini_response`). The history lines are joined
  by newlines, then a newline and the new prompt follow. With no history the
  prompt is sent alone.
- **Summarization prompt** (`summarize_text`). A fixed prefix, then the text
  verbatim.
- **Chat-input classification** (`chat_interface`), checked in this order:
  a goodbye word, then the `summarize:` command, then an ordinary message.
- **Document extraction** (`read_document`). Dispatch is first-match over
  substring tests on the MIME type. PDF pages are concatenated. DOCX
  paragraphs are each followed by a newline. Any other type yields the
  sentinel `"Unsupported file type."`, which
  `document_summarization_interface` recognises as a failure.
- **Turn recording**. The page-local `history` list receives exactly two
  labelled lines per turn, on the chat page and on the voice assistant page.

Modules:

- `Text` (`text.dfy`): Python's `lower`, `strip`, `startswith`, `in` and
  `"\n".join`, over `seq<char>`.
- `Prompt` (`prompt.dfy`): the two prompts.
- `Document` (`document.dfy`): `read_document` and the summarization page.
- `Chat` (`chat.dfy`): classification, the `History` list class, and the
  chat and voice pages.

The PDF and DOCX text is built by loops (`text += ...`). These are methods
proved equal to recursive concatenation functions. Lemmas about those
functions give lengths and behaviour under concatenation. Appends to
`history` are calls of `History.Append` on a class whose `entries` field is
the list.

Inputs that come from code outside the model enter as parameters:

- `generate: string -> string` is the hosted model. It stands for
  `model.generate_content(prompt).text`, or for the error text that replaces
  it when the call raises.
- `heard: Option<string>` is what `listen()` returned.
- An `Upload` carries the declared MIME type, the UTF-8 decoded bytes, the
  text PyPDF2 extracts from each page, and the text of each python-docx
  paragraph.

In the source, `history = []` is rebuilt on every call of a page function.
`ChatInterface` and `VoiceAssistantInterface` model that: their history
starts fresh, so an ordinary message reaches the model with no earlier
turns. `ChatTurn` and `VoiceTurn` hold the same logic for an arbitrary
history.

## Model

| member | source | states |
|---|---|---|
| `Text.ToLower` | Chatbot.py:113 | `str.lower()` on ASCII: each character lower-cased in place, the length kept |
| `Text.StartsWith` | Chatbot.py:115 | `str.startswith(p)`: the string begins with the characters of `p`, in order |
| `Text.Strip` | Chatbot.py:116 | `str.strip()`: the string between its leading and its trailing whitespace |
| `Text.JoinLines` | Chatbot.py:39 | `"\n".join(parts)`: the parts in order with one newline between neighbours, `""` for no parts |
| `Prompt.FullPrompt` | Chatbot.py:38-41 | the history joined by newlines, then a newline and the prompt when the history is non-empty; the prompt alone otherwise |
| `Document.Dispatch` | Chatbot.py:77-91 | first match over three substring tests on the MIME type, in the order text/plain, application/pdf, DOCX, and Unsupported when none matches |
| `Document.PdfText` | Chatbot.py:81-84 | the page texts concatenated in page order, with no separator |
| `Document.DocxText` | Chatbot.py:87-90 | each paragraph followed by `"\n"`, concatenated in document order |
| `Document.DocumentText` | Chatbot.py:75-92 | the text `read_document` returns: the decoded text, the PDF text, the DOCX text or `"Unsupported file type."`, as the dispatch selects |
| `Document.IsFailureText` | Chatbot.py:100 | the summarization page's failure test: the text contains `"Unsupported file type"` |
| `Chat.Classify` | Chatbot.py:113-116 | Goodbye when the lower-cased input is quit, exit or bye; else Summarize of the original input minus its first 10 characters, stripped, when the lower-cased input starts with `summarize:`; else Ask with the input unchanged |
| `Text.Contains` | Chatbot.py:77 | `sub in s` holds exactly when `sub` occurs in `s` at some offset |
| `Text.LeadingSpaces` | Chatbot.py:116 | counts the whitespace prefix `strip` removes: all of it is whitespace and the next character is not |
| `Text.TrailingSpaces` | Chatbot.py:116 | counts the whitespace suffix `strip` removes: all of it is whitespace and the character before it is not |
| `Text.StripSpec` | Chatbot.py:116 | the stripped text is the slice of the input right after its leading whitespace; only whitespace follows it; it neither starts nor ends with whitespace |
| `Text.StripIdempotent` | Chatbot.py:116 | stripping an already stripped text changes nothing |
| `Text.ToLowerAppend` | Chatbot.py:113 | lower-casing works character by character, so it distributes over concatenation |
| `Text.JoinLinesSnoc` | Chatbot.py:39 | joining one more part adds exactly one newline and that part |
| `Text.JoinLinesEnds` | Chatbot.py:39 | a join of parts starts with the first part and ends with the last |
| `Text.JoinLinesLength` | Chatbot.py:39 | a join is as long as its parts plus one newline between each pair of neighbours |
| `Prompt.FullPromptEmptyHistory` | Chatbot.py:38-41 | with empty history the assembled prompt is the new prompt exactly |
| `Prompt.FullPromptIsJoin` | Chatbot.py:38-41 | the assembled prompt equals `"\n".join(history + [prompt])`, for empty and non-empty history alike |
| `Prompt.FullPromptShape` | Chatbot.py:38-41 | with non-empty history the prompt begins with `history[0]`, ends with the new prompt, and its length is all line lengths plus one newline per history line |
| `Prompt.SummarizePrompt` | Chatbot.py:48 | the summarization request is the fixed prefix, then the text unchanged |
| `Prompt.SummarizePromptInjective` | Chatbot.py:48 | different texts give different summarization requests |
| `Document.DispatchFirstMatch` | Chatbot.py:77-92 | dispatch is first-match over the substring tests, in the order text/plain, application/pdf, DOCX, and unsupported when none matches (each case, both directions) |
| `Document.DispatchBySubstring` | Chatbot.py:79 | the PDF type is recognised anywhere inside the declared type string, as long as no earlier test matches |
| `Document.ExtractPdf` | Chatbot.py:81-84 | the page loop produces the page texts concatenated in page order, with no separator |
| `Document.ExtractDocx` | Chatbot.py:87-90 | the paragraph loop produces every paragraph followed by a newline, in document order |
| `Document.ReadDocument` | Chatbot.py:75-92 | `read_document` returns the decoded text, the PDF text, the DOCX text or the sentinel, according to the dispatch |
| `Document.PdfTextAppend` | Chatbot.py:82-83 | extracting two runs of pages gives their texts one after the other |
| `Document.DocxTextAppend` | Chatbot.py:88-89 | extracting two runs of paragraphs gives their texts one after the other |
| `Document.PdfTextLength` | Chatbot.py:82-83 | the PDF text is exactly as long as the page texts together |
| `Document.DocxTextLength` | Chatbot.py:88-89 | the DOCX text is as long as the paragraphs together plus one per paragraph |
| `Document.PlainTextVerbatim` | Chatbot.py:77-78 | a text/plain upload yields its decoded text unchanged |
| `Document.UnsupportedIgnoresPayload` | Chatbot.py:91-92 | an unsupported type yields exactly `"Unsupported file type."`, whatever the payload |
| `Document.UnsupportedIsFailure` | Chatbot.py:92-100 | the sentinel is taken for a failure by the summarization page |
| `Document.SentinelIsAmbiguous` | Chatbot.py:77-100 | a supported plain-text upload whose text is the sentinel is also taken for a failure |
| `Document.HelloWorldUpload` | Chatbot.py:77-101 | a text/plain upload of "hello world" yields that text, which is not taken for a failure |
| `Document.DocumentSummarization` | Chatbot.py:97-105 | a failed extraction is shown as it is; any other text is sent in the summarization prompt and the answer is shown |
| `Chat.ClassifySpec` | Chatbot.py:113-116 | an input is Goodbye iff its lower-case form is quit, exit or bye. It is Summarize iff it is not Goodbye and its lower-case form starts with `summarize:`. Otherwise it is an ordinary message, passed on unchanged |
| `Chat.GoodbyeAnyCase` | Chatbot.py:113-115 | a goodbye word in any case is classified Goodbye and never as a summarize command |
| `Chat.SummarizeTakesRemainder` | Chatbot.py:115-116 | after `summarize:` in any case, the text is the original input minus its first 10 characters, stripped, so its case is kept and only surrounding whitespace is dropped |
| `Chat.ClassifyCommand` | Chatbot.py:115-116 | `summarize:` followed by any text asks for a summary of that text, stripped |
| `Chat.SummarizeExample` | Chatbot.py:115-116 | "summarize: the quick brown fox" asks for a summary of "the quick brown fox" |
| `Chat.SummarizeKeepsCase` | Chatbot.py:115-116 | "SUMMARIZE: Keep THIS " asks for a summary of "Keep THIS" |
| `Chat.AskKeepsInput` | Chatbot.py:121-122 | an input that is neither a goodbye nor a command is passed on unchanged |
| `Chat.TurnEntries` | Chatbot.py:119-120 | a turn is two lines: `"You: "` and the input, then `"Chatbot: "` and the reply |
| `Chat.TurnKeepsHistory` | Chatbot.py:119-120 | recording a turn keeps every earlier line in place, adds exactly two lines, the user's first |
| `Chat.RecordedTurnInPrompt` | Chatbot.py:39 | a recorded turn would appear in a later prompt as its two lines, in order, before the new prompt |
| `Chat.History.constructor` | Chatbot.py:110 | the history list starts empty |
| `Chat.History.Append` | Chatbot.py:119 | `append` adds one line at the end and changes nothing else |
| `Chat.ChatTurn` | Chatbot.py:113-125 | a goodbye reply neither calls the model nor changes the history. A summary request sends the summarization prompt of the stripped text. An ordinary message sends the prompt assembled from the history. Each of the last two appends exactly its turn |
| `Chat.ChatInterface` | Chatbot.py:110-125 | with the history rebuilt empty each time, an ordinary message is sent to the model as it is, and the history afterwards holds exactly that turn |
| `Chat.VoiceTurn` | Chatbot.py:173-178 | a missing or empty transcription does nothing. Otherwise the assembled prompt goes to the model and exactly one turn is appended |
| `Chat.VoiceAssistantInterface` | Chatbot.py:169-178 | with the history rebuilt empty, a non-empty transcription is sent as it is and recorded as one turn |

## Left out

- The call to the hosted model (`model.generate_content`, Chatbot.py:42-45, 50-53, 70-73) and the `f"An error occurred: {e}"` texts it is replaced by on an exception. The reply is the parameter `generate`. The error text comes from a foreign exception.
- The `system_prompt` string (Chatbot.py:36). It is assigned but never sent, so it has no effect on anything modelled.
- Image analysis (Chatbot.py:55-73): PIL decoding, RGBA to RGB conversion, JPEG and base64 encoding. All of it is library work.
- PDF and DOCX parsing by PyPDF2 and python-docx (Chatbot.py:80, 86). Only the concatenation over the page and paragraph texts they return is modelled. Parser exceptions are not.
- UTF-8 decoding of a text upload (Chatbot.py:78). The decoded string is part of the `Upload`, and decoding errors are not modelled.
- Speech (Chatbot.py:139-164): `speak` drives a local engine, `listen` a microphone and a cloud recogniser. `listen()`'s result is the parameter `heard`.
- Streamlit rendering, widgets, the button gates and page navigation (Chatbot.py:94-98, 102-112, 127-137, 167-171, 180-190). Each interface method models one press of its button.
- The unused regex demo (Chatbot.py:24-33) and the hard-coded API key (Chatbot.py:13-16).
- `Text.ToLower` and `Text.IsSpace`: they follow Python's `str.lower()` and `str.isspace()` only on ASCII. Non-ASCII characters are never changed or stripped. Python would also lower-case or strip some of them.
