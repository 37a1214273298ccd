# AI-powered search assistant: a Dafny model of its answer pipeline

The app (`app.py`) takes a question and does five things. It sends the question
to a web-search service. It joins the returned snippets into one context string.
It asks a hosted chat model to answer from that context. Then it asks the model
for three follow-up questions. It shows the answer, up to three sources and the
follow-ups on a Streamlit page.

The model keeps the deterministic part of that pipeline and turns both services
into function parameters:

- `SearchService` maps a query and a result cap to either a list of
  `SearchResult`s or `Fail(msg)`.
- `ChatService` maps a `ChatRequest` to either the text of the first completion
  or `Fail(msg)`. The request carries the model name, the system message, the
  prompt and the token cap.

Every exception the Python code catches becomes that one `Fail(msg)`: transport
errors, bad keys, and `KeyError` or `AttributeError` on a malformed payload.

The project has two modules:

- `PyText` (`py_text.dfy`) writes out the Python built-ins the app relies on.
  These are `str.lstrip(chars)`, `str.rstrip`, `str.strip()` (whitespace as
  Python's `str.isspace()` defines it, Unicode included), `str.split(sep)`,
  `sep.join(parts)` and the slice `xs[:n]`. For the strip functions and the
  slice, the contracts and lemmas state Python's semantics. For split and join,
  the contracts state Python's semantics only together with the two lemmas
  (`JoinSplit`, `SplitJoin`) that prove them inverse to each other.
- `App` (`app.dfy`) covers the rest:
  - `get_ai_response` (`GetAiResponse`): the context join, the source filter
    against `EXCLUDED_URLS`, the answer prompt and the fail-soft
    `"Error: " + msg` result.
  - `generate_follow_up_questions`: a specification function `FollowUps`, and a
    method `GenerateFollowUpQuestions` proved equal to it. The method pads the
    list in `PadQuestions`: a loop builds the filler copies that the source's
    comprehension `[... for _ in range(3 - len(questions))]` builds, and
    concatenation stands for `extend`.
  - The display steps of the button handler: `ShowSources` (`sources[:3]` as
    `"title: url"` lines), `ShowFollowUps` (the `lstrip("1234567890. ").strip()`
    cleanup) and `HandleGetAnswer`, which wires them together.

Some behaviours of the code are worth stating explicitly:

- The numbering cleanup happens only at display time (app.py:112), not inside
  `generate_follow_up_questions`.
- The displayed follow-ups can still start with a digit.
  `CleanNumberingStopsAtTab` shows `"1.\t2. X"` becoming `"2. X"`.
- A displayed follow-up can be empty. `CleanNumberingOfBareNumber` shows `"2."`
  becoming `""`.
- The cleanup also removes digits that belong to the question
  (`CleanNumberingEatsLeadingNumber`).
- Both calls use the one model `mixtral-8x7b-32768`, and the answer prompt has
  one template (app.py:40).

## Model

| member | source | states |
|---|---|---|
| `PyText.LStripIsLongestSuffix` | app.py:112 | `lstrip` returns a suffix of its input; every character it removed is one to strip; the kept part does not start with one |
| `PyText.LStrip` | app.py:112 | `s.lstrip(chars)` returns a string no longer than `s` |
| `PyText.RStrip` | app.py:73-74 | `s.rstrip()` returns a string no longer than `s` |
| `PyText.IsSpace` | app.py:73-74 | the characters `strip()` removes: Python's `str.isspace()` set, written as ranges |
| `PyText.IsSpaceIsPythonWhitespace` | app.py:73-74 | the whitespace predicate `IsSpace` holds for exactly the 29 characters of Python's `str.isspace()`, listed one by one in `PythonWhitespace` |
| `PyText.RStripIsLongestPrefix` | app.py:73 | `rstrip` returns a prefix of its input; every character it removed is one to strip; the kept part does not end with one |
| `PyText.LStripSkipsPrefix` | app.py:112 | a prefix made only of characters to strip does not change the result of `lstrip` |
| `PyText.Strip` | app.py:73-74 | `strip()` returns a string with no leading or trailing whitespace, no longer than its input; the result is empty exactly when the input is all whitespace; an already stripped string comes back unchanged |
| `PyText.StripSkipsLeadingSpace` | app.py:112 | whitespace in front of a stripped string is exactly what `strip()` removes |
| `PyText.StripConsSpace` | app.py:73-74 | one leading whitespace character does not change `strip()` |
| `PyText.StripSnocSpace` | app.py:73-74 | one trailing whitespace character does not change `strip()` |
| `PyText.Split` | app.py:74 | `split("\n")` gives at least one piece, and no piece contains the separator |
| `PyText.SplitCount` | app.py:74 | `split` gives one more piece than there are separators |
| `PyText.SplitSnocSeparator` | app.py:74 | a separator at the end adds one empty piece |
| `PyText.SplitSnocOther` | app.py:74 | any other character at the end extends the last piece |
| `PyText.JoinSplit` | app.py:74 | joining the pieces of `split(sep)` with `sep` gives the original string back |
| `PyText.SplitJoin` | app.py:74 | splitting a join of separator-free parts gives the parts back |
| `PyText.JoinAppend` | app.py:31 | `" ".join` builds its result left to right: one more part appends the separator and that part |
| `PyText.JoinEndsWithLast` | app.py:31 | a join ends with its last part |
| `PyText.Join` | app.py:31 | `sep.join(parts)` starts with the first part |
| `PyText.Take` | app.py:78 | `xs[:n]` has `min(n, len(xs))` elements, and they are the first elements of `xs` in order |
| `App.Sources` | app.py:33-37 | no listed source has a URL in `EXCLUDED_URLS`, and there are no more sources than results |
| `App.SourcesMembers` | app.py:33-37 | a source is listed exactly when some result with a URL that is not excluded projects to it as `(title, url)` |
| `App.SourcesAppend` | app.py:33-37 | filtering distributes over concatenation, so the sources keep the order of the results |
| `App.SourcesOfOne` | app.py:33-37 | one result gives `(title, url)` unless its URL is excluded, and nothing otherwise |
| `App.SourcesKeepAll` | app.py:33-37 | when no URL is excluded, the sources are all the results in order, each as `(title, url)` |
| `App.ContextOfNone` | app.py:31 | no results give the empty context |
| `App.ContextOfOne` | app.py:31 | one result gives its content unchanged as the context |
| `App.ContextAppend` | app.py:31 | one more result appends a single space and its content to the context |
| `App.Context` | app.py:31 | the context starts with the content of the first result |
| `App.Contents` | app.py:31 | one content per result, each the result's content, in order |
| `App.ToSource` | app.py:34 | a source keeps the result's title and URL |
| `App.ExcludedUrls` | app.py:17-20 | the two excluded URLs, verbatim |
| `App.SourcesOfExcluded` | app.py:33-37 | results whose URLs are all in `EXCLUDED_URLS` give no sources |
| `App.AnswerPrompt` | app.py:40 | the prompt is the fixed lead, then the question verbatim, then `"\n\nContext: "`, then the context verbatim, at those positions |
| `App.GetAiResponse` | app.py:23-52 | a search failure gives `("Error: " + msg, [])`. After a successful search, the model is asked exactly `"Based on the following context, answer the question: " + q + "\n\nContext: " + context` with the fixed model, system message and 500-token cap. Its failure gives `("Error: " + msg, [])`; its reply is returned verbatim with the filtered sources. No returned source has an excluded URL |
| `App.AnswerExample` | app.py:23-52 | one result `France / https://a` and a reply `"Paris is the capital of France."` give that reply and the single source |
| `App.ErrorTextIsAmbiguous` | app.py:49-52 | a reply that reads `"Error: m"` over results whose URLs are all excluded (or no results) gives the same pair as a failed call with message `m` |
| `App.StrippedNonEmpty` | app.py:74 | every kept line is non-empty and has no leading or trailing whitespace; no more lines come out than went in |
| `App.StrippedNonEmptyMembers` | app.py:74 | a string is kept exactly when it is non-empty and some line strips to it |
| `App.StrippedNonEmptyAppend` | app.py:74 | the line filter distributes over concatenation, so the kept lines stay in order |
| `App.StrippedNonEmptyOfOne` | app.py:74 | a blank line contributes nothing; any other line contributes itself, stripped |
| `App.StrippedNonEmptyKeepsClean` | app.py:74 | lines that are already non-empty and stripped pass through unchanged |
| `App.ParseLines` | app.py:73-74 | every parsed line is non-empty and has no leading or trailing whitespace |
| `App.ParsedLinesIgnoreLeadingSpace` | app.py:73-74 | a leading whitespace character in the reply does not change the parsed lines |
| `App.ParsedLinesIgnoreTrailingSpace` | app.py:73-74 | a trailing whitespace character in the reply does not change the parsed lines |
| `App.ParsedLinesIgnoreLStrip` | app.py:73-74 | stripping leading whitespace from the reply does not change the parsed lines |
| `App.StrippedNonEmptyExtendLast` | app.py:74 | a whitespace character added to the last line does not change the kept lines |
| `App.ParsedLinesIgnoreRStrip` | app.py:73-74 | stripping trailing whitespace from the reply does not change the parsed lines |
| `App.OuterStripIsRedundant` | app.py:73-74 | the `strip()` of the whole reply before the split never changes the list of parsed lines |
| `App.ParseCleanLines` | app.py:73-74 | a reply made of clean, newline-free lines joined by `"\n"` parses back into exactly those lines |
| `App.ParseNumberedList` | app.py:73-74 | `"1. Why?\n2. How?\n3. When?"` parses into its three lines |
| `App.Padded` | app.py:76-77 | a list shorter than three is filled up to exactly three with the padding question after the original entries; a longer list is unchanged |
| `App.Repeat` | app.py:77 | `[x for _ in range(n)]` has `n` entries, all equal to `x` |
| `App.FollowUpPrompt` | app.py:58-63 | the follow-up prompt has the question and the answer verbatim, at fixed positions between the fixed texts |
| `App.FollowUpPromptFrame` | app.py:58-63 | the fixed texts of the prompt sit at its start, between the question and the answer, and at its end |
| `App.FollowUpRequest` | app.py:64-71 | the follow-up request uses model `mixtral-8x7b-32768`, the fixed system message, the follow-up prompt and a cap of 150 tokens |
| `App.MoreAbout` | app.py:77 | the padding question is `"What else can you tell me about "`, the question, then `"?"`; it is non-empty and stripped |
| `App.FallbackQuestions` | app.py:81-85 | there are three fallback questions, the first is the padding question, and each is non-empty and stripped |
| `App.PadQuestions` | app.py:76-77 | the padding loop builds exactly the padded list |
| `App.FollowUps` | app.py:55-85 | there are always exactly three follow-ups; a failed call gives exactly `"What else can you tell me about {q}?"`, `"Why is {q} significant?"`, `"How does {q} affect us?"` in that order |
| `App.GenerateFollowUpQuestions` | app.py:55-85 | the method, with its padding loop, returns exactly what `FollowUps` specifies |
| `App.FollowUpsFromReply` | app.py:73-78 | on a reply with k parsed lines, the first `min(3, k)` follow-ups are those lines in order, and every remaining slot is `"What else can you tell me about {q}?"` |
| `App.FollowUpsAreClean` | app.py:73-85 | whatever the service does, each of the three follow-ups is non-empty and has no leading or trailing whitespace |
| `App.FollowUpsOfNumberedReply` | app.py:73-78 | the reply `"1. Why?\n2. How?\n3. When?"` gives those three lines as the follow-ups |
| `App.CleanNumbering` | app.py:112 | the cleaned follow-up has no leading or trailing whitespace and is no longer than the original |
| `App.IsNumberingChar` | app.py:112 | the characters `lstrip("1234567890. ")` removes: the digits, the dot and the space |
| `App.IsNumberingCharIsListed` | app.py:112 | the numbering predicate `IsNumberingChar` holds for exactly the characters of `"1234567890. "` |
| `App.CleanNumberingDropsMarker` | app.py:112 | a leading run of digits, dots and spaces is removed in full, and a stripped text after it that does not start with one of those characters is kept unchanged |
| `App.CleanNumberingKeeps` | app.py:112 | a stripped string whose first character is not a digit, `.` or space is left unchanged |
| `App.CleanNumberingKeepsFallbacks` | app.py:112 | the three fallback questions are displayed exactly as generated, whatever the query |
| `App.CleanNumberingOfNumberedItem` | app.py:112 | `"1. Why?"` is displayed as `"Why?"` |
| `App.CleanNumberedItems` | app.py:112 | `"1. Why?"`, `"2. How?"` and `"3. When?"` are displayed as `"Why?"`, `"How?"` and `"When?"` |
| `App.CleanNumberingStopsAtTab` | app.py:112 | `"1.\t2. X"` becomes `"2. X"`: `lstrip` stops at the tab, then `strip` removes it |
| `App.CleanNumberingNotIdempotent` | app.py:112 | a second cleanup pass turns `"2. X"` into `"X"`, so the cleanup is not idempotent |
| `App.CleanNumberingOfBareNumber` | app.py:112 | a line holding only `"2."` is displayed as an empty line |
| `App.CleanNumberingEatsLeadingNumber` | app.py:112 | `"1. 5G or 4G?"` is displayed as `"G or 4G?"` |
| `App.ShowSources` | app.py:98-104 | the source lines are `"title: url"` for the first `min(3, len(sources))` sources, in order |
| `App.SourceLine` | app.py:104 | a source line is the title, then `": "`, then the URL |
| `App.ShowFollowUps` | app.py:110-113 | one cleaned line per follow-up, in order |
| `App.HandleGetAnswer` | app.py:93-113 | for a non-empty query, the page shows the answer text, the first three sources as lines and the three cleaned follow-ups. The follow-ups are generated from the answer text, even when that text is an error |

## Left out

- Streamlit: the title, text inputs, button, spinners, subheaders and error
  messages (app.py:6-14, 88-92, 94, 96, 101, 109, 115-116) are not modelled. The
  display loops return the text they would write.
- The API-key checks at app.py:89-90 are left out because the keys reach only the
  services. They appear only inside `SearchService` and `ChatService`. The
  question check at app.py:91 is the precondition `query != []` of
  `HandleGetAnswer`.
- Building the Tavily and Groq clients and the HTTP calls themselves are not
  modelled. They are outside the app's code. Their results are the service
  parameters.
- GetAiResponse: when building the Groq client fails and the search would fail
  too, the real code reports the client error, because app.py:27 runs before
  app.py:30. The model reports the search error in that case. When the search
  would succeed, a failed client build appears as a chat `Fail` with the same
  message, so the two agree.
- GetAiResponse: a completion whose content is `None` makes the Python code
  return `None` as the answer. The model has no such value: a chat outcome is a
  string or `Fail`.
- The exact exception types and the text of `str(e)` are abstracted into the
  message of `Fail(msg)`.
- The services' behaviour is not restricted. In particular, the model does not
  assume a search returns at most five results. The cap is only passed on.
- The follow-up prompt (app.py:58-63) is kept as string constants and is only
  passed to the chat service.
- Updating the `questions` list in place is modelled on sequence values. No
  other code can see the list, so no aliasing is lost.
