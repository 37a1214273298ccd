/**
 The search assistant of app.py with its two hosted services replaced by
 function parameters: a search service that maps a query and a result cap to
 an ordered list of results, and a chat-completion service that maps a request
 to the text of its first completion. Every way either call can fail (a
 transport error, a bad key, a malformed payload) is one `Fail(msg)`.
 */
module App {
  import opened PyText

  datatype SearchResult = SearchResult(title: string, url: string, content: string)

  /** What the answer lists for each search result it keeps. */
  datatype Source = Source(title: string, url: string)

  /** What an external call produced: a value, or the text of the exception. */
  datatype Outcome<T> = Ok(value: T) | Fail(msg: string)

  /** A chat-completion request: a system turn, one user turn, a token cap. */
  datatype ChatRequest = ChatRequest(model: string, system: string, prompt: string, maxTokens: nat)

  /** The pair `get_ai_response` returns. */
  datatype Answer = Answer(text: string, sources: seq<Source>)

  type SearchService = (string, nat) -> Outcome<seq<SearchResult>>
  type ChatService = ChatRequest -> Outcome<string>

  /** Results whose URL is one of these are never listed as sources. */
  const ExcludedUrls: seq<string> := [
    "https://www2.deloitte.com/us/en/insights/economy/asia-pacific/india-economic-outlook.html",
    "https://www.ibef.org/economy/indian-economy-overview"
  ]

  const MaxResults: nat := 5
  const ChatModel: string := "mixtral-8x7b-32768"
  const SystemMessage: string := "You are a helpful AI assistant."
  const AnswerMaxTokens: nat := 500
  const FollowUpMaxTokens: nat := 150
  const FollowUpCount: nat := 3
  const DisplayedSources: nat := 3

  const AnswerLead: string := "Based on the following context, answer the question: "
  const ContextLabel: string := "\n\nContext: "
  const ErrorPrefix: string := "Error: "

  /** The characters `lstrip` removes when the page cleans up list numbering. */
  predicate IsNumberingChar(c: char) {
    '0' <= c <= '9' || c == '.' || c == ' '
  }

  /** The ranges above are exactly the characters of `"1234567890. "`. */
  lemma IsNumberingCharIsListed(c: char)
    ensures IsNumberingChar(c) <==> c in "1234567890. "
  {
  }

  // ---------------------------------------------------------------------------
  // Answer shaping (get_ai_response)
  // ---------------------------------------------------------------------------

  function Contents(results: seq<SearchResult>): (r: seq<string>)
    ensures |r| == |results|
    ensures forall i :: 0 <= i < |r| ==> r[i] == results[i].content
  {
    seq(|results|, i requires 0 <= i < |results| => results[i].content)
  }

  /** The context handed to the model: every result's content, in order,
      separated by one space. */
  function Context(results: seq<SearchResult>): (r: string)
    ensures |results| > 0 ==> results[0].content <= r
  {
    Join(Contents(results), " ")
  }

  function ToSource(result: SearchResult): (s: Source)
    ensures s.title == result.title && s.url == result.url
  {
    Source(result.title, result.url)
  }

  /** The results whose URL is not excluded, in order, without their content.
      No listed source has an excluded URL. */
  function Sources(results: seq<SearchResult>): (r: seq<Source>)
    ensures |r| <= |results|
    ensures forall j :: 0 <= j < |r| ==> r[j].url !in ExcludedUrls
    decreases |results|
  {
    if results == [] then []
    else
      (if results[0].url in ExcludedUrls then [] else [ToSource(results[0])]) + Sources(results[1..])
  }

  /** Results whose URLs are all excluded give no sources at all. */
  lemma {:induction false} SourcesOfExcluded(results: seq<SearchResult>)
    requires forall i :: 0 <= i < |results| ==> results[i].url in ExcludedUrls
    ensures Sources(results) == []
    decreases |results|
  {
    if results != [] {
      assert forall i :: 0 <= i < |results[1..]| ==> results[1..][i] == results[i + 1];
      SourcesOfExcluded(results[1..]);
    }
  }

  /** A source is listed exactly when some result whose URL is not excluded
      projects to it. */
  lemma {:induction false} SourcesMembers(results: seq<SearchResult>)
    ensures forall x :: x in Sources(results) <==>
      exists i :: 0 <= i < |results| && results[i].url !in ExcludedUrls && x == ToSource(results[i])
    decreases |results|
  {
    if results != [] {
      SourcesMembers(results[1..]);
      assert forall i :: 1 <= i < |results| ==> results[i] == results[1..][i - 1];
    }
  }

  /** The prompt for the answer: the fixed lead, the question, the context
      label and the context, so that question and context stand verbatim at
      known positions. */
  function AnswerPrompt(query: string, context: string): (p: string)
    ensures |p| == |AnswerLead| + |query| + |ContextLabel| + |context|
    ensures p[..|AnswerLead|] == AnswerLead
    ensures p[|AnswerLead|..|AnswerLead| + |query|] == query
    ensures p[|AnswerLead| + |query|..|p| - |context|] == ContextLabel
    ensures p[|p| - |context|..] == context
  {
    AnswerLead + query + ContextLabel + context
  }

  /** `get_ai_response`: search, build the context and the source list, ask
      the model, and fold any failure into an `"Error: "` answer with no
      sources. */
  function GetAiResponse(query: string, search: SearchService, chat: ChatService): (r: Answer)
    ensures search(query, MaxResults).Fail? ==>
      r == Answer("Error: " + search(query, MaxResults).msg, [])
    ensures search(query, MaxResults).Ok? ==>
      var results := search(query, MaxResults).value;
      var reply := chat(ChatRequest(ChatModel, SystemMessage,
                                    "Based on the following context, answer the question: " + query
                                    + "\n\nContext: " + Context(results), AnswerMaxTokens));
      r == (if reply.Ok? then Answer(reply.value, Sources(results))
            else Answer("Error: " + reply.msg, []))
    ensures forall j :: 0 <= j < |r.sources| ==> r.sources[j].url !in ExcludedUrls
  {
    match search(query, MaxResults)
    case Fail(msg) => Answer(ErrorPrefix + msg, [])
    case Ok(results) =>
      var context := Context(results);
      var sources := Sources(results);
      var prompt := AnswerPrompt(query, context);
      match chat(ChatRequest(ChatModel, SystemMessage, prompt, AnswerMaxTokens))
      case Fail(msg) => Answer(ErrorPrefix + msg, [])
      case Ok(text) => Answer(text, sources)
  }

  lemma ContextOfNone()
    ensures Context([]) == ""
  {
  }

  lemma ContextOfOne(result: SearchResult)
    ensures Context([result]) == result.content
  {
  }

  /** The context grows left to right: one more result appends a space and
      its content. */
  lemma ContextAppend(results: seq<SearchResult>, last: SearchResult)
    requires |results| > 0
    ensures Context(results + [last]) == Context(results) + " " + last.content
  {
    assert Contents(results + [last]) == Contents(results) + [last.content];
    JoinAppend(Contents(results), last.content, " ");
  }

  /** Filtering distributes over concatenation, so the source list keeps the
      order of the results it comes from. */
  lemma {:induction false} SourcesAppend(a: seq<SearchResult>, b: seq<SearchResult>)
    ensures Sources(a + b) == Sources(a) + Sources(b)
    decreases |a|
  {
    if a == [] {
      assert a + b == b;
    } else {
      assert (a + b)[0] == a[0] && (a + b)[1..] == a[1..] + b;
      SourcesAppend(a[1..], b);
    }
  }

  /** One result contributes its projection, unless its URL is excluded. */
  lemma SourcesOfOne(result: SearchResult)
    ensures Sources([result]) == if result.url in ExcludedUrls then [] else [ToSource(result)]
  {
  }

  /** When no URL is excluded, every result is listed, in order. */
  lemma {:induction false} SourcesKeepAll(results: seq<SearchResult>)
    requires forall i :: 0 <= i < |results| ==> results[i].url !in ExcludedUrls
    ensures |Sources(results)| == |results|
    ensures forall i :: 0 <= i < |results| ==> Sources(results)[i] == ToSource(results[i])
    decreases |results|
  {
    if results != [] {
      SourcesKeepAll(results[1..]);
    }
  }

  // ---------------------------------------------------------------------------
  // Follow-up questions (generate_follow_up_questions)
  // ---------------------------------------------------------------------------

  const FollowUpInstruction: string := "Given the following question and answer, generate exactly three concise follow-up questions that a user might ask to explore the topic further.\n\n"
  const QuestionLabel: string := "Original Question: "
  const AnswerLabel: string := "\nAnswer: "
  const FollowUpFormat: string := "\n\nProvide the questions in a numbered list (1., 2., 3.). Do not include any additional text or explanations."

  /** The follow-up prompt carries the question and the answer verbatim, at
      fixed positions between the fixed texts. */
  function FollowUpPrompt(query: string, answer: string): (p: string)
    ensures |p| == |FollowUpInstruction| + |QuestionLabel| + |query| + |AnswerLabel| + |answer| + |FollowUpFormat|
    ensures p[|FollowUpInstruction| + |QuestionLabel|..|FollowUpInstruction| + |QuestionLabel| + |query|] == query
    ensures p[|p| - |FollowUpFormat| - |answer|..|p| - |FollowUpFormat|] == answer
  {
    FollowUpInstruction + QuestionLabel + query + AnswerLabel + answer + FollowUpFormat
  }

  /** The fixed texts around the question and the answer. */
  lemma FollowUpPromptFrame(query: string, answer: string)
    ensures var p, head := FollowUpPrompt(query, answer), |FollowUpInstruction| + |QuestionLabel|;
      && p[..|FollowUpInstruction|] == FollowUpInstruction
      && p[|FollowUpInstruction|..head] == QuestionLabel
      && p[head + |query|..head + |query| + |AnswerLabel|] == AnswerLabel
      && p[|p| - |FollowUpFormat|..] == FollowUpFormat
  {
  }

  function FollowUpRequest(query: string, answer: string): (request: ChatRequest)
    ensures request.model == ChatModel && request.system == SystemMessage
    ensures request.prompt == FollowUpPrompt(query, answer) && request.maxTokens == 150
  {
    ChatRequest(ChatModel, SystemMessage, FollowUpPrompt(query, answer), FollowUpMaxTokens)
  }

  /** The question used to pad a short list, and the first fallback. */
  const MoreAboutLead: string := "What else can you tell me about "

  function MoreAbout(query: string): (q: string)
    ensures |q| == |MoreAboutLead| + |query| + 1 && IsStripped(q)
    ensures q[..|MoreAboutLead|] == MoreAboutLead
    ensures q[|MoreAboutLead|..|q| - 1] == query
    ensures q[|q| - 1] == '?'
  {
    MoreAboutLead + query + "?"
  }

  /** The three questions returned when the model cannot be asked. */
  function FallbackQuestions(query: string): (qs: seq<string>)
    ensures |qs| == FollowUpCount && qs[0] == MoreAbout(query)
    ensures forall i :: 0 <= i < |qs| ==> qs[i] != [] && IsStripped(qs[i])
  {
    [MoreAbout(query), "Why is " + query + " significant?", "How does " + query + " affect us?"]
  }

  /** Each line stripped, with the lines that strip to nothing dropped. Every
      kept line is non-empty and stripped. */
  function StrippedNonEmpty(lines: seq<string>): (r: seq<string>)
    ensures |r| <= |lines|
    ensures forall j :: 0 <= j < |r| ==> r[j] != [] && IsStripped(r[j])
    decreases |lines|
  {
    if lines == [] then []
    else
      var line := Strip(lines[0]);
      (if line == [] then [] else [line]) + StrippedNonEmpty(lines[1..])
  }

  /** A string is kept exactly when it is what some line strips to, and is
      not empty. */
  lemma {:induction false} StrippedNonEmptyMembers(lines: seq<string>)
    ensures forall x :: x in StrippedNonEmpty(lines) <==>
      exists i :: 0 <= i < |lines| && Strip(lines[i]) == x && x != []
    decreases |lines|
  {
    if lines != [] {
      StrippedNonEmptyMembers(lines[1..]);
      assert forall i :: 1 <= i < |lines| ==> lines[i] == lines[1..][i - 1];
    }
  }

  /** `[q.strip() for q in text.strip().split("\n") if q.strip()]` */
  function ParseLines(text: string): (r: seq<string>)
    ensures forall j :: 0 <= j < |r| ==> r[j] != [] && IsStripped(r[j])
  {
    StrippedNonEmpty(Split(Strip(text), '\n'))
  }

  /** `questions` after the `extend` of app.py:76-77: a list shorter than
      three is filled up with `filler` to three; a longer one is unchanged. */
  function Padded(questions: seq<string>, filler: string): (r: seq<string>)
    ensures |r| == if |questions| < FollowUpCount then FollowUpCount else |questions|
    ensures r[..|questions|] == questions
    ensures forall i :: |questions| <= i < |r| ==> r[i] == filler
  {
    if |questions| < FollowUpCount then questions + Repeat(filler, FollowUpCount - |questions|)
    else questions
  }

  /** `[x for _ in range(n)]` */
  function Repeat(x: string, n: nat): (r: seq<string>)
    ensures |r| == n
    ensures forall i :: 0 <= i < n ==> r[i] == x
  {
    seq(n, _ => x)
  }

  /** What `generate_follow_up_questions` returns: three questions, from the
      model's reply when there is one and the fixed fallback otherwise. */
  function FollowUps(query: string, answer: string, chat: ChatService): (r: seq<string>)
    ensures |r| == FollowUpCount
    ensures chat(FollowUpRequest(query, answer)).Fail? ==>
      r == ["What else can you tell me about " + query + "?",
            "Why is " + query + " significant?",
            "How does " + query + " affect us?"]
  {
    match chat(FollowUpRequest(query, answer))
    case Fail(_) => FallbackQuestions(query)
    case Ok(text) => Take(Padded(ParseLines(text), MoreAbout(query)), FollowUpCount)
  }

  /** The padding step as the source performs it: build the missing copies of
      the filler one at a time, then extend the list with them. */
  method PadQuestions(questions: seq<string>, filler: string) returns (padded: seq<string>)
    ensures padded == Padded(questions, filler)
  {
    padded := questions;
    if |padded| < FollowUpCount {
      var missing := FollowUpCount - |padded|;
      var extra: seq<string> := [];
      while |extra| < missing
        invariant |extra| <= missing
        invariant forall i :: 0 <= i < |extra| ==> extra[i] == filler
      {
        extra := extra + [filler];
      }
      padded := padded + extra;
    }
  }

  /** `generate_follow_up_questions` with the chat service as a parameter. */
  method GenerateFollowUpQuestions(query: string, answer: string, chat: ChatService)
    returns (questions: seq<string>)
    ensures questions == FollowUps(query, answer, chat)
  {
    var reply := chat(FollowUpRequest(query, answer));
    match reply {
      case Fail(_) =>
        questions := FallbackQuestions(query);
      case Ok(text) =>
        questions := ParseLines(text);
        if |questions| < FollowUpCount {
          questions := PadQuestions(questions, MoreAbout(query));
        }
        questions := Take(questions, FollowUpCount);
    }
  }

  /** On a reply, the follow-ups are the first lines of the reply that are
      not blank, stripped and in order, up to three, and any slot left over
      holds the padding question. */
  lemma FollowUpsFromReply(query: string, answer: string, chat: ChatService)
    requires chat(FollowUpRequest(query, answer)).Ok?
    ensures var lines := ParseLines(chat(FollowUpRequest(query, answer)).value);
            var k := if |lines| < FollowUpCount then |lines| else FollowUpCount;
            && FollowUps(query, answer, chat)[..k] == lines[..k]
            && forall i :: k <= i < FollowUpCount ==> FollowUps(query, answer, chat)[i] == MoreAbout(query)
  {
    var lines := ParseLines(chat(FollowUpRequest(query, answer)).value);
    var padded := Padded(lines, MoreAbout(query));
    var k := if |lines| < FollowUpCount then |lines| else FollowUpCount;
    var r := FollowUps(query, answer, chat);
    assert r == Take(padded, FollowUpCount);
    assert forall i :: 0 <= i < k ==> r[i] == padded[i] == lines[i];
  }

  /** Whatever the service does, each of the three follow-ups is non-empty
      and carries no leading or trailing whitespace. */
  lemma FollowUpsAreClean(query: string, answer: string, chat: ChatService)
    ensures forall i :: 0 <= i < FollowUpCount ==>
      FollowUps(query, answer, chat)[i] != [] && IsStripped(FollowUps(query, answer, chat)[i])
  {
    var r := FollowUps(query, answer, chat);
    var filler := MoreAbout(query);
    assert filler[0] == 'W' && filler[|filler| - 1] == '?';
    if chat(FollowUpRequest(query, answer)).Ok? {
      FollowUpsFromReply(query, answer, chat);
    } else {
      var why := "Why is " + query + " significant?";
      var how := "How does " + query + " affect us?";
      assert why[0] == 'W' && why[|why| - 1] == '?';
      assert how[0] == 'H' && how[|how| - 1] == '?';
    }
  }

  /** Parsing keeps the order of the lines: it distributes over concatenation. */
  lemma {:induction false} StrippedNonEmptyAppend(a: seq<string>, b: seq<string>)
    ensures StrippedNonEmpty(a + b) == StrippedNonEmpty(a) + StrippedNonEmpty(b)
    decreases |a|
  {
    if a == [] {
      assert a + b == b;
    } else {
      assert (a + b)[0] == a[0] && (a + b)[1..] == a[1..] + b;
      StrippedNonEmptyAppend(a[1..], b);
    }
  }

  /** A blank line contributes nothing; any other line contributes itself,
      stripped. */
  lemma StrippedNonEmptyOfOne(line: string)
    ensures StrippedNonEmpty([line]) == if AllWhitespace(line) then [] else [Strip(line)]
  {
  }

  /** Leading whitespace in the reply never changes the parsed lines. */
  lemma ParsedLinesIgnoreLeadingSpace(text: string)
    requires |text| > 0 && IsSpace(text[0])
    ensures StrippedNonEmpty(Split(text, '\n')) == StrippedNonEmpty(Split(text[1..], '\n'))
  {
    var c, pieces := text[0], Split(text[1..], '\n');
    if c != '\n' {
      assert text == [c] + text[1..];
      StripConsSpace(c, pieces[0]);
      assert pieces == [pieces[0]] + pieces[1..];
      StrippedNonEmptyAppend([pieces[0]], pieces[1..]);
      StrippedNonEmptyAppend([[c] + pieces[0]], pieces[1..]);
    }
  }

  /** Trailing whitespace in the reply never changes the parsed lines. */
  lemma ParsedLinesIgnoreTrailingSpace(text: string, c: char)
    requires IsSpace(c)
    ensures StrippedNonEmpty(Split(text + [c], '\n')) == StrippedNonEmpty(Split(text, '\n'))
  {
    var pieces := Split(text, '\n');
    if c == '\n' {
      SplitSnocSeparator(text, '\n');
      StrippedNonEmptyAppend(pieces, [[]]);
    } else {
      SplitSnocOther(text, c, '\n');
      var init, last := pieces[..|pieces| - 1], pieces[|pieces| - 1];
      assert pieces == init + [last];
      StrippedNonEmptyExtendLast(init, last, c);
    }
  }

  /** A whitespace character added to the last line changes nothing. */
  lemma StrippedNonEmptyExtendLast(init: seq<string>, last: string, c: char)
    requires IsSpace(c)
    ensures StrippedNonEmpty(init + [last + [c]]) == StrippedNonEmpty(init + [last])
  {
    StripSnocSpace(last, c);
    StrippedNonEmptyAppend(init, [last]);
    StrippedNonEmptyAppend(init, [last + [c]]);
  }

  lemma {:induction false} ParsedLinesIgnoreLStrip(text: string)
    ensures StrippedNonEmpty(Split(LStrip(text, IsSpace), '\n')) == StrippedNonEmpty(Split(text, '\n'))
    decreases |text|
  {
    if |text| > 0 && IsSpace(text[0]) {
      assert LStrip(text, IsSpace) == LStrip(text[1..], IsSpace);
      ParsedLinesIgnoreLStrip(text[1..]);
      ParsedLinesIgnoreLeadingSpace(text);
    }
  }

  lemma {:induction false} ParsedLinesIgnoreRStrip(text: string)
    ensures StrippedNonEmpty(Split(RStrip(text, IsSpace), '\n')) == StrippedNonEmpty(Split(text, '\n'))
    decreases |text|
  {
    if |text| > 0 && IsSpace(text[|text| - 1]) {
      var init := text[..|text| - 1];
      ParsedLinesIgnoreRStrip(init);
      assert text == init + [text[|text| - 1]];
      ParsedLinesIgnoreTrailingSpace(init, text[|text| - 1]);
    }
  }

  /** The `strip()` applied to the whole reply before splitting it is
      redundant: stripping every line and dropping the blank ones already
      removes whatever it removes. */
  lemma OuterStripIsRedundant(text: string)
    ensures ParseLines(text) == StrippedNonEmpty(Split(text, '\n'))
  {
    ParsedLinesIgnoreRStrip(LStrip(text, IsSpace));
    ParsedLinesIgnoreLStrip(text);
  }

  /** Lines that are already non-empty and stripped pass through unchanged. */
  lemma {:induction false} StrippedNonEmptyKeepsClean(lines: seq<string>)
    requires forall i :: 0 <= i < |lines| ==> lines[i] != [] && IsStripped(lines[i])
    ensures StrippedNonEmpty(lines) == lines
    decreases |lines|
  {
    if lines != [] {
      StrippedNonEmptyKeepsClean(lines[1..]);
      assert lines == [lines[0]] + lines[1..];
    }
  }

  /** A reply made of clean lines, one per line, parses back into exactly
      those lines. */
  lemma ParseCleanLines(items: seq<string>)
    requires |items| > 0
    requires forall i :: 0 <= i < |items| ==> items[i] != [] && IsStripped(items[i]) && '\n' !in items[i]
    ensures ParseLines(Join(items, "\n")) == items
  {
    var text := Join(items, "\n");
    var last := items[|items| - 1];
    JoinEndsWithLast(items, "\n");
    assert text[0] == items[0][0];
    assert text[|text| - 1] == last[|last| - 1];
    SplitJoin(items, '\n');
    StrippedNonEmptyKeepsClean(items);
  }

  /** A reply in the numbered format the follow-up prompt asks for (1., 2., 3.)
      parses into its three items. */
  lemma ParseNumberedList()
    ensures ParseLines("1. Why?\n2. How?\n3. When?") == ["1. Why?", "2. How?", "3. When?"]
  {
    var items := ["1. Why?", "2. How?", "3. When?"];
    assert Join(items, "\n") == "1. Why?\n2. How?\n3. When?";
    ParseCleanLines(items);
  }

  // ---------------------------------------------------------------------------
  // Display shaping (the button handler)
  // ---------------------------------------------------------------------------

  /** `follow_up.lstrip("1234567890. ").strip()` */
  function CleanNumbering(s: string): (r: string)
    ensures IsStripped(r)
    ensures |r| <= |s|
  {
    Strip(LStrip(s, IsNumberingChar))
  }

  function SourceLine(source: Source): (line: string)
    ensures |line| == |source.title| + 2 + |source.url|
    ensures line[..|source.title|] == source.title
    ensures line[|source.title|..|source.title| + 2] == ": "
    ensures line[|source.title| + 2..] == source.url
  {
    source.title + ": " + source.url
  }

  /** The lines written under "Sources:": one `"title: url"` line for each of
      the first three sources. */
  method ShowSources(sources: seq<Source>) returns (lines: seq<string>)
    ensures |lines| == if |sources| < DisplayedSources then |sources| else DisplayedSources
    ensures forall i :: 0 <= i < |lines| ==> lines[i] == SourceLine(sources[i])
  {
    var limited := Take(sources, DisplayedSources);
    lines := [];
    for i := 0 to |limited|
      invariant |lines| == i
      invariant forall j :: 0 <= j < i ==> lines[j] == SourceLine(limited[j])
    {
      lines := lines + [SourceLine(limited[i])];
    }
  }

  /** The lines written under "Follow-Up Questions:": each follow-up with its
      numbering cleaned off, in order. */
  method ShowFollowUps(followUps: seq<string>) returns (lines: seq<string>)
    ensures |lines| == |followUps|
    ensures forall i :: 0 <= i < |lines| ==> lines[i] == CleanNumbering(followUps[i])
  {
    lines := [];
    for i := 0 to |followUps|
      invariant |lines| == i
      invariant forall j :: 0 <= j < i ==> lines[j] == CleanNumbering(followUps[j])
    {
      lines := lines + [CleanNumbering(followUps[i])];
    }
  }

  /** What one press of "Get Answer" puts on the page once the inputs are
      present: the answer text, the source lines and the cleaned follow-ups. */
  datatype Page = Page(answer: string, sourceLines: seq<string>, followUpLines: seq<string>)

  /** The body of the button handler (app.py:95-113), with the widgets
      replaced by the lines they would show. The follow-ups are generated
      from the answer text even when that text is an error. */
  method HandleGetAnswer(query: string, search: SearchService, chat: ChatService)
    returns (page: Page)
    requires query != []
    ensures var response := GetAiResponse(query, search, chat);
            var followUps := FollowUps(query, response.text, chat);
            && page.answer == response.text
            && |page.sourceLines| == (if |response.sources| < DisplayedSources then |response.sources| else DisplayedSources)
            && (forall i :: 0 <= i < |page.sourceLines| ==> page.sourceLines[i] == SourceLine(response.sources[i]))
            && |page.followUpLines| == FollowUpCount
            && (forall i :: 0 <= i < FollowUpCount ==> page.followUpLines[i] == CleanNumbering(followUps[i]))
  {
    var response := GetAiResponse(query, search, chat);
    var sourceLines := ShowSources(response.sources);
    var followUps := GenerateFollowUpQuestions(query, response.text, chat);
    var followUpLines := ShowFollowUps(followUps);
    page := Page(response.text, sourceLines, followUpLines);
  }

  /** The worked example: one search result and a plain reply give that reply
      and the one source. */
  lemma AnswerExample(search: SearchService, chat: ChatService)
    requires search("What is the capital of France?", MaxResults)
             == Ok([SearchResult("France", "https://a", "Paris is the capital.")])
    requires forall request :: chat(request) == Ok("Paris is the capital of France.")
    ensures GetAiResponse("What is the capital of France?", search, chat)
            == Answer("Paris is the capital of France.", [Source("France", "https://a")])
  {
    assert "https://a" != ExcludedUrls[0] && "https://a" != ExcludedUrls[1];
  }

  /** An answer text cannot tell a failure from a reply that reads like one:
      a model that answers "Error: m" over results that are all excluded
      (none at all included) gives the same pair as a failed call with
      message m. */
  lemma ErrorTextIsAmbiguous(query: string, msg: string, results: seq<SearchResult>,
                             search: SearchService, chat: ChatService)
    requires search(query, MaxResults) == Ok(results)
    requires forall i :: 0 <= i < |results| ==> results[i].url in ExcludedUrls
    requires forall request :: chat(request) == Ok("Error: " + msg)
    ensures GetAiResponse(query, search, chat) == Answer("Error: " + msg, [])
  {
    SourcesOfExcluded(results);
  }

  /** A stripped string that does not start with a digit, a dot or a space
      passes the cleanup unchanged. */
  lemma CleanNumberingKeeps(s: string)
    requires IsStripped(s)
    requires s == [] || !IsNumberingChar(s[0])
    ensures CleanNumbering(s) == s
  {
    LStripIsLongestSuffix(s, IsNumberingChar);
  }

  /** The fallback questions are displayed exactly as generated. */
  lemma CleanNumberingKeepsFallbacks(query: string)
    ensures forall i :: 0 <= i < 3 ==>
      CleanNumbering(FallbackQuestions(query)[i]) == FallbackQuestions(query)[i]
  {
    var qs := FallbackQuestions(query);
    assert qs[0][0] == 'W' && qs[0][|qs[0]| - 1] == '?';
    assert qs[1][0] == 'W' && qs[1][|qs[1]| - 1] == '?';
    assert qs[2][0] == 'H' && qs[2][|qs[2]| - 1] == '?';
    CleanNumberingKeeps(qs[0]);
    CleanNumberingKeeps(qs[1]);
    CleanNumberingKeeps(qs[2]);
  }

  /** A leading run of digits, dots and spaces is removed in full, and the
      stripped text after it is displayed unchanged. */
  lemma CleanNumberingDropsMarker(marker: string, text: string)
    requires forall i :: 0 <= i < |marker| ==> IsNumberingChar(marker[i])
    requires IsStripped(text)
    requires text == [] || !IsNumberingChar(text[0])
    ensures CleanNumbering(marker + text) == text
  {
    LStripSkipsPrefix(marker, text, IsNumberingChar);
    LStripIsLongestSuffix(text, IsNumberingChar);
  }

  lemma CleanNumberingOfNumberedItem()
    ensures CleanNumbering("1. Why?") == "Why?"
  {
    var marker, text := "1. ", "Why?";
    assert marker + text == "1. Why?";
    CleanNumberingDropsMarker(marker, text);
  }

  /** A follow-up reply that is a clean numbered list of three gives those
      three lines. */
  lemma FollowUpsOfNumberedReply(query: string, answer: string, chat: ChatService)
    requires chat(FollowUpRequest(query, answer)) == Ok("1. Why?\n2. How?\n3. When?")
    ensures FollowUps(query, answer, chat) == ["1. Why?", "2. How?", "3. When?"]
  {
    ParseNumberedList();
    var lines := ParseLines("1. Why?\n2. How?\n3. When?");
    assert |lines| == FollowUpCount;
    assert Padded(lines, MoreAbout(query)) == lines;
  }

  /** ... and they are displayed as the three bare questions. */
  lemma CleanNumberedItems()
    ensures CleanNumbering("1. Why?") == "Why?"
    ensures CleanNumbering("2. How?") == "How?"
    ensures CleanNumbering("3. When?") == "When?"
  {
    CleanNumberingOfNumberedItem();
    var marker, text := "2. ", "How?";
    assert marker + text == "2. How?";
    CleanNumberingDropsMarker(marker, text);
    marker, text := "3. ", "When?";
    assert marker + text == "3. When?";
    CleanNumberingDropsMarker(marker, text);
  }

  /** The cleanup also eats digits that belong to the question itself. */
  lemma CleanNumberingEatsLeadingNumber()
    ensures CleanNumbering("1. 5G or 4G?") == "G or 4G?"
  {
    var marker, text := "1. 5", "G or 4G?";
    assert marker + text == "1. 5G or 4G?";
    assert forall i :: 0 <= i < |marker| ==> marker[i] in "1. 5";
    CleanNumberingDropsMarker(marker, text);
  }

  /** The cleanup can leave a leading digit: `lstrip` stops at the tab, and
      `strip` then removes it. */
  lemma CleanNumberingStopsAtTab()
    ensures CleanNumbering("1.\t2. X") == "2. X"
  {
    var marker, rest, text := "1.", "\t", "2. X";
    assert marker + (rest + text) == "1.\t2. X";
    LStripSkipsPrefix(marker, rest + text, IsNumberingChar);
    StripSkipsLeadingSpace(rest, text);
  }

  /** So the cleanup is not idempotent: a second pass removes the "2. ". */
  lemma CleanNumberingNotIdempotent()
    ensures CleanNumbering("2. X") == "X"
  {
  }

  /** A line holding only a number is displayed as an empty line, so the
      displayed follow-ups are not always non-empty. */
  lemma CleanNumberingOfBareNumber()
    ensures CleanNumbering("2.") == ""
  {
  }
}
