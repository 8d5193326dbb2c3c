/**
 * The decision logic of the Flask backend (src/backend/chatbot.py):
 * `AdvancedChatbot.generate_response` (greeting, vision path, direct API
 * call, chat-model fallback, error classification), the text extraction
 * of `direct_api_call`, the line filtering of `web_search`, and the request
 * handling of the `/chat` and `/search` endpoints. The Gemini models and
 * the HTTP call are total functions passed in (`Models`); an exception
 * they raise is a `Failure` carrying its text.
 */
module Chatbot {
  import opened Wrappers
  import opened Text
  import opened RateLimiting

  // The reply texts, with the characters the source file holds where an emoji was meant.
  const Greeting := "Hey, what's on your mind? \U{F8FF}\U{FC}\U{A7}\U{EE}"
  const TooFast := "Hold up! You're sending messages too fast. Take a breather! \U{F8FF}\U{FC}\U{F2}\U{D6}"
  const SlowDown := "Whoa, slow down! Let me catch my breath. Try again in a sec! \U{F8FF}\U{FC}\U{F2}\U{D6}"
  const QuotaBreak := "Taking a quick break! Be back in a minute. \U{201A}\U{E8}\U{2265}"
  const OopsPrefix := "Oops! Something's not right. Let's try that again! \U{F8FF}\U{FC}\U{EE}\U{D1} ("
  const NoSpecificResults := "\U{F8FF}\U{FC}\U{EE}\U{E7} No specific results found for your query. Try rephrasing it!"
  const SearchFailed := "\U{F8FF}\U{FC}\U{F6}\U{B4} Search failed: Please try again in a moment"
  const ChatEndpointError := "Oops! Something went wrong. Let's try again! \U{F8FF}\U{FC}\U{EE}\U{D1}"
  const NoQuery := "No search query provided"
  const ImageTrouble := "I had trouble processing that image. Error: "

  /**
   * One element of the `file` field: a JSON object with optional `name`,
   * `type` and `data` keys; `otherKeys` says whether it has any key besides
   * these three (which makes a lone object truthy to Python).
   */
  datatype FileEntry = FileEntry(name: Option<string>, mimeType: Option<string>, data: Option<string>, otherKeys: bool)

  /** The `file` field of a `/chat` body: missing or null, a list, or a single object. */
  datatype FileField = NoFile | FileList(items: seq<FileEntry>) | FileObject(entry: FileEntry)

  /** Python truthiness of `file_data`: an empty list or an empty object is false. */
  predicate FileTruthy(f: FileField) {
    match f
    case NoFile => false
    case FileList(items) => |items| > 0
    case FileObject(e) => e.name.Some? || e.mimeType.Some? || e.data.Some? || e.otherKeys
  }

  /** The entry `generate_response` looks at: the first one of a list. */
  function ConsideredEntry(f: FileField): (r: Option<FileEntry>)
    ensures r.Some? <==> FileTruthy(f)
    ensures f.FileList? && |f.items| > 0 ==> r == Some(f.items[0])
    ensures f.FileObject? && FileTruthy(f) ==> r == Some(f.entry)
  {
    match f
    case NoFile => None
    case FileList(items) => if |items| > 0 then Some(items[0]) else None
    case FileObject(e) => if FileTruthy(f) then Some(e) else None
  }

  /** `'data' in file_data and file_data.get('type', '').startswith('image/')`. */
  predicate IsImageEntry(e: FileEntry) {
    e.data.Some? && StartsWith(e.mimeType.GetOr(""), "image/")
  }

  // The JSON returned by the `generateContent` REST call, as far as the extraction reads it.
  datatype Part = Part(text: Option<string>)
  datatype Content = Content(parts: Option<seq<Part>>)
  datatype Candidate = Candidate(content: Option<Content>)

  /** The end of `requests.post(...)`, `raise_for_status()` and `json()`: an exception, or the parsed body. */
  datatype ApiReply = ApiFailed | ApiJson(candidates: Option<seq<Candidate>>)

  /** The three model calls, as functions of what the source passes them. */
  datatype Models = Models(
    vision: (string, string) -> Result<string, string>,  // process_image's try block, on (image data, prompt)
    direct: string -> ApiReply,                          // the generateContent REST call, on the prompt
    chat: ChatPrompt -> Result<string, string>)          // chat.send_message(PromptText(p)).text, on the prompt p

  /** The first candidate's first part's text, when the reply has all of it. */
  predicate HasText(reply: ApiReply) {
    && reply.ApiJson? && reply.candidates.Some? && |reply.candidates.value| > 0
    && reply.candidates.value[0].content.Some?
    && reply.candidates.value[0].content.value.parts.Some?
    && |reply.candidates.value[0].content.value.parts.value| > 0
    && reply.candidates.value[0].content.value.parts.value[0].text.Some?
  }

  /**
   * `direct_api_call`: `data['candidates'][0]['content']['parts'][0]['text']`,
   * or `None` when the call fails, there are no candidates, or a key or
   * index on the way is missing (the `KeyError` or `IndexError` is caught).
   */
  function DirectApiText(reply: ApiReply): (r: Option<string>)
    ensures r.Some? <==> HasText(reply)
    ensures r.Some? ==> r.value == reply.candidates.value[0].content.value.parts.value[0].text.value
  {
    match reply
    case ApiFailed => None
    case ApiJson(candidates) =>
      if candidates.None? || |candidates.value| == 0 then None
      else match candidates.value[0].content
        case None => None
        case Some(content) =>
          match content.parts
          case None => None
          case Some(parts) => if |parts| == 0 then None else parts[0].text
  }

  /** `process_image`: the vision model's text, or the trouble message with the exception text. */
  function ProcessImage(outcome: Result<string, string>): string {
    match outcome
    case Success(text) => text
    case Failure(e) => ImageTrouble + e
  }

  /** A prompt sent to the chat model: the fallback context around the user's message, or the search context around the query. */
  datatype ChatPrompt = FallbackPrompt(userMessage: string) | SearchPrompt(query: string)

  /** The exact text of a chat-model prompt (the f-strings of `generate_response` and `web_search`). */
  function PromptText(p: ChatPrompt): string {
    match p
    case FallbackPrompt(prompt) =>
      "\n            You are a friendly, Gen-Z style AI assistant. Keep responses concise and casual.\n"
      + "            Use emojis naturally but don't overdo it. Be helpful while maintaining a cool vibe.\n\n"
      + "            User message: " + prompt + "\n            "
    case SearchPrompt(query) =>
      "\n            Act as a web search assistant. Provide comprehensive but concise information about: "
      + query + "\n"
      + "            Format your response as a list of 3-4 key points, each starting with an emoji.\n"
      + "            Make sure the information is factual and relevant.\n            "
  }

  /** Each prompt text carries the user's message or the query it was built around. */
  lemma PromptCarriesInput(p: ChatPrompt)
    ensures p.FallbackPrompt? ==> Contains(PromptText(p), p.userMessage)
    ensures p.SearchPrompt? ==> Contains(PromptText(p), p.query)
  {
    match p
    case FallbackPrompt(prompt) =>
      var head := "\n            You are a friendly, Gen-Z style AI assistant. Keep responses concise and casual.\n"
        + "            Use emojis naturally but don't overdo it. Be helpful while maintaining a cool vibe.\n\n"
        + "            User message: ";
      ContainsMiddle(head, prompt, "\n            ");
    case SearchPrompt(query) =>
      var head := "\n            Act as a web search assistant. Provide comprehensive but concise information about: ";
      var tail := "\n"
        + "            Format your response as a list of 3-4 key points, each starting with an emoji.\n"
        + "            Make sure the information is factual and relevant.\n            ";
      assert PromptText(p) == head + query + tail;
      ContainsMiddle(head, query, tail);
  }

  /** The `except` block of `generate_response`: the message for an exception text, in fixed priority. */
  function ClassifyError(e: string): (r: string)
    ensures Contains(e, "429") ==> r == SlowDown
    ensures !Contains(e, "429") && Contains(Lower(e), "quota") ==> r == QuotaBreak
    ensures !Contains(e, "429") && !Contains(Lower(e), "quota") ==> r == OopsPrefix + e + ")"
  {
    if Contains(e, "429") then SlowDown
    else if Contains(Lower(e), "quota") then QuotaBreak
    else OopsPrefix + e + ")"
  }

  /** The generic error message shows the exception text. */
  lemma GenericErrorEmbedsException(e: string)
    requires !Contains(e, "429") && !Contains(Lower(e), "quota")
    ensures Contains(ClassifyError(e), e)
  {
    ContainsMiddle(OopsPrefix, e, ")");
  }

  /** A "429" wins over "quota", whatever the case of the latter. */
  lemma RateLimitBeatsQuota(e: string)
    requires Contains(e, "429")
    ensures ClassifyError(e) == SlowDown && ClassifyError(e + " QUOTA") == SlowDown
  {
    ContainsPrefix(e, " QUOTA", "429");
  }

  /**
   * The quota test lowers the exception text first, so "quota" in any mix of
   * cases, anywhere in a text without "429", gives the quota reply.
   */
  lemma QuotaAnyCase(a: string, q: string, b: string)
    requires |q| == 5 && forall k :: 0 <= k < 5 ==> LowerChar(q[k]) == "quota"[k]
    requires !Contains(a + q + b, "429")
    ensures ClassifyError(a + q + b) == QuotaBreak
  {
    LowerConcat(a + q, b);
    LowerConcat(a, q);
    assert Lower(q) == "quota";
    ContainsMiddle(Lower(a), "quota", Lower(b));
  }

  /** A substring of a prefix is a substring of the whole. */
  lemma {:induction false} ContainsPrefix(s: string, t: string, sub: string)
    requires Contains(s, sub)
    ensures Contains(s + t, sub)
    decreases |s|
  {
    if StartsWith(s, sub) {
      assert (s + t)[..|sub|] == s[..|sub|];
    } else {
      assert (s + t)[1..] == s[1..] + t;
      ContainsPrefix(s[1..], t, sub);
    }
  }

  /** A model the source consults for a reply. */
  datatype Oracle = VisionModel | DirectApi | ChatModel

  /** The reply text and the models consulted for it, in order. */
  datatype Reply = Reply(text: string, consulted: seq<Oracle>)

  /**
   * `generate_response(user_prompt, file_data)`: the greeting for an empty
   * prompt without a file; the vision result when the considered entry is
   * an image; otherwise the direct API text when it is non-empty, and the
   * chat model's text (or the classified error) when it is not.
   */
  function GenerateResponse(prompt: string, file: FileField, m: Models): (r: Reply)
    ensures r.consulted == [] <==> prompt == "" && !FileTruthy(file)
    ensures r.consulted == [] ==> r.text == Greeting
    ensures r.consulted == [VisionModel] <==>
      FileTruthy(file) && IsImageEntry(ConsideredEntry(file).value)
    ensures r.consulted == [VisionModel] ==>
      r.text == ProcessImage(m.vision(ConsideredEntry(file).value.data.value, prompt))
    ensures r.consulted != [] && r.consulted != [VisionModel] ==>
      r.consulted[0] == DirectApi && VisionModel !in r.consulted
    ensures r.consulted == [DirectApi] <==>
      r.consulted != [] && r.consulted != [VisionModel] && HasText(m.direct(prompt)) && DirectApiText(m.direct(prompt)).value != ""
    ensures r.consulted == [DirectApi] ==> r.text == DirectApiText(m.direct(prompt)).value
    ensures r.consulted != [] && r.consulted != [VisionModel] && r.consulted != [DirectApi] ==>
      r.consulted == [DirectApi, ChatModel]
    ensures ChatModel in r.consulted ==>
      && r.consulted == [DirectApi, ChatModel]
      && r.text == FallbackText(m.chat(FallbackPrompt(prompt)))
  {
    if prompt == "" && !FileTruthy(file) then Reply(Greeting, [])
    else
      var entry := ConsideredEntry(file);
      if entry.Some? && IsImageEntry(entry.value) then
        Reply(ProcessImage(m.vision(entry.value.data.value, prompt)), [VisionModel])
      else
        var direct := DirectApiText(m.direct(prompt));
        if direct.Some? && direct.value != "" then Reply(direct.value, [DirectApi])
        else
          match m.chat(FallbackPrompt(prompt))
          case Success(text) => Reply(text, [DirectApi, ChatModel])
          case Failure(e) => Reply(ClassifyError(e), [DirectApi, ChatModel])
  }

  /** The text of the fallback path: the chat model's text, or the classified exception. */
  function FallbackText(outcome: Result<string, string>): string {
    match outcome
    case Success(text) => text
    case Failure(e) => ClassifyError(e)
  }

  /**
   * When the direct call gives no text, the chat model is asked with the
   * fallback prompt; its text is returned, and an exception it raises is
   * answered with the classified message.
   */
  lemma FallbackAnswers(prompt: string, file: FileField, m: Models)
    requires prompt != "" || FileTruthy(file)
    requires !(FileTruthy(file) && IsImageEntry(ConsideredEntry(file).value))
    requires !(HasText(m.direct(prompt)) && DirectApiText(m.direct(prompt)).value != "")
    ensures GenerateResponse(prompt, file, m).consulted == [DirectApi, ChatModel]
    ensures m.chat(FallbackPrompt(prompt)).Success? ==>
      GenerateResponse(prompt, file, m).text == m.chat(FallbackPrompt(prompt)).value
    ensures m.chat(FallbackPrompt(prompt)).Failure? ==>
      GenerateResponse(prompt, file, m).text == ClassifyError(m.chat(FallbackPrompt(prompt)).error)
  {
  }

  /** The greeting consults no model: its reply is the same whatever the models would answer. */
  lemma GreetingNeedsNoModel(file: FileField, m1: Models, m2: Models)
    requires !FileTruthy(file)
    ensures GenerateResponse("", file, m1) == GenerateResponse("", file, m2) == Reply(Greeting, [])
  {
  }

  /** Only the first entry of a file list matters. */
  lemma OnlyFirstFileCounts(prompt: string, first: FileEntry, rest: seq<FileEntry>, m: Models)
    ensures GenerateResponse(prompt, FileList([first] + rest), m) == GenerateResponse(prompt, FileList([first]), m)
  {
  }

  /** An empty file list is the same as no file. */
  lemma EmptyListIsNoFile(prompt: string, m: Models)
    ensures GenerateResponse(prompt, FileList([]), m) == GenerateResponse(prompt, NoFile, m)
  {
  }

  /** A lone object with none of the three keys but some other key is truthy: an empty prompt then skips the greeting and goes to the direct call. */
  lemma OtherKeysSkipGreeting(m: Models)
    ensures GenerateResponse("", FileObject(FileEntry(None, None, None, true)), m).consulted[0] == DirectApi
    ensures GenerateResponse("", FileObject(FileEntry(None, None, None, false)), m) == Reply(Greeting, [])
  {
  }

  /** A truthy direct answer is returned as it is, and the chat model is not asked. */
  lemma DirectAnswerWins(prompt: string, file: FileField, m: Models, chat2: ChatPrompt -> Result<string, string>)
    requires prompt != "" || FileTruthy(file)
    requires !IsImageEntry(ConsideredEntry(file).GetOr(FileEntry(None, None, None, false)))
    requires HasText(m.direct(prompt)) && DirectApiText(m.direct(prompt)).value != ""
    ensures GenerateResponse(prompt, file, m).text == DirectApiText(m.direct(prompt)).value
    ensures GenerateResponse(prompt, file, m) == GenerateResponse(prompt, file, Models(m.vision, m.direct, chat2))
  {
  }

  /** A result line: non-empty, with no whitespace at either end. */
  predicate IsStripped(s: string) {
    s != "" && Trim(s) == s
  }

  /** `[line.strip() for line in lines if line.strip() and line.strip().startswith('')]`. */
  function StrippedLines(lines: seq<string>): (r: seq<string>)
    ensures |r| <= |lines|
    ensures forall k :: 0 <= k < |r| ==> IsStripped(r[k])
    decreases |lines|
  {
    if |lines| == 0 then []
    else
      var line := Trim(lines[0]);
      TrimIdempotent(lines[0]);
      if line != "" && StartsWith(line, "") then [line] + StrippedLines(lines[1..])
      else StrippedLines(lines[1..])
  }

  /** The comprehension keeps order: it maps over a concatenation piece by piece. */
  lemma {:induction false} StrippedLinesAppend(a: seq<string>, b: seq<string>)
    ensures StrippedLines(a + b) == StrippedLines(a) + StrippedLines(b)
    decreases |a|
  {
    if |a| == 0 {
      assert a + b == b;
    } else {
      assert (a + b)[0] == a[0];
      assert (a + b)[1..] == a[1..] + b;
      StrippedLinesAppend(a[1..], b);
      if Trim(a[0]) != "" {
        assert StrippedLines(a + b) == [Trim(a[0])] + StrippedLines(a[1..] + b);
        assert StrippedLines(a) == [Trim(a[0])] + StrippedLines(a[1..]);
      }
    }
  }

  /** `startswith('')` filters nothing: a line survives exactly when its strip is non-empty. */
  lemma StrippedLine(line: string)
    ensures StrippedLines([line]) == if AllSpace(line) then [] else [Trim(line)]
  {
    TrimEmptyIff(line);
    StartsWithEmpty(Trim(line));
  }

  /** `web_search(query)`: the stripped non-blank lines of the model's text, never an empty list. */
  function WebSearch(query: string, m: Models): (r: seq<string>)
    ensures |r| >= 1
    ensures m.chat(SearchPrompt(query)).Failure? ==> r == [SearchFailed]
    ensures m.chat(SearchPrompt(query)).Success? ==>
      r == SearchResults(m.chat(SearchPrompt(query)).value)
  {
    match m.chat(SearchPrompt(query))
    case Success(text) => SearchResults(text)
    case Failure(_) => [SearchFailed]
  }

  /** The results for the model's text: its stripped non-blank lines, or the single fallback entry. */
  function SearchResults(text: string): (r: seq<string>)
    ensures |r| >= 1
    ensures StrippedLines(Split(text, '\n')) != [] ==> r == StrippedLines(Split(text, '\n'))
    ensures StrippedLines(Split(text, '\n')) == [] ==> r == [NoSpecificResults]
  {
    var results := StrippedLines(Split(text, '\n'));
    if results == [] then [NoSpecificResults] else results
  }

  /** A text of only blank lines gives the single fallback entry. */
  lemma BlankTextFallsBack(text: string)
    requires AllSpace(text)
    ensures SearchResults(text) == [NoSpecificResults]
  {
    BlankPieces(text);
  }

  /** Every piece of a whitespace-only text is whitespace-only, so no line survives. */
  lemma {:induction false} BlankPieces(text: string)
    requires AllSpace(text)
    ensures StrippedLines(Split(text, '\n')) == []
    decreases |text|
  {
    if '\n' in text {
      SplitAtFirst(text, '\n');
      var first, rest := Before(text, '\n'), After(text, '\n');
      assert forall k :: 0 <= k < |first| ==> first[k] == text[k];
      assert forall k :: 0 <= k < |rest| ==> rest[k] == text[|first| + 1 + k];
      BlankPieces(rest);
      StrippedLine(first);
      StrippedLinesAppend([first], Split(rest, '\n'));
    } else {
      SplitNoSep(text, '\n');
      StrippedLine(text);
    }
  }

  // ------------------------------------------------------------- endpoints

  datatype ChatBody = ChatBody(prompt: Option<string>, file: FileField)
  datatype SearchBody = SearchBody(query: Option<string>)

  datatype ResponseBody = ChatJson(response: string) | SearchJson(results: seq<string>) | ErrorJson(error: string)
  datatype HttpResponse = HttpResponse(status: int, body: ResponseBody)

  /** `chat_endpoint` without its rate limiter; `body` fails when `request.json` or `.get` raises. */
  function ChatEndpoint(body: Result<ChatBody, string>, m: Models): (r: HttpResponse)
    ensures body.Failure? ==> r == HttpResponse(500, ChatJson(ChatEndpointError))
    ensures body.Success? ==>
      r == HttpResponse(200, ChatJson(GenerateResponse(body.value.prompt.GetOr(""), body.value.file, m).text))
  {
    match body
    case Success(b) => HttpResponse(200, ChatJson(GenerateResponse(b.prompt.GetOr(""), b.file, m).text))
    case Failure(_) => HttpResponse(500, ChatJson(ChatEndpointError))
  }

  /** A missing prompt is the empty prompt. */
  lemma MissingPromptIsEmpty(file: FileField, m: Models)
    ensures ChatEndpoint(Success(ChatBody(None, file)), m) == ChatEndpoint(Success(ChatBody(Some(""), file)), m)
  {
  }

  /** `search_endpoint`: 400 for a missing or empty query, else the results of `web_search`. */
  function SearchEndpoint(body: Result<SearchBody, string>, m: Models): (r: HttpResponse)
    ensures body.Failure? ==> r == HttpResponse(500, ErrorJson(body.error))
    ensures body.Success? && body.value.query.GetOr("") == "" ==> r == HttpResponse(400, ErrorJson(NoQuery))
    ensures body.Success? && body.value.query.GetOr("") != "" ==>
      r.status == 200 && r.body == SearchJson(WebSearch(body.value.query.value, m)) && |r.body.results| >= 1
  {
    match body
    case Success(b) =>
      var query := b.query.GetOr("");
      if query == "" then HttpResponse(400, ErrorJson(NoQuery))
      else HttpResponse(200, SearchJson(WebSearch(query, m)))
    case Failure(e) => HttpResponse(500, ErrorJson(e))
  }

  /** An empty or missing query never reaches `web_search`: the answer does not depend on the models. */
  lemma EmptyQueryNeverSearches(query: Option<string>, m1: Models, m2: Models)
    requires query.GetOr("") == ""
    ensures SearchEndpoint(Success(SearchBody(query)), m1) == SearchEndpoint(Success(SearchBody(query)), m2)
    ensures SearchEndpoint(Success(SearchBody(query)), m1).status == 400
  {
  }

  /** The rate-limited `/chat` route: 429 when the limiter refuses, else `chat_endpoint`. */
  method ChatRoute(limiter: RateLimiter, ip: string, now: real, body: Result<ChatBody, string>, m: Models)
      returns (r: HttpResponse)
    modifies limiter
    ensures limiter.lastRequest == Step(old(limiter.lastRequest), ip, now)
    ensures !Accepts(old(limiter.lastRequest), ip, now) ==> r == HttpResponse(429, ChatJson(TooFast))
    ensures Accepts(old(limiter.lastRequest), ip, now) ==> r == ChatEndpoint(body, m)
  {
    var accepted := limiter.Admit(ip, now);
    if !accepted {
      return HttpResponse(429, ChatJson(TooFast));
    }
    r := ChatEndpoint(body, m);
  }
}
