/**
 * The browser client's session state and request dispatch
 * (src/frontend/script.js): the pending attachments with their count
 * badge, the chat/search mode with the input placeholder, the message
 * input, the typing indicator, and the `addMessage` calls and backend
 * requests each user action produces. The server's answer to a request is
 * an input (`ChatOutcome`, `SearchOutcome`); `addMessage` calls are
 * recorded in call order and described by `Rendering.Render`.
 */
module ClientSession {
  import opened Wrappers
  import opened Text
  import opened Rendering

  /** An entry of `attachments`: `{name, type, data}` with `data` the base64 payload. */
  datatype Attachment = Attachment(name: string, mimeType: string, data: string)

  /** The `name` and `type` of a file picked in the file input. */
  datatype FileInfo = FileInfo(name: string, mimeType: string)

  datatype Mode = ChatMode | SearchMode

  /** A POST the client sends: `/chat` with `{prompt, file}` or `/search` with `{query}`. */
  datatype Request = ChatRequest(prompt: string, files: seq<Attachment>) | SearchRequest(query: string)

  /** How a `/chat` fetch ends: it throws (network error, body not JSON), or it answers with a status and maybe a `response` field. */
  datatype ChatOutcome = ChatThrown | ChatAnswered(status: int, response: Option<string>)

  /** How a `/search` fetch ends: it throws, or it answers with a status and maybe a `results` array. */
  datatype SearchOutcome = SearchThrown | SearchAnswered(status: int, results: Option<seq<string>>)

  /** `response.ok`: a 2xx status. */
  predicate IsOk(status: int) {
    200 <= status <= 299
  }

  const ChatPlaceholder := "Type your message..."
  const SearchPlaceholder := "\U{1F50D} Search the web..."
  const SearchGradient := "linear-gradient(45deg, var(--neon-accent), var(--neon-primary))"
  const SomethingWrong := "Sorry, something went wrong."
  const ConnectionLost := "Connection lost. Please try again."
  const NoResults := "No results found for your search."
  const SearchError := "Error performing search. Please try again."

  const FileOptions := Options(true, false, false, None)
  const SearchOptions := Options(false, true, false, None)

  /** The count badge on the upload button: absent, or showing a number. */
  function BadgeFor(atts: seq<Attachment>): Option<nat> {
    if |atts| > 0 then Some(|atts|) else None
  }

  function Toggled(m: Mode): Mode {
    if m == ChatMode then SearchMode else ChatMode
  }

  /** Toggling the mode changes it, and toggling twice gives it back. */
  lemma ToggleInvolution(m: Mode)
    ensures Toggled(m) != m && Toggled(Toggled(m)) == m
  {
  }

  function PlaceholderFor(m: Mode): string {
    if m == SearchMode then SearchPlaceholder else ChatPlaceholder
  }

  predicate IsImage(a: Attachment) {
    StartsWith(a.mimeType, "image/")
  }

  /** The attachment list's first entry exists and is an image. */
  predicate FirstIsImage(atts: seq<Attachment>) {
    |atts| > 0 && IsImage(atts[0])
  }

  /** JavaScript truthiness of `data.response`: present and not the empty string. */
  predicate Truthy(response: Option<string>) {
    response.Some? && response.value != ""
  }

  // ------------------------------------------------- dispatch specifications

  /** The preview message for an image attachment, with its data URL. */
  function ImagePreview(a: Attachment): MessageCall {
    MessageCall("Analyzing image: " + a.name, User,
                Options(true, false, false, Some("data:" + a.mimeType + ";base64," + a.data)))
  }

  /** The user messages `sendMessageWithFile` adds before it sends the request. */
  function ChatPreviews(input: string, atts: seq<Attachment>): (r: seq<MessageCall>)
    ensures |r| == (if FirstIsImage(atts) then 1 else 0) + (if input != "" then 1 else 0)
    ensures forall k :: 0 <= k < |r| ==> r[k].role == User
    ensures FirstIsImage(atts) ==> r[0] == ImagePreview(atts[0])
    ensures input != "" ==> r[|r| - 1] == MessageCall(input, User, NoOptions)
  {
    (if FirstIsImage(atts) then [ImagePreview(atts[0])] else [])
    + (if input != "" then [MessageCall(input, User, NoOptions)] else [])
  }

  /** The one bot message `sendMessageWithFile` adds once the fetch is over. */
  function ChatReply(atts: seq<Attachment>, outcome: ChatOutcome): (m: MessageCall)
    ensures m.role == Bot && !m.options.isFile && !m.options.isSearch && m.options.image == None
    ensures (outcome.ChatThrown? || !IsOk(outcome.status)) ==> m == MessageCall(ConnectionLost, Bot, NoOptions)
    ensures outcome.ChatAnswered? && IsOk(outcome.status) && Truthy(outcome.response) ==>
      m.content == outcome.response.value && (m.options.isImageAnalysis <==> FirstIsImage(atts))
    ensures outcome.ChatAnswered? && IsOk(outcome.status) && !Truthy(outcome.response) ==>
      m == MessageCall(SomethingWrong, Bot, NoOptions)
  {
    match outcome
    case ChatAnswered(status, response) =>
      if !IsOk(status) then MessageCall(ConnectionLost, Bot, NoOptions)
      else if Truthy(response) then
        MessageCall(response.value, Bot, Options(false, false, FirstIsImage(atts), None))
      else MessageCall(SomethingWrong, Bot, NoOptions)
    case ChatThrown => MessageCall(ConnectionLost, Bot, NoOptions)
  }

  /** Whether `sendMessageWithFile` goes past its guard. */
  predicate SendsChat(input: string, atts: seq<Attachment>) {
    input != "" || |atts| > 0
  }

  /** Every `addMessage` call a chat send makes, in order. */
  function ChatMessages(input: string, atts: seq<Attachment>, outcome: ChatOutcome): (r: seq<MessageCall>)
    ensures r == [] <==> !SendsChat(input, atts)
    ensures r != [] ==> r[|r| - 1] == ChatReply(atts, outcome)
    ensures forall k :: 0 <= k < |r| - 1 ==> r[k].role == User
    ensures r != [] ==> r[..|r| - 1] == ChatPreviews(input, atts)
  {
    if SendsChat(input, atts) then ChatPreviews(input, atts) + [ChatReply(atts, outcome)] else []
  }

  /** How many of the calls are for the given role. */
  function CountRole(calls: seq<MessageCall>, role: Role): nat
    decreases |calls|
  {
    if |calls| == 0 then 0
    else (if calls[0].role == role then 1 else 0) + CountRole(calls[1..], role)
  }

  lemma {:induction false} CountRoleAppend(a: seq<MessageCall>, b: seq<MessageCall>, role: Role)
    ensures CountRole(a + b, role) == CountRole(a, role) + CountRole(b, role)
    decreases |a|
  {
    if |a| == 0 {
      assert a + b == b;
    } else {
      assert (a + b)[0] == a[0];
      assert (a + b)[1..] == a[1..] + b;
      CountRoleAppend(a[1..], b, role);
    }
  }

  lemma {:induction false} CountRoleNone(calls: seq<MessageCall>, role: Role)
    requires forall k :: 0 <= k < |calls| ==> calls[k].role != role
    ensures CountRole(calls, role) == 0
    decreases |calls|
  {
    if |calls| > 0 {
      CountRoleNone(calls[1..], role);
    }
  }

  /** A chat send that goes past its guard makes exactly one bot message, whatever the server does. */
  lemma ChatSendMakesOneBotMessage(input: string, atts: seq<Attachment>, outcome: ChatOutcome)
    requires SendsChat(input, atts)
    ensures CountRole(ChatMessages(input, atts, outcome), Bot) == 1
  {
    var previews := ChatPreviews(input, atts);
    CountRoleAppend(previews, [ChatReply(atts, outcome)], Bot);
    CountRoleNone(previews, Bot);
  }

  /** The bot messages to show for a `/search` answer, in array order. */
  function SearchReplies(outcome: SearchOutcome): (r: seq<MessageCall>)
    ensures |r| >= 1
    ensures forall k :: 0 <= k < |r| ==> r[k].role == Bot && r[k].options == SearchOptions
    ensures outcome.SearchThrown? || !IsOk(outcome.status) ==> r == [MessageCall(SearchError, Bot, SearchOptions)]
    ensures outcome.SearchAnswered? && IsOk(outcome.status) && outcome.results.Some? && |outcome.results.value| > 0 ==>
      |r| == |outcome.results.value| && forall k :: 0 <= k < |r| ==> r[k].content == outcome.results.value[k]
    ensures outcome.SearchAnswered? && IsOk(outcome.status) && (outcome.results.None? || outcome.results.value == []) ==>
      r == [MessageCall(NoResults, Bot, SearchOptions)]
  {
    match outcome
    case SearchAnswered(status, results) =>
      if !IsOk(status) then [MessageCall(SearchError, Bot, SearchOptions)]
      else if results.Some? && |results.value| > 0 then ResultMessages(results.value)
      else [MessageCall(NoResults, Bot, SearchOptions)]
    case SearchThrown => [MessageCall(SearchError, Bot, SearchOptions)]
  }

  /** One bot search message per result. */
  function ResultMessages(results: seq<string>): (r: seq<MessageCall>)
    ensures |r| == |results|
  {
    seq(|results|, k requires 0 <= k < |results| => MessageCall(results[k], Bot, SearchOptions))
  }

  /** Every `addMessage` call a web search makes, in order. */
  function SearchMessages(query: string, outcome: SearchOutcome): (r: seq<MessageCall>)
    ensures r == [] <==> IsBlank(query)
    ensures r != [] ==> r[0] == MessageCall(query, User, SearchOptions) && r[1..] == SearchReplies(outcome)
  {
    if IsBlank(query) then [] else [MessageCall(query, User, SearchOptions)] + SearchReplies(outcome)
  }

  // ----------------------------------------------------------- session state

  /** The module-level state of the client script and the parts of the page it writes. */
  class Session {
    var attachments: seq<Attachment>
    var badge: Option<nat>
    var fileInputValue: string
    var mode: Mode
    var searchActive: bool        // the `active` class of the search button
    var placeholder: string
    var searchBackground: string  // the inline background of the search button
    var inputValue: string
    var typingShown: bool
    var messages: seq<MessageCall>
    var requests: seq<Request>

    ghost predicate Valid()
      reads this
    {
      badge == BadgeFor(attachments) && searchActive == (mode == SearchMode)
    }

    /** The state when the page has loaded: no attachments, chat mode, nothing sent. */
    constructor (initialPlaceholder: string)
      ensures Valid()
      ensures attachments == [] && badge == None && mode == ChatMode && !searchActive
      ensures placeholder == initialPlaceholder && searchBackground == "" && inputValue == ""
      ensures !typingShown && messages == [] && requests == []
    {
      attachments, badge, fileInputValue := [], None, "";
      mode, searchActive, placeholder, searchBackground := ChatMode, false, initialPlaceholder, "";
      inputValue, typingShown, messages, requests := "", false, [], [];
    }

    /** `updateAttachmentCount`: a badge with the count when there are attachments, no badge otherwise. */
    method UpdateAttachmentCount()
      modifies this`badge
      ensures badge == BadgeFor(attachments)
      ensures badge.Some? <==> attachments != []
    {
      if |attachments| > 0 {
        badge := Some(|attachments|);
      } else if badge.Some? {
        badge := None;
      }
    }

    /** `addMessage`: recorded in call order. */
    method AddMessage(call: MessageCall)
      modifies this`messages
      ensures messages == old(messages) + [call]
    {
      messages := messages + [call];
    }

    /** The user typing into the message input. */
    method SetInput(text: string)
      modifies this`inputValue
      ensures inputValue == text
    {
      inputValue := text;
    }

    /**
     * `handleFileUpload(file)` with `read` the outcome of reading the file as
     * base64: on success one record is appended at the end, the badge shows
     * the new count and an "Attached" message is added; a failed read
     * rejects before anything changes.
     */
    method HandleFileUpload(file: Option<FileInfo>, read: Result<string, string>)
      requires Valid()
      modifies this`attachments, this`badge, this`messages
      ensures Valid()
      ensures file.None? || read.Failure? ==>
        attachments == old(attachments) && messages == old(messages)
      ensures file.Some? && read.Success? ==>
        && attachments == old(attachments) + [Attachment(file.value.name, file.value.mimeType, read.value)]
        && badge == Some(|attachments|)
        && messages == old(messages) + [MessageCall("Attached: " + file.value.name, User, FileOptions)]
    {
      if file.Some? {
        if read.Failure? {
          return;
        }
        attachments := attachments + [Attachment(file.value.name, file.value.mimeType, read.value)];
        UpdateAttachmentCount();
        AddMessage(MessageCall("Attached: " + file.value.name, User, FileOptions));
      }
    }

    /** `clearAttachments`: no attachments, no badge, file input reset. */
    method ClearAttachments()
      modifies this`attachments, this`badge, this`fileInputValue
      ensures attachments == [] && badge == None && fileInputValue == ""
      ensures Valid() <==> searchActive == (mode == SearchMode)
    {
      attachments := [];
      UpdateAttachmentCount();
      fileInputValue := "";
    }

    /** `toggleSearchMode`: flips the mode; the placeholder and the button follow the new mode. */
    method ToggleSearchMode()
      requires Valid()
      modifies this`mode, this`searchActive, this`placeholder, this`searchBackground
      ensures Valid()
      ensures mode == Toggled(old(mode)) && searchActive == !old(searchActive)
      ensures placeholder == PlaceholderFor(mode)
      ensures (placeholder == SearchPlaceholder) <==> mode == SearchMode
      ensures searchBackground == if mode == SearchMode then SearchGradient else ""
    {
      mode := if mode == ChatMode then SearchMode else ChatMode;
      searchActive := !searchActive;
      placeholder := if mode == SearchMode then SearchPlaceholder else ChatPlaceholder;
      if mode == SearchMode {
        searchBackground := SearchGradient;
      } else {
        searchBackground := "";
      }
    }

    /** Lines 182-194 of `sendMessageWithFile`: the image preview, then the user's text. */
    method AddChatPreviews(input: string)
      modifies this`messages
      ensures messages == old(messages) + ChatPreviews(input, attachments)
    {
      if |attachments| > 0 && StartsWith(attachments[0].mimeType, "image/") {
        AddMessage(ImagePreview(attachments[0]));
      }
      if input != "" {
        AddMessage(MessageCall(input, User, NoOptions));
      }
    }

    /** Lines 209-223 of `sendMessageWithFile`: hide the indicator and add the bot message for the outcome. */
    method AddChatReply(outcome: ChatOutcome)
      modifies this`typingShown, this`messages
      ensures messages == old(messages) + [ChatReply(attachments, outcome)] && !typingShown
    {
      match outcome {
        case ChatAnswered(status, response) =>
          typingShown := false;
          if !IsOk(status) {
            AddMessage(MessageCall(ConnectionLost, Bot, NoOptions));
          } else if Truthy(response) {
            var isImageAnalysis := |attachments| > 0 && StartsWith(attachments[0].mimeType, "image/");
            AddMessage(MessageCall(response.value, Bot, Options(false, false, isImageAnalysis, None)));
          } else {
            AddMessage(MessageCall(SomethingWrong, Bot, NoOptions));
          }
        case ChatThrown =>
          typingShown := false;
          AddMessage(MessageCall(ConnectionLost, Bot, NoOptions));
      }
    }

    /**
     * `sendMessageWithFile` with `outcome` the end of its `/chat` fetch. Past
     * the guard it adds the previews, sends the trimmed input with every
     * attachment, adds exactly one bot message and always clears the
     * attachments; the typing indicator ends hidden.
     */
    method SendMessageWithFile(outcome: ChatOutcome)
      requires Valid()
      modifies this`attachments, this`badge, this`fileInputValue, this`inputValue
      modifies this`typingShown, this`messages, this`requests
      ensures Valid()
      ensures messages == old(messages) + ChatMessages(Trim(old(inputValue)), old(attachments), outcome)
      ensures !SendsChat(Trim(old(inputValue)), old(attachments)) ==> unchanged(this)
      ensures SendsChat(Trim(old(inputValue)), old(attachments)) ==>
        && requests == old(requests) + [ChatRequest(Trim(old(inputValue)), old(attachments))]
        && attachments == [] && badge == None && fileInputValue == ""
        && inputValue == "" && !typingShown
    {
      var input := Trim(inputValue);
      if input == "" && |attachments| == 0 {
        assert ChatMessages(input, attachments, outcome) == [];
        return;
      }
      ghost var atts, before := attachments, messages;
      AddChatPreviews(input);
      inputValue := "";
      typingShown := true;
      requests := requests + [ChatRequest(input, attachments)];
      AddChatReply(outcome);
      assert messages == before + (ChatPreviews(input, atts) + [ChatReply(atts, outcome)]);
      ClearAttachments();
    }

    /** Lines 244-254 of `performWebSearch`: hide the indicator and add the bot messages for the outcome. */
    method AddSearchReplies(outcome: SearchOutcome)
      modifies this`typingShown, this`messages
      ensures messages == old(messages) + SearchReplies(outcome) && !typingShown
    {
      typingShown := false;
      match outcome {
        case SearchAnswered(status, results) =>
          if !IsOk(status) {
            AddMessage(MessageCall(SearchError, Bot, SearchOptions));
          } else if results.Some? && |results.value| > 0 {
            var rs := results.value;
            ghost var before := messages;
            for k := 0 to |rs|
              invariant messages == before + ResultMessages(rs[..k])
              modifies this`messages
            {
              assert ResultMessages(rs[..k + 1]) == ResultMessages(rs[..k]) + [MessageCall(rs[k], Bot, SearchOptions)];
              AddMessage(MessageCall(rs[k], Bot, SearchOptions));
            }
            assert rs[..|rs|] == rs;
          } else {
            AddMessage(MessageCall(NoResults, Bot, SearchOptions));
          }
        case SearchThrown =>
          AddMessage(MessageCall(SearchError, Bot, SearchOptions));
      }
    }

    /**
     * `performWebSearch(query)` with `outcome` the end of its `/search` fetch:
     * a blank query does nothing; otherwise the query is shown and sent, one
     * bot message per result is added in array order (or a single "no
     * results" or error message), and the input is cleared.
     */
    method PerformWebSearch(query: string, outcome: SearchOutcome)
      modifies this`inputValue, this`typingShown, this`messages, this`requests
      ensures messages == old(messages) + SearchMessages(query, outcome)
      ensures IsBlank(query) ==> unchanged(this)
      ensures !IsBlank(query) ==>
        requests == old(requests) + [SearchRequest(query)] && inputValue == "" && !typingShown
    {
      if IsBlank(query) {
        assert SearchMessages(query, outcome) == [];
        return;
      }
      ghost var before := messages;
      AddMessage(MessageCall(query, User, SearchOptions));
      typingShown := true;
      requests := requests + [SearchRequest(query)];
      AddSearchReplies(outcome);
      inputValue := "";
      assert messages == before + ([MessageCall(query, User, SearchOptions)] + SearchReplies(outcome));
    }

    /**
     * The `keydown` handler of the message input: Enter without Shift runs a
     * web search on the trimmed input in search mode and a chat send in chat
     * mode; any other key changes nothing here.
     */
    method KeyDown(key: string, shiftKey: bool, chat: ChatOutcome, search: SearchOutcome)
      requires Valid()
      modifies this`attachments, this`badge, this`fileInputValue, this`inputValue
      modifies this`typingShown, this`messages, this`requests
      ensures Valid()
      ensures !(key == "Enter" && !shiftKey) ==> unchanged(this)
      ensures key == "Enter" && !shiftKey && old(mode) == SearchMode ==>
        && messages == old(messages) + SearchMessages(Trim(old(inputValue)), search)
        && requests == old(requests) +
             (if IsBlank(Trim(old(inputValue))) then [] else [SearchRequest(Trim(old(inputValue)))])
        && attachments == old(attachments)
      ensures key == "Enter" && !shiftKey && old(mode) == SearchMode ==>
        if IsBlank(Trim(old(inputValue))) then unchanged(this)
        else inputValue == "" && !typingShown && fileInputValue == old(fileInputValue) && badge == old(badge)
      ensures key == "Enter" && !shiftKey && old(mode) == ChatMode ==>
        && messages == old(messages) + ChatMessages(Trim(old(inputValue)), old(attachments), chat)
        && requests == old(requests) +
             (if SendsChat(Trim(old(inputValue)), old(attachments))
              then [ChatRequest(Trim(old(inputValue)), old(attachments))] else [])
        && attachments == [] && badge == None
      ensures key == "Enter" && !shiftKey && old(mode) == ChatMode ==>
        if !SendsChat(Trim(old(inputValue)), old(attachments)) then unchanged(this)
        else inputValue == "" && !typingShown && fileInputValue == ""
    {
      if key == "Enter" && !shiftKey {
        if mode == SearchMode {
          PerformWebSearch(Trim(inputValue), search);
        } else {
          SendMessageWithFile(chat);
        }
      }
    }
  }

  /** Two toggles leave the mode, the placeholder's meaning and the button as they were. */
  method ToggleTwice(s: Session)
    requires s.Valid()
    modifies s`mode, s`searchActive, s`placeholder, s`searchBackground
    ensures s.Valid() && s.mode == old(s.mode) && s.searchActive == old(s.searchActive)
    ensures s.placeholder == PlaceholderFor(s.mode)
    ensures s.searchBackground == if s.mode == SearchMode then SearchGradient else ""
  {
    s.ToggleSearchMode();
    s.ToggleSearchMode();
  }
}
