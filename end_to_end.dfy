/**
 * What the browser client sees of the backend's answers: a `/chat` or
 * `/search` response of the Flask app, read as the client's fetch outcome,
 * and the attachments the client sends, read as the backend's `file` field.
 */
module EndToEnd {
  import opened Wrappers
  import opened Text
  import opened Rendering
  import C = ClientSession
  import B = Chatbot
  import RateLimiting

  /** The client's view of a `/chat` response: its status and its `response` field. */
  function ChatOutcomeOf(r: B.HttpResponse): C.ChatOutcome {
    C.ChatAnswered(r.status, if r.body.ChatJson? then Some(r.body.response) else None)
  }

  /** The client's view of a `/search` response: its status and its `results` field. */
  function SearchOutcomeOf(r: B.HttpResponse): C.SearchOutcome {
    C.SearchAnswered(r.status, if r.body.SearchJson? then Some(r.body.results) else None)
  }

  /** The `file` field the backend reads from the client's `attachments`. */
  function FileFieldOf(atts: seq<C.Attachment>): (f: B.FileField)
    ensures f.FileList? && |f.items| == |atts|
    ensures forall k :: 0 <= k < |atts| ==>
      f.items[k] == B.FileEntry(Some(atts[k].name), Some(atts[k].mimeType), Some(atts[k].data), false)
  {
    B.FileList(seq(|atts|, k requires 0 <= k < |atts| => B.FileEntry(Some(atts[k].name), Some(atts[k].mimeType), Some(atts[k].data), false)))
  }

  /** A request refused by the rate limiter reaches the user as the connection-lost message. */
  lemma RefusedChatShowsConnectionLost(atts: seq<C.Attachment>)
    ensures C.ChatReply(atts, ChatOutcomeOf(B.HttpResponse(429, B.ChatJson(B.TooFast))))
            == MessageCall(C.ConnectionLost, Bot, NoOptions)
    ensures C.ChatReply(atts, ChatOutcomeOf(B.HttpResponse(500, B.ChatJson(B.ChatEndpointError))))
            == MessageCall(C.ConnectionLost, Bot, NoOptions)
  {
  }

  /** An image as the first attachment sends the backend down the vision path, and only that path. */
  lemma ImageAttachmentTakesVisionPath(input: string, atts: seq<C.Attachment>, m: B.Models)
    requires C.FirstIsImage(atts)
    ensures B.GenerateResponse(input, FileFieldOf(atts), m).consulted == [B.VisionModel]
    ensures B.GenerateResponse(input, FileFieldOf(atts), m).text == B.ProcessImage(m.vision(atts[0].data, input))
  {
    var f := FileFieldOf(atts);
    assert f.items[0] == B.FileEntry(Some(atts[0].name), Some(atts[0].mimeType), Some(atts[0].data), false);
    assert B.IsImageEntry(f.items[0]);
  }

  /**
   * An accepted chat send whose reply text is non-empty shows that text; with
   * an image first among the attachments it is shown as image-analysis HTML.
   */
  lemma AcceptedReplyShown(input: string, atts: seq<C.Attachment>, m: B.Models)
    requires C.SendsChat(input, atts)
    requires B.GenerateResponse(input, FileFieldOf(atts), m).text != ""
    ensures var text := B.GenerateResponse(input, FileFieldOf(atts), m).text;
            var reply := C.ChatReply(atts, ChatOutcomeOf(B.ChatEndpoint(Success(B.ChatBody(Some(input), FileFieldOf(atts))), m)));
            && reply.content == text
            && Shown(Render(reply)) == if C.FirstIsImage(atts) then FormatImageAnalysis(text) else text
  {
  }

  /** A non-blank query from the client is never refused with 400, and every result line becomes one bot message, in order. */
  lemma NonBlankSearchShowsEveryResult(query: string, m: B.Models)
    requires !IsBlank(query)
    ensures var results := B.WebSearch(query, m);
            var calls := C.SearchMessages(query, SearchOutcomeOf(B.SearchEndpoint(Success(B.SearchBody(Some(query))), m)));
            && B.SearchEndpoint(Success(B.SearchBody(Some(query))), m).status == 200
            && |calls| == 1 + |results|
            && forall k :: 0 <= k < |results| ==> calls[k + 1] == MessageCall(results[k], Bot, C.SearchOptions)
  {
    assert Trim("") == "";
    assert query != "";
  }
}
