/**
 * client/src/hooks/use-chat-session.ts: the history query and the hook
 * that posts a message and accumulates the streamed answer. The HTTP
 * response is a parameter: its status and, when it has a body, the texts
 * of the successive reads (already decoded).
 */
module ChatSession {
  import opened Wrappers
  import opened Strings
  import opened Schema
  import opened Sse
  import opened SharedRoutes

  /** A fetch response: its status and, for a streaming body, the decoded reads. */
  datatype StreamResponse = StreamResponse(status: int, body: Option<seq<string>>)

  /** `response.ok`. */
  predicate Ok(status: int) {
    200 <= status <= 299
  }

  /** A history fetch: its status and the parsed message list (`None` when the body does not parse). */
  datatype HistoryResponse = HistoryResponse(status: int, messages: Option<seq<Message>>)

  /** The state of a react-query query. */
  datatype QueryState<T> = Disabled | Data(value: T) | Failed(message: string)

  /** The query function of `useChatHistory`; `fetchHistory` answers the request for a url. */
  function HistoryQueryFn(sessionId: int, fetchHistory: string -> HistoryResponse): (r: QueryState<seq<Message>>)
    ensures sessionId == 0 ==> r == Data([])
    ensures sessionId != 0 && fetchHistory(Fill(ChatHistory.path, [("id", Number(sessionId))])).status == 404 ==> r == Data([])
    ensures r != Disabled
    ensures sessionId != 0 ==>
      var res := fetchHistory(Fill(ChatHistory.path, [("id", Number(sessionId))]));
      && (res.status != 404 && !Ok(res.status) ==> r == Failed("Failed to fetch history"))
      && (res.status != 404 && Ok(res.status) && res.messages.Some? ==> r == Data(res.messages.value))
      && (r.Data? <==> res.status == 404 || (Ok(res.status) && res.messages.Some?))
  {
    if sessionId == 0 then Data([])
    else
      var res := fetchHistory(Fill(ChatHistory.path, [("id", Number(sessionId))]));
      if res.status == 404 then Data([])
      else if !Ok(res.status) then Failed("Failed to fetch history")
      else match res.messages
        case None => Failed("history response did not parse")
        case Some(ms) => Data(ms)
  }

  /** `useChatHistory`: the query only runs for a truthy session id. */
  function UseChatHistory(sessionId: int, fetchHistory: string -> HistoryResponse): (r: QueryState<seq<Message>>)
    ensures sessionId == 0 <==> r == Disabled
    ensures sessionId != 0 ==> r == HistoryQueryFn(sessionId, fetchHistory)
  {
    if sessionId == 0 then Disabled else HistoryQueryFn(sessionId, fetchHistory)
  }

  /** The history is requested from `/api/chat/session/<id>/history`, and a 404 there reads as no messages. */
  lemma HistoryOfMissingSession(sessionId: int, fetchHistory: string -> HistoryResponse)
    requires sessionId != 0
    requires fetchHistory("/api/chat/session/" + IntToString(sessionId) + "/history").status == 404
    ensures UseChatHistory(sessionId, fetchHistory) == Data([])
  {
    SessionPaths(sessionId);
  }

  /** The state `useChatStream` keeps. */
  class ChatStream {
    const sessionId: int
    var streamingContent: string
    var isStreaming: bool

    constructor (sessionId: int)
      ensures this.sessionId == sessionId && streamingContent == "" && !isStreaming
    {
      this.sessionId := sessionId;
      streamingContent := "";
      isStreaming := false;
    }

    /** The body of the `for` over one read's lines. */
    method ConsumeLine(line: string, parse: string -> Option<Payload>)
      modifies this`streamingContent
      ensures streamingContent == old(streamingContent) + LineDelta(line, parse, true)
    {
      if StartsWith(line, DataPrefix) {
        var jsonStr := line[6..];
        if IsBlank(jsonStr) {
          return;
        }
        var data := parse(jsonStr);
        if data.None? {
          // the parse error is logged and the line skipped
          return;
        }
        if data.value.content.Some? && data.value.content.value != "" {
          streamingContent := streamingContent + data.value.content.value;
        }
      }
    }

    /** One read: `chunkValue.split('\n')` and every line in order. */
    method ConsumeRead(chunk: string, parse: string -> Option<Payload>)
      modifies this`streamingContent
      ensures streamingContent == old(streamingContent) + ReadText(chunk, parse, true)
    {
      var lines := Split(chunk, '\n');
      ghost var start := streamingContent;
      ghost var acc := "";
      var j := 0;
      while j < |lines|
        invariant 0 <= j <= |lines|
        invariant acc == LinesText(lines[..j], parse, true)
        invariant streamingContent == start + acc
      {
        ConsumeLine(lines[j], parse);
        LinesTextPrefix(lines, j, parse, true);
        ghost var delta := LineDelta(lines[j], parse, true);
        AppendAssoc(start, acc, delta);
        acc := acc + delta;
        j := j + 1;
      }
      assert lines[..j] == lines;
    }

    /**
     * The read loop: reads are handled in order, and a line that fails to
     * parse does not stop the lines after it.
     */
    method Consume(chunks: seq<string>, parse: string -> Option<Payload>)
      modifies this`streamingContent
      ensures streamingContent == old(streamingContent) + ReadsText(chunks, parse, true)
    {
      ghost var start := streamingContent;
      ghost var acc := "";
      var i := 0;
      while i < |chunks|
        invariant 0 <= i <= |chunks|
        invariant acc == ReadsText(chunks[..i], parse, true)
        invariant streamingContent == start + acc
      {
        ConsumeRead(chunks[i], parse);
        ReadsTextPrefix(chunks, i, parse, true);
        ghost var read := ReadText(chunks[i], parse, true);
        AppendAssoc(start, acc, read);
        acc := acc + read;
        i := i + 1;
      }
      assert chunks[..i] == chunks;
    }

    /**
     * `sendMessage(content)` through to `onSuccess` or `onError`. Returns
     * the url posted to, whether the mutation succeeded, and the streamed
     * text as it stood when the read loop ended (what the page showed
     * last before `onSuccess` cleared it).
     */
    method Send(content: string, response: StreamResponse, parse: string -> Option<Payload>)
      returns (url: string, succeeded: bool, streamed: string)
      modifies this`streamingContent, this`isStreaming
      ensures url == "/api/chat/session/" + IntToString(sessionId) + "/message"
      ensures succeeded <==> Ok(response.status)
      ensures !Ok(response.status) ==> streamed == ""
      ensures Ok(response.status) && response.body.None? ==> streamed == ""
      ensures Ok(response.status) && response.body.Some? ==> streamed == ReadsText(response.body.value, parse, true)
      ensures !isStreaming && streamingContent == ""
    {
      isStreaming := true;
      streamingContent := "";
      url := BuildUrl(ChatSendMessage.path, Some([("id", Number(sessionId))]));
      SessionPaths(sessionId);
      if !Ok(response.status) {
        // the mutation throws: onError
        streamed := streamingContent;
        isStreaming := false;
        return url, false, streamed;
      }
      if response.body.Some? {
        Consume(response.body.value, parse);
      }
      streamed := streamingContent;
      // onSuccess
      isStreaming := false;
      streamingContent := "";
      succeeded := true;
    }
  }
}
