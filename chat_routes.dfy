/**
 * The public chat endpoint of server/routes.ts together with the helpers it
 * calls: the knowledge-base block handed to the model, the mapping of the
 * stored history to model turns, the relay of model chunks as stream
 * frames, and the demo-first order of the assistant list.
 *
 * The database is the four in-memory collections of `ChatServer`; the
 * generative model is a `Backend`: the finite list of chunk texts it yields
 * and whether the stream throws after yielding them.
 */
module ChatRoutes {
  import opened Wrappers
  import opened Strings
  import opened Knowledge
  import opened Schema
  import opened Sse
  import opened FaqMatch

  const GeminiModel := "gemini-2.5-flash"
  const NoInformation := "No information available."
  const Preamble :=
    "You are a library assistant. Answer questions using ONLY the knowledge base below.\n"
    + "If the answer is not in the knowledge base, say: \"I don't have that information. Please contact library staff.\"\n\n"
  const KnowledgeHeading := "\n\nKNOWLEDGE BASE:\n"
  const EntrySeparator := "\n\n"

  /** One model turn: `{ role, parts: [{ text }] }`. */
  datatype Turn = Turn(role: string, text: string)

  /** The arguments of the streaming model call. */
  datatype ModelRequest = ModelRequest(model: string, contents: seq<Turn>, systemInstruction: string)

  /** What the model stream yields (`chunk.text || ""`) and whether it throws afterwards. */
  datatype Backend = Backend(chunks: seq<string>, fails: bool)

  /** The HTTP response: a JSON error, or an event stream that was or was not ended. */
  datatype Reply =
    | JsonReply(status: int, message: string)
    | EventStream(frames: seq<Payload>, ended: bool)

  // ---------------------------------------------------------------------
  // Knowledge-base block

  /** A document that the block shows as a question/answer pair. */
  predicate IsFaqEntry(d: Document) {
    d.sourceType == FaqType && d.metadata.Some?
    && Truthy(d.metadata.value.question) && Truthy(d.metadata.value.response)
  }

  /** A nullable text column interpolated into a template literal. */
  function Interpolated(s: Option<string>): string {
    match s
    case None => "null"
    case Some(t) => t
  }

  /** The entry one document contributes to the block. */
  function ContextEntry(d: Document): (e: string)
    ensures IsFaqEntry(d) ==> e == "Q: " + d.metadata.value.question.value + "\nA: " + d.metadata.value.response.value
    ensures !IsFaqEntry(d) ==> e == "[" + d.title + "]\n" + Interpolated(d.content)
    ensures e != []
  {
    if IsFaqEntry(d) then "Q: " + d.metadata.value.question.value + "\nA: " + d.metadata.value.response.value
    else "[" + d.title + "]\n" + Interpolated(d.content)
  }

  function Entries(docs: seq<Document>): (r: seq<string>)
    ensures |r| == |docs|
    ensures forall i :: 0 <= i < |docs| ==> r[i] == ContextEntry(docs[i])
  {
    seq(|docs|, i requires 0 <= i < |docs| => ContextEntry(docs[i]))
  }

  /** `formattedContext`: every document's entry, in list order, joined by a blank line. */
  function FormatContext(docs: seq<Document>): string {
    Join(Entries(docs), EntrySeparator)
  }

  /** The block is empty exactly when there are no documents. */
  lemma FormatContextEmptyIff(docs: seq<Document>)
    ensures FormatContext(docs) == [] <==> docs == []
  {
    if docs != [] {
      var es := Entries(docs);
      assert es[0] == ContextEntry(docs[0]);
      if |es| > 1 {
        assert |Join(es, EntrySeparator)| >= |es[0]|;
      }
    }
  }

  /** The block lists the documents in order: the first entry, a blank line, then the rest. */
  lemma FormatContextCons(d: Document, rest: seq<Document>)
    requires rest != []
    ensures FormatContext([d] + rest) == ContextEntry(d) + EntrySeparator + FormatContext(rest)
  {
    assert Entries([d] + rest)[1..] == Entries(rest);
  }

  /** Each piece of a join occurs in it, at the offset the pieces before it and their separators take. */
  lemma {:induction false} JoinPieceAt(pieces: seq<string>, sep: string, i: nat) returns (k: nat)
    requires i < |pieces|
    ensures OccursAt(Join(pieces, sep), pieces[i], k)
  {
    if |pieces| == 1 {
      k := 0;
    } else if i == 0 {
      k := 0;
      var joined := Join(pieces, sep);
      assert joined == pieces[0] + sep + Join(pieces[1..], sep);
      assert joined[..|pieces[0]|] == pieces[0];
    } else {
      var k' := JoinPieceAt(pieces[1..], sep, i - 1);
      var tail := Join(pieces[1..], sep);
      var joined := Join(pieces, sep);
      k := |pieces[0]| + |sep| + k';
      assert joined == pieces[0] + sep + tail;
      assert pieces[1..][i - 1] == pieces[i];
      assert joined[k..k + |pieces[i]|] == tail[k'..k' + |pieces[i]|];
    }
  }

  /** Every document's entry occurs in the block. */
  lemma FormatContextMentionsAll(docs: seq<Document>, i: nat)
    requires i < |docs|
    ensures Contains(FormatContext(docs), ContextEntry(docs[i]))
  {
    var k := JoinPieceAt(Entries(docs), EntrySeparator, i);
    ContainsIff(FormatContext(docs), ContextEntry(docs[i]));
  }

  /** The system instruction: fixed preamble, the assistant's prompt, the block or its placeholder. */
  function SystemInstruction(systemPrompt: string, docs: seq<Document>): (r: string)
    ensures docs == [] ==> r == Preamble + systemPrompt + KnowledgeHeading + NoInformation
    ensures docs != [] ==> r == Preamble + systemPrompt + KnowledgeHeading + FormatContext(docs)
  {
    FormatContextEmptyIff(docs);
    var block := FormatContext(docs);
    Preamble + systemPrompt + KnowledgeHeading + (if block == [] then NoInformation else block)
  }

  // ---------------------------------------------------------------------
  // History mapping

  /** The stored history as model turns. */
  function HistoryTurns(history: seq<Message>): (r: seq<Turn>)
    ensures |r| == |history|
    ensures forall i :: 0 <= i < |history| ==>
      r[i].text == history[i].content
      && (r[i].role == UserRole || r[i].role == ModelRole)
      && (r[i].role == UserRole <==> history[i].role == UserRole)
  {
    seq(|history|, i requires 0 <= i < |history| =>
      Turn(if history[i].role == UserRole then UserRole else ModelRole, history[i].content))
  }

  lemma HistoryTurnsConcat(a: seq<Message>, b: seq<Message>)
    ensures HistoryTurns(a + b) == HistoryTurns(a) + HistoryTurns(b)
  {
  }

  // ---------------------------------------------------------------------
  // Demo-first order of the assistant list

  predicate NotDemo(a: Assistant) {
    !IsDemo(a)
  }

  /** The list after the stable sort by the comparator `(b.isDemo ? 1 : 0) - (a.isDemo ? 1 : 0)`. */
  function DemoFirst(list: seq<Assistant>): seq<Assistant> {
    Filter(list, IsDemo) + Filter(list, NotDemo)
  }

  lemma {:induction false} FilterSplitsMultiset(list: seq<Assistant>)
    ensures multiset(Filter(list, IsDemo)) + multiset(Filter(list, NotDemo)) == multiset(list)
  {
    if list != [] {
      FilterSplitsMultiset(list[1..]);
      assert list == [list[0]] + list[1..];
    }
  }

  /** Everything a filter keeps satisfies its predicate. */
  lemma {:induction false} FilterAllSatisfy<T(!new)>(list: seq<T>, keep: T -> bool)
    ensures forall i :: 0 <= i < |Filter(list, keep)| ==> keep(Filter(list, keep)[i])
  {
    var r := Filter(list, keep);
    FilterMembers(list, keep);
    forall i | 0 <= i < |r| ensures keep(r[i]) {
      assert r[i] in r;
    }
  }

  /**
   * The demo-first list is a permutation of the stored list, every demo
   * assistant precedes every other one, and within each group the store's
   * order (newest first) is kept.
   */
  lemma DemoFirstSorted(list: seq<Assistant>)
    ensures multiset(DemoFirst(list)) == multiset(list)
    ensures forall i, j :: 0 <= i < j < |DemoFirst(list)| && IsDemo(DemoFirst(list)[j]) ==> IsDemo(DemoFirst(list)[i])
    ensures Filter(DemoFirst(list), IsDemo) == Filter(list, IsDemo)
    ensures Filter(DemoFirst(list), NotDemo) == Filter(list, NotDemo)
  {
    var demos := Filter(list, IsDemo);
    var others := Filter(list, NotDemo);
    FilterSplitsMultiset(list);
    FilterAllSatisfy(list, IsDemo);
    FilterAllSatisfy(list, NotDemo);
    var r := DemoFirst(list);
    forall k | 0 <= k < |r| ensures IsDemo(r[k]) <==> k < |demos| {
      if k < |demos| {
        assert r[k] == demos[k];
      } else {
        assert r[k] == others[k - |demos|];
      }
    }
    FilterConcat(demos, others, IsDemo);
    FilterConcat(demos, others, NotDemo);
    FilterAll(demos, IsDemo);
    FilterAll(others, NotDemo);
    FilterNone(demos, NotDemo);
    FilterNone(others, IsDemo);
    assert demos + [] == demos;
    assert [] + others == others;
  }

  lemma {:induction false} FilterNone(s: seq<Assistant>, keep: Assistant -> bool)
    requires forall i :: 0 <= i < |s| ==> !keep(s[i])
    ensures Filter(s, keep) == []
  {
    if s != [] {
      FilterNone(s[1..], keep);
    }
  }

  // ---------------------------------------------------------------------
  // Relaying the model stream

  predicate IsNonEmpty(t: string) {
    t != ""
  }

  function Concat(ts: seq<string>): string {
    if ts == [] then "" else Concat(ts[..|ts| - 1]) + ts[|ts| - 1]
  }

  function ContentFrames(ts: seq<string>): (r: seq<Payload>)
    ensures |r| == |ts|
    ensures forall i :: 0 <= i < |ts| ==> r[i] == ContentPayload(ts[i])
  {
    seq(|ts|, i requires 0 <= i < |ts| => ContentPayload(ts[i]))
  }

  lemma {:induction false} ConcatSkipsEmpty(ts: seq<string>)
    ensures Concat(Filter(ts, IsNonEmpty)) == Concat(ts)
  {
    if ts != [] {
      var init := ts[..|ts| - 1];
      var last := ts[|ts| - 1];
      assert ts == init + [last];
      ConcatSkipsEmpty(init);
      FilterConcat(init, [last], IsNonEmpty);
      assert [last][1..] == [];
      var kept := Filter(init, IsNonEmpty);
      if last != "" {
        var f := kept + [last];
        assert Filter(ts, IsNonEmpty) == f;
        assert f[..|f| - 1] == kept;
      } else {
        assert Filter(ts, IsNonEmpty) == kept + [];
        assert kept + [] == kept;
      }
    }
  }

  /** The frames of a list of texts deliver the concatenation of the texts. */
  lemma {:induction false} ContentFramesDeliver(ts: seq<string>)
    ensures StreamedText(ContentFrames(ts)) == Concat(ts)
  {
    if ts != [] {
      var init := ts[..|ts| - 1];
      ContentFramesDeliver(init);
      assert ContentFrames(ts) == ContentFrames(init) + [ContentPayload(ts[|ts| - 1])];
      StreamedTextConcat(ContentFrames(init), [ContentPayload(ts[|ts| - 1])]);
    }
  }

  /**
   * The `for await` loop: every non-empty chunk, in order, is written as a
   * content frame and appended to `fullResponse`; empty chunks are skipped.
   */
  method Relay(chunks: seq<string>) returns (frames: seq<Payload>, fullResponse: string)
    ensures frames == ContentFrames(Filter(chunks, IsNonEmpty))
    ensures forall i :: 0 <= i < |frames| ==> frames[i].content.Some? && frames[i].content.value != "" && !frames[i].done
    ensures fullResponse == Concat(chunks)
    ensures StreamedText(frames) == fullResponse
  {
    frames := [];
    fullResponse := "";
    var i := 0;
    while i < |chunks|
      invariant 0 <= i <= |chunks|
      invariant frames == ContentFrames(Filter(chunks[..i], IsNonEmpty))
      invariant fullResponse == Concat(chunks[..i])
    {
      var text := chunks[i];
      assert chunks[..i + 1] == chunks[..i] + [text];
      assert chunks[..i + 1][..i] == chunks[..i];
      FilterConcat(chunks[..i], [text], IsNonEmpty);
      if text != "" {
        fullResponse := fullResponse + text;
        frames := frames + [ContentPayload(text)];
      }
      i := i + 1;
    }
    assert chunks[..i] == chunks;
    FilterAllSatisfy(chunks, IsNonEmpty);
    ConcatSkipsEmpty(chunks);
    ContentFramesDeliver(Filter(chunks, IsNonEmpty));
  }

  // ---------------------------------------------------------------------
  // The server

  /** `getDocuments(assistantId)`: that assistant's documents, in store order (newest first). */
  function DocumentsFor(documents: seq<Document>, assistantId: int): seq<Document> {
    Filter(documents, (d: Document) => d.assistantId == assistantId)
  }

  /** `getMessages(conversationId)`: that conversation's messages, in store order (oldest first). */
  function MessagesOf(messages: seq<Message>, conversationId: int): seq<Message> {
    Filter(messages, (m: Message) => m.conversationId == conversationId)
  }

  /** The FAQ branch: the answer and a done frame are streamed, and the answer is stored; no model request. */
  predicate FaqOutcome(conversationId: int, answer: string, before: seq<Message>, after: seq<Message>,
                       reply: Reply, request: Option<ModelRequest>) {
    && request == None
    && reply == EventStream([ContentPayload(answer), DonePayload], true)
    && after == before + [Message(conversationId, ModelRole, answer)]
  }

  /**
   * The model branch: the request carries the whole stored history and the
   * knowledge-base instruction; the non-empty chunks are streamed; on
   * success their concatenation is stored and a done frame follows; when
   * the stream throws nothing is stored, and the reply is a 500 only if no
   * frame had been written.
   */
  predicate ModelOutcome(conversationId: int, systemPrompt: string, docs: seq<Document>, backend: Backend,
                         before: seq<Message>, after: seq<Message>, reply: Reply, request: Option<ModelRequest>) {
    && request == Some(ModelRequest(GeminiModel,
         HistoryTurns(MessagesOf(before, conversationId)), SystemInstruction(systemPrompt, docs)))
    && var emitted := Filter(backend.chunks, IsNonEmpty);
    && (!backend.fails ==>
          reply == EventStream(ContentFrames(emitted) + [DonePayload], true)
          && after == before + [Message(conversationId, ModelRole, Concat(backend.chunks))])
    && (backend.fails && emitted == [] ==> reply == JsonReply(500, "Chat failed") && after == before)
    && (backend.fails && emitted != [] ==> reply == EventStream(ContentFrames(emitted), false) && after == before)
  }

  /** A completed FAQ stream delivers exactly the stored answer, and ends with its only done frame. */
  lemma FaqStreamMatchesStore(conversationId: int, answer: string, before: seq<Message>, after: seq<Message>,
                              reply: Reply, request: Option<ModelRequest>)
    requires FaqOutcome(conversationId, answer, before, after, reply, request)
    ensures reply.EventStream? && reply.ended
    ensures |after| == |before| + 1 && after[|before|] == Message(conversationId, ModelRole, answer)
    ensures StreamedText(reply.frames) == after[|after| - 1].content
    ensures reply.frames[|reply.frames| - 1] == DonePayload
    ensures forall i :: 0 <= i < |reply.frames| - 1 ==> !reply.frames[i].done
  {
    assert reply.frames[1..] == [DonePayload];
    assert Delta(DonePayload) == "";
    assert StreamedText([DonePayload]) == "";
    assert StreamedText(reply.frames) == answer + StreamedText([DonePayload]);
  }

  /**
   * Whatever the backend yields, a completed model stream delivers exactly
   * the message stored for it, and ends with its only done frame; a failed
   * one stores nothing beyond what was there.
   */
  lemma ModelStreamMatchesStore(conversationId: int, systemPrompt: string, docs: seq<Document>, backend: Backend,
                                before: seq<Message>, after: seq<Message>, reply: Reply, request: Option<ModelRequest>)
    requires ModelOutcome(conversationId, systemPrompt, docs, backend, before, after, reply, request)
    ensures reply.EventStream? && reply.ended <==> !backend.fails
    ensures reply.EventStream? && reply.ended ==>
      && |after| == |before| + 1 && after[|before|].role == ModelRole
      && StreamedText(reply.frames) == after[|after| - 1].content
      && reply.frames[|reply.frames| - 1] == DonePayload
      && forall i :: 0 <= i < |reply.frames| - 1 ==> !reply.frames[i].done
    ensures backend.fails ==> after == before
  {
    var emitted := Filter(backend.chunks, IsNonEmpty);
    if !backend.fails {
      StreamedTextConcat(ContentFrames(emitted), [DonePayload]);
      assert StreamedText([DonePayload]) == "";
      ContentFramesDeliver(emitted);
      ConcatSkipsEmpty(backend.chunks);
    }
  }

  /**
   * The answer to `content`, stored after `before`: the FAQ answer when the
   * documents hold one, else the model's.
   */
  predicate Answered(conversationId: int, content: string, systemPrompt: string, docs: seq<Document>, backend: Backend,
                     before: seq<Message>, after: seq<Message>, reply: Reply, request: Option<ModelRequest>)
  {
    match FaqAnswer(content, docs)
    case Some(answer) => FaqOutcome(conversationId, answer, before, after, reply, request)
    case None => ModelOutcome(conversationId, systemPrompt, docs, backend, before, after, reply, request)
  }

  class ChatServer {
    var conversations: map<int, Conversation>
    var assistants: map<int, Assistant>
    /** Every stored document, newest first. */
    var documents: seq<Document>
    /** Every stored message, oldest first. */
    var messages: seq<Message>

    constructor (conversations: map<int, Conversation>, assistants: map<int, Assistant>,
                 documents: seq<Document>, messages: seq<Message>)
      ensures this.conversations == conversations && this.assistants == assistants
      ensures this.documents == documents && this.messages == messages
    {
      this.conversations := conversations;
      this.assistants := assistants;
      this.documents := documents;
      this.messages := messages;
    }

    function DocumentsOf(assistantId: int): seq<Document>
      reads this`documents
    {
      DocumentsFor(documents, assistantId)
    }

    function History(conversationId: int): seq<Message>
      reads this`messages
    {
      MessagesOf(messages, conversationId)
    }

    /** The conversation exists and names an assistant (a truthy id). */
    predicate HasAssistant(conversationId: int)
      reads this`conversations, this`assistants
    {
      conversationId in conversations
      && conversations[conversationId].assistantId.Some?
      && conversations[conversationId].assistantId.value != 0
    }

    /** Both lookups succeed. */
    predicate Ready(conversationId: int)
      reads this`conversations, this`assistants
    {
      HasAssistant(conversationId) && conversations[conversationId].assistantId.value in assistants
    }

    function AssistantOf(conversationId: int): Assistant
      requires Ready(conversationId)
      reads this`conversations, this`assistants
    {
      assistants[conversations[conversationId].assistantId.value]
    }

    /**
     * POST /api/chat/:id/message. The two 404s store nothing; otherwise the
     * user message is stored first. An FAQ hit streams the answer and a
     * done frame and stores the answer, without a model request. Otherwise
     * the model is asked with the whole history and every document of the
     * assistant, its chunks are relayed, and their concatenation is stored
     * before the done frame. If the model stream throws, nothing more is
     * stored: the reply is a 500 when no frame was written yet, else the
     * stream is left as it stands, without a done frame.
     */
    method SendMessage(conversationId: int, content: string, backend: Backend)
      returns (reply: Reply, request: Option<ModelRequest>)
      modifies this`messages
      ensures !HasAssistant(conversationId) ==>
        reply == JsonReply(404, "Session not found") && request == None && messages == old(messages)
      ensures HasAssistant(conversationId) && !Ready(conversationId) ==>
        reply == JsonReply(404, "Assistant not found") && request == None && messages == old(messages)
      ensures Ready(conversationId) ==>
        var stored := old(messages) + [Message(conversationId, UserRole, content)];
        var a := AssistantOf(conversationId);
        var docs := DocumentsOf(a.id);
        Answered(conversationId, content, a.systemPrompt, docs, backend, stored, messages, reply, request)
    {
      if !HasAssistant(conversationId) {
        return JsonReply(404, "Session not found"), None;
      }
      var assistantId := conversations[conversationId].assistantId.value;
      if assistantId !in assistants {
        return JsonReply(404, "Assistant not found"), None;
      }
      var assistant := assistants[assistantId];
      var user := Message(conversationId, UserRole, content);
      messages := messages + [user];
      var stored := messages;
      reply, request := Answer(conversationId, content, assistant.systemPrompt, DocumentsOf(assistant.id), backend);
    }

    /** After the user message is stored: the FAQ answer if there is one, else the model's. */
    method Answer(conversationId: int, content: string, systemPrompt: string, docs: seq<Document>, backend: Backend)
      returns (reply: Reply, request: Option<ModelRequest>)
      modifies this`messages
      ensures Answered(conversationId, content, systemPrompt, docs, backend, old(messages), messages, reply, request)
    {
      var faqAnswer := FindFaqMatch(content, docs);
      if faqAnswer.Some? && faqAnswer.value != "" {
        reply := AnswerFromFaq(conversationId, faqAnswer.value);
        request := None;
      } else {
        reply, request := AnswerFromModel(conversationId, systemPrompt, docs, backend);
      }
    }

    /** The FAQ branch: the answer frame, the stored answer, the done frame. */
    method AnswerFromFaq(conversationId: int, answer: string) returns (reply: Reply)
      modifies this`messages
      ensures FaqOutcome(conversationId, answer, old(messages), messages, reply, None)
    {
      var frames := [ContentPayload(answer)];
      messages := messages + [Message(conversationId, ModelRole, answer)];
      frames := frames + [DonePayload];
      reply := EventStream(frames, true);
    }

    /** The model branch, after the user message is stored. */
    method AnswerFromModel(conversationId: int, systemPrompt: string, docs: seq<Document>, backend: Backend)
      returns (reply: Reply, request: Option<ModelRequest>)
      modifies this`messages
      ensures ModelOutcome(conversationId, systemPrompt, docs, backend, old(messages), messages, reply, request)
    {
      var systemInstruction := SystemInstruction(systemPrompt, docs);
      var contents := HistoryTurns(History(conversationId));
      request := Some(ModelRequest(GeminiModel, contents, systemInstruction));
      var frames, fullResponse := Relay(backend.chunks);
      if backend.fails {
        if frames == [] {
          reply := JsonReply(500, "Chat failed");
        } else {
          reply := EventStream(frames, false);
        }
        return;
      }
      messages := messages + [Message(conversationId, ModelRole, fullResponse)];
      reply := EventStream(frames + [DonePayload], true);
    }
  }
}
