/**
 * Properties that span the client pages and the server: a question and
 * answer saved on the FAQ page is what the chat endpoint answers with, and
 * a chat stream written by the server and read back by a client yields
 * exactly the message the server stored.
 */
module EndToEnd {
  import opened Wrappers
  import opened Strings
  import opened Knowledge
  import opened Normalize
  import opened Schema
  import opened Sse
  import opened FaqMatch
  import opened ChatRoutes
  import opened QaPage

  /** Text that is not blank is not empty. */
  lemma NotBlankNotEmpty(s: string)
    requires !IsBlank(s)
    ensures s != ""
  {
  }

  /**
   * A pair that passes the FAQ page's guard, once stored at the head of the
   * newest-first document list, is the answer to every query that
   * normalizes to the same text as its question, whatever older documents
   * follow it.
   */
  lemma SavedFaqIsAnswered(docs: seq<Document>, assistantId: int, question: string, response: string,
                           now: int, id: int, query: string)
    requires !IsBlank(question) && !IsBlank(response)
    requires NormalizeText(query) == NormalizeText(question)
    ensures FaqAnswer(query, [Store(FaqRecord(assistantId, question, response, now), id)] + docs) == Some(response)
  {
    var d := Store(FaqRecord(assistantId, question, response, now), id);
    NotBlankNotEmpty(question);
    NotBlankNotEmpty(response);
    assert Answers(d, NormalizeText(query));
    assert ([d] + docs)[0] == d;
  }

  /** The same pair is not the answer to a query with a different normal form. */
  lemma OtherQueriesSkipSavedFaq(docs: seq<Document>, assistantId: int, question: string, response: string,
                                 now: int, id: int, query: string)
    requires NormalizeText(query) != NormalizeText(question)
    ensures FaqAnswer(query, [Store(FaqRecord(assistantId, question, response, now), id)] + docs) == FaqAnswer(query, docs)
  {
    var d := Store(FaqRecord(assistantId, question, response, now), id);
    assert !Answers(d, NormalizeText(query));
    assert ([d] + docs)[1..] == docs;
  }

  /**
   * A completed chat stream (either branch), written on the wire and read
   * back through a payload codec, yields exactly the message the server
   * stored for the reply: whether the client receives the whole body in
   * one read or one read per frame, and whether it skips blank payloads
   * or not.
   */
  lemma DeliveredTextIsStored(conversationId: int, answer: string, systemPrompt: string, docs: seq<Document>,
                              backend: Backend, before: seq<Message>, after: seq<Message>, reply: Reply,
                              request: Option<ModelRequest>, encode: Payload -> string,
                              parse: string -> Option<Payload>, skipBlank: bool)
    requires IsCodec(encode, parse)
    requires FaqOutcome(conversationId, answer, before, after, reply, request)
          || (ModelOutcome(conversationId, systemPrompt, docs, backend, before, after, reply, request) && !backend.fails)
    ensures reply.EventStream? && reply.ended && |after| == |before| + 1
    ensures ReadText(WireText(reply.frames, encode), parse, skipBlank) == after[|after| - 1].content
    ensures ReadsText(seq(|reply.frames|, i requires 0 <= i < |reply.frames| => FrameText(reply.frames[i], encode)), parse, skipBlank)
         == after[|after| - 1].content
  {
    if FaqOutcome(conversationId, answer, before, after, reply, request) {
      FaqStreamMatchesStore(conversationId, answer, before, after, reply, request);
    } else {
      ModelStreamMatchesStore(conversationId, systemPrompt, docs, backend, before, after, reply, request);
    }
    WireRoundTrip(reply.frames, encode, parse, skipBlank);
    FramePerReadRoundTrip(reply.frames, encode, parse, skipBlank);
  }

  /** A saved FAQ, asked again, reaches the client as exactly its stored answer. */
  lemma SavedFaqReachesClient(docs: seq<Document>, assistantId: int, question: string, response: string,
                              now: int, id: int, query: string, conversationId: int,
                              before: seq<Message>, after: seq<Message>, reply: Reply, request: Option<ModelRequest>,
                              encode: Payload -> string, parse: string -> Option<Payload>, skipBlank: bool)
    requires !IsBlank(question) && !IsBlank(response)
    requires NormalizeText(query) == NormalizeText(question)
    requires IsCodec(encode, parse)
    requires FaqAnswer(query, [Store(FaqRecord(assistantId, question, response, now), id)] + docs).Some?
    requires FaqOutcome(conversationId, FaqAnswer(query, [Store(FaqRecord(assistantId, question, response, now), id)] + docs).value,
                        before, after, reply, request)
    ensures ReadText(WireText(reply.frames, encode), parse, skipBlank) == response
  {
    SavedFaqIsAnswered(docs, assistantId, question, response, now, id, query);
    var answer := FaqAnswer(query, [Store(FaqRecord(assistantId, question, response, now), id)] + docs).value;
    DeliveredTextIsStored(conversationId, answer, "", [], Backend([], false), before, after, reply, request, encode, parse, skipBlank);
  }
}
