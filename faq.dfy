/**
 * `findFaqMatch` of server/routes.ts: the deterministic answer path. A
 * document answers a query when it is an FAQ document, its metadata has a
 * non-empty question and a non-empty response, and the question normalizes
 * to the same text as the query; the first such document in list order wins.
 */
module FaqMatch {
  import opened Wrappers
  import opened Strings
  import opened Knowledge
  import opened Normalize

  /** `doc` answers a query whose normalized form is `nq`. */
  predicate Answers(doc: Document, nq: string) {
    && doc.sourceType == FaqType
    && doc.metadata.Some?
    && Truthy(doc.metadata.value.question)
    && Truthy(doc.metadata.value.response)
    && NormalizeText(doc.metadata.value.question.value) == nq
  }

  function ResponseOf(doc: Document): string
    requires doc.metadata.Some? && doc.metadata.value.response.Some?
  {
    doc.metadata.value.response.value
  }

  /** The answer for normalized query `nq`: the response of the first document that answers it. */
  function FirstAnswer(docs: seq<Document>, nq: string): Option<string> {
    if docs == [] then None
    else if Answers(docs[0], nq) then Some(ResponseOf(docs[0]))
    else FirstAnswer(docs[1..], nq)
  }

  /** What findFaqMatch(query, docs) returns. */
  function FaqAnswer(query: string, docs: seq<Document>): Option<string> {
    FirstAnswer(docs, NormalizeText(query))
  }

  /** No answer exactly when no document answers. */
  lemma {:induction false} NoAnswerIffNoMatch(docs: seq<Document>, nq: string)
    ensures FirstAnswer(docs, nq).None? <==> forall i :: 0 <= i < |docs| ==> !Answers(docs[i], nq)
  {
    if docs != [] && !Answers(docs[0], nq) {
      NoAnswerIffNoMatch(docs[1..], nq);
      forall i | 1 <= i < |docs| ensures docs[i] == docs[1..][i - 1] { }
    }
  }

  /** An answer is the response of the earliest answering document, whose index this returns. */
  lemma {:induction false} AnswerIsFirstMatch(docs: seq<Document>, nq: string) returns (i: nat)
    requires FirstAnswer(docs, nq).Some?
    ensures i < |docs| && Answers(docs[i], nq)
    ensures FirstAnswer(docs, nq).value == ResponseOf(docs[i])
    ensures forall j :: 0 <= j < i ==> !Answers(docs[j], nq)
  {
    if Answers(docs[0], nq) {
      i := 0;
    } else {
      var k := AnswerIsFirstMatch(docs[1..], nq);
      i := k + 1;
      forall j | 1 <= j < i ensures docs[j] == docs[1..][j - 1] { }
    }
  }

  /** One step of the walk: the answer from position `i` on is decided by `docs[i]` or left to the rest. */
  lemma FirstAnswerStep(docs: seq<Document>, i: nat, nq: string)
    requires i < |docs|
    ensures Answers(docs[i], nq) ==> FirstAnswer(docs[i..], nq) == Some(ResponseOf(docs[i]))
    ensures !Answers(docs[i], nq) ==> FirstAnswer(docs[i..], nq) == FirstAnswer(docs[i + 1..], nq)
  {
    assert docs[i..][0] == docs[i] && docs[i..][1..] == docs[i + 1..];
  }

  /**
   * findFaqMatch: walks the documents in order and returns at the first
   * one that answers the query, or nothing.
   */
  method FindFaqMatch(userQuestion: string, docs: seq<Document>) returns (answer: Option<string>)
    ensures answer == FaqAnswer(userQuestion, docs)
    ensures answer.Some? ==> answer.value != ""
  {
    var normalizedQuery := NormalizeText(userQuestion);
    var i := 0;
    while i < |docs|
      invariant 0 <= i <= |docs|
      invariant FirstAnswer(docs, normalizedQuery) == FirstAnswer(docs[i..], normalizedQuery)
    {
      var doc := docs[i];
      FirstAnswerStep(docs, i, normalizedQuery);
      if doc.sourceType == FaqType {
        var meta := doc.metadata;
        if meta.Some? && Truthy(meta.value.question) && Truthy(meta.value.response) {
          var normalizedFaq := NormalizeText(meta.value.question.value);
          if normalizedQuery == normalizedFaq {
            answer := Some(meta.value.response.value);
            AnswerIsNonEmpty(docs, normalizedQuery);
            return;
          }
        }
      }
      i := i + 1;
    }
    assert docs[i..] == [];
    return None;
  }

  /**
   * What findFaqMatch promises: no answer exactly when no document answers,
   * and otherwise the non-empty response of the earliest answering document.
   */
  lemma FaqAnswerSpec(query: string, docs: seq<Document>)
    ensures FaqAnswer(query, docs).None? <==>
      forall i :: 0 <= i < |docs| ==> !Answers(docs[i], NormalizeText(query))
    ensures FaqAnswer(query, docs).Some? ==> FaqAnswer(query, docs).value != ""
    ensures FaqAnswer(query, docs).Some? ==>
      exists i :: 0 <= i < |docs| && Answers(docs[i], NormalizeText(query))
        && FaqAnswer(query, docs).value == ResponseOf(docs[i])
        && forall j :: 0 <= j < i ==> !Answers(docs[j], NormalizeText(query))
  {
    var nq := NormalizeText(query);
    NoAnswerIffNoMatch(docs, nq);
    AnswerIsNonEmpty(docs, nq);
    if FirstAnswer(docs, nq).Some? {
      var k := AnswerIsFirstMatch(docs, nq);
    }
  }

  /** Any answer is non-empty, so the handler's `if (faqAnswer)` takes every match. */
  lemma {:induction false} AnswerIsNonEmpty(docs: seq<Document>, nq: string)
    ensures FirstAnswer(docs, nq).Some? ==> FirstAnswer(docs, nq).value != ""
  {
    if docs != [] && !Answers(docs[0], nq) {
      AnswerIsNonEmpty(docs[1..], nq);
    }
  }

  /** Queries that normalize alike get the same answer, whatever the documents. */
  lemma SameNormalFormSameAnswer(q1: string, q2: string, docs: seq<Document>)
    requires NormalizeText(q1) == NormalizeText(q2)
    ensures FaqAnswer(q1, docs) == FaqAnswer(q2, docs)
  {
  }

  /** Putting the normalized query itself in gives the same answer (the key is a fixed point). */
  lemma AnswerOfNormalizedQuery(q: string, docs: seq<Document>)
    ensures FaqAnswer(NormalizeText(q), docs) == FaqAnswer(q, docs)
  {
    NormalizeIdempotent(q);
  }

  /** Documents in front that do not answer are skipped; a document in front that answers wins. */
  lemma {:induction false} FrontDocumentsDecide(front: seq<Document>, back: seq<Document>, nq: string)
    ensures (forall i :: 0 <= i < |front| ==> !Answers(front[i], nq)) ==>
      FirstAnswer(front + back, nq) == FirstAnswer(back, nq)
    ensures FirstAnswer(front, nq).Some? ==> FirstAnswer(front + back, nq) == FirstAnswer(front, nq)
  {
    if front != [] {
      assert (front + back)[0] == front[0];
      assert (front + back)[1..] == front[1..] + back;
      FrontDocumentsDecide(front[1..], back, nq);
      if !Answers(front[0], nq) {
        assert (forall i :: 0 <= i < |front| ==> !Answers(front[i], nq)) ==>
          (forall i :: 0 <= i < |front[1..]| ==> !Answers(front[1..][i], nq));
      }
    } else {
      assert front + back == back;
    }
  }

  /** With two FAQ entries for the same question, the one earlier in the list (the newer one) answers. */
  lemma EarlierDuplicateWins(newer: Document, older: Document, others: seq<Document>, q: string)
    requires Answers(newer, NormalizeText(q)) && Answers(older, NormalizeText(q))
    ensures FaqAnswer(q, [newer] + others + [older]) == Some(ResponseOf(newer))
  {
    var docs := [newer] + others + [older];
    assert docs[0] == newer;
  }
}
