/**
 * The FAQ page of the knowledge base (client/src/pages/qa.tsx): the two
 * input fields, the creation request a saved question-and-answer pair
 * becomes, the edit fields, and the list views over the assistant's
 * documents.
 */
module QaPage {
  import opened Wrappers
  import opened Strings
  import opened Knowledge

  /** The creation request `handleSaveFaq` sends for a question and its answer. */
  function FaqRecord(assistantId: int, question: string, response: string, now: int): (d: NewDocument)
    ensures d.assistantId == assistantId && d.title == question && d.sourceType == FaqType
    ensures d.content == Some("Q: " + question + "\nA: " + response)
    ensures d.sourceId == "faq-" + IntToString(now)
    ensures d.metadata.Some? && d.metadata.value.question == Some(question) && d.metadata.value.response == Some(response)
    ensures d.metadata.value.size == Some(Utf8Length(question + response))
    ensures d.metadata.value.size.value >= |question| + |response|
    ensures IsAscii(question + response) ==> d.metadata.value.size == Some(|question| + |response|)
  {
    Utf8LengthAscii(question + response);
    NewDocument(
      assistantId,
      question,
      Some("Q: " + question + "\nA: " + response),
      FaqType,
      "faq-" + IntToString(now),
      Some(NoMetadata.(question := Some(question), response := Some(response),
                       size := Some(Utf8Length(question + response)))))
  }

  /** `startEditing` copies the stored pair into the edit fields; a missing value becomes "". */
  function EditedQuestion(d: Document): (q: string)
    ensures d.metadata.Some? && d.metadata.value.question.Some? ==> q == d.metadata.value.question.value
    ensures d.metadata.None? || d.metadata.value.question.None? ==> q == ""
  {
    match d.metadata
    case None => ""
    case Some(m) => m.question.GetOr("")
  }

  function EditedResponse(d: Document): (r: string)
    ensures d.metadata.Some? && d.metadata.value.response.Some? ==> r == d.metadata.value.response.value
    ensures d.metadata.None? || d.metadata.value.response.None? ==> r == ""
  {
    match d.metadata
    case None => ""
    case Some(m) => m.response.GetOr("")
  }

  /** `faqDocuments`: the FAQ entries, in list order. */
  function FaqDocuments(documents: Option<seq<Document>>): (r: seq<Document>)
    ensures forall d :: d in r <==> documents.Some? && d in documents.value && d.sourceType == FaqType
  {
    ListedOfType(documents, FaqType)
  }

  /** `filteredDocs`: the FAQ entries whose title contains the search text, ignoring case. */
  function FilteredFaqs(documents: Option<seq<Document>>, query: string): (r: seq<Document>)
    ensures forall d :: d in r <==> documents.Some? && d in documents.value && d.sourceType == FaqType && TitleMatches(d, query)
  {
    TitleFilter(FaqDocuments(documents), query)
  }

  /**
   * A saved pair, once stored at the head of the newest-first list, is
   * listed as a FAQ, is found by a search for any part of its question,
   * and adds the byte length of question and answer to the storage total.
   */
  lemma SavedFaqIsListed(docs: seq<Document>, assistantId: int, question: string, response: string, now: int, id: int, query: string)
    requires Contains(ToLower(question), ToLower(query))
    ensures Store(FaqRecord(assistantId, question, response, now), id) in FilteredFaqs(Some([Store(FaqRecord(assistantId, question, response, now), id)] + docs), query)
    ensures StorageUsed(Some([Store(FaqRecord(assistantId, question, response, now), id)] + docs))
         == StorageUsed(Some(docs)) + Utf8Length(question + response)
  {
    var d := Store(FaqRecord(assistantId, question, response, now), id);
    assert d in [d] + docs;
    StoringAddsItsSize(docs, d);
  }

  /** The page state the FAQ form and the edit row change. */
  class QaPageState {
    const assistantId: int
    var question: string
    var response: string
    var editingId: Option<int>
    var editQuestion: string
    var editResponse: string
    /** The creation requests sent so far, oldest first. */
    var created: seq<NewDocument>

    constructor (assistantId: int)
      ensures this.assistantId == assistantId
      ensures question == "" && response == "" && created == []
      ensures editingId == None && editQuestion == "" && editResponse == ""
    {
      this.assistantId := assistantId;
      question, response := "", "";
      editingId, editQuestion, editResponse := None, "", "";
      created := [];
    }

    /**
     * `handleSaveFaq`: a blank question or answer does nothing; otherwise
     * the request built from the fields exactly as typed is sent, and the
     * fields are cleared once the store has accepted it (a rejected
     * request leaves them as they were).
     */
    method HandleSaveFaq(now: int, accepted: bool)
      modifies this`question, this`response, this`created
      ensures IsBlank(old(question)) || IsBlank(old(response)) ==>
        question == old(question) && response == old(response) && created == old(created)
      ensures !IsBlank(old(question)) && !IsBlank(old(response)) ==>
        created == old(created) + [FaqRecord(assistantId, old(question), old(response), now)]
      ensures !IsBlank(old(question)) && !IsBlank(old(response)) && accepted ==> question == "" && response == ""
      ensures !accepted ==> question == old(question) && response == old(response)
    {
      if Trim(question) == "" || Trim(response) == "" {
        return;
      }
      created := created + [FaqRecord(assistantId, question, response, now)];
      if accepted {
        question := "";
        response := "";
      }
    }

    /** `startEditing`: the row being edited and its current pair. */
    method StartEditing(d: Document)
      modifies this`editingId, this`editQuestion, this`editResponse
      ensures editingId == Some(d.id)
      ensures editQuestion == EditedQuestion(d) && editResponse == EditedResponse(d)
    {
      editingId := Some(d.id);
      editQuestion := EditedQuestion(d);
      editResponse := EditedResponse(d);
    }

    /** `cancelEditing`: all three edit fields back to their initial values. */
    method CancelEditing()
      modifies this`editingId, this`editQuestion, this`editResponse
      ensures editingId == None && editQuestion == "" && editResponse == ""
    {
      editingId, editQuestion, editResponse := None, "", "";
    }

    /**
     * `saveEdit`: nothing happens without a truthy row id (none, or id 0)
     * or with a blank field; otherwise the edit row is closed.
     */
    method SaveEdit()
      modifies this`editingId, this`editQuestion, this`editResponse
      ensures old(editingId).None? || old(editingId) == Some(0) || IsBlank(old(editQuestion)) || IsBlank(old(editResponse)) ==>
        editingId == old(editingId) && editQuestion == old(editQuestion) && editResponse == old(editResponse)
      ensures old(editingId).Some? && old(editingId) != Some(0) && !IsBlank(old(editQuestion)) && !IsBlank(old(editResponse)) ==>
        editingId == None && editQuestion == "" && editResponse == ""
    {
      if editingId.None? || editingId == Some(0) || Trim(editQuestion) == "" || Trim(editResponse) == "" {
        return;
      }
      CancelEditing();
    }
  }
}
