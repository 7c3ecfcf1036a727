/**
 * The text-asset page of the knowledge base (client/src/pages/text.tsx):
 * a name and a body typed by the user become one "text" document.
 */
module TextPage {
  import opened Wrappers
  import opened Strings
  import opened Knowledge

  /** The creation request `handleAddTextAsset` sends. */
  function TextRecord(assistantId: int, assetName: string, contentBody: string, now: int): (d: NewDocument)
    ensures d.assistantId == assistantId && d.title == assetName && d.content == Some(contentBody)
    ensures d.sourceType == TextType
    ensures d.metadata.Some? && d.metadata.value.size == Some(Utf8Length(contentBody))
    ensures d.metadata.value.question.None? && d.metadata.value.response.None?
  {
    NewDocument(assistantId, assetName, Some(contentBody), TextType, "text-" + IntToString(now),
                Some(NoMetadata.(size := Some(Utf8Length(contentBody)))))
  }

  /** `textDocuments`: the text assets, in list order. */
  function TextDocuments(documents: Option<seq<Document>>): (r: seq<Document>)
    ensures forall d :: d in r <==> documents.Some? && d in documents.value && d.sourceType == TextType
  {
    ListedOfType(documents, TextType)
  }

  /**
   * A stored text asset is listed among the text documents and adds
   * exactly the byte size of its body to the storage total; the counter
   * under the editor showed that same number before the asset was added.
   */
  lemma StoredTextIsListed(docs: seq<Document>, assistantId: int, assetName: string, contentBody: string, now: int, id: int)
    ensures Store(TextRecord(assistantId, assetName, contentBody, now), id)
         in TextDocuments(Some([Store(TextRecord(assistantId, assetName, contentBody, now), id)] + docs))
    ensures StorageUsed(Some([Store(TextRecord(assistantId, assetName, contentBody, now), id)] + docs))
         == StorageUsed(Some(docs)) + Utf8Length(contentBody)
  {
    var d := Store(TextRecord(assistantId, assetName, contentBody, now), id);
    assert d in [d] + docs;
    StoringAddsItsSize(docs, d);
  }

  /** The text form: the asset name, the body and the requests sent. */
  class TextPageState {
    const assistantId: int
    var assetName: string
    var contentBody: string
    /** The creation requests sent so far, oldest first. */
    var created: seq<NewDocument>

    constructor (assistantId: int)
      ensures this.assistantId == assistantId && assetName == "" && contentBody == "" && created == []
    {
      this.assistantId := assistantId;
      assetName, contentBody := "", "";
      created := [];
    }

    /** `bytesUsed`: the UTF-8 size of the body being typed. */
    function BytesUsed(): (n: nat)
      reads this`contentBody
      ensures |contentBody| <= n <= 4 * |contentBody|
      ensures IsAscii(contentBody) ==> n == |contentBody|
    {
      Utf8LengthAscii(contentBody);
      Utf8Length(contentBody)
    }

    /**
     * `handleAddTextAsset`: a blank name or body does nothing; otherwise
     * the request is sent with the fields as typed, and both fields are
     * cleared once the store has accepted it.
     */
    method HandleAddTextAsset(now: int, accepted: bool)
      modifies this`assetName, this`contentBody, this`created
      ensures IsBlank(old(assetName)) || IsBlank(old(contentBody)) ==>
        assetName == old(assetName) && contentBody == old(contentBody) && created == old(created)
      ensures !IsBlank(old(assetName)) && !IsBlank(old(contentBody)) ==>
        created == old(created) + [TextRecord(assistantId, old(assetName), old(contentBody), now)]
      ensures !IsBlank(old(assetName)) && !IsBlank(old(contentBody)) && accepted ==> assetName == "" && contentBody == ""
      ensures !accepted ==> assetName == old(assetName) && contentBody == old(contentBody)
    {
      if Trim(assetName) == "" || Trim(contentBody) == "" {
        return;
      }
      created := created + [TextRecord(assistantId, assetName, contentBody, now)];
      if accepted {
        assetName := "";
        contentBody := "";
      }
    }
  }
}
