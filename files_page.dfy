/**
 * The file-upload page of the knowledge base (client/src/pages/files.tsx):
 * the drag-and-drop area, the upload of one file as an "upload" document,
 * and the list views, which cover all of the assistant's documents.
 */
module FilesPage {
  import opened Wrappers
  import opened Strings
  import opened Knowledge

  /** What the page uses of a browser `File`: its name, size, MIME type and the text the reader yields. */
  datatype FileInfo = FileInfo(name: string, size: int, fileType: string, text: string)

  /** The drag event types that change the drop area's state. */
  const DragEnter := "dragenter"
  const DragOver := "dragover"
  const DragLeave := "dragleave"

  /** The creation request `handleFileUpload` sends once the file has been read. */
  function UploadRecord(assistantId: int, file: FileInfo, now: int): (d: NewDocument)
    ensures d.assistantId == assistantId && d.title == file.name && d.content == Some(file.text)
    ensures d.sourceType == UploadType
    ensures d.metadata.Some? && d.metadata.value.size == Some(file.size) && d.metadata.value.fileType == Some(file.fileType)
    ensures d.metadata.value.question.None? && d.metadata.value.response.None?
  {
    NewDocument(assistantId, file.name, Some(file.text), UploadType, "file-" + IntToString(now),
                Some(NoMetadata.(size := Some(file.size), fileType := Some(file.fileType))))
  }

  /**
   * `filteredDocs`: every document of the assistant, whatever its source
   * type, whose title contains the search text; nothing while loading.
   */
  function FilteredFiles(documents: Option<seq<Document>>, query: string): (r: seq<Document>)
    ensures documents.None? ==> r == []
    ensures forall d :: d in r <==> documents.Some? && d in documents.value && TitleMatches(d, query)
  {
    TitleFilter(documents.GetOr([]), query)
  }

  /** The next state of the drop area after a drag event of the given type. */
  function DragState(active: bool, eventType: string): (next: bool)
    ensures eventType == DragEnter || eventType == DragOver ==> next
    ensures eventType == DragLeave ==> !next
    ensures eventType != DragEnter && eventType != DragOver && eventType != DragLeave ==> next == active
  {
    if eventType == DragEnter || eventType == DragOver then true
    else if eventType == DragLeave then false
    else active
  }

  /**
   * A stored upload is listed and found by a search for its file name, and
   * adds the size the browser reported to the storage total.
   */
  lemma StoredUploadIsFound(docs: seq<Document>, assistantId: int, file: FileInfo, now: int, id: int)
    ensures Store(UploadRecord(assistantId, file, now), id) in FilteredFiles(Some([Store(UploadRecord(assistantId, file, now), id)] + docs), file.name)
    ensures StorageUsed(Some([Store(UploadRecord(assistantId, file, now), id)] + docs)) == StorageUsed(Some(docs)) + file.size
  {
    var d := Store(UploadRecord(assistantId, file, now), id);
    assert d in [d] + docs;
    assert OccursAt(ToLower(d.title), ToLower(file.name), 0);
    ContainsIff(ToLower(d.title), ToLower(file.name));
    StoringAddsItsSize(docs, d);
  }

  /** The drop area's state and the upload requests sent. */
  class FilesPageState {
    const assistantId: int
    var dragActive: bool
    /** The creation requests sent so far, oldest first. */
    var created: seq<NewDocument>

    constructor (assistantId: int)
      ensures this.assistantId == assistantId && !dragActive && created == []
    {
      this.assistantId := assistantId;
      dragActive := false;
      created := [];
    }

    /** `handleDrag`: entering or hovering activates the area, leaving deactivates it. */
    method HandleDrag(eventType: string)
      modifies this`dragActive
      ensures dragActive == DragState(old(dragActive), eventType)
    {
      if eventType == DragEnter || eventType == DragOver {
        dragActive := true;
      } else if eventType == DragLeave {
        dragActive := false;
      }
    }

    /** `handleFileUpload`: the file's text and attributes become one request. */
    method HandleFileUpload(file: FileInfo, now: int)
      modifies this`created
      ensures created == old(created) + [UploadRecord(assistantId, file, now)]
    {
      created := created + [UploadRecord(assistantId, file, now)];
    }

    /** `handleDrop`: the area is deactivated and only the first dropped file is uploaded. */
    method HandleDrop(files: seq<FileInfo>, now: int)
      modifies this`dragActive, this`created
      ensures !dragActive
      ensures files == [] ==> created == old(created)
      ensures files != [] ==> created == old(created) + [UploadRecord(assistantId, files[0], now)]
    {
      dragActive := false;
      if |files| > 0 {
        HandleFileUpload(files[0], now);
      }
    }

    /** `handleFileSelect`: the file picker; again only the first file is uploaded. */
    method HandleFileSelect(files: Option<seq<FileInfo>>, now: int)
      modifies this`created
      ensures files.None? || files.value == [] ==> created == old(created)
      ensures files.Some? && files.value != [] ==> created == old(created) + [UploadRecord(assistantId, files.value[0], now)]
    {
      if files.Some? && |files.value| > 0 {
        HandleFileUpload(files.value[0], now);
      }
    }
  }
}
