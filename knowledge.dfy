/**
 * The knowledge-base document records shared by the server and the admin
 * pages (the `documents` table of shared/models/chat.ts), and the list
 * operations the pages apply to them: filtering by source type, the
 * case-insensitive title search and the storage total.
 */
module Knowledge {
  import opened Wrappers
  import opened Strings

  const FaqType := "faq"
  const TextType := "text"
  const WebsiteType := "website"
  const UploadType := "upload"

  /**
   * The untyped `metadata` JSON column, restricted to the keys any core
   * file reads or writes; a key that is absent is `None`.
   */
  datatype Metadata = Metadata(
    question: Option<string>,
    response: Option<string>,
    size: Option<int>,
    url: Option<string>,
    includePaths: Option<string>,
    excludePaths: Option<string>,
    slowScraping: Option<bool>,
    fileType: Option<string>)

  /** A metadata object that has no keys. */
  const NoMetadata := Metadata(None, None, None, None, None, None, None, None)

  /** A stored document; `metadata` and `content` are nullable columns. */
  datatype Document = Document(
    id: int,
    assistantId: int,
    title: string,
    sourceType: string,
    sourceId: string,
    content: Option<string>,
    metadata: Option<Metadata>)

  /** The body a page sends to the document-creation endpoint. */
  datatype NewDocument = NewDocument(
    assistantId: int,
    title: string,
    content: Option<string>,
    sourceType: string,
    sourceId: string,
    metadata: Option<Metadata>)

  /** The row the store creates from a request: the request's fields plus a fresh id. */
  function Store(d: NewDocument, id: int): (doc: Document)
    ensures doc.id == id && doc.assistantId == d.assistantId && doc.title == d.title
    ensures doc.sourceType == d.sourceType && doc.content == d.content && doc.metadata == d.metadata
  {
    Document(id, d.assistantId, d.title, d.sourceType, d.sourceId, d.content, d.metadata)
  }

  // ---------------------------------------------------------------------
  // Order-preserving filter

  function Filter<T(!new)>(s: seq<T>, keep: T -> bool): (r: seq<T>)
    ensures |r| <= |s|
  {
    if s == [] then []
    else if keep(s[0]) then [s[0]] + Filter(s[1..], keep)
    else Filter(s[1..], keep)
  }

  /** The filtered list holds exactly the elements of the list that pass the test. */
  lemma {:induction false} FilterMembers<T(!new)>(s: seq<T>, keep: T -> bool)
    ensures forall x :: x in Filter(s, keep) <==> x in s && keep(x)
  {
    if s != [] {
      FilterMembers(s[1..], keep);
      assert s == [s[0]] + s[1..];
    }
  }

  /** Filtering keeps the relative order: it distributes over concatenation. */
  lemma {:induction false} FilterConcat<T(!new)>(a: seq<T>, b: seq<T>, keep: T -> bool)
    ensures Filter(a + b, keep) == Filter(a, keep) + Filter(b, keep)
  {
    if a != [] {
      assert (a + b)[1..] == a[1..] + b;
      FilterConcat(a[1..], b, keep);
    } else {
      assert a + b == b;
    }
  }

  /** Two tests that agree on every element select the same elements. */
  lemma {:induction false} FilterSameTest<T(!new)>(s: seq<T>, k1: T -> bool, k2: T -> bool)
    requires forall x :: x in s ==> k1(x) == k2(x)
    ensures Filter(s, k1) == Filter(s, k2)
  {
    if s != [] {
      FilterSameTest(s[1..], k1, k2);
    }
  }

  lemma {:induction false} FilterAll<T(!new)>(s: seq<T>, keep: T -> bool)
    requires forall x :: x in s ==> keep(x)
    ensures Filter(s, keep) == s
  {
    if s != [] {
      FilterAll(s[1..], keep);
    }
  }

  // ---------------------------------------------------------------------
  // The page-level views

  /** `documents.filter(d => d.sourceType === t)`. */
  function OfSourceType(docs: seq<Document>, t: string): (r: seq<Document>)
    ensures forall d :: d in r <==> d in docs && d.sourceType == t
  {
    FilterMembers(docs, (d: Document) => d.sourceType == t);
    Filter(docs, (d: Document) => d.sourceType == t)
  }

  /** `documents?.filter(d => d.sourceType === t) || []`: nothing while the list is loading. */
  function ListedOfType(documents: Option<seq<Document>>, t: string): (r: seq<Document>)
    ensures documents.None? ==> r == []
    ensures forall d :: d in r <==> documents.Some? && d in documents.value && d.sourceType == t
  {
    OfSourceType(documents.GetOr([]), t)
  }

  /** `doc.title.toLowerCase().includes(query.toLowerCase())`. */
  predicate TitleMatches(d: Document, query: string) {
    Contains(ToLower(d.title), ToLower(query))
  }

  /** The search box: the documents whose title contains the query, ignoring case. */
  function TitleFilter(docs: seq<Document>, query: string): (r: seq<Document>)
    ensures forall d :: d in r <==> d in docs && TitleMatches(d, query)
  {
    FilterMembers(docs, (d: Document) => TitleMatches(d, query));
    Filter(docs, (d: Document) => TitleMatches(d, query))
  }

  /** An empty search keeps every document. */
  lemma EmptySearchKeepsAll(docs: seq<Document>)
    ensures TitleFilter(docs, "") == docs
  {
    forall d | d in docs ensures TitleMatches(d, "") {
      assert OccursAt(ToLower(d.title), ToLower(""), 0);
    }
    FilterAll(docs, (d: Document) => TitleMatches(d, ""));
  }

  /** Upper and lower case in the query select the same documents. */
  lemma SearchIgnoresQueryCase(docs: seq<Document>, q1: string, q2: string)
    requires ToLower(q1) == ToLower(q2)
    ensures TitleFilter(docs, q1) == TitleFilter(docs, q2)
  {
    FilterSameTest(docs, (d: Document) => TitleMatches(d, q1), (d: Document) => TitleMatches(d, q2));
  }

  /** `(metadata?.size || 0)`: a missing size counts as zero. */
  function SizeOf(d: Document): int {
    match d.metadata
    case None => 0
    case Some(m) => m.size.GetOr(0)
  }

  /** The storage total: the sum of the documents' sizes. */
  function TotalStorage(docs: seq<Document>): int {
    if docs == [] then 0 else TotalStorage(docs[..|docs| - 1]) + SizeOf(docs[|docs| - 1])
  }

  lemma {:induction false} TotalStorageConcat(a: seq<Document>, b: seq<Document>)
    ensures TotalStorage(a + b) == TotalStorage(a) + TotalStorage(b)
  {
    if b != [] {
      assert (a + b)[..|a + b| - 1] == a + b[..|b| - 1];
      TotalStorageConcat(a, b[..|b| - 1]);
    } else {
      assert a + b == a;
    }
  }

  /** Documents without a size add nothing; sizes are never negative in practice, so neither is the total. */
  lemma {:induction false} TotalStorageBounds(docs: seq<Document>)
    requires forall i :: 0 <= i < |docs| ==> SizeOf(docs[i]) >= 0
    ensures TotalStorage(docs) >= 0
    ensures (forall i :: 0 <= i < |docs| ==> SizeOf(docs[i]) == 0) ==> TotalStorage(docs) == 0
  {
    if docs != [] {
      TotalStorageBounds(docs[..|docs| - 1]);
    }
  }

  /** Creating a document adds exactly its size to the total. */
  lemma StoringAddsItsSize(docs: seq<Document>, d: Document)
    ensures TotalStorage([d] + docs) == SizeOf(d) + TotalStorage(docs)
  {
    TotalStorageConcat([d], docs);
    assert [d][..0] == [];
  }

  /**
   * The storage line of every knowledge page: `documents?.reduce(...) || 0`
   * sums the sizes of all of the assistant's documents, whatever their
   * source type, and shows 0 while the list is loading.
   */
  function StorageUsed(documents: Option<seq<Document>>): (total: int)
    ensures documents.None? ==> total == 0
    ensures documents.Some? ==> total == TotalStorage(documents.value)
  {
    match documents
    case None => 0
    case Some(docs) => TotalStorage(docs)
  }
}
