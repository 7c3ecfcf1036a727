/**
 * The row selection shared by the FAQ, website and file lists of the
 * knowledge-base pages (client/src/pages/qa.tsx, website.tsx, files.tsx):
 * a set of document ids, a checkbox per row and a "select all" checkbox
 * whose state is decided by comparing the size of the set with the length
 * of the list.
 */
module DocumentSelection {
  import opened Wrappers
  import opened Knowledge

  /** `new Set(docs.map(d => d.id))`. */
  function Ids(docs: seq<Document>): (r: set<int>)
    ensures |r| <= |docs|
  {
    if docs == [] then {} else {docs[0].id} + Ids(docs[1..])
  }

  /** The id set holds exactly the ids of the listed rows. */
  lemma {:induction false} IdsMembers(docs: seq<Document>)
    ensures forall x :: x in Ids(docs) <==> exists i :: 0 <= i < |docs| && docs[i].id == x
  {
    if docs != [] {
      IdsMembers(docs[1..]);
      forall x | x in Ids(docs) ensures exists i :: 0 <= i < |docs| && docs[i].id == x {
        if x != docs[0].id {
          var rest := docs[1..];
          assert x in Ids(rest);
          var i :| 0 <= i < |rest| && rest[i].id == x;
          assert docs[i + 1].id == x;
        }
      }
      forall x | exists i :: 0 <= i < |docs| && docs[i].id == x ensures x in Ids(docs) {
        var i :| 0 <= i < |docs| && docs[i].id == x;
        if i > 0 {
          var rest := docs[1..];
          assert rest[i - 1].id == x;
        }
      }
    }
  }

  /** No two rows of the list carry the same id (the store hands out distinct ids). */
  predicate DistinctIds(docs: seq<Document>) {
    forall i, j :: 0 <= i < j < |docs| ==> docs[i].id != docs[j].id
  }

  /** A list with distinct ids has as many ids as rows. */
  lemma {:induction false} IdsCount(docs: seq<Document>)
    requires DistinctIds(docs)
    ensures |Ids(docs)| == |docs|
  {
    if docs != [] {
      var rest := docs[1..];
      assert DistinctIds(rest) by {
        forall i, j | 0 <= i < j < |rest| ensures rest[i].id != rest[j].id {
          assert rest[i] == docs[i + 1] && rest[j] == docs[j + 1];
        }
      }
      IdsCount(rest);
      IdsMembers(rest);
      forall k | 0 <= k < |rest| ensures rest[k].id != docs[0].id {
        assert rest[k] == docs[k + 1];
      }
      assert docs[0].id !in Ids(rest);
    }
  }

  /** The new set a row checkbox produces: the row's id is in it exactly when the box is checked. */
  function Toggled(s: set<int>, id: int, checked: bool): (r: set<int>)
    ensures id in r <==> checked
    ensures forall x :: x != id ==> (x in r <==> x in s)
  {
    if checked then s + {id} else s - {id}
  }

  /** The "select all" checkbox of the FAQ and website lists is shown ticked. */
  predicate AllChecked(s: set<int>, listed: seq<Document>) {
    |listed| > 0 && |s| == |listed|
  }

  /** `toggleSelectAll` of the FAQ and website lists. */
  function SelectAll(s: set<int>, listed: seq<Document>): (r: set<int>)
    ensures AllChecked(s, listed) ==> r == {}
    ensures !AllChecked(s, listed) ==> r == Ids(listed)
  {
    if AllChecked(s, listed) then {} else Ids(listed)
  }

  /**
   * `toggleSelectAll` of the file list: the list may still be loading
   * (`None`), in which case nothing changes, and there is no check that
   * the list is non-empty.
   */
  function SelectAllFiles(s: set<int>, documents: Option<seq<Document>>): (r: set<int>)
    ensures documents.None? ==> r == s
    ensures documents.Some? && |s| == |documents.value| ==> r == {}
    ensures documents.Some? && |s| != |documents.value| ==> r == Ids(documents.value)
  {
    match documents
    case None => s
    case Some(docs) => if |s| == |docs| then {} else Ids(docs)
  }

  /**
   * On a non-empty list with distinct ids, "select all" ticks every row
   * and leaves the header box ticked, and a second click clears the set.
   */
  lemma SelectAllTwice(s: set<int>, listed: seq<Document>)
    requires listed != [] && DistinctIds(listed) && !AllChecked(s, listed)
    ensures SelectAll(s, listed) == Ids(listed)
    ensures AllChecked(SelectAll(s, listed), listed)
    ensures SelectAll(SelectAll(s, listed), listed) == {}
  {
    IdsCount(listed);
  }

  /** The same for the file list once it has loaded. */
  lemma SelectAllFilesTwice(s: set<int>, docs: seq<Document>)
    requires DistinctIds(docs) && |s| != |docs|
    ensures SelectAllFiles(s, Some(docs)) == Ids(docs)
    ensures SelectAllFiles(SelectAllFiles(s, Some(docs)), Some(docs)) == {}
  {
    IdsCount(docs);
  }

  /**
   * The header box compares sizes only: a selection that still holds the
   * id of a row no longer listed, and as many ids as there are rows,
   * counts as "all selected" and is cleared by a click.
   */
  lemma SizeDecidesSelectAll(listed: seq<Document>, stale: int)
    requires |listed| == 1 && stale != listed[0].id
    ensures AllChecked({stale}, listed)
    ensures Ids(listed) != {stale}
    ensures SelectAll({stale}, listed) == {}
  {
    assert listed[1..] == [];
  }

  /** The selection held by one list of a page. */
  class Selection {
    var selected: set<int>

    constructor ()
      ensures selected == {}
    {
      selected := {};
    }

    /** `selectedX.has(id)`: the row's checkbox. */
    function IsChecked(id: int): bool
      reads this
    {
      id in selected
    }

    /** The row checkbox's `onCheckedChange`. */
    method Toggle(id: int, checked: bool)
      modifies this
      ensures selected == Toggled(old(selected), id, checked)
      ensures IsChecked(id) == checked
    {
      var next := selected;
      if checked {
        next := next + {id};
      } else {
        next := next - {id};
      }
      selected := next;
    }

    /** The header checkbox of the FAQ and website lists. */
    method ToggleAll(listed: seq<Document>)
      modifies this
      ensures selected == SelectAll(old(selected), listed)
    {
      if |listed| > 0 && |selected| == |listed| {
        selected := {};
      } else {
        selected := Ids(listed);
      }
    }

    /** The header checkbox of the file list. */
    method ToggleAllFiles(documents: Option<seq<Document>>)
      modifies this
      ensures selected == SelectAllFiles(old(selected), documents)
    {
      if documents.Some? && |selected| == |documents.value| {
        selected := {};
      } else if documents.Some? {
        selected := Ids(documents.value);
      }
    }
  }
}
