/**
 * The dashboard card of one assistant (client/src/components/assistant-card.tsx):
 * the placeholder gradient picked from the assistant id, the items of its
 * menu, and the rename, cover and remove-image actions, which send
 * partial updates of the assistant.
 */
module AssistantCard {
  import opened Wrappers
  import opened Strings
  import opened Schema

  const PastelGradients := [
    "bg-gradient-to-br from-rose-200 via-pink-100 to-purple-200",
    "bg-gradient-to-br from-sky-200 via-cyan-100 to-blue-200",
    "bg-gradient-to-br from-amber-200 via-orange-100 to-yellow-200",
    "bg-gradient-to-br from-emerald-200 via-green-100 to-teal-200",
    "bg-gradient-to-br from-violet-200 via-purple-100 to-fuchsia-200",
    "bg-gradient-to-br from-lime-200 via-emerald-100 to-cyan-200",
    "bg-gradient-to-br from-pink-200 via-rose-100 to-red-200",
    "bg-gradient-to-br from-indigo-200 via-blue-100 to-sky-200"]

  /** JavaScript's `%`: the remainder takes the sign of the dividend. */
  function JsRemainder(a: int, b: int): (r: int)
    requires b > 0
    ensures a >= 0 ==> 0 <= r < b && r == a % b
    ensures a < 0 ==> -b < r <= 0 && r == -((-a) % b)
  {
    if a >= 0 then a % b else -((-a) % b)
  }

  /**
   * `getGradient`: the class at index `id % 8`; a negative id that is not
   * a multiple of 8 indexes before the start of the list, which yields
   * `undefined` (`None`); a negative multiple of 8 gives `-0`, the first index.
   */
  function GetGradient(id: int): (r: Option<string>)
    ensures id >= 0 ==> r.Some? && r.value in PastelGradients
    ensures id >= 0 ==> r == Some(PastelGradients[id % 8])
    ensures id < 0 && id % 8 != 0 ==> r.None?
    ensures id < 0 && id % 8 == 0 ==> r == Some(PastelGradients[0])
  {
    var k := JsRemainder(id, |PastelGradients|);
    if 0 <= k then Some(PastelGradients[k]) else None
  }

  /** Ids eight apart share a gradient. */
  lemma {:induction false} GradientPeriodic(id: int)
    requires id >= 0
    ensures GetGradient(id + 8) == GetGradient(id)
  {
    assert (id + 8) % 8 == id % 8;
  }

  /** The class of the cover area: the gradient when there is no cover image, nothing otherwise. */
  function CoverClass(a: Assistant): (r: string)
    ensures Truthy(a.coverImage) ==> r == ""
    ensures !Truthy(a.coverImage) && a.id >= 0 ==> r in PastelGradients
  {
    if Truthy(a.coverImage) then "" else GetGradient(a.id).GetOr("undefined")
  }

  datatype MenuItem = RenameItem | ChangeCoverItem | RemoveImageItem | DeleteItem

  /** The card's menu: "Remove image" only with a cover, "Delete" never for a demo assistant. */
  function MenuItems(a: Assistant): (r: seq<MenuItem>)
    ensures |r| >= 2 && r[..2] == [RenameItem, ChangeCoverItem]
    ensures RemoveImageItem in r <==> Truthy(a.coverImage)
    ensures DeleteItem in r <==> !IsDemo(a)
  {
    [RenameItem, ChangeCoverItem]
      + (if Truthy(a.coverImage) then [RemoveImageItem] else [])
      + (if IsDemo(a) then [] else [DeleteItem])
  }

  /** The badge in the corner of the cover. */
  function BadgeText(a: Assistant): (r: string)
    ensures r == "DEMO" <==> IsDemo(a)
    ensures r == "DEMO" || r == "DRAFT"
  {
    if IsDemo(a) then "DEMO" else "DRAFT"
  }

  /** A partial update of the assistant, as the card sends it. */
  datatype CardUpdate =
    | Rename(id: int, name: string)
    | SetCover(id: int, coverImage: Option<string>)

  /** The card's dialogs and the updates it has sent. */
  class AssistantCardState {
    const assistant: Assistant
    var newName: string
    var showRenameDialog: bool
    var showDeleteDialog: bool
    /** The update requests sent so far, oldest first. */
    var updates: seq<CardUpdate>

    constructor (assistant: Assistant)
      ensures this.assistant == assistant && newName == assistant.name
      ensures !showRenameDialog && !showDeleteDialog && updates == []
    {
      this.assistant := assistant;
      newName := assistant.name;
      showRenameDialog, showDeleteDialog := false, false;
      updates := [];
    }

    /**
     * `handleRename`: a blank name does nothing; otherwise the trimmed
     * name is sent, and the dialog closes once the update has succeeded.
     */
    method HandleRename(accepted: bool)
      modifies this`updates, this`showRenameDialog
      ensures IsBlank(newName) ==> updates == old(updates) && showRenameDialog == old(showRenameDialog)
      ensures !IsBlank(newName) ==> updates == old(updates) + [Rename(assistant.id, Trim(newName))]
      ensures !IsBlank(newName) && accepted ==> !showRenameDialog
      ensures !accepted ==> showRenameDialog == old(showRenameDialog)
    {
      var name := Trim(newName);
      if name != "" {
        updates := updates + [Rename(assistant.id, name)];
        if accepted {
          showRenameDialog := false;
        }
      }
    }

    /** `handleCoverChange`: the chosen file, read as a data URL, becomes the cover. */
    method HandleCoverChange(dataUrl: Option<string>)
      modifies this`updates
      ensures dataUrl.None? ==> updates == old(updates)
      ensures dataUrl.Some? ==> updates == old(updates) + [SetCover(assistant.id, dataUrl)]
    {
      if dataUrl.Some? {
        updates := updates + [SetCover(assistant.id, dataUrl)];
      }
    }

    /** `handleRemoveImage`: the cover is set to null. */
    method HandleRemoveImage()
      modifies this`updates
      ensures updates == old(updates) + [SetCover(assistant.id, None)]
    {
      updates := updates + [SetCover(assistant.id, None)];
    }
  }
}
