/** The inventory page (src/pages/Inventory.tsx): the tab filter, removing and renaming an
    entry once the backend has stored the new list, and the swipeable row, a small state
    machine over the pointer events and the name editor. */
module Inventory {
  import opened Wrappers
  import opened Text
  import opened Seqs
  import opened Kitchen

  // ---------------------------------------------------------------- the list transforms

  /** The tabs: every entry, or the entries at one location. */
  datatype Tab = All | At(location: Location)

  /** `tab === 'all' ? items : items.filter(i => i.location === tab)`. */
  function Filtered(items: seq<InventoryItem>, tab: Tab): seq<InventoryItem> {
    if tab.All? then items else Filter(items, (i: InventoryItem) => i.location == tab.location)
  }

  /** A location tab shows, in order, exactly the entries kept there. */
  lemma FilteredMembers(items: seq<InventoryItem>, loc: Location, x: InventoryItem)
    ensures x in Filtered(items, At(loc)) <==> x in items && x.location == loc
    ensures forall i :: 0 <= i < |Filtered(items, At(loc))| ==> Filtered(items, At(loc))[i].location == loc
  {
    FilterMembers(items, (i: InventoryItem) => i.location == loc, x);
  }

  /** The three location tabs share the entries out between them. */
  lemma {:induction false} LocationTabsPartition(items: seq<InventoryItem>)
    ensures |Filtered(items, At(Fridge))| + |Filtered(items, At(Freezer))| + |Filtered(items, At(Pantry))| == |items|
    decreases |items|
  {
    if items != [] {
      LocationTabsPartition(items[1..]);
    }
  }

  /** `items.filter(i => i.id !== id)`. */
  function Without(items: seq<InventoryItem>, id: string): seq<InventoryItem> {
    Filter(items, (i: InventoryItem) => i.id != id)
  }

  /** Exactly the entries with another id stay, in order; an absent id changes nothing. */
  lemma WithoutMembers(items: seq<InventoryItem>, id: string, x: InventoryItem)
    ensures x in Without(items, id) <==> x in items && x.id != id
    ensures (forall k :: 0 <= k < |items| ==> items[k].id != id) ==> Without(items, id) == items
  {
    FilterMembers(items, (i: InventoryItem) => i.id != id, x);
    if forall k :: 0 <= k < |items| ==> items[k].id != id {
      FilterAll(items, (i: InventoryItem) => i.id != id);
    }
  }

  /** `items.map(i => i.id === id ? { ...i, name } : i)`. */
  function Renamed(items: seq<InventoryItem>, id: string, name: string): seq<InventoryItem> {
    Map(items, (i: InventoryItem) => if i.id == id then i.(name := name) else i)
  }

  /** Renaming changes only the name of the entries with the id; renaming back restores a
      list whose entries with the id all had the old name. */
  lemma RenamedRoundTrip(items: seq<InventoryItem>, id: string, previous: string, name: string)
    requires forall k :: 0 <= k < |items| && items[k].id == id ==> items[k].name == previous
    ensures Renamed(Renamed(items, id, name), id, previous) == items
  {
    var once := Renamed(items, id, name);
    var back := Renamed(once, id, previous);
    forall k | 0 <= k < |items| ensures back[k] == items[k] {
      assert once[k].id == items[k].id;
    }
  }

  /** `freshnessLabel(f)`: green for fresh, yellow for use-soon, red for anything else. */
  function FreshnessLabel(f: string): (r: string)
    ensures r == "🟢" <==> f == "fresh"
    ensures r == "🟡" <==> f == "use-soon"
    ensures r == "🔴" <==> f != "fresh" && f != "use-soon"
  {
    if f == "fresh" then "🟢" else if f == "use-soon" then "🟡" else "🔴"
  }

  // ---------------------------------------------------------------- SwipeableRow

  const SwipeLimit := -140.0
  const SnapThreshold := -70.0
  const OpenOffset := -90.0

  /** One row: how far it is swiped, whether a drag is under way and from where, and the name
      editor. `itemName` is the entry's name as the page currently passes it: the row is keyed
      by the entry's id, so a rename re-renders the same row with the new name. */
  class SwipeableRow {
    var offsetX: real
    var dragging: bool
    var startX: real
    var editing: bool
    var editName: string
    var itemName: string

    /** The offset never reaches the swipe limit and is never positive; a row at rest is
        either closed or open at -90. */
    predicate Valid()
      reads this
    {
      && SwipeLimit < offsetX <= 0.0
      && (!dragging ==> offsetX == 0.0 || offsetX == OpenOffset)
    }

    constructor (name: string)
      ensures Valid()
      ensures offsetX == 0.0 && !dragging && startX == 0.0 && !editing && editName == name && itemName == name
    {
      offsetX := 0.0;
      dragging := false;
      startX := 0.0;
      editing := false;
      editName := name;
      itemName := name;
    }

    /** `handlePointerDown`: ignored while editing, otherwise a drag starts at `clientX`. */
    method PointerDown(clientX: real)
      requires Valid()
      modifies this
      ensures Valid()
      ensures old(editing) ==> dragging == old(dragging) && startX == old(startX)
      ensures !old(editing) ==> dragging && startX == clientX
      ensures offsetX == old(offsetX) && editing == old(editing) && editName == old(editName) && itemName == old(itemName)
    {
      if editing {
        return;
      }
      startX := clientX;
      dragging := true;
    }

    /** `handlePointerMove`: while dragging, the offset follows the pointer when it is left of
        the start by less than 140. */
    method PointerMove(clientX: real)
      requires Valid()
      modifies this
      ensures Valid()
      ensures var diff := clientX - old(startX);
        offsetX == if old(dragging) && diff < 0.0 && diff > SwipeLimit then diff else old(offsetX)
      ensures dragging == old(dragging) && startX == old(startX) && editing == old(editing) && editName == old(editName)
      ensures itemName == old(itemName)
    {
      if !dragging {
        return;
      }
      var diff := clientX - startX;
      if diff < 0.0 && diff > SwipeLimit {
        offsetX := diff;
      }
    }

    /** `handlePointerUp` (also on pointer leave): ends a drag, snapping open past -70 and
        closed otherwise. */
    method PointerUp()
      requires Valid()
      modifies this
      ensures Valid()
      ensures !old(dragging) ==> offsetX == old(offsetX) && !dragging
      ensures old(dragging) ==> !dragging && offsetX == (if old(offsetX) < SnapThreshold then OpenOffset else 0.0)
      ensures startX == old(startX) && editing == old(editing) && editName == old(editName) && itemName == old(itemName)
    {
      if !dragging {
        return;
      }
      dragging := false;
      offsetX := if offsetX < SnapThreshold then OpenOffset else 0.0;
    }

    /** The page re-renders the row with the entry's current name. The editor text is state
        initialised once, so only the prop changes. */
    method Rerender(name: string)
      requires Valid()
      modifies this
      ensures Valid() && itemName == name
      ensures offsetX == old(offsetX) && dragging == old(dragging) && startX == old(startX)
      ensures editing == old(editing) && editName == old(editName)
    {
      itemName := name;
    }

    /** A click on the name opens the editor. */
    method StartEditing()
      requires Valid()
      modifies this
      ensures Valid() && editing
      ensures offsetX == old(offsetX) && dragging == old(dragging) && startX == old(startX) && editName == old(editName)
      ensures itemName == old(itemName)
    {
      editing := true;
    }

    /** Typing into the editor. */
    method EditText(text: string)
      requires Valid()
      modifies this
      ensures Valid() && editName == text
      ensures offsetX == old(offsetX) && dragging == old(dragging) && startX == old(startX) && editing == old(editing)
      ensures itemName == old(itemName)
    {
      editName := text;
    }

    /** `submitName` (on blur or Enter): the editor closes; a non-blank name is passed on
        trimmed, a blank one is discarded and the editor text reverts to the entry's name. */
    method SubmitName() returns (rename: Option<string>)
      requires Valid()
      modifies this
      ensures Valid() && !editing
      ensures Trim(old(editName)) != "" ==> rename == Some(Trim(old(editName))) && editName == old(editName)
      ensures Trim(old(editName)) == "" ==> rename == None && editName == itemName
      ensures offsetX == old(offsetX) && dragging == old(dragging) && startX == old(startX) && itemName == old(itemName)
    {
      editing := false;
      var trimmed := Trim(editName);
      if trimmed != "" {
        rename := Some(trimmed);
      } else {
        rename := None;
        editName := itemName;
      }
    }
  }

  // ---------------------------------------------------------------- the page

  const LoadFailed := "加载失败"
  const SaveFailed := "保存失败，请稍后重试"
  const DeleteFailed := "删除失败，请稍后重试"

  /** The component state, with the backend's stored list beside it. */
  class InventoryPage {
    var items: seq<InventoryItem>
    var tab: Tab
    var error: string
    var stored: seq<InventoryItem>

    constructor (backendList: seq<InventoryItem>)
      ensures items == [] && tab == All && error == "" && stored == backendList
    {
      items := [];
      tab := All;
      error := "";
      stored := backendList;
    }

    /** The entries the current tab shows. */
    function Shown(): seq<InventoryItem>
      reads this
    {
      Filtered(items, tab)
    }

    /** The mount effect: fetch the stored list into the page. */
    method Load(fetch: Backend)
      modifies this
      ensures fetch.Succeeded? ==> items == stored && error == ""
      ensures fetch.Failed? ==> items == old(items) && error == ErrorText(fetch, LoadFailed)
      ensures stored == old(stored) && tab == old(tab)
    {
      error := "";
      if fetch.Succeeded? {
        items := stored;
      } else {
        error := ErrorText(fetch, LoadFailed);
      }
    }

    /** A tab button. */
    method SelectTab(t: Tab)
      modifies this
      ensures tab == t && items == old(items) && stored == old(stored) && error == old(error)
    {
      tab := t;
    }

    /** Replaces the list by `next` once it is stored; otherwise keeps it and shows the error. */
    method Commit(next: seq<InventoryItem>, save: Backend, fallback: string)
      modifies this
      ensures save.Succeeded? ==> items == next && stored == next && error == ""
      ensures save.Failed? ==> items == old(items) && stored == old(stored) && error == ErrorText(save, fallback)
      ensures tab == old(tab)
    {
      error := "";
      if save.Succeeded? {
        stored := next;
        items := next;
      } else {
        error := ErrorText(save, fallback);
      }
    }

    /** `remove(id)`. */
    method Remove(id: string, save: Backend)
      modifies this
      ensures save.Succeeded? ==> items == Without(old(items), id) && stored == items && error == ""
      ensures save.Failed? ==> items == old(items) && stored == old(stored) && error == ErrorText(save, DeleteFailed)
      ensures tab == old(tab)
    {
      Commit(Without(items, id), save, DeleteFailed);
    }

    /** `updateName(id, name)`. */
    method UpdateName(id: string, name: string, save: Backend)
      modifies this
      ensures save.Succeeded? ==> items == Renamed(old(items), id, name) && stored == items && error == ""
      ensures save.Failed? ==> items == old(items) && stored == old(stored) && error == ErrorText(save, SaveFailed)
      ensures tab == old(tab)
    {
      Commit(Renamed(items, id, name), save, SaveFailed);
    }
  }
}
