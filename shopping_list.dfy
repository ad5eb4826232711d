/** The shopping list page (src/pages/ShoppingList.tsx): the list transforms behind each
    handler, the round-robin grouping by store, and the page state, which is replaced only
    once the backend has stored the new list. Ids and timestamps are parameters, and so is
    the outcome of each call to the backend. */
module ShoppingList {
  import opened Wrappers
  import opened Text
  import opened Seqs
  import opened Kitchen

  // ---------------------------------------------------------------- groupByStore

  const Stores: seq<string> := ["Tesco", "Asda", "Lidl"]

  /** `items.filter((_, i) => i % 3 === idx)`. */
  function Column(s: seq<ShoppingItem>, idx: nat): seq<ShoppingItem>
    decreases |s|
  {
    if s == [] then []
    else Column(s[..|s| - 1], idx) + (if (|s| - 1) % 3 == idx then [s[|s| - 1]] else [])
  }

  /** Store `idx` holds the items at positions `idx`, `idx + 3`, `idx + 6`, ..., in order. */
  lemma {:induction false} ColumnAt(s: seq<ShoppingItem>, idx: nat)
    requires idx < 3
    ensures |Column(s, idx)| == (|s| + 2 - idx) / 3
    ensures forall j :: 0 <= j < |Column(s, idx)| ==> 3 * j + idx < |s| && Column(s, idx)[j] == s[3 * j + idx]
    decreases |s|
  {
    if s != [] {
      var p := s[..|s| - 1];
      ColumnAt(p, idx);
      assert forall j :: 0 <= j < |p| ==> p[j] == s[j];
    }
  }

  /** One group of the page: a store and its items. */
  datatype StoreGroup = StoreGroup(store: string, items: seq<ShoppingItem>)

  function AllGroups(items: seq<ShoppingItem>): seq<StoreGroup> {
    [StoreGroup(Stores[0], Column(items, 0)), StoreGroup(Stores[1], Column(items, 1)), StoreGroup(Stores[2], Column(items, 2))]
  }

  /** `groupByStore(items)`: the three stores in order, each with its items, empty groups dropped. */
  function GroupByStore(items: seq<ShoppingItem>): (r: seq<StoreGroup>)
    ensures forall k :: 0 <= k < |r| ==> r[k].items != []
  {
    Filter(AllGroups(items), (g: StoreGroup) => |g.items| > 0)
  }

  /** There are as many groups as items, up to three, in the order Tesco, Asda, Lidl. */
  lemma GroupByStoreShape(items: seq<ShoppingItem>)
    ensures GroupByStore(items) == Take(AllGroups(items), |items|)
  {
    ColumnAt(items, 0);
    ColumnAt(items, 1);
    ColumnAt(items, 2);
    var g := AllGroups(items);
    var nonEmpty := (g: StoreGroup) => |g.items| > 0;
    assert Filter(g, nonEmpty) == Filter([g[0]], nonEmpty) + Filter([g[1]], nonEmpty) + Filter([g[2]], nonEmpty) by {
      assert g == [g[0]] + [g[1]] + [g[2]];
      FilterAppend([g[0]] + [g[1]], [g[2]], nonEmpty);
      FilterAppend([g[0]], [g[1]], nonEmpty);
    }
  }

  /** The item at position `i` is in store `i % 3`, at position `i / 3` of its group. */
  lemma ColumnOf(items: seq<ShoppingItem>, i: nat)
    requires i < |items|
    ensures i / 3 < |Column(items, i % 3)| && Column(items, i % 3)[i / 3] == items[i]
  {
    ColumnAt(items, i % 3);
    assert 3 * (i / 3) + i % 3 == i;
  }

  /** The groups share the items out: their sizes add up to the number of items. */
  lemma GroupByStorePartition(items: seq<ShoppingItem>)
    ensures |Column(items, 0)| + |Column(items, 1)| + |Column(items, 2)| == |items|
  {
    ColumnAt(items, 0);
    ColumnAt(items, 1);
    ColumnAt(items, 2);
  }

  // ---------------------------------------------------------------- the list transforms

  /** A fresh entry: unchecked and without quantity. */
  function NewItem(id: string, name: string, now: int): ShoppingItem {
    ShoppingItem(id, name, None, false, now)
  }

  /** `existing.has(n.toLowerCase())`, with `existing` the lower-cased names of the list. */
  predicate Listed(list: seq<ShoppingItem>, n: string) {
    Lower(n) in Map(list, (i: ShoppingItem) => Lower(i.name))
  }

  /** The incoming names not yet on the list, in order, duplicates among them kept. */
  function Incoming(list: seq<ShoppingItem>, names: seq<string>): seq<string> {
    Filter(names, (n: string) => !Listed(list, n))
  }

  /** The merged list: the list, then one new entry per incoming name; the `k`-th new entry
      gets id `newId(k)` and the clock reading `now(k)`, as each entry reads `Date.now()`
      afresh. */
  function Merged(list: seq<ShoppingItem>, names: seq<string>, newId: nat -> string, now: nat -> int): seq<ShoppingItem> {
    var incoming := Incoming(list, names);
    list + seq(|incoming|, k requires 0 <= k < |incoming| => NewItem(newId(k), incoming[k], now(k)))
  }

  /** The existing list stays a prefix; each added entry is new and unchecked and carries an
      incoming name whose lower-case form was not on the list; and every such name is added. */
  lemma MergedShape(list: seq<ShoppingItem>, names: seq<string>, newId: nat -> string, now: nat -> int, n: string)
    ensures Merged(list, names, newId, now)[..|list|] == list
    ensures |Merged(list, names, newId, now)| == |list| + |Incoming(list, names)|
    ensures forall k :: |list| <= k < |Merged(list, names, newId, now)| ==>
      !Merged(list, names, newId, now)[k].checked && Merged(list, names, newId, now)[k].quantity == None
    ensures forall k :: |list| <= k < |Merged(list, names, newId, now)| ==>
      Merged(list, names, newId, now)[k].id == newId(k - |list|) && Merged(list, names, newId, now)[k].addedAt == now(k - |list|)
    ensures forall k :: |list| <= k < |Merged(list, names, newId, now)| ==>
      Merged(list, names, newId, now)[k].name in names && !Listed(list, Merged(list, names, newId, now)[k].name)
    ensures n in names && !Listed(list, n) ==> exists k :: |list| <= k < |Merged(list, names, newId, now)| && Merged(list, names, newId, now)[k].name == n
  {
    var incoming := Incoming(list, names);
    var added := seq(|incoming|, k requires 0 <= k < |incoming| => NewItem(newId(k), incoming[k], now(k)));
    var m := Merged(list, names, newId, now);
    assert m == list + added;
    forall k | |list| <= k < |m|
      ensures !m[k].checked && m[k].quantity == None && m[k].name in names && !Listed(list, m[k].name)
      ensures m[k].id == newId(k - |list|) && m[k].addedAt == now(k - |list|)
    {
      var j := k - |list|;
      assert m[k] == added[j];
      assert added[j] == NewItem(newId(j), incoming[j], now(j));
      FilterMembers(names, (n: string) => !Listed(list, n), m[k].name);
    }
    if n in names && !Listed(list, n) {
      FilterMembers(names, (n: string) => !Listed(list, n), n);
      var j :| 0 <= j < |incoming| && incoming[j] == n;
      assert m[|list| + j] == added[j];
      assert added[j] == NewItem(newId(j), incoming[j], now(j));
    }
  }

  /** A name that arrives twice and is not on the list is added twice. */
  lemma MergedKeepsDuplicates(list: seq<ShoppingItem>, n: string, newId: nat -> string, now: nat -> int)
    requires !Listed(list, n)
    ensures |Merged(list, [n, n], newId, now)| == |list| + 2
  {
    var unlisted := (m: string) => !Listed(list, m);
    assert Filter([n], unlisted) == [n] + Filter([], unlisted);
    assert Filter([n, n], unlisted) == [n] + Filter([n], unlisted) by {
      assert [n, n][1..] == [n];
    }
  }

  /** `items.map(i => i.id === id ? { ...i, checked: !i.checked } : i)`. */
  function Toggled(items: seq<ShoppingItem>, id: string): seq<ShoppingItem> {
    Map(items, (i: ShoppingItem) => if i.id == id then i.(checked := !i.checked) else i)
  }

  /** Only the entries with the id change, and only in `checked`. */
  lemma ToggledAt(items: seq<ShoppingItem>, id: string)
    ensures |Toggled(items, id)| == |items|
    ensures forall k :: 0 <= k < |items| && items[k].id == id ==> Toggled(items, id)[k] == items[k].(checked := !items[k].checked)
    ensures forall k :: 0 <= k < |items| && items[k].id != id ==> Toggled(items, id)[k] == items[k]
  {
  }

  /** Toggling the same id twice gives the list back. */
  lemma ToggleTwice(items: seq<ShoppingItem>, id: string)
    ensures Toggled(Toggled(items, id), id) == items
  {
    var once := Toggled(items, id);
    var twice := Toggled(once, id);
    assert |twice| == |items|;
    forall k | 0 <= k < |items| ensures twice[k] == items[k] {
      assert once[k].id == items[k].id;
    }
  }

  /** `items.filter(i => i.id !== id)`. */
  function Removed(items: seq<ShoppingItem>, id: string): seq<ShoppingItem> {
    Filter(items, (i: ShoppingItem) => i.id != id)
  }

  /** Exactly the entries with another id stay, in order; an absent id changes nothing. */
  lemma RemovedMembers(items: seq<ShoppingItem>, id: string, x: ShoppingItem)
    ensures x in Removed(items, id) <==> x in items && x.id != id
    ensures (forall k :: 0 <= k < |items| ==> items[k].id != id) ==> Removed(items, id) == items
  {
    FilterMembers(items, (i: ShoppingItem) => i.id != id, x);
    if forall k :: 0 <= k < |items| ==> items[k].id != id {
      FilterAll(items, (i: ShoppingItem) => i.id != id);
    }
  }

  /** `items.filter(i => !i.checked)`. */
  function DoneCleared(items: seq<ShoppingItem>): seq<ShoppingItem> {
    Filter(items, (i: ShoppingItem) => !i.checked)
  }

  /** Exactly the unchecked entries stay, and clearing again changes nothing. */
  lemma DoneClearedMembers(items: seq<ShoppingItem>, x: ShoppingItem)
    ensures x in DoneCleared(items) <==> x in items && !x.checked
    ensures DoneCleared(DoneCleared(items)) == DoneCleared(items)
  {
    FilterMembers(items, (i: ShoppingItem) => !i.checked, x);
    FilterIdempotent(items, (i: ShoppingItem) => !i.checked);
  }

  // ---------------------------------------------------------------- the page

  const LoadFailed := "加载失败"
  const AddFailed := "添加失败"
  const SaveFailed := "保存失败，请稍后重试"
  const DeleteFailed := "删除失败，请稍后重试"

  /** The component state, with the backend's stored list beside it. */
  class ShoppingListPage {
    var items: seq<ShoppingItem>
    var newName: string
    var error: string
    var appliedAddItems: bool
    var stored: seq<ShoppingItem>

    constructor (backendList: seq<ShoppingItem>)
      ensures items == [] && newName == "" && error == "" && !appliedAddItems && stored == backendList
    {
      items := [];
      newName := "";
      error := "";
      appliedAddItems := false;
      stored := backendList;
    }

    /** The first effect: fetch the stored list into the page. */
    method Load(fetch: Backend)
      modifies this
      ensures fetch.Succeeded? ==> items == stored && error == ""
      ensures fetch.Failed? ==> items == old(items) && error == ErrorText(fetch, LoadFailed)
      ensures stored == old(stored) && newName == old(newName) && appliedAddItems == old(appliedAddItems)
    {
      error := "";
      if fetch.Succeeded? {
        items := stored;
      } else {
        error := ErrorText(fetch, LoadFailed);
      }
    }

    /** The second effect: names handed over by another page are merged into the stored list,
        once per mount and only when there is at least one. */
    method ApplyAddItems(addItems: Option<seq<string>>, newId: nat -> string, now: nat -> int, fetch: Backend, save: Backend)
      returns (stateCleared: bool)
      modifies this
      ensures var run := addItems.Some? && |addItems.value| > 0 && !old(appliedAddItems);
        && (!run ==> items == old(items) && stored == old(stored) && error == old(error) && appliedAddItems == old(appliedAddItems))
        && (run ==> appliedAddItems)
        && (run && fetch.Failed? ==> items == old(items) && stored == old(stored) && error == ErrorText(fetch, AddFailed))
        && (run && fetch.Succeeded? && save.Succeeded? ==>
              items == Merged(old(stored), addItems.value, newId, now) && stored == items && error == "")
        && (run && fetch.Succeeded? && save.Failed? ==>
              items == old(items) && stored == old(stored) && error == ErrorText(save, AddFailed))
        && (stateCleared <==> run && fetch.Succeeded? && save.Succeeded?)
      ensures newName == old(newName)
    {
      stateCleared := false;
      if addItems.Some? && |addItems.value| > 0 && !appliedAddItems {
        appliedAddItems := true;
        error := "";
        if fetch.Failed? {
          error := ErrorText(fetch, AddFailed);
        } else {
          var next := Merged(stored, addItems.value, newId, now);
          if save.Succeeded? {
            stored := next;
            items := next;
            stateCleared := true;
          } else {
            error := ErrorText(save, AddFailed);
          }
        }
      }
    }

    /** `addItem`: a blank name does nothing; otherwise one new unchecked entry with the trimmed
        name is appended once it is stored, and the input is cleared. */
    method AddItem(id: string, now: int, save: Backend)
      modifies this
      ensures Trim(old(newName)) == "" ==> items == old(items) && stored == old(stored) && error == old(error) && newName == old(newName)
      ensures Trim(old(newName)) != "" && save.Succeeded? ==>
        items == old(items) + [NewItem(id, Trim(old(newName)), now)] && stored == items && error == "" && newName == ""
      ensures Trim(old(newName)) != "" && save.Failed? ==>
        items == old(items) && stored == old(stored) && error == ErrorText(save, SaveFailed) && newName == old(newName)
      ensures appliedAddItems == old(appliedAddItems)
    {
      var name := Trim(newName);
      if name == "" {
        return;
      }
      error := "";
      var next := items + [NewItem(id, name, now)];
      if save.Succeeded? {
        stored := next;
        items := next;
        newName := "";
      } else {
        error := ErrorText(save, SaveFailed);
      }
    }

    /** Replaces the list by `next` once it is stored; otherwise keeps it and shows the error. */
    method Commit(next: seq<ShoppingItem>, save: Backend, fallback: string)
      modifies this
      ensures save.Succeeded? ==> items == next && stored == next && error == ""
      ensures save.Failed? ==> items == old(items) && stored == old(stored) && error == ErrorText(save, fallback)
      ensures newName == old(newName) && appliedAddItems == old(appliedAddItems)
    {
      error := "";
      if save.Succeeded? {
        stored := next;
        items := next;
      } else {
        error := ErrorText(save, fallback);
      }
    }

    /** `toggle(id)`. */
    method Toggle(id: string, save: Backend)
      modifies this
      ensures save.Succeeded? ==> items == Toggled(old(items), id) && stored == items && error == ""
      ensures save.Failed? ==> items == old(items) && stored == old(stored) && error == ErrorText(save, SaveFailed)
      ensures newName == old(newName) && appliedAddItems == old(appliedAddItems)
    {
      Commit(Toggled(items, id), save, SaveFailed);
    }

    /** `remove(id)`. */
    method Remove(id: string, save: Backend)
      modifies this
      ensures save.Succeeded? ==> items == Removed(old(items), id) && stored == items && error == ""
      ensures save.Failed? ==> items == old(items) && stored == old(stored) && error == ErrorText(save, DeleteFailed)
      ensures newName == old(newName) && appliedAddItems == old(appliedAddItems)
    {
      Commit(Removed(items, id), save, DeleteFailed);
    }

    /** `clearDone()`. */
    method ClearDone(save: Backend)
      modifies this
      ensures save.Succeeded? ==> items == DoneCleared(old(items)) && stored == items && error == ""
      ensures save.Failed? ==> items == old(items) && stored == old(stored) && error == ErrorText(save, SaveFailed)
      ensures newName == old(newName) && appliedAddItems == old(appliedAddItems)
    {
      Commit(DoneCleared(items), save, SaveFailed);
    }
  }
}
