/** The scan results page (src/pages/ScanResults.tsx): the freshness groups it shows, the
    inventory entries it saves, the names it hands to the shopping list, and the tag labels. */
module ScanResults {
  import opened Wrappers
  import opened Text
  import opened Seqs
  import opened Kitchen
  import opened ShoppingList

  // ---------------------------------------------------------------- groupByFreshness

  const IsFresh: FreshItem -> bool := (i: FreshItem) => i.freshness == "fresh"
  const IsUseSoon: FreshItem -> bool := (i: FreshItem) => i.freshness == "use-soon"
  /** Everything neither fresh nor use-soon is priority, whatever its value. */
  const IsPriority: FreshItem -> bool := (i: FreshItem) => i.freshness != "fresh" && i.freshness != "use-soon"

  datatype FreshnessGroups = FreshnessGroups(freshItems: seq<FreshItem>, useSoon: seq<FreshItem>, priority: seq<FreshItem>)

  /** `groupByFreshness(items)`: one pass pushing each item onto its group. */
  method GroupByFreshness(items: seq<FreshItem>) returns (g: FreshnessGroups)
    ensures g.freshItems == Filter(items, IsFresh)
    ensures g.useSoon == Filter(items, IsUseSoon)
    ensures g.priority == Filter(items, IsPriority)
  {
    var freshItems, useSoon, priority := [], [], [];
    var i := 0;
    while i < |items|
      invariant 0 <= i <= |items|
      invariant freshItems == Filter(items[..i], IsFresh)
      invariant useSoon == Filter(items[..i], IsUseSoon)
      invariant priority == Filter(items[..i], IsPriority)
    {
      var x := items[i];
      assert items[..i + 1] == items[..i] + [x];
      FilterSnoc(items[..i], x, IsFresh);
      FilterSnoc(items[..i], x, IsUseSoon);
      FilterSnoc(items[..i], x, IsPriority);
      if x.freshness == "fresh" {
        freshItems := freshItems + [x];
      } else if x.freshness == "use-soon" {
        useSoon := useSoon + [x];
      } else {
        priority := priority + [x];
      }
      i := i + 1;
    }
    assert items[..i] == items;
    g := FreshnessGroups(freshItems, useSoon, priority);
  }

  /** Every item is in exactly one group: the group sizes add up to the number of items. */
  lemma {:induction false} FreshnessGroupsPartition(items: seq<FreshItem>)
    ensures |Filter(items, IsFresh)| + |Filter(items, IsUseSoon)| + |Filter(items, IsPriority)| == |items|
    decreases |items|
  {
    if items != [] {
      FreshnessGroupsPartition(items[1..]);
    }
  }

  /** `Tag`'s label for a freshness value. */
  function TagLabel(freshness: string): (r: string)
    ensures r == "Fresh" <==> freshness == "fresh"
    ensures r == "Use Soon" <==> freshness == "use-soon"
    ensures r == "Priority" <==> freshness != "fresh" && freshness != "use-soon"
  {
    if freshness == "fresh" then "Fresh" else if freshness == "use-soon" then "Use Soon" else "Priority"
  }

  /** Each group shows exactly the items whose tag bears its name. */
  lemma GroupsMatchTags(items: seq<FreshItem>, x: FreshItem)
    ensures x in Filter(items, IsFresh) <==> x in items && TagLabel(x.freshness) == "Fresh"
    ensures x in Filter(items, IsUseSoon) <==> x in items && TagLabel(x.freshness) == "Use Soon"
    ensures x in Filter(items, IsPriority) <==> x in items && TagLabel(x.freshness) == "Priority"
  {
    FilterMembers(items, IsFresh, x);
    FilterMembers(items, IsUseSoon, x);
    FilterMembers(items, IsPriority, x);
  }

  // ---------------------------------------------------------------- saveToInventory

  /** `result.items[0]?.storageLocation ?? 'fridge'`, then 'pantry' and 'freezer' kept and
      anything else sent to the fridge. */
  function StoredLocation(items: seq<FreshItem>): (loc: Location)
    ensures |items| > 0 && items[0].storageLocation == Some("pantry") ==> loc == Pantry
    ensures |items| > 0 && items[0].storageLocation == Some("freezer") ==> loc == Freezer
    ensures loc == Fridge <==> !(|items| > 0 && items[0].storageLocation in {Some("pantry"), Some("freezer")})
  {
    var s := if |items| > 0 && items[0].storageLocation.Some? then items[0].storageLocation.value else "fridge";
    if s == "pantry" then Pantry else if s == "freezer" then Freezer else Fridge
  }

  /** `scan-<ts>-<idx>`. */
  function ScanId(ts: nat, idx: nat): string {
    "scan-" + NatToString(ts) + "-" + NatToString(idx)
  }

  /** Ids with different indices differ, whatever clock readings they carry: the digits of the
      reading contain no '-', so the index is the part after the second '-'. */
  lemma ScanIdsDistinct(t1: nat, a: nat, t2: nat, b: nat)
    requires a != b
    ensures ScanId(t1, a) != ScanId(t2, b)
  {
    var d1, d2 := NatToString(t1), NatToString(t2);
    var s1, s2 := ScanId(t1, a), ScanId(t2, b);
    if |d1| < |d2| {
      assert s1[5 + |d1|] == '-' && s2[5 + |d1|] == d2[|d1|];
    } else if |d2| < |d1| {
      assert s2[5 + |d2|] == '-' && s1[5 + |d2|] == d1[|d2|];
    } else if s1 == s2 {
      assert NatToString(a) == s1[6 + |d1|..];
      assert NatToString(b) == s2[6 + |d2|..];
      NatToStringInjective(a, b);
    }
  }

  /** The entries saved for the scanned items: one per item, in order, all at one location.
      The page reads the clock afresh for each item's id and again for its `addedAt`;
      `stamp(idx)` and `added(idx)` are those readings for item `idx`. */
  function SavedItems(items: seq<FreshItem>, stamp: nat -> nat, added: nat -> int): (r: seq<InventoryItem>)
    ensures |r| == |items|
  {
    seq(|items|, idx requires 0 <= idx < |items| =>
      InventoryItem(ScanId(stamp(idx), idx), items[idx].name, items[idx].quantity, items[idx].unit, items[idx].freshness,
                    StoredLocation(items), added(idx)))
  }

  /** Each saved entry copies its scanned item and shares the first item's location; no two
      saved entries have the same id, however the clock moves between them. */
  lemma SavedItemsShape(items: seq<FreshItem>, stamp: nat -> nat, added: nat -> int)
    ensures forall k :: 0 <= k < |items| ==>
      && SavedItems(items, stamp, added)[k].name == items[k].name
      && SavedItems(items, stamp, added)[k].quantity == items[k].quantity
      && SavedItems(items, stamp, added)[k].unit == items[k].unit
      && SavedItems(items, stamp, added)[k].freshness == items[k].freshness
      && SavedItems(items, stamp, added)[k].location == StoredLocation(items)
    ensures forall j, k :: 0 <= j < k < |items| ==> SavedItems(items, stamp, added)[j].id != SavedItems(items, stamp, added)[k].id
  {
    var r := SavedItems(items, stamp, added);
    forall j, k | 0 <= j < k < |items| ensures r[j].id != r[k].id {
      ScanIdsDistinct(stamp(j), j, stamp(k), k);
    }
  }

  const InventorySaveFailed := "保存到库存失败，请稍后重试"

  /** The page's state: the error line, with the backend's stored inventory beside it. */
  class ScanResultsPage {
    var error: string
    var stored: seq<InventoryItem>

    constructor (backendList: seq<InventoryItem>)
      ensures error == "" && stored == backendList
    {
      error := "";
      stored := backendList;
    }

    /** `saveToInventory`: fetch the inventory, append the saved entries after it, store the
        result and go to the inventory page; any failure shows its error instead. */
    method SaveToInventory(result: FridgeSnapshot, stamp: nat -> nat, added: nat -> int, fetch: Backend, save: Backend)
      returns (navigated: bool)
      modifies this
      ensures fetch.Succeeded? && save.Succeeded? ==>
        stored == old(stored) + SavedItems(result.items, stamp, added) && error == "" && navigated
      ensures fetch.Failed? ==> stored == old(stored) && error == ErrorText(fetch, InventorySaveFailed) && !navigated
      ensures fetch.Succeeded? && save.Failed? ==> stored == old(stored) && error == ErrorText(save, InventorySaveFailed) && !navigated
    {
      error := "";
      navigated := false;
      if fetch.Failed? {
        error := ErrorText(fetch, InventorySaveFailed);
        return;
      }
      var inv := stored;
      var next := inv + SavedItems(result.items, stamp, added);
      if save.Succeeded? {
        stored := next;
        navigated := true;
      } else {
        error := ErrorText(save, InventorySaveFailed);
      }
    }
  }

  // ---------------------------------------------------------------- addToShopping

  /** `result.items.map(i => i.name)`, handed to the shopping list page. */
  function ShoppingNames(items: seq<FreshItem>): (r: seq<string>)
    ensures |r| == |items|
  {
    Map(items, (i: FreshItem) => i.name)
  }

  /** Once the shopping list merges them, every scanned name not already listed is on it. */
  lemma AddToShoppingCovers(list: seq<ShoppingItem>, items: seq<FreshItem>, newId: nat -> string, now: nat -> int, k: nat)
    requires k < |items| && !Listed(list, items[k].name)
    ensures exists j :: |list| <= j < |Merged(list, ShoppingNames(items), newId, now)| && Merged(list, ShoppingNames(items), newId, now)[j].name == items[k].name
  {
    var names := ShoppingNames(items);
    assert names[k] == items[k].name;
    MergedShape(list, names, newId, now, items[k].name);
  }
}
