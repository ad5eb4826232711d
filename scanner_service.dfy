/** The inventory helpers of the scanner service (scanner-docs/kitchenflow-scanner-service.ts):
    the freshness buckets, the match score of a dish against the inventory, and the missing
    ingredients. A requirement is matched when, lower-cased, it and some lower-cased inventory
    name contain one another in either direction. */
module ScannerService {
  import opened Text
  import opened Seqs
  import opened Kitchen
  import opened Js

  // ---------------------------------------------------------------- sortByFreshness

  const Fresh := "fresh"
  const UseSoon := "use-soon"
  const Priority := "priority"

  /** The result of `sortByFreshness`. */
  datatype Buckets = Buckets(freshItems: seq<FreshItem>, useSoon: seq<FreshItem>, priority: seq<FreshItem>)

  function HasFreshness(f: string): FreshItem -> bool {
    (i: FreshItem) => i.freshness == f
  }

  /** `sortByFreshness(items)`: three filters, each keeping the input order. */
  function SortByFreshness(items: seq<FreshItem>): (r: Buckets)
    ensures forall i :: 0 <= i < |r.freshItems| ==> r.freshItems[i].freshness == Fresh
    ensures forall i :: 0 <= i < |r.useSoon| ==> r.useSoon[i].freshness == UseSoon
    ensures forall i :: 0 <= i < |r.priority| ==> r.priority[i].freshness == Priority
  {
    Buckets(Filter(items, HasFreshness(Fresh)), Filter(items, HasFreshness(UseSoon)), Filter(items, HasFreshness(Priority)))
  }

  /** Each bucket holds exactly the items with its freshness. */
  lemma SortByFreshnessMembers(items: seq<FreshItem>, x: FreshItem)
    ensures x in SortByFreshness(items).freshItems <==> x in items && x.freshness == Fresh
    ensures x in SortByFreshness(items).useSoon <==> x in items && x.freshness == UseSoon
    ensures x in SortByFreshness(items).priority <==> x in items && x.freshness == Priority
  {
    FilterMembers(items, HasFreshness(Fresh), x);
    FilterMembers(items, HasFreshness(UseSoon), x);
    FilterMembers(items, HasFreshness(Priority), x);
  }

  /** When every item has one of the three values, the buckets share the items out: their
      sizes add up to the number of items. */
  lemma {:induction false} SortByFreshnessCovers(items: seq<FreshItem>)
    requires forall i :: 0 <= i < |items| ==> items[i].freshness in {Fresh, UseSoon, Priority}
    ensures var r := SortByFreshness(items); |r.freshItems| + |r.useSoon| + |r.priority| == |items|
    decreases |items|
  {
    if items != [] {
      SortByFreshnessCovers(items[1..]);
      assert UseSoon[0] == 'u' && Priority[0] == 'p';
    }
  }

  // ---------------------------------------------------------------- matching

  /** `currentInventory.map(i => i.name.toLowerCase())`. */
  function InventoryNames(inventory: seq<FreshItem>): seq<string> {
    Map(inventory, (i: FreshItem) => Lower(i.name))
  }

  /** `inventoryNames.some(inv => inv.includes(req.toLowerCase()) || req.toLowerCase().includes(inv))`. */
  predicate Matches(req: string, names: seq<string>) {
    exists k :: 0 <= k < |names| && (Contains(names[k], Lower(req)) || Contains(Lower(req), names[k]))
  }

  function Found(inventory: seq<FreshItem>): string -> bool {
    (req: string) => Matches(req, InventoryNames(inventory))
  }

  function Lacking(inventory: seq<FreshItem>): string -> bool {
    (req: string) => !Matches(req, InventoryNames(inventory))
  }

  /** The requirements the inventory covers, in order. */
  function Matched(required: seq<string>, inventory: seq<FreshItem>): seq<string> {
    Filter(required, Found(inventory))
  }

  /** `calculateMatchScore(required, inventory)`: the rounded percentage of requirements the
      inventory covers; 0 for an empty list. */
  function MatchScore(required: seq<string>, inventory: seq<FreshItem>): (r: int)
    ensures required == [] ==> r == 0
    ensures 0 <= r <= 100
    ensures required != [] && |Matched(required, inventory)| == |required| ==> r == 100
    ensures Matched(required, inventory) == [] ==> r == 0
    ensures required != [] ==> NearestPercent(r, |Matched(required, inventory)|, |required|)
  {
    if |required| == 0 then 0
    else Percent(|Matched(required, inventory)|, |required|)
  }

  /** `r` is the percentage `100 m / n` rounded to the nearest integer, halves up:
      `r - 1/2 <= 100 m / n < r + 1/2`, stated without division. */
  predicate NearestPercent(r: int, m: nat, n: nat) {
    (r as real - 0.5) * n as real <= 100.0 * m as real < (r as real + 0.5) * n as real
  }

  /** `Math.round(m / n * 100)` for `m` of `n` requirements: the nearest whole percentage,
      100 for all of them, 0 for none, and between the two otherwise. */
  function Percent(m: nat, n: nat): (r: int)
    requires 0 < n && m <= n
    ensures NearestPercent(r, m, n)
    ensures 0 <= r <= 100
    ensures m == n ==> r == 100
    ensures m == 0 ==> r == 0
  {
    var x := m as real / n as real * 100.0;
    ShareBounds(m, n);
    ScaleRounding(Round(x), x, n as real, 100.0 * m as real);
    RoundMonotone(0.0, x);
    RoundMonotone(x, 100.0);
    RoundInteger(0);
    RoundInteger(100);
    Round(x)
  }

  /** Bounds on `x` carry over to `x * n` for a positive `n`. */
  lemma ScaleRounding(r: int, x: real, n: real, y: real)
    requires n > 0.0 && x * n == y && r as real - 0.5 <= x < r as real + 0.5
    ensures (r as real - 0.5) * n <= y < (r as real + 0.5) * n
  {
    var lo := x - (r as real - 0.5);
    var hi := (r as real + 0.5) - x;
    assert lo >= 0.0 && hi > 0.0;
    assert lo * n >= 0.0 && hi * n > 0.0;
    assert lo * n == y - (r as real - 0.5) * n;
    assert hi * n == (r as real + 0.5) * n - y;
  }

  /** The share `m / n * 100` of a whole lies between 0 and 100. */
  lemma ShareBounds(m: nat, n: nat)
    requires 0 < n && m <= n
    ensures 0.0 <= m as real / n as real * 100.0 <= 100.0
    ensures m == n ==> m as real / n as real * 100.0 == 100.0
    ensures m == 0 ==> m as real / n as real * 100.0 == 0.0
    ensures m as real / n as real * 100.0 * n as real == 100.0 * m as real
  {
    var q := m as real / n as real;
    assert q * n as real == m as real;
    assert 0.0 <= q <= 1.0;
  }

  /** `findMissingIngredients(required, inventory)`: the requirements the inventory does not
      cover, in order, duplicates kept. */
  function MissingIngredients(required: seq<string>, inventory: seq<FreshItem>): seq<string> {
    Filter(required, Lacking(inventory))
  }

  /** A requirement is missing exactly when it is required and not matched. */
  lemma MissingMembers(required: seq<string>, inventory: seq<FreshItem>, x: string)
    ensures x in MissingIngredients(required, inventory) <==> x in required && !Matches(x, InventoryNames(inventory))
    ensures x in Matched(required, inventory) <==> x in required && Matches(x, InventoryNames(inventory))
  {
    FilterMembers(required, Lacking(inventory), x);
    FilterMembers(required, Found(inventory), x);
  }

  /** Matched and missing requirements share the list out between them. */
  lemma MatchedPlusMissing(required: seq<string>, inventory: seq<FreshItem>)
    ensures |Matched(required, inventory)| + |MissingIngredients(required, inventory)| == |required|
  {
    FilterComplementLength(required, Found(inventory), Lacking(inventory));
  }

  /** With nothing missing a non-empty list scores 100, with everything missing it scores 0. */
  lemma MatchScoreMissing(required: seq<string>, inventory: seq<FreshItem>)
    ensures required != [] && MissingIngredients(required, inventory) == [] ==> MatchScore(required, inventory) == 100
    ensures |MissingIngredients(required, inventory)| == |required| ==> MatchScore(required, inventory) == 0
  {
    MatchedPlusMissing(required, inventory);
  }

  /** An inventory item with an empty name matches every requirement, since every text
      contains the empty one. */
  lemma EmptyNameMatchesAll(required: seq<string>, inventory: seq<FreshItem>, k: nat)
    requires k < |inventory| && inventory[k].name == ""
    ensures MissingIngredients(required, inventory) == []
    ensures Matched(required, inventory) == required
  {
    var names := InventoryNames(inventory);
    assert names[k] == "";
    forall i | 0 <= i < |required| ensures Matches(required[i], names) {
      ContainsEmptyAndSelf(Lower(required[i]));
    }
    FilterNone(required, Lacking(inventory));
    FilterAll(required, Found(inventory));
  }
}
