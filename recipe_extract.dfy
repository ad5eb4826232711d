/** The recipe search example's text extraction (docs/examples/python_recipe_search.py):
    cuisine, difficulty, cooking time and ingredient table read from a recipe's Markdown text,
    and the default file name a recipe is saved under. The regular expressions of the source
    are written out as the scans they perform, Python's `re` semantics included. */
module RecipeExtract {
  import opened Wrappers
  import opened Text
  import opened Seqs

  // ---------------------------------------------------------------- scanning

  /** The end of the longest run of characters satisfying `p` that starts at `i`. */
  function RunEnd(s: string, i: nat, p: char -> bool): (j: nat)
    requires i <= |s|
    ensures i <= j <= |s|
    ensures forall k :: i <= k < j ==> p(s[k])
    ensures j < |s| ==> !p(s[j])
    decreases |s| - i
  {
    if i < |s| && p(s[i]) then RunEnd(s, i + 1, p) else i
  }

  /** A run is determined by where it stops. */
  lemma RunEndAt(s: string, i: nat, p: char -> bool, j: nat)
    requires i <= j <= |s|
    requires forall k :: i <= k < j ==> p(s[k])
    requires j < |s| ==> !p(s[j])
    ensures RunEnd(s, i, p) == j
  {
  }

  predicate NotDigit(c: char) { !IsDigit(c) }
  predicate NotSpace(c: char) { !IsPySpace(c) }
  predicate NotPipe(c: char) { c != '|' }

  // ---------------------------------------------------------------- cuisine

  const CuisineNames := ["Sichuan", "Cantonese", "Hunan", "Italian", "Japanese", "Chinese"]

  /** Regional cues are looked for in the text only. */
  predicate Sichuan(content: string) { Contains(content, "川菜") || Contains(content, "四川") }
  predicate Cantonese(content: string) { Contains(content, "粤菜") || Contains(content, "广东") }
  predicate Hunan(content: string) { Contains(content, "湘菜") || Contains(content, "湖南") }
  predicate Regional(content: string) { Sichuan(content) || Cantonese(content) || Hunan(content) }

  /** The first rule that fires, Sichuan to Japanese, else 'Chinese'. */
  function Cuisine(content: string, dishName: string): (r: string)
    ensures r in CuisineNames
    ensures r == "Chinese" <==>
      (!Regional(content) && !(Contains(dishName, "意大利") || Contains(content, "Italian")) && !(Contains(dishName, "日本") || Contains(content, "Japanese")))
  {
    if Sichuan(content) then "Sichuan"
    else if Cantonese(content) then "Cantonese"
    else if Hunan(content) then "Hunan"
    else if Contains(dishName, "意大利") || Contains(content, "Italian") then "Italian"
    else if Contains(dishName, "日本") || Contains(content, "Japanese") then "Japanese"
    else "Chinese"
  }

  /** A regional cue in the text outranks whatever the dish is called. */
  lemma RegionalIgnoresDishName(content: string, dish1: string, dish2: string)
    requires Regional(content)
    ensures Cuisine(content, dish1) == Cuisine(content, dish2)
    ensures Cuisine(content, dish1) in ["Sichuan", "Cantonese", "Hunan"]
  {
  }

  /** Sichuan cues win over every later rule, even when the dish is called Italian. */
  lemma SichuanFirst(a: string, b: string, dishName: string)
    ensures Cuisine(a + "川菜" + b, dishName) == "Sichuan"
  {
    OccursBetween(a, "川菜", b);
  }

  /** An Italian dish name counts only when no region is mentioned, and outranks Japanese. */
  lemma ItalianByName(content: string, a: string, b: string)
    requires !Regional(content)
    ensures Cuisine(content, a + "意大利" + b) == "Italian"
  {
    OccursBetween(a, "意大利", b);
  }

  // ---------------------------------------------------------------- difficulty

  /** A numbered step: at a line start, one or more digits, a '.', and a whitespace character
      (`^\d+\.\s` under `re.MULTILINE`, where only '\n' ends a line). */
  predicate StepAt(s: string, i: nat)
    requires i < |s|
  {
    && (i == 0 || s[i - 1] == '\n')
    && IsDigit(s[i])
    && RunEnd(s, i, IsDigit) + 1 < |s|
    && s[RunEnd(s, i, IsDigit)] == '.'
    && IsPySpace(s[RunEnd(s, i, IsDigit) + 1])
  }

  /** The numbered steps at or after `i`. A step match ends at or before the next line start,
      so `re.findall`'s non-overlapping matches are exactly these positions. */
  function StepsFrom(s: string, i: nat): nat
    requires i <= |s|
    decreases |s| - i
  {
    if i == |s| then 0 else (if StepAt(s, i) then 1 else 0) + StepsFrom(s, i + 1)
  }

  function StepCount(content: string): nat {
    StepsFrom(content, 0)
  }

  /** Up to five steps are easy, up to ten medium, more are hard. */
  function Difficulty(stepCount: nat): (r: string)
    ensures r == "easy" <==> stepCount <= 5
    ensures r == "medium" <==> 5 < stepCount <= 10
    ensures r == "hard" <==> 10 < stepCount
  {
    if stepCount <= 5 then "easy" else if stepCount <= 10 then "medium" else "hard"
  }

  /** A step of `s` is still a step once more text follows. */
  lemma StepAtExtends(s: string, t: string, i: nat)
    requires i < |s| && StepAt(s, i)
    ensures StepAt(s + t, i)
  {
    var j := RunEnd(s, i, IsDigit);
    RunEndAt(s + t, i, IsDigit, j);
  }

  lemma {:induction false} StepsFromGrows(s: string, t: string, i: nat)
    requires i <= |s|
    ensures StepsFrom(s + t, i) >= StepsFrom(s, i)
    decreases |s| - i
  {
    if i < |s| {
      if StepAt(s, i) {
        StepAtExtends(s, t, i);
      }
      StepsFromGrows(s, t, i + 1);
    }
  }

  /** Appending text never removes a step, so it never makes a recipe easier. */
  lemma MoreTextNeverEasier(s: string, t: string)
    ensures StepCount(s) <= StepCount(s + t)
    ensures Difficulty(StepCount(s)) == "hard" ==> Difficulty(StepCount(s + t)) == "hard"
    ensures Difficulty(StepCount(s + t)) == "easy" ==> Difficulty(StepCount(s)) == "easy"
  {
    StepsFromGrows(s, t, 0);
  }

  /** Text without a newline has at most one step, at its start, so it is easy. */
  lemma {:induction false} OneLineIsEasy(s: string, i: nat)
    requires 0 < i <= |s| && '\n' !in s
    ensures StepsFrom(s, i) == 0
    decreases |s| - i
  {
    if i < |s| {
      assert s[i - 1] != '\n';
      OneLineIsEasy(s, i + 1);
    }
  }

  // ---------------------------------------------------------------- estimated time

  const DefaultTime := "30-45 minutes"

  predicate IsRangeSeparator(c: char) { c == '-' || c == '~' }

  /** '分钟', or 'minutes' in any ASCII letter case (`re.IGNORECASE`), at `w`. */
  predicate MinutesAt(s: string, w: nat)
    requires w <= |s|
  {
    OccursAt(s, "分钟", w) || (w + 7 <= |s| && Lower(s[w..w + 7]) == "minutes")
  }

  /** The two numbers of a time range. */
  datatype TimeRange = TimeRange(low: string, high: string)

  /** `(\d+)[-~](\d+)\s*(分钟|minutes)` tried at `p`. Neither digit group can give back a
      digit, since a separator and a unit word follow them, and the whitespace run is the
      longest one, since a unit word does not start with whitespace. */
  function TimeAt(s: string, p: nat): Option<TimeRange>
    requires p <= |s|
  {
    if p < |s| && IsDigit(s[p]) then
      var j := RunEnd(s, p, IsDigit);
      if j + 1 < |s| && IsRangeSeparator(s[j]) && IsDigit(s[j + 1]) then
        var k := RunEnd(s, j + 1, IsDigit);
        if MinutesAt(s, RunEnd(s, k, IsPySpace)) then Some(TimeRange(s[p..j], s[j + 1..k])) else None
      else None
    else None
  }

  /** `re.search`: the leftmost position at or after `p` where the pattern matches. */
  function FirstTimeFrom(s: string, p: nat): Option<TimeRange>
    requires p <= |s|
    decreases |s| - p
  {
    if p == |s| then None else if TimeAt(s, p).Some? then TimeAt(s, p) else FirstTimeFrom(s, p + 1)
  }

  /** `"<low>-<high> minutes"` from the first range, else '30-45 minutes'. */
  function EstimatedTime(content: string): string {
    match FirstTimeFrom(content, 0)
    case None => DefaultTime
    case Some(range) => range.low + "-" + range.high + " minutes"
  }

  /** The search passes over text without digits. */
  lemma {:induction false} FirstTimeSkips(s: string, i: nat, p: nat)
    requires i <= p <= |s|
    requires forall k :: i <= k < p ==> !IsDigit(s[k])
    ensures FirstTimeFrom(s, i) == FirstTimeFrom(s, p)
    decreases p - i
  {
    if i < p {
      FirstTimeSkips(s, i + 1, p);
    }
  }

  /** Text without digits gets the default time. */
  lemma NoDigitsDefaultTime(content: string)
    requires forall k :: 0 <= k < |content| ==> !IsDigit(content[k])
    ensures EstimatedTime(content) == DefaultTime
  {
    FirstTimeSkips(content, 0, |content|);
  }

  /** A unit word is '分钟' or 'minutes' in some letter case. */
  predicate IsMinutesWord(unit: string) {
    unit == "分钟" || (|unit| == 7 && Lower(unit) == "minutes")
  }

  /** A unit word starts with neither a digit nor whitespace. */
  lemma MinutesWordStart(unit: string)
    requires IsMinutesWord(unit)
    ensures !IsDigit(unit[0]) && !IsPySpace(unit[0])
  {
    if unit != "分钟" {
      assert LowerChar(unit[0]) == 'm';
    }
  }

  /** The pattern matches where digits, a separator, digits, whitespace and a unit word
      follow one another, and the groups are the two digit runs. */
  lemma TimeAtRange(s: string, p: nat, j: nat, k: nat, w: nat)
    requires p < j < j + 1 < k <= w <= |s|
    requires AllDigits(s[p..j]) && IsRangeSeparator(s[j]) && AllDigits(s[j + 1..k])
    requires forall m :: 0 <= m < w - k ==> IsPySpace(s[k..w][m])
    requires w < |s| && !IsDigit(s[w]) && !IsPySpace(s[w]) && MinutesAt(s, w)
    ensures TimeAt(s, p) == Some(TimeRange(s[p..j], s[j + 1..k]))
  {
    DigitsRunTo(s, p, j);
    assert !IsDigit(s[k]) by {
      if k < w { assert s[k] == s[k..w][0]; }
    }
    DigitsRunTo(s, j + 1, k);
    SpacesRunTo(s, k, w);
    assert IsDigit(s[p]) && IsDigit(s[j + 1]) by {
      assert s[p] == s[p..j][0] && s[j + 1] == s[j + 1..k][0];
    }
    TimeAtRuns(s, p, j, k, w);
  }

  /** The match at `p` read off from where its runs end. */
  lemma TimeAtRuns(s: string, p: nat, j: nat, k: nat, w: nat)
    requires p < |s| && IsDigit(s[p]) && RunEnd(s, p, IsDigit) == j
    requires j + 1 < |s| && IsRangeSeparator(s[j]) && IsDigit(s[j + 1])
    requires RunEnd(s, j + 1, IsDigit) == k && RunEnd(s, k, IsPySpace) == w && MinutesAt(s, w)
    ensures TimeAt(s, p) == Some(TimeRange(s[p..j], s[j + 1..k]))
  {
  }

  /** A digit run covering `s[i..j]` and stopped by a non-digit ends at `j`. */
  lemma DigitsRunTo(s: string, i: nat, j: nat)
    requires i <= j < |s| && AllDigits(s[i..j]) && !IsDigit(s[j])
    ensures RunEnd(s, i, IsDigit) == j
  {
    assert forall m :: i <= m < j ==> s[m] == s[i..j][m - i];
    RunEndAt(s, i, IsDigit, j);
  }

  /** A whitespace run covering `s[i..j]` and stopped by a non-space ends at `j`. */
  lemma SpacesRunTo(s: string, i: nat, j: nat)
    requires i <= j < |s| && !IsPySpace(s[j])
    requires forall m :: 0 <= m < j - i ==> IsPySpace(s[i..j][m])
    ensures RunEnd(s, i, IsPySpace) == j
  {
    assert forall m :: i <= m < j ==> s[m] == s[i..j][m - i];
    RunEndAt(s, i, IsPySpace, j);
  }

  /** The first range in the text is reported with '-' whichever separator it had and
      whatever whitespace preceded its unit. */
  lemma TimeRangeRead(pre: string, low: string, sep: char, high: string, gap: string, unit: string, post: string)
    requires forall k :: 0 <= k < |pre| ==> !IsDigit(pre[k])
    requires low != [] && AllDigits(low) && high != [] && AllDigits(high)
    requires IsRangeSeparator(sep)
    requires forall k :: 0 <= k < |gap| ==> IsPySpace(gap[k])
    requires IsMinutesWord(unit)
    ensures EstimatedTime(pre + low + [sep] + high + gap + unit + post) == low + "-" + high + " minutes"
  {
    var s := pre + low + [sep] + high + gap + unit + post;
    var p := |pre|;
    var j := p + |low|;
    var k := j + 1 + |high|;
    var w := k + |gap|;
    assert s[..p] == pre && s[p..j] == low && s[j] == sep && s[j + 1..k] == high;
    assert s[k..w] == gap && s[w..w + |unit|] == unit;
    assert forall m :: 0 <= m < p ==> s[m] == pre[m];
    FirstTimeSkips(s, 0, p);
    MinutesWordStart(unit);
    assert s[w] == unit[0];
    if unit == "分钟" {
      assert OccursAt(s, "分钟", w);
    } else {
      assert s[w..w + 7] == unit;
    }
    TimeAtRange(s, p, j, k, w);
  }

  // ---------------------------------------------------------------- ingredient table

  /** The two cells of a table match, each with its surrounding whitespace stripped. */
  datatype Row = Row(name: string, amount: string)

  /** `re.findall(r'\|\s*([^|]+?)\s*\|\s*([^|]+?)\s*\|', content)`, then `.strip()` of both
      groups. A match runs from a '|' over two non-empty cells to the third '|', which it
      consumes; when the cells after a '|' are missing or empty the search resumes right after
      that '|'. A group is its cell without some surrounding whitespace, so stripping it gives
      the stripped cell. */
  function Rows(s: string): seq<Row>
    decreases |s|, 0
  {
    var a := RunEnd(s, 0, NotPipe);
    if a == |s| then [] else RowsAfterPipe(s[a + 1..])
  }

  /** The search from just after a '|': two non-empty cells closed by '|' make a row. */
  function RowsAfterPipe(t: string): seq<Row>
    decreases |t|, 1
  {
    var b := RunEnd(t, 0, NotPipe);
    if 0 < b < |t| then
      var u := t[b + 1..];
      var c := RunEnd(u, 0, NotPipe);
      if 0 < c < |u| then [Row(Strip(t[..b]), Strip(u[..c]))] + Rows(u[c + 1..])
      else Rows(t)
    else Rows(t)
  }

  /** A cell as written in a table: non-empty, without '|'. */
  predicate IsCell(x: string) { x != [] && '|' !in x }

  /** Text without '|' before a table changes nothing. */
  lemma RowsSkip(junk: string, rest: string)
    requires '|' !in junk
    ensures Rows(junk + rest) == Rows(rest)
  {
    var s := junk + rest;
    var a := RunEnd(rest, 0, NotPipe);
    assert RunEnd(s, 0, NotPipe) == |junk| + a by {
      assert forall k :: 0 <= k < |junk| ==> NotPipe(s[k]);
      assert forall k :: |junk| <= k < |junk| + a ==> s[k] == rest[k - |junk|];
      RunEndAt(s, 0, NotPipe, |junk| + a);
    }
    RowsAtPipe(s, |junk| + a);
    RowsAtPipe(rest, a);
    if a < |rest| {
      assert s[|junk| + a + 1..] == rest[a + 1..];
    }
  }

  /** The search reads on after the first '|', if there is one. */
  lemma RowsAtPipe(s: string, a: nat)
    requires RunEnd(s, 0, NotPipe) == a
    ensures Rows(s) == if a == |s| then [] else RowsAfterPipe(s[a + 1..])
  {
  }

  /** One row `|name|amount|` is read as its stripped cells, and reading goes on after it. */
  lemma RowsCons(name: string, amount: string, rest: string)
    requires IsCell(name) && IsCell(amount)
    ensures Rows("|" + name + "|" + amount + "|" + rest) == [Row(Strip(name), Strip(amount))] + Rows(rest)
  {
    var t := name + "|" + amount + "|" + rest;
    var s := "|" + t;
    assert s == "|" + name + "|" + amount + "|" + rest;
    RunEndAt(s, 0, NotPipe, 0);
    assert s[1..] == t;
    AfterPipeCons(name, amount, rest);
  }

  lemma AfterPipeCons(name: string, amount: string, rest: string)
    requires IsCell(name) && IsCell(amount)
    ensures RowsAfterPipe(name + "|" + amount + "|" + rest) == [Row(Strip(name), Strip(amount))] + Rows(rest)
  {
    var u := amount + "|" + rest;
    var t := name + "|" + u;
    assert t == name + "|" + amount + "|" + rest;
    assert t[..|name|] == name && t[|name|] == '|' && t[|name| + 1..] == u;
    assert u[..|amount|] == amount && u[|amount|] == '|' && u[|amount| + 1..] == rest;
    CellEnd(t, name);
    CellEnd(u, amount);
  }

  /** A cell followed by '|' ends at that '|'. */
  lemma CellEnd(s: string, cell: string)
    requires '|' !in cell && |cell| < |s| && s[..|cell|] == cell && s[|cell|] == '|'
    ensures RunEnd(s, 0, NotPipe) == |cell|
  {
    assert forall k :: 0 <= k < |cell| ==> s[k] == cell[k];
    RunEndAt(s, 0, NotPipe, |cell|);
  }

  /** Rows every cell of which is a cell as written. */
  predicate AllCells(rows: seq<Row>) {
    forall k :: 0 <= k < |rows| ==> IsCell(rows[k].name) && IsCell(rows[k].amount)
  }

  lemma AllCellsAppend(a: seq<Row>, b: seq<Row>)
    requires AllCells(a) && AllCells(b)
    ensures AllCells(a + b)
  {
    forall k | 0 <= k < |a + b| ensures IsCell((a + b)[k].name) && IsCell((a + b)[k].amount) {
      if k < |a| { assert (a + b)[k] == a[k]; } else { assert (a + b)[k] == b[k - |a|]; }
    }
  }

  /** A table written one `|name|amount|` row per line. */
  function TableText(rows: seq<Row>): string {
    if rows == [] then "" else "|" + rows[0].name + "|" + rows[0].amount + "|" + "\n" + TableText(rows[1..])
  }

  function StripRow(r: Row): Row {
    Row(Strip(r.name), Strip(r.amount))
  }

  /** Every row of a two-column table is read back, in order, with its cells stripped. */
  lemma {:induction false} RowsOfTable(rows: seq<Row>)
    requires AllCells(rows)
    ensures Rows(TableText(rows)) == Map(rows, StripRow)
    decreases |rows|
  {
    if rows != [] {
      var rest := TableText(rows[1..]);
      assert TableText(rows) == "|" + rows[0].name + "|" + rows[0].amount + "|" + ("\n" + rest);
      RowsCons(rows[0].name, rows[0].amount, "\n" + rest);
      RowsSkip("\n", rest);
      RowsOfTable(rows[1..]);
      MapCons(rows, StripRow);
    }
  }

  // ---------------------------------------------------------------- amounts

  /** An ingredient's quantity and unit. */
  datatype Amount = Amount(quantity: real, unit: string)

  const DefaultAmount := Amount(1.0, "份")

  function Pow10(n: nat): (r: real)
    ensures r >= 1.0
  {
    if n == 0 then 1.0 else 10.0 * Pow10(n - 1)
  }

  /** `float("<whole>.<fraction>")`, as an exact decimal. */
  function Decimal(whole: string, fraction: string): (r: real)
    requires AllDigits(whole) && AllDigits(fraction)
    ensures r >= 0.0
  {
    DigitsValue(whole) as real + DigitsValue(fraction) as real / Pow10(|fraction|)
  }

  /** The end of the number `\d+\.?\d*` takes at its greedy first try from a digit at `p`. */
  function NumberEnd(s: string, p: nat): (e: nat)
    requires p < |s| && IsDigit(s[p])
    ensures p < e <= |s|
  {
    var d := RunEnd(s, p, IsDigit);
    if d < |s| && s[d] == '.' then RunEnd(s, d + 1, IsDigit) else d
  }

  /** The digits a run of digits from `i` covers up to `j` are all digits. */
  lemma DigitRun(s: string, i: nat, j: nat)
    requires i <= |s| && i <= j <= RunEnd(s, i, IsDigit)
    ensures AllDigits(s[i..j])
  {
    assert forall k :: 0 <= k < j - i ==> s[i..j][k] == s[i + k];
  }

  /** The value of the number text `s[p..stop]`, a prefix of the greedy `\d+\.?\d*` from `p`:
      the digits before the '.', and the digits after it when the prefix reaches past it. */
  function NumberValue(s: string, p: nat, stop: nat): (q: real)
    requires p < |s| && IsDigit(s[p]) && p < stop <= NumberEnd(s, p)
    ensures q >= 0.0
  {
    var d := RunEnd(s, p, IsDigit);
    if stop <= d then
      DigitRun(s, p, stop);
      Decimal(s[p..stop], "")
    else
      DigitRun(s, p, d);
      DigitRun(s, d + 1, stop);
      Decimal(s[p..d], s[d + 1..stop])
  }

  /** `(\S+)` from `w`: the run of non-whitespace characters there. */
  function UnitAt(s: string, w: nat): (u: string)
    requires w < |s| && !IsPySpace(s[w])
    ensures u != [] && u[0] == s[w]
  {
    s[w..RunEnd(s, w, NotSpace)]
  }

  /** `re.search(r'(\d+\.?\d*)\s*(\S+)', amount)` AS WRITTEN. From the first digit the number
      is as long as it can be and the unit is the non-whitespace run after the whitespace; when
      nothing but whitespace follows the number, the engine gives back the number's last
      character and makes it the unit, and a lone digit matches nothing. */
  function ParseAmountAsWritten(s: string): (a: Amount)
    ensures a.unit != [] && a.quantity >= 0.0
  {
    var p := RunEnd(s, 0, NotDigit);
    if p == |s| then DefaultAmount
    else
      var e := NumberEnd(s, p);
      var w := RunEnd(s, e, IsPySpace);
      if w < |s| then Amount(NumberValue(s, p, e), UnitAt(s, w))
      else if e - 1 > p then Amount(NumberValue(s, p, e - 1), s[e - 1..e])
      else DefaultAmount
  }

  /** The amount parse as evidently intended: the whole number is the quantity, and a number
      without a unit keeps the '份' default unit. */
  function ParseAmount(s: string): (a: Amount)
    ensures a.unit != [] && a.quantity >= 0.0
  {
    var p := RunEnd(s, 0, NotDigit);
    if p == |s| then DefaultAmount
    else
      var e := NumberEnd(s, p);
      var w := RunEnd(s, e, IsPySpace);
      Amount(NumberValue(s, p, e), if w < |s| then UnitAt(s, w) else DefaultAmount.unit)
  }

  /** Whenever a unit follows the number the two parses agree. */
  lemma ParseAmountAgrees(s: string)
    requires RunEnd(s, 0, NotDigit) < |s|
    requires RunEnd(s, NumberEnd(s, RunEnd(s, 0, NotDigit)), IsPySpace) < |s|
    ensures ParseAmount(s) == ParseAmountAsWritten(s)
  {
  }

  /** A bare count such as "12" loses its last digit to the unit as written. */
  lemma BareCountAsWritten()
    ensures ParseAmountAsWritten("12") == Amount(1.0, "2")
  {
    var s := "12";
    RunEndAt(s, 0, NotDigit, 0);
    RunEndAt(s, 0, IsDigit, 2);
    assert NumberEnd(s, 0) == 2;
    RunEndAt(s, 2, IsPySpace, 2);
    assert s[0..1] == "1";
    assert DigitsValue("1") == 1 by {
      assert "1"[..0] == [];
    }
    assert Decimal("1", "") == 1.0;
  }

  /** A lone digit is no match at all as written, so it gets the default amount. */
  lemma LoneDigitAsWritten()
    ensures ParseAmountAsWritten("2") == DefaultAmount
  {
    var s := "2";
    RunEndAt(s, 0, NotDigit, 0);
    RunEndAt(s, 0, IsDigit, 1);
    assert NumberEnd(s, 0) == 1;
    RunEndAt(s, 1, IsPySpace, 1);
  }

  /** The intended parse reads a bare count whole, with the default unit. */
  lemma BareCount(n: string)
    requires n != [] && AllDigits(n)
    ensures ParseAmount(n) == Amount(DigitsValue(n) as real, "份")
  {
    RunEndAt(n, 0, NotDigit, 0);
    RunEndAt(n, 0, IsDigit, |n|);
    RunEndAt(n, |n|, IsPySpace, |n|);
    assert n[0..|n|] == n;
  }

  /** Where the scans stop in a whole number, optional whitespace and a unit word. */
  lemma AmountPositions(n: string, gap: string, unit: string)
    requires n != [] && AllDigits(n)
    requires forall k :: 0 <= k < |gap| ==> IsPySpace(gap[k])
    requires unit != [] && forall k :: 0 <= k < |unit| ==> NotSpace(unit[k])
    requires !IsDigit(unit[0]) && unit[0] != '.'
    ensures var s := n + gap + unit;
      && RunEnd(s, 0, NotDigit) == 0 && RunEnd(s, 0, IsDigit) == |n| && NumberEnd(s, 0) == |n|
      && RunEnd(s, |n|, IsPySpace) == |n| + |gap| && RunEnd(s, |n| + |gap|, NotSpace) == |s|
      && s[0..|n|] == n && s[|n| + |gap|..|s|] == unit
  {
    var s := n + gap + unit;
    var e := |n|;
    var w := e + |gap|;
    assert s[0..e] == n && s[e..w] == gap && s[w..|s|] == unit;
    assert s[w] == unit[0];
    assert !IsDigit(s[e]) && s[e] != '.' && !IsPySpace(s[w]) by {
      if gap != [] { assert s[e] == gap[0]; }
    }
    NumberAtStart(s, e);
    SpacesRunTo(s, e, w);
    assert RunEnd(s, w, NotSpace) == |s| by {
      assert forall m :: w <= m < |s| ==> s[m] == unit[m - w];
      RunEndAt(s, w, NotSpace, |s|);
    }
  }

  /** Text that opens with the digits `s[..e]`, followed by neither a digit nor a '.', holds
      the number `s[..e]` at its start. */
  lemma NumberAtStart(s: string, e: nat)
    requires 0 < e < |s| && AllDigits(s[0..e]) && !IsDigit(s[e]) && s[e] != '.'
    ensures RunEnd(s, 0, NotDigit) == 0 && RunEnd(s, 0, IsDigit) == e && NumberEnd(s, 0) == e
  {
    assert s[0] == s[0..e][0];
    RunEndAt(s, 0, NotDigit, 0);
    DigitsRunTo(s, 0, e);
  }

  /** A whole number, optional whitespace and a unit word are read as that number and unit,
      by both parses. */
  lemma AmountRead(n: string, gap: string, unit: string)
    requires n != [] && AllDigits(n)
    requires forall k :: 0 <= k < |gap| ==> IsPySpace(gap[k])
    requires unit != [] && forall k :: 0 <= k < |unit| ==> NotSpace(unit[k])
    requires !IsDigit(unit[0]) && unit[0] != '.'
    ensures ParseAmount(n + gap + unit) == Amount(DigitsValue(n) as real, unit)
    ensures ParseAmountAsWritten(n + gap + unit) == Amount(DigitsValue(n) as real, unit)
  {
    AmountPositions(n, gap, unit);
  }

  // ---------------------------------------------------------------- ingredients

  /** One ingredient; the source marks every one essential. */
  datatype Ingredient = Ingredient(name: string, quantity: real, unit: string, essential: bool)

  /** Header cells the extraction skips. */
  const HeaderNames := ["食材", "---", "Ingredient"]

  predicate IsIngredientRow(r: Row) { r.name !in HeaderNames }

  /** Which amount parse the extraction uses: the program's pattern as written, or the
      corrected reading of a bare number. */
  datatype Reading = AsWritten | Corrected

  function ReadAmount(reading: Reading, s: string): (a: Amount)
    ensures a.unit != [] && a.quantity >= 0.0
  {
    match reading
    case AsWritten => ParseAmountAsWritten(s)
    case Corrected => ParseAmount(s)
  }

  function ToIngredient(reading: Reading): Row -> Ingredient {
    (r: Row) => var a := ReadAmount(reading, r.amount); Ingredient(r.name, a.quantity, a.unit, true)
  }

  /** The rows that are not headers, each with its amount parsed. */
  function IngredientsOf(reading: Reading, rows: seq<Row>): seq<Ingredient> {
    Map(Filter(rows, IsIngredientRow), ToIngredient(reading))
  }

  /** One more row adds its ingredient exactly when it is not a header. */
  lemma IngredientsSnoc(reading: Reading, rows: seq<Row>, row: Row)
    ensures IngredientsOf(reading, rows + [row])
         == IngredientsOf(reading, rows) + (if IsIngredientRow(row) then [ToIngredient(reading)(row)] else [])
  {
    FilterSnoc(rows, row, IsIngredientRow);
    var kept := Filter(rows, IsIngredientRow);
    if IsIngredientRow(row) {
      MapAppend(kept, [row], ToIngredient(reading));
      assert Map([row], ToIngredient(reading)) == [ToIngredient(reading)(row)];
    }
  }

  /** Both readings give the same ingredients, in the same order, with the same names; they
      differ at most in the quantity and unit of a bare number. */
  lemma ReadingsAgreeOnNames(rows: seq<Row>)
    ensures |IngredientsOf(AsWritten, rows)| == |IngredientsOf(Corrected, rows)|
    ensures forall k :: 0 <= k < |IngredientsOf(AsWritten, rows)| ==>
      IngredientsOf(AsWritten, rows)[k].name == IngredientsOf(Corrected, rows)[k].name
  {
  }

  /** The row `| 盐 | 12 |` as the program reads it, and as corrected. */
  lemma BareCountRow()
    ensures ToIngredient(AsWritten)(Row("盐", "12")) == Ingredient("盐", 1.0, "2", true)
    ensures ToIngredient(Corrected)(Row("盐", "12")) == Ingredient("盐", 12.0, "份", true)
  {
    BareCountAsWritten();
    BareCount("12");
  }

  /** The loop over the table matches: header rows are skipped, every other row appended. */
  method ExtractIngredients(reading: Reading, content: string) returns (ingredients: seq<Ingredient>)
    ensures ingredients == IngredientsOf(reading, Rows(content))
  {
    var rows := Rows(content);
    ingredients := [];
    var i := 0;
    while i < |rows|
      invariant 0 <= i <= |rows|
      invariant ingredients == IngredientsOf(reading, rows[..i])
    {
      var row := rows[i];
      assert rows[..i + 1] == rows[..i] + [row];
      IngredientsSnoc(reading, rows[..i], row);
      if row.name !in HeaderNames {
        var amount := ReadAmount(reading, row.amount);
        ingredients := ingredients + [Ingredient(row.name, amount.quantity, amount.unit, true)];
      }
      i := i + 1;
    }
    assert rows[..i] == rows;
  }

  /** Every extracted ingredient is essential, is not a header, has a stripped name, a
      non-negative quantity and a unit. */
  lemma IngredientsShape(reading: Reading, content: string)
    ensures var ing := IngredientsOf(reading, Rows(content));
      forall k :: 0 <= k < |ing| ==>
      && ing[k].essential
      && ing[k].name !in HeaderNames
      && Strip(ing[k].name) == ing[k].name
      && ing[k].quantity >= 0.0
      && ing[k].unit != []
  {
    var kept := Filter(Rows(content), IsIngredientRow);
    forall k | 0 <= k < |kept| ensures Strip(kept[k].name) == kept[k].name {
      assert kept[k] in Rows(content) by { FilterMembers(Rows(content), IsIngredientRow, kept[k]); }
      RowsStripped(content, kept[k]);
    }
  }

  /** Every row's cells are stripped. */
  lemma {:induction false} RowsStripped(s: string, r: Row)
    requires r in Rows(s)
    ensures Strip(r.name) == r.name && Strip(r.amount) == r.amount
    decreases |s|, 0
  {
    var a := RunEnd(s, 0, NotPipe);
    AfterPipeStripped(s[a + 1..], r);
  }

  lemma {:induction false} AfterPipeStripped(t: string, r: Row)
    requires r in RowsAfterPipe(t)
    ensures Strip(r.name) == r.name && Strip(r.amount) == r.amount
    decreases |t|, 1
  {
    var b := RunEnd(t, 0, NotPipe);
    if 0 < b < |t| {
      var u := t[b + 1..];
      var c := RunEnd(u, 0, NotPipe);
      if 0 < c < |u| {
        var first := Row(Strip(t[..b]), Strip(u[..c]));
        assert RowsAfterPipe(t) == [first] + Rows(u[c + 1..]);
        if r == first {
          TrimByIdempotent(t[..b], IsPySpace);
          TrimByIdempotent(u[..c], IsPySpace);
        } else {
          assert r in Rows(u[c + 1..]);
          RowsStripped(u[c + 1..], r);
        }
      } else {
        assert RowsAfterPipe(t) == Rows(t);
        RowsStripped(t, r);
      }
    } else {
      assert RowsAfterPipe(t) == Rows(t);
      RowsStripped(t, r);
    }
  }

  /** A table whose first rows are header rows ('食材', '---' or 'Ingredient' in the first
      column) gives one ingredient per remaining row, in order. */
  lemma TableIngredients(reading: Reading, head: seq<Row>, body: seq<Row>)
    requires AllCells(head) && AllCells(body)
    requires forall k :: 0 <= k < |head| ==> Strip(head[k].name) in HeaderNames
    requires forall k :: 0 <= k < |body| ==> Strip(body[k].name) !in HeaderNames
    ensures IngredientsOf(reading, Rows(TableText(head + body))) == Map(Map(body, StripRow), ToIngredient(reading))
  {
    AllCellsAppend(head, body);
    RowsOfTable(head + body);
    MapAppend(head, body, StripRow);
    HeadSkipped(head, Map(body, StripRow));
  }

  lemma HeadSkipped(head: seq<Row>, readBody: seq<Row>)
    requires forall k :: 0 <= k < |head| ==> Strip(head[k].name) in HeaderNames
    requires forall k :: 0 <= k < |readBody| ==> readBody[k].name !in HeaderNames
    ensures Filter(Map(head, StripRow) + readBody, IsIngredientRow) == readBody
  {
    var readHead := Map(head, StripRow);
    FilterAppend(readHead, readBody, IsIngredientRow);
    assert forall k :: 0 <= k < |readHead| ==> !IsIngredientRow(readHead[k]);
    FilterNone(readHead, IsIngredientRow);
    FilterAll(readBody, IsIngredientRow);
  }

  // ---------------------------------------------------------------- extract_structured_info

  datatype StructuredInfo = StructuredInfo(cuisine: string, difficulty: string, estimatedTime: string, ingredients: seq<Ingredient>)

  /** `extract_structured_info(content, dish_name)`: with `AsWritten` as the program runs it,
      with `Corrected` as the amount pattern evidently intends. */
  method ExtractStructuredInfo(reading: Reading, content: string, dishName: string) returns (info: StructuredInfo)
    ensures info.cuisine == Cuisine(content, dishName)
    ensures info.difficulty == Difficulty(StepCount(content))
    ensures info.estimatedTime == EstimatedTime(content)
    ensures info.ingredients == IngredientsOf(reading, Rows(content))
  {
    var ingredients := ExtractIngredients(reading, content);
    info := StructuredInfo(Cuisine(content, dishName), Difficulty(StepCount(content)), EstimatedTime(content), ingredients);
  }

  // ---------------------------------------------------------------- save_recipe_to_file

  /** Kept by `re.sub(r'[^\w\s-]', '', title)`; `isWord` is Unicode `\w`. */
  predicate Kept(c: char, isWord: char -> bool) { isWord(c) || IsPySpace(c) || c == '-' }

  function Keeper(isWord: char -> bool): char -> bool {
    (c: char) => Kept(c, isWord)
  }

  function Underscored(s: string): (r: string)
    ensures |r| == |s| && forall k :: 0 <= k < |s| ==> r[k] == (if s[k] == ' ' then '_' else s[k])
  {
    Map(s, (c: char) => if c == ' ' then '_' else c)
  }

  /** The title with other characters removed, stripped, and spaces turned into '_'. */
  function SafeName(title: string, isWord: char -> bool): string {
    Underscored(Strip(Filter(title, Keeper(isWord))))
  }

  /** The file name: the one given, or `recipe_<safe title>.json` when none or an empty one
      is given. */
  function RecipeFilename(title: string, filename: Option<string>, isWord: char -> bool): (r: string)
    ensures filename.Some? && filename.value != "" ==> r == filename.value
  {
    if filename.None? || filename.value == "" then "recipe_" + SafeName(title, isWord) + ".json" else filename.value
  }

  /** A safe name has no space, only kept characters and '_', and no whitespace at its ends. */
  lemma SafeNameChars(title: string, isWord: char -> bool)
    ensures ' ' !in SafeName(title, isWord)
    ensures forall k :: 0 <= k < |SafeName(title, isWord)| ==> Kept(SafeName(title, isWord)[k], isWord) || SafeName(title, isWord)[k] == '_'
    ensures SafeName(title, isWord) != [] ==> !IsPySpace(SafeName(title, isWord)[0]) && !IsPySpace(SafeName(title, isWord)[|SafeName(title, isWord)| - 1])
  {
    var f := Filter(title, Keeper(isWord));
    var t := Strip(f);
    StrippedKept(f, isWord);
    var x := Underscored(t);
    assert x == SafeName(title, isWord);
    if x != [] {
      assert x[0] == t[0] && x[|x| - 1] == t[|t| - 1];
    }
  }

  /** The characters left after removal and stripping are all kept ones, with no whitespace
      at the ends. */
  lemma StrippedKept(f: string, isWord: char -> bool)
    requires forall i :: 0 <= i < |f| ==> Keeper(isWord)(f[i])
    ensures forall k :: 0 <= k < |Strip(f)| ==> Kept(Strip(f)[k], isWord)
    ensures Strip(f) != [] ==> !IsPySpace(Strip(f)[0]) && !IsPySpace(Strip(f)[|Strip(f)| - 1])
  {
    var t := Strip(f);
    TrimByParts(f, IsPySpace);
    forall k | 0 <= k < |t| ensures Kept(t[k], isWord) {
      var i :| 0 <= i < |f| && f[i] == t[k];
      assert Keeper(isWord)(f[i]);
    }
  }

  /** Sanitising a safe name again changes nothing, because '_' is a word character. */
  lemma SafeNameIdempotent(title: string, isWord: char -> bool)
    requires isWord('_')
    ensures SafeName(SafeName(title, isWord), isWord) == SafeName(title, isWord)
  {
    var x := SafeName(title, isWord);
    SafeNameChars(title, isWord);
    FilterAll(x, Keeper(isWord));
    TrimByNoop(x, IsPySpace);
  }

  /** The default name is `recipe_`, a name without spaces, and `.json`. */
  lemma DefaultFilename(title: string, isWord: char -> bool)
    ensures RecipeFilename(title, None, isWord) == "recipe_" + SafeName(title, isWord) + ".json"
    ensures ' ' !in RecipeFilename(title, None, isWord)
  {
    SafeNameChars(title, isWord);
  }
}
