/** The camera module's string and number helpers (smart-kitchen-camera-module/utils/formatters.ts):
    number and date normalisation, trimmed de-duplication, and the similarity score behind
    the name suggestions. */
module Formatters {
  import opened Wrappers
  import opened Text
  import opened Seqs
  import opened Js

  // ---------------------------------------------------------------- normalizeNumber

  /** The argument of `normalizeNumber`: a value whose `typeof` is "number" (possibly NaN or
      infinite), or any other value, `None` standing for `undefined`. */
  datatype Arg = NumberArg(n: Number) | OtherArg(v: Option<Json>)

  /** The characters `/[^\d.\-]/g` keeps. */
  predicate NumericChar(c: char) {
    IsDigit(c) || c == '.' || c == '-'
  }

  /** `s.replace(/[^\d.\-]/g, '')`. */
  function KeepNumeric(s: string): (r: string)
    ensures forall i :: 0 <= i < |r| ==> NumericChar(r[i])
  {
    Filter(s, NumericChar)
  }

  /** `normalizeNumber(v, fallback)`: a number stays as it is when finite; anything else is
      converted from its text with every character but digits, '.' and '-' removed. Only a
      non-finite result gives the fallback, so a missing value or text without digits is 0. */
  function NormalizeNumber(v: Arg, fallback: real): (r: real)
    ensures v.NumberArg? && v.n.Finite? ==> r == v.n.value
    ensures v.NumberArg? && !v.n.Finite? ==> r == fallback
    ensures v.OtherArg? && (v.v.None? || v.v == Some(JNull)) ==> r == 0.0
  {
    var n := match v
      case NumberArg(n) => n
      case OtherArg(x) => StringToNumber(KeepNumeric(ToStr(Coalesce(x, JStr("")))));
    if n.Finite? then n.value else fallback
  }

  /** Text holding one run of digits among characters that are neither digits, '.' nor '-'
      (a currency sign, a unit) normalises to the number the digits spell. */
  lemma NormalizeNumberText(a: string, n: nat, b: string, fallback: real)
    requires forall i :: 0 <= i < |a| ==> !NumericChar(a[i])
    requires forall i :: 0 <= i < |b| ==> !NumericChar(b[i])
    ensures NormalizeNumber(OtherArg(Some(JStr(a + NatToString(n) + b))), fallback) == n as real
  {
    var t := NatToString(n);
    assert Filter(a, NumericChar) == [] by { FilterNone(a, NumericChar); }
    assert Filter(b, NumericChar) == [] by { FilterNone(b, NumericChar); }
    assert Filter(t, NumericChar) == t by {
      assert forall i :: 0 <= i < |t| ==> NumericChar(t[i]);
      FilterAll(t, NumericChar);
    }
    assert KeepNumeric(a + t + b) == t by {
      FilterAppend(a + t, b, NumericChar);
      FilterAppend(a, t, NumericChar);
    }
    NormalizeDigitsOnly(a + t + b, n, fallback);
  }

  /** Text whose numeric characters are exactly the digits of `n` normalises to `n`. */
  lemma NormalizeDigitsOnly(x: string, n: nat, fallback: real)
    requires KeepNumeric(x) == NatToString(n)
    ensures NormalizeNumber(OtherArg(Some(JStr(x))), fallback) == n as real
  {
    NatTextToNumber(n);
    assert Coalesce(Some(JStr(x)), JStr("")) == JStr(x);
    ToStrString(x);
  }

  /** Text without any digit, point or minus sign normalises to 0, not to the fallback. */
  lemma NormalizeNumberNoDigits(s: string, fallback: real)
    requires forall i :: 0 <= i < |s| ==> !NumericChar(s[i])
    ensures NormalizeNumber(OtherArg(Some(JStr(s))), fallback) == 0.0
  {
    FilterNone(s, NumericChar);
  }

  // ---------------------------------------------------------------- normalizeDDMMYYYY

  /** `v[i..i + n]` is `\d{n}`. */
  predicate DigitsAt(v: string, i: nat, n: nat) {
    i + n <= |v| && AllDigits(v[i..i + n])
  }

  /** `/^\d{2}\/\d{2}\/\d{4}$/`. */
  predicate IsDayFirst(v: string) {
    |v| == 10 && DigitsAt(v, 0, 2) && v[2] == '/' && DigitsAt(v, 3, 2) && v[5] == '/' && DigitsAt(v, 6, 4)
  }

  /** `/^(\d{4})-(\d{2})-(\d{2})$/` with `sep` '-', and the same with '/'. */
  predicate IsYearFirst(v: string, sep: char) {
    |v| == 10 && DigitsAt(v, 0, 4) && v[4] == sep && DigitsAt(v, 5, 2) && v[7] == sep && DigitsAt(v, 8, 2)
  }

  /** `${m[3]}/${m[2]}/${m[1]}` of a year-first date. */
  function DayFirst(v: string): (r: string)
    requires IsYearFirst(v, '-') || IsYearFirst(v, '/')
    ensures IsDayFirst(r) && r[..2] == v[8..] && r[3..5] == v[5..7] && r[6..] == v[..4]
  {
    var r := v[8..] + "/" + v[5..7] + "/" + v[..4];
    assert r[0..2] == v[8..10] && r[3..5] == v[5..7] && r[6..10] == v[0..4];
    r
  }

  /** `(input || '')`: `undefined` and `null` read as the empty text. */
  function InputText(input: Option<string>): string {
    if input.Some? then input.value else ""
  }

  /** `normalizeDDMMYYYY(input)`. Days and months are not range-checked. */
  function NormalizeDate(input: Option<string>): (r: string)
    ensures r == "" <==> Trim(InputText(input)) == ""
    ensures IsDayFirst(Trim(InputText(input))) ==> r == Trim(InputText(input))
    ensures (IsYearFirst(Trim(InputText(input)), '-') || IsYearFirst(Trim(InputText(input)), '/')) ==> r == DayFirst(Trim(InputText(input)))
    ensures r == "" || IsDayFirst(r) || r == Trim(InputText(input))
  {
    var v := Trim(InputText(input));
    if v == "" then ""
    else if IsDayFirst(v) then v
    else if IsYearFirst(v, '-') || IsYearFirst(v, '/') then DayFirst(v)
    else v
  }

  /** A day-first date starts and ends with a digit, so trimming keeps it. */
  lemma DayFirstTrimmed(v: string)
    requires IsDayFirst(v)
    ensures Trim(v) == v
  {
    assert v[0..2][0] == v[0];
    assert v[6..10][3] == v[9];
    TrimByNoop(v, IsJsSpace);
  }

  /** Normalising a normalised date changes nothing. */
  lemma NormalizeDateIdempotent(input: Option<string>)
    ensures NormalizeDate(Some(NormalizeDate(input))) == NormalizeDate(input)
  {
    var r := NormalizeDate(input);
    var v := Trim(InputText(input));
    TrimIdempotent(InputText(input));
    if r == "" {
      TrimByEmptyIff(r, IsJsSpace);
    } else if IsDayFirst(r) {
      DayFirstTrimmed(r);
    }
  }

  /** An ISO 8601 calendar date `YYYY-MM-DD`, and the same with '/', is rewritten as
      `DD/MM/YYYY`, with surrounding white space dropped. */
  lemma NormalizeDateReorders(y: string, m: string, d: string, sep: char)
    requires |y| == 4 && |m| == 2 && |d| == 2 && AllDigits(y) && AllDigits(m) && AllDigits(d)
    requires sep == '-' || sep == '/'
    ensures NormalizeDate(Some(y + [sep] + m + [sep] + d)) == d + "/" + m + "/" + y
  {
    var v := y + [sep] + m + [sep] + d;
    assert v[0..4] == y && v[5..7] == m && v[8..10] == d && v[8..] == d && v[..4] == y;
    assert IsYearFirst(v, sep);
    assert v[0] == y[0] && v[9] == d[1];
    TrimByNoop(v, IsJsSpace);
    assert !IsDayFirst(v) by {
      assert v[2] == y[2] && IsDigit(y[2]);
    }
  }

  // ---------------------------------------------------------------- uniq

  predicate NonEmpty(s: string) { s != "" }

  /** `arr.map((s) => s.trim()).filter(Boolean)`. */
  function TrimmedEntries(arr: seq<string>): seq<string> {
    Filter(Map(arr, Trim), NonEmpty)
  }

  /** `uniq(arr)`: the distinct trimmed, non-empty entries, never more than the inputs. */
  function Uniq(arr: seq<string>): (r: seq<string>)
    ensures |r| <= |arr|
    ensures forall i, j :: 0 <= i < j < |r| ==> r[i] != r[j]
  {
    DedupLength(TrimmedEntries(arr));
    DedupDistinct(TrimmedEntries(arr));
    Dedup(TrimmedEntries(arr))
  }

  /** A text is listed exactly when it is not empty and is the trim of an input. */
  lemma UniqMembers(arr: seq<string>, x: string)
    ensures x in Uniq(arr) <==> x != "" && x in Map(arr, Trim)
  {
    DedupMembers(TrimmedEntries(arr), x);
    FilterMembers(Map(arr, Trim), NonEmpty, x);
  }

  /** Every listed text is non-empty and already trimmed. */
  lemma UniqTrimmed(arr: seq<string>)
    ensures forall i :: 0 <= i < |Uniq(arr)| ==> Uniq(arr)[i] != "" && Trim(Uniq(arr)[i]) == Uniq(arr)[i]
  {
    forall i | 0 <= i < |Uniq(arr)| ensures Uniq(arr)[i] != "" && Trim(Uniq(arr)[i]) == Uniq(arr)[i] {
      var x := Uniq(arr)[i];
      UniqMembers(arr, x);
      var m := Map(arr, Trim);
      var k :| 0 <= k < |m| && m[k] == x;
      TrimIdempotent(arr[k]);
    }
  }

  /** `uniq` lists its entries in the order in which they first appear among the trimmed,
      non-empty inputs. */
  lemma UniqOrder(arr: seq<string>)
    ensures forall i :: 0 <= i < |Uniq(arr)| ==> Uniq(arr)[i] in TrimmedEntries(arr)
    ensures forall i, j :: 0 <= i < j < |Uniq(arr)| ==>
      FirstIndex(TrimmedEntries(arr), Uniq(arr)[i]) < FirstIndex(TrimmedEntries(arr), Uniq(arr)[j])
  {
    DedupOrder(TrimmedEntries(arr));
  }

  /** A relation between every ordered pair of trimmed inputs holds between every ordered pair
      of their `uniq`. */
  lemma UniqKeepsPairwise(names: seq<string>, R: (string, string) -> bool)
    requires forall i, j :: 0 <= i < j < |names| ==> R(Trim(names[i]), Trim(names[j]))
    ensures var r := Uniq(names); forall i, j :: 0 <= i < j < |r| ==> R(r[i], r[j])
  {
    var trimmed := Map(names, Trim);
    assert forall i, j :: 0 <= i < j < |trimmed| ==> R(trimmed[i], trimmed[j]);
    FilterKeepsPairwise(trimmed, NonEmpty, R);
    var kept := Filter(trimmed, NonEmpty);
    DedupKeepsPairwise(kept, R);
    assert Uniq(names) == Dedup(kept);
  }

  // ---------------------------------------------------------------- simpleScore

  /** `s.toLowerCase().trim()`. */
  function Folded(s: string): string {
    Trim(Lower(s))
  }

  /** The characters two texts have in common. */
  function Shared(a: string, b: string): set<char> {
    set c | c in a && c in b
  }

  /** The value of `simpleScore(a, b)`, taken on the folded texts. */
  function Score(a: string, b: string): nat {
    FoldedScore(Folded(a), Folded(b))
  }

  /** 0 when either text is empty, 1000 when they are equal, 300 when one contains the other,
      and otherwise 2 per character they share. */
  function FoldedScore(x: string, y: string): nat {
    if x == "" || y == "" then 0
    else if x == y then 1000
    else if Contains(x, y) || Contains(y, x) then 300
    else 2 * |Shared(x, y)|
  }

  /** `simpleScore(a, b)`. */
  method SimpleScore(a: string, b: string) returns (score: nat)
    ensures score == Score(a, b)
  {
    var x := Folded(a);
    var y := Folded(b);
    if x == "" || y == "" {
      return 0;
    }
    if x == y {
      return 1000;
    }
    if Contains(x, y) || Contains(y, x) {
      return 300;
    }
    score := OverlapScore(x, y);
  }

  /** The loop of `simpleScore` over `new Set(A.split(''))`, which visits the distinct
      characters of `A` in order of first occurrence: 2 for each one that occurs in `B`. */
  method OverlapScore(x: string, y: string) returns (score: nat)
    ensures score == 2 * |Shared(x, y)|
  {
    var chars := Dedup(x);
    DedupDistinct(x);
    score := 0;
    for i := 0 to |chars|
      invariant score == 2 * |SharedPrefix(chars, i, y)|
    {
      SharedStep(chars, i, y);
      if chars[i] in y {
        score := score + 2;
      }
    }
    SharedAll(x, y);
  }

  /** The characters among the first `i` of `chars` that occur in `y`. */
  function SharedPrefix(chars: string, i: nat, y: string): set<char>
    requires i <= |chars|
  {
    set c | c in chars[..i] && c in y
  }

  /** One more distinct character adds one to the count exactly when it occurs in `y`. */
  lemma SharedStep(chars: string, i: nat, y: string)
    requires i < |chars|
    requires forall p, q :: 0 <= p < q < |chars| ==> chars[p] != chars[q]
    ensures |SharedPrefix(chars, i + 1, y)| == |SharedPrefix(chars, i, y)| + (if chars[i] in y then 1 else 0)
  {
    assert chars[..i + 1] == chars[..i] + [chars[i]];
    if chars[i] in y {
      assert chars[i] !in chars[..i];
      assert SharedPrefix(chars, i + 1, y) == SharedPrefix(chars, i, y) + {chars[i]};
    } else {
      assert SharedPrefix(chars, i + 1, y) == SharedPrefix(chars, i, y);
    }
  }

  /** The distinct characters of `x` are the characters of `x`. */
  lemma SharedAll(x: string, y: string)
    ensures SharedPrefix(Dedup(x), |Dedup(x)|, y) == Shared(x, y)
  {
    var chars := Dedup(x);
    assert chars[..|chars|] == chars;
    forall c ensures c in chars <==> c in x {
      DedupMembers(x, c);
    }
  }

  lemma FoldedTrim(b: string)
    ensures Folded(Trim(b)) == Folded(b)
  {
    LowerTrimCommute(b);
    TrimIdempotent(Lower(b));
  }

  lemma FoldedLower(b: string)
    ensures Folded(Lower(b)) == Folded(b)
  {
    LowerIdempotent(b);
  }

  /** Case and surrounding white space of the second text do not change the score. */
  lemma ScoreFolds(a: string, b: string)
    ensures Score(a, Trim(b)) == Score(a, b)
    ensures Score(a, Lower(b)) == Score(a, b)
  {
    FoldedLower(b);
    FoldedTrim(b);
  }

  /** A text scores 1000 against itself unless it is blank. */
  lemma ScoreSelf(a: string)
    ensures Score(a, a) == (if Folded(a) == "" then 0 else 1000)
  {
  }

  /** The score does not depend on the order of its arguments. */
  lemma ScoreSymmetric(a: string, b: string)
    ensures Score(a, b) == Score(b, a)
  {
    assert Shared(Folded(a), Folded(b)) == Shared(Folded(b), Folded(a));
  }

  // ---------------------------------------------------------------- topMatches

  /** `{ o, s: simpleScore(query, o) }`. */
  datatype Scored = Scored(option: string, score: int)

  /** Scores never increase along the sequence. */
  predicate Ranked(s: seq<Scored>) {
    forall i, j :: 0 <= i < j < |s| ==> s[i].score >= s[j].score
  }

  /** Inserts `x` after every element scoring at least as much: the step of a stable sort. */
  function InsertByScore(x: Scored, s: seq<Scored>): (r: seq<Scored>)
    ensures multiset(r) == multiset(s) + multiset{x}
    ensures Ranked(s) ==> Ranked(r)
    decreases |s|
  {
    if s == [] then [x]
    else if s[0].score >= x.score then
      var t := InsertByScore(x, s[1..]);
      InsertedAfter(s, x, t);
      [s[0]] + t
    else
      InsertedBefore(s, x);
      [x] + s
  }

  lemma InsertedAfter(s: seq<Scored>, x: Scored, t: seq<Scored>)
    requires s != [] && s[0].score >= x.score
    requires multiset(t) == multiset(s[1..]) + multiset{x}
    requires Ranked(s[1..]) ==> Ranked(t)
    ensures multiset([s[0]] + t) == multiset(s) + multiset{x}
    ensures Ranked(s) ==> Ranked([s[0]] + t)
  {
    assert s == [s[0]] + s[1..];
    if Ranked(s) {
      forall k | 0 <= k < |t| ensures s[0].score >= t[k].score {
        assert t[k] in multiset(t);
        if t[k] != x {
          assert t[k] in multiset(s[1..]);
          var j :| 0 <= j < |s[1..]| && s[1..][j] == t[k];
          assert s[j + 1] == t[k];
        }
      }
      var r := [s[0]] + t;
      forall i, j | 0 <= i < j < |r| ensures r[i].score >= r[j].score {
        if i > 0 {
          assert r[i] == t[i - 1] && r[j] == t[j - 1];
        }
      }
    }
  }

  lemma InsertedBefore(s: seq<Scored>, x: Scored)
    requires s != [] && s[0].score < x.score
    ensures Ranked(s) ==> Ranked([x] + s)
  {
    if Ranked(s) {
      var r := [x] + s;
      forall i, j | 0 <= i < j < |r| ensures r[i].score >= r[j].score {
        if i == 0 {
          assert r[j] == s[j - 1];
        } else {
          assert r[i] == s[i - 1] && r[j] == s[j - 1];
        }
      }
    }
  }

  /** `.sort((a, b) => b.s - a.s)`: a permutation with non-increasing scores, stable by
      `SortByScoreStable`. */
  function SortByScore(s: seq<Scored>): (r: seq<Scored>)
    ensures multiset(r) == multiset(s) && Ranked(r)
    decreases |s|
  {
    if s == [] then []
    else
      assert s == s[..|s| - 1] + [s[|s| - 1]];
      InsertByScore(s[|s| - 1], SortByScore(s[..|s| - 1]))
  }

  /** The candidates scoring exactly `v`. */
  function ScoreIs(v: int): Scored -> bool {
    (x: Scored) => x.score == v
  }

  lemma RankedTail(s: seq<Scored>)
    requires s != [] && Ranked(s)
    ensures Ranked(s[1..])
  {
    forall i, j | 0 <= i < j < |s| - 1 ensures s[1..][i].score >= s[1..][j].score {
      assert s[1..][i] == s[i + 1] && s[1..][j] == s[j + 1];
    }
  }

  lemma InsertUnfold(x: Scored, s: seq<Scored>)
    requires s != []
    ensures InsertByScore(x, s) == if s[0].score >= x.score then [s[0]] + InsertByScore(x, s[1..]) else [x] + s
  {
  }

  /** Inserting into a ranked sequence puts `x` after every candidate with its score. */
  lemma {:induction false} InsertKeepsTies(x: Scored, s: seq<Scored>, v: int)
    requires Ranked(s)
    ensures Filter(InsertByScore(x, s), ScoreIs(v)) == Filter(s, ScoreIs(v)) + (if x.score == v then [x] else [])
    decreases |s|
  {
    if s == [] {
      FilterSnoc(s, x, ScoreIs(v));
      assert s + [x] == [x];
    } else if s[0].score >= x.score {
      RankedTail(s);
      InsertKeepsTies(x, s[1..], v);
      InsertTiesAfter(x, s, v);
    } else {
      InsertTiesBefore(x, s, v);
    }
  }

  /** The step of `InsertKeepsTies` where `x` goes past the head. */
  lemma InsertTiesAfter(x: Scored, s: seq<Scored>, v: int)
    requires s != [] && s[0].score >= x.score
    requires Filter(InsertByScore(x, s[1..]), ScoreIs(v)) == Filter(s[1..], ScoreIs(v)) + (if x.score == v then [x] else [])
    ensures Filter(InsertByScore(x, s), ScoreIs(v)) == Filter(s, ScoreIs(v)) + (if x.score == v then [x] else [])
  {
    var u := s[1..];
    var t := InsertByScore(x, u);
    assert s == [s[0]] + u;
    InsertUnfold(x, s);
    assert InsertByScore(x, s) == [s[0]] + t;
    SameHeadFilter(s[0], t, u, ScoreIs(v), if x.score == v then [x] else []);
  }

  /** A common head keeps a relation between two filtered sequences. */
  lemma SameHeadFilter(y: Scored, t: seq<Scored>, u: seq<Scored>, p: Scored -> bool, tail: seq<Scored>)
    requires Filter(t, p) == Filter(u, p) + tail
    ensures Filter([y] + t, p) == Filter([y] + u, p) + tail
  {
    FilterCons(y, t, p);
    FilterCons(y, u, p);
  }

  /** The step of `InsertKeepsTies` where `x` goes in front: nothing after it has its score. */
  lemma InsertTiesBefore(x: Scored, s: seq<Scored>, v: int)
    requires s != [] && s[0].score < x.score && Ranked(s)
    ensures Filter(InsertByScore(x, s), ScoreIs(v)) == Filter(s, ScoreIs(v)) + (if x.score == v then [x] else [])
  {
    var p := ScoreIs(v);
    var r := [x] + s;
    InsertUnfold(x, s);
    assert r[0] == x && r[1..] == s;
    if x.score == v {
      forall i | 0 <= i < |s| ensures !p(s[i]) {
        assert s[i].score <= s[0].score;
      }
      FilterNone(s, p);
    }
  }

  /** The sort is stable: candidates with equal scores keep their relative order. */
  lemma {:induction false} SortByScoreStable(s: seq<Scored>, v: int)
    ensures Filter(SortByScore(s), ScoreIs(v)) == Filter(s, ScoreIs(v))
    decreases |s|
  {
    if s != [] {
      var init, last := s[..|s| - 1], s[|s| - 1];
      assert s == init + [last];
      SortByScoreStable(init, v);
      InsertKeepsTies(last, SortByScore(init), v);
      FilterSnoc(init, last, ScoreIs(v));
    }
  }

  /** The default `limit` of `topMatches`. */
  const DefaultLimit: nat := 6

  /** The options scored against the query, those scoring 0 dropped. */
  function PositiveScores(query: string, options: seq<string>): seq<Scored> {
    Filter(Map(options, o => Scored(o, Score(query, o))), (x: Scored) => x.score > 0)
  }

  /** `topMatches(query, options, limit)`: the best `limit` options, best first, trimmed and
      de-duplicated afterwards (so possibly fewer than `limit`). */
  function TopMatches(query: string, options: seq<string>, limit: nat): seq<string> {
    Uniq(Map(Take(SortByScore(PositiveScores(query, options)), limit), (x: Scored) => x.option))
  }

  /** The kept candidates are exactly the options paired with their own score, where that
      score is positive. */
  lemma PositiveScoresSound(query: string, options: seq<string>, x: Scored)
    ensures x in PositiveScores(query, options) <==> x.option in options && x.score == Score(query, x.option) > 0
  {
    var m := Map(options, o => Scored(o, Score(query, o)));
    FilterMembers(m, (x: Scored) => x.score > 0, x);
    if x in m {
      var k :| 0 <= k < |m| && m[k] == x;
    }
    if x.option in options && x.score == Score(query, x.option) {
      var k :| 0 <= k < |options| && options[k] == x.option;
      assert m[k] == x;
    }
  }

  /** `slice(0, limit)` keeps the `limit` best candidates: it keeps `limit` of them when there
      are that many, and a positive-scoring option it leaves out scores no more than any
      candidate it keeps. */
  lemma TopKeepsBest(query: string, options: seq<string>, limit: nat, o: string)
    requires o in options && Score(query, o) > 0
    ensures var p := PositiveScores(query, options);
      var top := Take(SortByScore(p), limit);
      && |top| == (if |p| < limit then |p| else limit)
      && (Scored(o, Score(query, o)) in top || forall i :: 0 <= i < |top| ==> top[i].score >= Score(query, o))
  {
    var p := PositiveScores(query, options);
    var ranked := SortByScore(p);
    var top := Take(ranked, limit);
    var y := Scored(o, Score(query, o));
    PositiveScoresSound(query, options, y);
    assert |ranked| == |p| by {
      assert |multiset(ranked)| == |multiset(p)|;
    }
    assert y in multiset(ranked);
    var k :| 0 <= k < |ranked| && ranked[k] == y;
    if k >= |top| {
      forall i | 0 <= i < |top| ensures top[i].score >= y.score {
        assert top[i] == ranked[i];
      }
    } else {
      assert top[k] == y;
    }
  }

  /** The best-scoring options, before trimming and de-duplication. */
  function RankedNames(query: string, options: seq<string>, limit: nat): seq<string> {
    Map(Take(SortByScore(PositiveScores(query, options)), limit), (x: Scored) => x.option)
  }

  /** The first `limit` ranked options: each from the options with its own positive score,
      scores never increasing, and no positive-scoring option left out scores more than one
      kept. */
  lemma TopRanked(query: string, options: seq<string>, limit: nat)
    ensures var top := Take(SortByScore(PositiveScores(query, options)), limit);
      && Ranked(top)
      && (forall i :: 0 <= i < |top| ==> top[i].option in options && top[i].score == Score(query, top[i].option) > 0)
      && (forall o :: o in options && Score(query, o) > 0 ==>
            Scored(o, Score(query, o)) in top || forall i :: 0 <= i < |top| ==> top[i].score >= Score(query, o))
  {
    var ranked := SortByScore(PositiveScores(query, options));
    var top := Take(ranked, limit);
    forall i | 0 <= i < |top| ensures top[i].option in options && top[i].score == Score(query, top[i].option) > 0 {
      assert top[i] == ranked[i] && ranked[i] in multiset(ranked);
      PositiveScoresSound(query, options, top[i]);
    }
    forall o | o in options && Score(query, o) > 0
      ensures Scored(o, Score(query, o)) in top || forall i :: 0 <= i < |top| ==> top[i].score >= Score(query, o)
    {
      TopKeepsBest(query, options, limit, o);
    }
  }

  /** At most `limit` options, each scoring above 0, best first; every option scoring above 0
      when at most `limit` do. */
  lemma RankedNamesSound(query: string, options: seq<string>, limit: nat)
    ensures var n := RankedNames(query, options, limit);
      && |n| <= limit
      && (forall i :: 0 <= i < |n| ==> n[i] in options && Score(query, n[i]) > 0)
      && (forall i, j :: 0 <= i < j < |n| ==> Score(query, n[i]) >= Score(query, n[j]))
      && (|PositiveScores(query, options)| <= limit ==> forall o :: o in options && Score(query, o) > 0 ==> o in n)
  {
    TopRanked(query, options, limit);
    if |PositiveScores(query, options)| <= limit {
      forall o | o in options && Score(query, o) > 0 ensures o in RankedNames(query, options, limit) {
        RankedNamesComplete(query, options, limit, o);
      }
    }
  }

  /** Trimming keeps the scores, so the trimmed names are still best first. */
  lemma TrimmedNamesRanked(query: string, names: seq<string>)
    requires forall i, j :: 0 <= i < j < |names| ==> Score(query, names[i]) >= Score(query, names[j])
    ensures var t := Map(names, Trim); forall i, j :: 0 <= i < j < |t| ==> Score(query, t[i]) >= Score(query, t[j])
  {
    var t := Map(names, Trim);
    forall i | 0 <= i < |t| ensures Score(query, t[i]) == Score(query, names[i]) {
      ScoreFolds(query, names[i]);
    }
  }

  /** `uniq` keeps names that are best first in that order. */
  lemma UniqKeepsRanking(query: string, names: seq<string>)
    requires forall i, j :: 0 <= i < j < |names| ==> Score(query, names[i]) >= Score(query, names[j])
    ensures var r := Uniq(names); forall i, j :: 0 <= i < j < |r| ==> Score(query, r[i]) >= Score(query, r[j])
  {
    var better := (u: string, w: string) => Score(query, u) >= Score(query, w);
    forall i, j | 0 <= i < j < |names| ensures better(Trim(names[i]), Trim(names[j])) {
      ScoreFolds(query, names[i]);
      ScoreFolds(query, names[j]);
    }
    UniqKeepsPairwise(names, better);
  }

  /** The listed names never score more than the names before them, and a positive-scoring
      option whose trim is not listed scores no more than any listed name. */
  lemma TopMatchesOrder(query: string, options: seq<string>, limit: nat)
    ensures var r := TopMatches(query, options, limit);
      && (forall i, j :: 0 <= i < j < |r| ==> Score(query, r[i]) >= Score(query, r[j]))
      && (forall o :: o in options && Score(query, o) > 0 && Trim(o) !in r ==>
            forall i :: 0 <= i < |r| ==> Score(query, r[i]) >= Score(query, o))
  {
    TopMatchesRanked(query, options, limit);
    var r := TopMatches(query, options, limit);
    forall o | o in options && Score(query, o) > 0 && Trim(o) !in r
      ensures forall i :: 0 <= i < |r| ==> Score(query, r[i]) >= Score(query, o)
    {
      TopMatchesDropped(query, options, limit, o);
    }
  }

  /** The listed names never score more than the names before them. */
  lemma TopMatchesRanked(query: string, options: seq<string>, limit: nat)
    ensures var r := TopMatches(query, options, limit);
      forall i, j :: 0 <= i < j < |r| ==> Score(query, r[i]) >= Score(query, r[j])
  {
    RankedNamesSound(query, options, limit);
    UniqKeepsRanking(query, RankedNames(query, options, limit));
  }

  /** A positive-scoring option whose trim is not listed was cut by `slice`, so every listed
      name scores at least as much. */
  lemma TopMatchesDropped(query: string, options: seq<string>, limit: nat, o: string)
    requires o in options && Score(query, o) > 0
    requires Trim(o) !in TopMatches(query, options, limit)
    ensures var r := TopMatches(query, options, limit);
      forall i :: 0 <= i < |r| ==> Score(query, r[i]) >= Score(query, o)
  {
    var top := Take(SortByScore(PositiveScores(query, options)), limit);
    var names := RankedNames(query, options, limit);
    var r := TopMatches(query, options, limit);
    TopKeepsBest(query, options, limit, o);
    if Scored(o, Score(query, o)) in top {
      var k :| 0 <= k < |top| && top[k] == Scored(o, Score(query, o));
      assert names[k] == o;
      assert Map(names, Trim)[k] == Trim(o);
      ScoredNotBlank(query, o);
      UniqMembers(names, Trim(o));
      assert false;
    }
    forall i | 0 <= i < |r| ensures Score(query, r[i]) >= Score(query, o) {
      assert r[i] in r;
      UniqMembers(names, r[i]);
      var k := MapPreimage(names, Trim, r[i]);
      assert names[k] == top[k].option;
      TopRanked(query, options, limit);
      ScoreFolds(query, names[k]);
    }
  }

  /** At most `limit` names, distinct, each the trim of an option with a positive score, best
      first; when at most `limit` options score above 0, the trim of every one of them. */
  lemma TopMatchesSound(query: string, options: seq<string>, limit: nat)
    ensures var r := TopMatches(query, options, limit);
      && |r| <= limit
      && (forall i, j :: 0 <= i < j < |r| ==> r[i] != r[j])
      && (forall i :: 0 <= i < |r| ==> r[i] != "" && Trim(r[i]) == r[i] && Score(query, r[i]) > 0)
      && (forall i :: 0 <= i < |r| ==> exists o :: o in options && Trim(o) == r[i])
      && (forall i, j :: 0 <= i < j < |r| ==> Score(query, r[i]) >= Score(query, r[j]))
      && (|PositiveScores(query, options)| <= limit ==> forall o :: o in options && Score(query, o) > 0 ==> Trim(o) in r)
  {
    var names := RankedNames(query, options, limit);
    RankedNamesSound(query, options, limit);
    TopMatchesOrder(query, options, limit);
    UniqTrimmed(names);
    TopMatchesFromOptions(query, options, limit);
    if |PositiveScores(query, options)| <= limit {
      forall o | o in options && Score(query, o) > 0 ensures Trim(o) in TopMatches(query, options, limit) {
        TopMatchesComplete(query, options, limit, o);
      }
    }
  }

  /** When at most `limit` options score above 0, every one of them is among the ranked
      names. */
  lemma RankedNamesComplete(query: string, options: seq<string>, limit: nat, o: string)
    requires o in options && Score(query, o) > 0
    requires |PositiveScores(query, options)| <= limit
    ensures o in RankedNames(query, options, limit)
  {
    var ranked := SortByScore(PositiveScores(query, options));
    var y := Scored(o, Score(query, o));
    PositiveScoresSound(query, options, y);
    assert |ranked| == |PositiveScores(query, options)| by {
      assert |multiset(ranked)| == |multiset(PositiveScores(query, options))|;
    }
    assert y in multiset(ranked);
    var k :| 0 <= k < |ranked| && ranked[k] == y;
    assert RankedNames(query, options, limit)[k] == o;
  }

  /** A text that scores above 0 is not blank. */
  lemma ScoredNotBlank(query: string, o: string)
    requires Score(query, o) > 0
    ensures Trim(o) != ""
  {
    LowerTrimCommute(o);
  }

  /** When at most `limit` options score above 0, every one of them is listed, trimmed. */
  lemma TopMatchesComplete(query: string, options: seq<string>, limit: nat, o: string)
    requires o in options && Score(query, o) > 0
    requires |PositiveScores(query, options)| <= limit
    ensures Trim(o) in TopMatches(query, options, limit)
  {
    var names := RankedNames(query, options, limit);
    RankedNamesComplete(query, options, limit, o);
    ScoredNotBlank(query, o);
    var k :| 0 <= k < |names| && names[k] == o;
    assert Map(names, Trim)[k] == Trim(o);
    UniqMembers(names, Trim(o));
  }

  /** Each listed name is the trim of an option with a positive score. */
  lemma TopMatchesFromOptions(query: string, options: seq<string>, limit: nat)
    ensures var r := TopMatches(query, options, limit);
      forall i :: 0 <= i < |r| ==> Score(query, r[i]) > 0 && exists o :: o in options && Trim(o) == r[i]
  {
    var names := RankedNames(query, options, limit);
    RankedNamesSound(query, options, limit);
    var r := Uniq(names);
    forall i | 0 <= i < |r| ensures Score(query, r[i]) > 0 && exists o :: o in options && Trim(o) == r[i] {
      assert r[i] in r;
      ListedFromOption(query, options, names, r[i]);
    }
  }

  /** A name `uniq` lists from names that are options with positive scores is the trim of
      such an option. */
  lemma ListedFromOption(query: string, options: seq<string>, names: seq<string>, x: string)
    requires forall i :: 0 <= i < |names| ==> names[i] in options && Score(query, names[i]) > 0
    requires x in Uniq(names)
    ensures Score(query, x) > 0 && exists o :: o in options && Trim(o) == x
  {
    UniqMembers(names, x);
    var k := MapPreimage(names, Trim, x);
    ScoreFolds(query, names[k]);
  }
}
