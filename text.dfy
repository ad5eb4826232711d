/** String helpers shared by the model: whitespace trimming as JavaScript's `trim` and
    Python's `strip` define it, ASCII case folding, substring search, joining, and the
    decimal rendering of natural numbers. */
module Text {

  /** The code points JavaScript's `String.prototype.trim` removes: WhiteSpace
      (TAB, VT, FF, ZWNBSP and the Zs category) and LineTerminator. */
  predicate IsJsSpace(c: char) {
    c == ' ' || c == '\t' || c == '\n' || c == '\r' || c == '\U{000B}' || c == '\U{000C}'
    || c == '\U{00A0}' || c == '\U{FEFF}' || c == '\U{1680}' || ('\U{2000}' <= c <= '\U{200A}')
    || c == '\U{2028}' || c == '\U{2029}' || c == '\U{202F}' || c == '\U{205F}' || c == '\U{3000}'
  }

  /** The code points Python 3's `str.strip()` and the regular-expression class `\s` treat as whitespace. */
  predicate IsPySpace(c: char) {
    c == ' ' || ('\t' <= c <= '\r') || ('\U{001C}' <= c <= '\U{001F}') || c == '\U{0085}'
    || c == '\U{00A0}' || c == '\U{1680}' || ('\U{2000}' <= c <= '\U{200A}')
    || c == '\U{2028}' || c == '\U{2029}' || c == '\U{202F}' || c == '\U{205F}' || c == '\U{3000}'
  }

  predicate IsDigit(c: char) { '0' <= c <= '9' }

  predicate AllDigits(s: string) { forall i :: 0 <= i < |s| ==> IsDigit(s[i]) }

  // ---------------------------------------------------------------- trimming

  /** Drops the leading characters that satisfy `ws`. */
  function TrimStartBy(s: string, ws: char -> bool): (r: string)
    ensures |r| <= |s| && r == s[|s| - |r|..]
    ensures forall i :: 0 <= i < |s| - |r| ==> ws(s[i])
    ensures r != [] ==> !ws(r[0])
  {
    if s != [] && ws(s[0]) then TrimStartBy(s[1..], ws) else s
  }

  /** Drops the trailing characters that satisfy `ws`. */
  function TrimEndBy(s: string, ws: char -> bool): (r: string)
    ensures |r| <= |s| && r == s[..|r|]
    ensures forall i :: |r| <= i < |s| ==> ws(s[i])
    ensures r != [] ==> !ws(r[|r| - 1])
  {
    if s != [] && ws(s[|s| - 1]) then TrimEndBy(s[..|s| - 1], ws) else s
  }

  function TrimBy(s: string, ws: char -> bool): string {
    TrimEndBy(TrimStartBy(s, ws), ws)
  }

  /** JavaScript's `s.trim()`. */
  function Trim(s: string): string { TrimBy(s, IsJsSpace) }

  /** Python's `s.strip()`. */
  function Strip(s: string): string { TrimBy(s, IsPySpace) }

  /** A string that neither starts nor ends with whitespace is left alone. */
  lemma TrimByNoop(s: string, ws: char -> bool)
    requires s != [] ==> !ws(s[0]) && !ws(s[|s| - 1])
    ensures TrimBy(s, ws) == s
  {
  }

  /** Trimming twice is trimming once. */
  lemma TrimByIdempotent(s: string, ws: char -> bool)
    ensures TrimBy(TrimBy(s, ws), ws) == TrimBy(s, ws)
  {
    var t := TrimStartBy(s, ws);
    var r := TrimEndBy(t, ws);
    if r != [] {
      assert r[0] == t[0];
    }
    TrimByNoop(r, ws);
  }

  lemma TrimIdempotent(s: string)
    ensures Trim(Trim(s)) == Trim(s)
  {
    TrimByIdempotent(s, IsJsSpace);
  }

  /** Trimming leaves a string made only of non-whitespace characters untouched. */
  lemma TrimNoSpace(s: string, ws: char -> bool)
    requires forall i :: 0 <= i < |s| ==> !ws(s[i])
    ensures TrimBy(s, ws) == s
  {
  }

  /** The result of trimming is empty exactly when every character was whitespace. */
  lemma TrimByEmptyIff(s: string, ws: char -> bool)
    ensures TrimBy(s, ws) == [] <==> forall i :: 0 <= i < |s| ==> ws(s[i])
  {
    var t := TrimStartBy(s, ws);
    if forall i :: 0 <= i < |s| ==> ws(s[i]) {
      assert t == [];
    }
  }

  /** Trimming keeps characters of the input only, and leaves no whitespace at either end. */
  lemma TrimByParts(s: string, ws: char -> bool)
    ensures forall k :: 0 <= k < |TrimBy(s, ws)| ==> TrimBy(s, ws)[k] in s
    ensures TrimBy(s, ws) != [] ==> !ws(TrimBy(s, ws)[0]) && !ws(TrimBy(s, ws)[|TrimBy(s, ws)| - 1])
  {
    var u := TrimStartBy(s, ws);
    var t := TrimEndBy(u, ws);
    forall k | 0 <= k < |t| ensures t[k] in s {
      assert t[k] == u[k] == s[|s| - |u| + k];
    }
    if t != [] {
      assert t[0] == u[0];
    }
  }

  // ---------------------------------------------------------------- case folding

  function LowerChar(c: char): char {
    if 'A' <= c <= 'Z' then ((c as int) + 32) as char else c
  }

  /** ASCII lower-casing, standing for JavaScript's `toLowerCase()` and Python's `lower()`. */
  function Lower(s: string): (r: string)
    ensures |r| == |s| && forall i :: 0 <= i < |s| ==> r[i] == LowerChar(s[i])
  {
    seq(|s|, i requires 0 <= i < |s| => LowerChar(s[i]))
  }

  lemma LowerAppend(a: string, b: string)
    ensures Lower(a + b) == Lower(a) + Lower(b)
  {
  }

  /** Lower-casing neither creates nor removes whitespace. */
  lemma LowerCharSpace(c: char)
    ensures IsJsSpace(LowerChar(c)) == IsJsSpace(c)
  {
  }

  /** Hence lower-casing commutes with trimming. */
  lemma {:induction false} LowerTrimStartCommute(s: string)
    ensures Lower(TrimStartBy(s, IsJsSpace)) == TrimStartBy(Lower(s), IsJsSpace)
    decreases |s|
  {
    if s != [] {
      var l := Lower(s);
      LowerCharSpace(s[0]);
      assert l[1..] == Lower(s[1..]);
      if IsJsSpace(s[0]) {
        assert TrimStartBy(s, IsJsSpace) == TrimStartBy(s[1..], IsJsSpace);
        assert TrimStartBy(l, IsJsSpace) == TrimStartBy(l[1..], IsJsSpace);
        LowerTrimStartCommute(s[1..]);
      } else {
        assert TrimStartBy(l, IsJsSpace) == l;
      }
    }
  }

  lemma {:induction false} LowerTrimEndCommute(s: string)
    ensures Lower(TrimEndBy(s, IsJsSpace)) == TrimEndBy(Lower(s), IsJsSpace)
    decreases |s|
  {
    if s != [] {
      var n := |s| - 1;
      var l := Lower(s);
      LowerCharSpace(s[n]);
      assert l[..n] == Lower(s[..n]);
      if IsJsSpace(s[n]) {
        assert TrimEndBy(s, IsJsSpace) == TrimEndBy(s[..n], IsJsSpace);
        assert TrimEndBy(l, IsJsSpace) == TrimEndBy(l[..n], IsJsSpace);
        LowerTrimEndCommute(s[..n]);
      } else {
        assert TrimEndBy(l, IsJsSpace) == l;
      }
    }
  }

  lemma LowerTrimCommute(s: string)
    ensures Lower(Trim(s)) == Trim(Lower(s))
  {
    LowerTrimStartCommute(s);
    LowerTrimEndCommute(TrimStartBy(s, IsJsSpace));
  }

  lemma LowerIdempotent(s: string)
    ensures Lower(Lower(s)) == Lower(s)
  {
  }

  // ---------------------------------------------------------------- searching

  /** `t` occurs in `s` starting at index `i`. */
  predicate OccursAt(s: string, t: string, i: int) {
    0 <= i && i + |t| <= |s| && s[i..i + |t|] == t
  }

  /** JavaScript's `s.includes(t)` and Python's `t in s`. */
  predicate Contains(s: string, t: string) {
    exists i | 0 <= i <= |s| - |t| :: OccursAt(s, t, i)
  }

  /** Every string contains the empty string and itself. */
  lemma ContainsEmptyAndSelf(s: string)
    ensures Contains(s, "") && Contains(s, s)
  {
    assert OccursAt(s, "", 0);
    assert OccursAt(s, s, 0);
  }

  lemma ContainsChar(s: string, c: char)
    ensures Contains(s, [c]) <==> c in s
  {
    if c in s {
      var i :| 0 <= i < |s| && s[i] == c;
      assert OccursAt(s, [c], i);
    }
    if Contains(s, [c]) {
      var i :| 0 <= i <= |s| - 1 && OccursAt(s, [c], i);
      assert s[i] == c;
    }
  }

  /** A string never contains a longer one. */
  lemma ContainsLonger(s: string, t: string)
    requires |t| > |s|
    ensures !Contains(s, t)
  {
  }

  /** A text found inside `s` is found inside anything built around `s`. */
  lemma ContainsWithin(a: string, s: string, b: string, t: string)
    requires Contains(s, t)
    ensures Contains(a + s + b, t)
  {
    var i :| 0 <= i <= |s| - |t| && OccursAt(s, t, i);
    var w := a + s + b;
    assert w[|a| + i..|a| + i + |t|] == s[i..i + |t|];
    assert OccursAt(w, t, |a| + i);
  }

  /** A text placed between two others occurs right after the first. */
  lemma OccursBetween(a: string, t: string, b: string)
    ensures OccursAt(a + t + b, t, |a|)
  {
    assert (a + t + b)[|a|..|a| + |t|] == t;
  }

  /** A text placed between two others is found in the result. */
  lemma ContainsMiddle(a: string, t: string, b: string)
    ensures Contains(a + t + b, t)
  {
    ContainsEmptyAndSelf(t);
    ContainsWithin(a, t, b, t);
  }

  /** A note that is empty or holds a count, placed between two fixed texts: when it is not
      empty the result holds the note and the count, and when it is the fixed texts meet. */
  lemma NoteInTemplate(head: string, note: string, tail: string, count: string, many: bool)
    requires many ==> Contains(note, count)
    requires !many ==> note == ""
    ensures many ==> Contains(head + note + tail, note) && Contains(head + note + tail, count)
    ensures !many ==> head + note + tail == head + tail
  {
    ContainsMiddle(head, note, tail);
    if many {
      ContainsWithin(head, note, tail, count);
    } else {
      assert head + note == head;
    }
  }

  /** A text written twice into a template occurs at both places. */
  lemma Twice(a: string, t: string, b: string, c: string)
    ensures OccursAt(a + t + b + t + c, t, |a|)
    ensures OccursAt(a + t + b + t + c, t, |a| + |t| + |b|)
  {
    OccursBetween(a, t, b + t + c);
    OccursBetween(a + t + b, t, c);
    assert a + t + (b + t + c) == a + t + b + t + c;
  }

  /** Where the second and fourth of five texts put together begin. */
  lemma FiveParts(a: string, t: string, b: string, u: string, c: string)
    ensures OccursAt(a + t + b + u + c, t, |a|)
    ensures OccursAt(a + t + b + u + c, u, |a| + |t| + |b|)
  {
    OccursBetween(a, t, b + u + c);
    OccursBetween(a + t + b, u, c);
    assert a + t + (b + u + c) == a + t + b + u + c;
  }

  /** A text found in the middle part of the last of three texts is found in all three. */
  lemma ContainsNested(a: string, b: string, h: string, s: string, r: string, t: string)
    requires Contains(s, t)
    ensures Contains(a + b + (h + s + r), t)
  {
    ContainsWithin(h, s, r, t);
    ContainsWithin(a + b, h + s + r, "", t);
    assert a + b + (h + s + r) + "" == a + b + (h + s + r);
  }

  // ---------------------------------------------------------------- joining

  /** JavaScript's `parts.join(sep)`. */
  function Join(parts: seq<string>, sep: string): string
  {
    if |parts| == 0 then ""
    else if |parts| == 1 then parts[0]
    else parts[0] + sep + Join(parts[1..], sep)
  }

  /** Every part can be found in the joined text. */
  lemma {:induction false} JoinContains(parts: seq<string>, sep: string, k: nat)
    requires k < |parts|
    ensures Contains(Join(parts, sep), parts[k])
    decreases |parts|
  {
    if |parts| == 1 {
      ContainsEmptyAndSelf(parts[0]);
    } else if k == 0 {
      ContainsMiddle("", parts[0], sep + Join(parts[1..], sep));
      assert "" + parts[0] + (sep + Join(parts[1..], sep)) == Join(parts, sep);
    } else {
      JoinContains(parts[1..], sep, k - 1);
      ContainsWithin(parts[0] + sep, Join(parts[1..], sep), "", parts[k]);
      assert parts[0] + sep + Join(parts[1..], sep) + "" == Join(parts, sep);
    }
  }

  /** Two or more parts joined by a non-empty separator never give the empty text. */
  lemma JoinSeveral(parts: seq<string>, sep: string)
    requires |parts| >= 2 && sep != ""
    ensures Join(parts, sep) != ""
  {
  }

  /** A join of at least one non-empty part is non-empty. */
  lemma JoinNonEmpty(parts: seq<string>, sep: string)
    requires |parts| > 0 && parts[0] != ""
    ensures Join(parts, sep) != ""
  {
  }

  // ---------------------------------------------------------------- numbers as text

  function DigitChar(d: nat): (c: char)
    requires d < 10
    ensures IsDigit(c)
  {
    ('0' as int + d) as char
  }

  function DigitValue(c: char): (d: nat)
    requires IsDigit(c)
    ensures d < 10 && DigitChar(d) == c
  {
    (c as int) - ('0' as int)
  }

  /** The decimal rendering of a natural number, as JavaScript's template literals give it. */
  function NatToString(n: nat): (r: string)
    ensures r != [] && AllDigits(r)
    decreases n
  {
    if n < 10 then [DigitChar(n)] else NatToString(n / 10) + [DigitChar(n % 10)]
  }

  /** The value of a string of decimal digits. */
  function DigitsValue(s: string): nat
    requires AllDigits(s)
    decreases |s|
  {
    if s == [] then 0 else DigitsValue(s[..|s| - 1]) * 10 + DigitValue(s[|s| - 1])
  }

  /** Reading back a rendered number gives the number. */
  lemma {:induction false} NatToStringRoundTrip(n: nat)
    ensures DigitsValue(NatToString(n)) == n
    decreases n
  {
    if n >= 10 {
      var s := NatToString(n);
      assert s[..|s| - 1] == NatToString(n / 10);
      NatToStringRoundTrip(n / 10);
    }
  }

  /** Distinct numbers are rendered differently. */
  lemma NatToStringInjective(a: nat, b: nat)
    requires NatToString(a) == NatToString(b)
    ensures a == b
  {
    NatToStringRoundTrip(a);
    NatToStringRoundTrip(b);
  }

  /** The rendering of an integer, with a leading '-' for negative values. */
  function IntToString(i: int): (r: string)
    ensures r != []
  {
    if i < 0 then "-" + NatToString(-i) else NatToString(i)
  }
}
