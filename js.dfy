/** The JavaScript value semantics the validators depend on: values of parsed JSON,
    truthiness, the `Number(...)` and `String(...)` conversions, property reads, `trim`,
    and `map`/`filter` with callbacks that may throw. */
module Js {
  import opened Wrappers
  import opened Text
  import opened Seqs

  /** A value produced by `JSON.parse`. Numbers are kept as exact reals. */
  datatype Json =
    | JNull
    | JBool(b: bool)
    | JNum(n: real)
    | JStr(s: string)
    | JArr(elems: seq<Json>)
    | JObj(fields: map<string, Json>)

  /** A JavaScript number as `Number(...)` can produce it. */
  datatype Number = Finite(value: real) | NaN | Infinity(negative: bool)

  // ---------------------------------------------------------------- truthiness and defaults

  /** Truthiness of a property read; `None` is `undefined`. */
  predicate Truthy(v: Option<Json>) {
    match v
    case None => false
    case Some(JNull) => false
    case Some(JBool(b)) => b
    case Some(JNum(n)) => n != 0.0
    case Some(JStr(s)) => s != ""
    case Some(_) => true
  }

  /** `v || d`. */
  function Or(v: Option<Json>, d: Json): (r: Json)
    ensures Truthy(v) ==> Some(r) == v
    ensures !Truthy(v) ==> r == d
  {
    if Truthy(v) then v.value else d
  }

  /** `v ?? d`: only `null` and `undefined` fall back. */
  function Coalesce(v: Option<Json>, d: Json): (r: Json)
    ensures v.None? || v == Some(JNull) ==> r == d
    ensures v.Some? && v.value != JNull ==> r == v.value
  {
    if v.None? || v.value == JNull then d else v.value
  }

  /** `Array.isArray(v)`. */
  predicate IsArray(v: Option<Json>) {
    v.Some? && v.value.JArr?
  }

  /** `typeof v === 'string'`. */
  predicate IsString(v: Option<Json>) {
    v.Some? && v.value.JStr?
  }

  // ---------------------------------------------------------------- property reads

  /** `v.key`: reading a property of `null` throws a TypeError; a value that is not an object
      has none of the properties the validators read. */
  function Get(v: Json, key: string): (r: Outcome<Option<Json>>)
    ensures r.Thrown? <==> v == JNull
    ensures r.Ok? && r.value.Some? ==> v.JObj? && key in v.fields && r.value.value == v.fields[key]
  {
    match v
    case JNull => Thrown("TypeError: Cannot read properties of null")
    case JObj(m) => Ok(if key in m then Some(m[key]) else None)
    case _ => Ok(None)
  }

  /** `v?.key`: optional chaining never throws. */
  function GetOpt(v: Option<Json>, key: string): (r: Option<Json>)
    ensures r.Some? ==> v.Some? && v.value.JObj? && key in v.value.fields
  {
    match v
    case Some(JObj(m)) => if key in m then Some(m[key]) else None
    case _ => None
  }

  /** The property `key` of a value that is known not to be `null`: `undefined` unless it is
      an object holding the key. */
  function Field(v: Json, key: string): (r: Option<Json>)
    ensures v != JNull ==> Get(v, key) == Ok(r)
  {
    GetOpt(Some(v), key)
  }

  /** `(v || []).map(...)`: a falsy value counts as an empty array, an array gives its
      elements, and any other value has no `map` method. */
  function ElementsOr(v: Option<Json>): (r: Outcome<seq<Json>>)
    ensures !Truthy(v) ==> r == Ok([])
    ensures IsArray(v) ==> r == Ok(v.value.elems)
    ensures Truthy(v) && !IsArray(v) ==> r.Thrown?
  {
    if !Truthy(v) then Ok([])
    else if v.value.JArr? then Ok(v.value.elems)
    else Thrown("TypeError: map is not a function")
  }

  /** `v.trim()`: only a string has a `trim` method. */
  function TrimValue(v: Option<Json>): (r: Outcome<string>)
    ensures r.Ok? <==> v.Some? && v.value.JStr?
    ensures r.Ok? ==> r.value == Trim(v.value.s)
  {
    match v
    case Some(JStr(s)) => Ok(Trim(s))
    case _ => Thrown("TypeError: trim is not a function")
  }

  /** `v.toLowerCase()`. */
  function LowerValue(v: Outcome<string>): (r: Outcome<string>)
    ensures r.Ok? <==> v.Ok?
    ensures r.Ok? ==> r.value == Lower(v.value)
  {
    match v
    case Ok(s) => Ok(Lower(s))
    case Thrown(m) => Thrown(m)
  }

  // ---------------------------------------------------------------- String(...)

  function Pow10(n: nat): (r: nat)
    ensures r >= 1
  {
    if n == 0 then 1 else 10 * Pow10(n - 1)
  }

  /** Decimal digits of a fraction in [0, 1), at most `fuel` of them. */
  function FractionDigits(f: real, fuel: nat): (r: string)
    requires 0.0 <= f < 1.0
    ensures |r| <= fuel && AllDigits(r)
    decreases fuel
  {
    if f == 0.0 || fuel == 0 then ""
    else
      var d := (f * 10.0).Floor;
      [DigitChar(d)] + FractionDigits(f * 10.0 - d as real, fuel - 1)
  }

  /** The text of a number: the integer part, then a point and the fractional digits if there are any. */
  function NumberText(n: real): (r: string)
    ensures r != []
  {
    var a := if n < 0.0 then -n else n;
    var ip := a.Floor;
    var f := a - ip as real;
    (if n < 0.0 then "-" else "") + NatToString(ip) + (if f == 0.0 then "" else "." + FractionDigits(f, 20))
  }

  /** `String(v)`. An array becomes its elements joined with commas, `null` elements as empty text. */
  function ToStr(v: Json): string
    decreases v
  {
    match v
    case JNull => "null"
    case JBool(b) => if b then "true" else "false"
    case JNum(n) => NumberText(n)
    case JStr(s) => s
    case JArr(es) => Join(seq(|es|, i requires 0 <= i < |es| => if es[i].JNull? then "" else ToStr(es[i])), ",")
    case JObj(_) => "[object Object]"
  }

  /** A string is its own `String(...)`. */
  lemma ToStrString(s: string)
    ensures ToStr(JStr(s)) == s
  {
  }

  /** `String(v)` where `v` may be `undefined`. */
  function ToStrOpt(v: Option<Json>): string {
    if v.Some? then ToStr(v.value) else "undefined"
  }

  // ---------------------------------------------------------------- Number(...)

  /** The value of an unsigned decimal literal: digits, a point, digits, with at least one digit. */
  function UnsignedDecimal(t: string): (r: Option<real>)
    ensures r.Some? ==> r.value >= 0.0
  {
    if '.' in t then
      var k := FirstIndex(t, '.');
      var ip := t[..k];
      var fp := t[k + 1..];
      if AllDigits(ip) && AllDigits(fp) && (ip != [] || fp != []) then
        Some(DigitsValue(ip) as real + DigitsValue(fp) as real / Pow10(|fp|) as real)
      else None
    else if t != [] && AllDigits(t) then Some(DigitsValue(t) as real)
    else None
  }

  /** `Number(s)` for a string: blank text is 0, a signed decimal literal is its value, anything else NaN. */
  function StringToNumber(s: string): (r: Number)
    ensures !r.Infinity?
    ensures (forall i :: 0 <= i < |s| ==> IsJsSpace(s[i])) ==> r == Finite(0.0)
  {
    var t := Trim(s);
    TrimByEmptyIff(s, IsJsSpace);
    if t == "" then Finite(0.0)
    else
      var body := if t[0] == '-' || t[0] == '+' then t[1..] else t;
      match UnsignedDecimal(body)
      case Some(v) => Finite(if t[0] == '-' then -v else v)
      case None => NaN
  }

  /** `Number(v)`; `None` is `undefined`. Arrays convert through their text, as JavaScript does. */
  function ToNumber(v: Option<Json>): (r: Number)
    ensures !r.Infinity?
  {
    match v
    case None => NaN
    case Some(JNull) => Finite(0.0)
    case Some(JBool(b)) => Finite(if b then 1.0 else 0.0)
    case Some(JNum(n)) => Finite(n)
    case Some(JStr(s)) => StringToNumber(s)
    case Some(JArr(_)) => StringToNumber(ToStr(v.value))
    case Some(JObj(_)) => NaN
  }

  /** `v > 0`: the comparison converts `v` with `Number`, and NaN compares false. */
  predicate Positive(v: Option<Json>) {
    ToNumber(v).Finite? && ToNumber(v).value > 0.0
  }

  /** `Number(v) || d`: NaN and 0 fall back to `d`. */
  function NumberOr(v: Option<Json>, d: real): (r: real)
    ensures ToNumber(v).Finite? && ToNumber(v).value != 0.0 ==> r == ToNumber(v).value
    ensures ToNumber(v).NaN? || ToNumber(v) == Finite(0.0) ==> r == d
  {
    match ToNumber(v)
    case Finite(x) => if x != 0.0 then x else d
    case _ => d
  }

  /** A rendered natural number is an unsigned decimal literal of the same value. */
  lemma NatTextDecimal(n: nat)
    ensures UnsignedDecimal(NatToString(n)) == Some(n as real)
  {
    var t := NatToString(n);
    assert '.' !in t by {
      forall i | 0 <= i < |t| ensures t[i] != '.' {
        assert IsDigit(t[i]);
      }
    }
    NatToStringRoundTrip(n);
  }

  /** Converting a rendered natural number back with `Number` gives the number. */
  lemma NatTextToNumber(n: nat)
    ensures StringToNumber(NatToString(n)) == Finite(n as real)
  {
    var t := NatToString(n);
    assert IsDigit(t[0]) && IsDigit(t[|t| - 1]);
    TrimByNoop(t, IsJsSpace);
    NatTextDecimal(n);
  }

  /** An integer is rendered without a fractional part. */
  lemma IntegerText(k: int)
    ensures NumberText(k as real) == (if k < 0 then "-" else "") + NatToString(if k < 0 then -k else k)
  {
    var a := if (k as real) < 0.0 then -(k as real) else k as real;
    assert a == (if k < 0 then -k else k) as real;
    assert a.Floor == (if k < 0 then -k else k);
  }

  /** A rendered natural number with a leading minus sign converts to its negation. */
  lemma NegatedTextToNumber(n: nat)
    ensures StringToNumber("-" + NatToString(n)) == Finite(-(n as real))
  {
    var u := NatToString(n);
    var t := "-" + u;
    assert t[1..] == u && t[0] == '-' && t[|t| - 1] == u[|u| - 1];
    assert IsDigit(u[|u| - 1]);
    TrimByNoop(t, IsJsSpace);
    assert Trim(t) == t;
    NatTextDecimal(n);
  }

  /** `Number(String(k))` is `k` for every integer `k`. */
  lemma {:induction false} IntegerTextRoundTrip(k: int)
    ensures StringToNumber(NumberText(k as real)) == Finite(k as real)
  {
    var t := NumberText(k as real);
    IntegerText(k);
    if k < 0 {
      assert t == "-" + NatToString(-k);
      NegatedTextToNumber(-k);
    } else {
      assert t == NatToString(k);
      NatTextToNumber(k);
    }
  }

  // ---------------------------------------------------------------- Math.round

  /** `Math.round(x)`: the nearest integer, halves rounded up. */
  function Round(x: real): (r: int)
    ensures x - 0.5 < r as real <= x + 0.5
  {
    (x + 0.5).Floor
  }

  /** Rounding keeps the order of its arguments. */
  lemma RoundMonotone(x: real, y: real)
    requires x <= y
    ensures Round(x) <= Round(y)
  {
  }

  /** An integer rounds to itself. */
  lemma RoundInteger(k: int)
    ensures Round(k as real) == k
  {
  }

  // ---------------------------------------------------------------- callbacks that may throw

  /** `s.map(f)` where `f` may throw: the first exception escapes. */
  function MapOk<A, B>(s: seq<A>, f: A -> Outcome<B>): (r: Outcome<seq<B>>)
    ensures r.Ok? <==> forall i :: 0 <= i < |s| ==> f(s[i]).Ok?
    ensures r.Ok? ==> |r.value| == |s| && forall i :: 0 <= i < |s| ==> r.value[i] == f(s[i]).value
    decreases |s|
  {
    if s == [] then Ok([])
    else
      var h :- f(s[0]);
      var t :- MapOk(s[1..], f);
      assert forall i :: 1 <= i < |s| ==> f(s[i]) == f(s[1..][i - 1]);
      Ok([h] + t)
  }

  /** A map whose callback throws on `null` and on nothing else succeeds exactly when no
      element is `null`. */
  lemma MapOkNull<B>(s: seq<Json>, f: Json -> Outcome<B>)
    requires forall x :: f(x).Thrown? <==> x == JNull
    ensures MapOk(s, f).Ok? <==> JNull !in s
  {
    if JNull in s {
      var i :| 0 <= i < |s| && s[i] == JNull;
      assert f(s[i]).Thrown?;
    }
  }

  /** Callbacks that agree on every element give the same map. */
  lemma {:induction false} MapOkCongruent<A, B>(s: seq<A>, f: A -> Outcome<B>, g: A -> Outcome<B>)
    requires forall i :: 0 <= i < |s| ==> f(s[i]) == g(s[i])
    ensures MapOk(s, f) == MapOk(s, g)
    decreases |s|
  {
    if s != [] {
      assert forall i :: 0 <= i < |s[1..]| ==> s[1..][i] == s[i + 1];
      MapOkCongruent(s[1..], f, g);
    }
  }

  /** The elements a possibly throwing test accepts. */
  function Accepts<A>(p: A -> Outcome<bool>): A -> bool {
    x => p(x) == Ok(true)
  }

  /** `s.filter(p)` where `p` may throw: the first exception escapes. */
  function FilterOk<A>(s: seq<A>, p: A -> Outcome<bool>): (r: Outcome<seq<A>>)
    ensures r.Ok? <==> forall i :: 0 <= i < |s| ==> p(s[i]).Ok?
    ensures r.Ok? ==> r.value == Filter(s, Accepts(p))
    decreases |s|
  {
    if s == [] then Ok([])
    else
      var keep :- p(s[0]);
      var t :- FilterOk(s[1..], p);
      assert forall i :: 1 <= i < |s| ==> p(s[i]) == p(s[1..][i - 1]);
      Ok((if keep then [s[0]] else []) + t)
  }

  /** Tests that agree on every element give the same filter. */
  lemma {:induction false} FilterOkCongruent<A>(s: seq<A>, p: A -> Outcome<bool>, q: A -> Outcome<bool>)
    requires forall i :: 0 <= i < |s| ==> p(s[i]) == q(s[i])
    ensures FilterOk(s, p) == FilterOk(s, q)
    decreases |s|
  {
    if s != [] {
      assert forall i :: 0 <= i < |s[1..]| ==> s[1..][i] == s[i + 1];
      FilterOkCongruent(s[1..], p, q);
    }
  }
}
