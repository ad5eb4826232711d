/** The cleaning every validator applies to a model reply before `JSON.parse`: Markdown
    code fences are deleted, the text is trimmed, and the greedy match of `/\{[\s\S]*\}/`
    (first '{' to last '}') replaces it when there is one. */
module ModelOutput {
  import opened Wrappers
  import opened Text
  import opened Seqs
  import opened Js
  import opened Kitchen

  const Fence: string := "```"
  const JsonFence: string := "```json"

  /** `s.replace(/<pat>\n?/g, '')` when `eatNewline`, else `s.replace(/<pat>/g, '')`: the
      occurrences of `pat`, found left to right without overlapping, are deleted, each with
      the newline right after it when `eatNewline`. */
  function RemoveAll(s: string, pat: string, eatNewline: bool): (r: string)
    requires pat != []
    ensures |r| <= |s|
    decreases |s|
  {
    if |s| < |pat| then s
    else if s[..|pat|] == pat then
      var rest := s[|pat|..];
      RemoveAll(if eatNewline && rest != [] && rest[0] == '\n' then rest[1..] else rest, pat, eatNewline)
    else [s[0]] + RemoveAll(s[1..], pat, eatNewline)
  }

  /** Text without the pattern is left unchanged. */
  lemma {:induction false} RemoveAllAbsent(s: string, pat: string, eatNewline: bool)
    requires pat != [] && !Contains(s, pat)
    ensures RemoveAll(s, pat, eatNewline) == s
    decreases |s|
  {
    if |s| >= |pat| {
      assert !OccursAt(s, pat, 0);
      forall i | 0 <= i <= |s[1..]| - |pat| ensures !OccursAt(s[1..], pat, i) {
        assert s[1..][i..i + |pat|] == s[i + 1..i + 1 + |pat|];
        assert !OccursAt(s, pat, i + 1);
      }
      RemoveAllAbsent(s[1..], pat, eatNewline);
    }
  }

  /** Removing fences keeps a first character that is not a backtick. */
  lemma FenceFreeHead(s: string, eatNewline: bool)
    requires s != [] && s[0] != '`'
    ensures var r := RemoveAll(s, Fence, eatNewline); r != [] && r[0] == s[0]
  {
    if |s| >= 3 {
      assert s[..3] != Fence;
    }
  }

  /** After a kept first character, the removal can not start a fence at the front of the result. */
  lemma NoFenceAtFront(s: string, eatNewline: bool)
    requires |s| >= 3 && s[..3] != Fence
    ensures var r := RemoveAll(s, Fence, eatNewline); |r| >= 3 ==> r[..3] != Fence
  {
    var r := RemoveAll(s, Fence, eatNewline);
    var r' := RemoveAll(s[1..], Fence, eatNewline);
    assert r == [s[0]] + r';
    if s[0] != '`' {
      assert r[0] == s[0];
    } else if s[1] != '`' {
      FenceFreeHead(s[1..], eatNewline);
      assert r[1] == s[1];
    } else {
      assert s[2] != '`';
      if |s| == 3 {
        assert r' == s[1..];
      } else {
        assert s[1..][..3] != Fence;
        assert r' == [s[1]] + RemoveAll(s[2..], Fence, eatNewline);
        FenceFreeHead(s[2..], eatNewline);
        assert r[2] == s[2];
      }
    }
  }

  /** No "```" is left after the second pass: a deleted fence can never join the backticks
      around it into a new one, because a backtick kept just before it would itself have
      started a fence. */
  lemma {:induction false} NoFenceLeft(s: string, eatNewline: bool)
    ensures !Contains(RemoveAll(s, Fence, eatNewline), Fence)
    decreases |s|
  {
    var r := RemoveAll(s, Fence, eatNewline);
    if |s| < 3 {
      ContainsLonger(s, Fence);
    } else if s[..3] == Fence {
      var rest := s[3..];
      NoFenceLeft(if eatNewline && rest != [] && rest[0] == '\n' then rest[1..] else rest, eatNewline);
    } else {
      var r' := RemoveAll(s[1..], Fence, eatNewline);
      assert r == [s[0]] + r';
      NoFenceLeft(s[1..], eatNewline);
      NoFenceAtFront(s, eatNewline);
      forall i | 0 <= i <= |r| - 3 ensures !OccursAt(r, Fence, i) {
        if i > 0 {
          assert r[i..i + 3] == r'[i - 1..i + 2];
          assert !OccursAt(r', Fence, i - 1);
        }
      }
    }
  }

  // ---------------------------------------------------------------- the JSON object span

  /** The index of the last occurrence of `c` in `t`. */
  function LastIndex(t: string, c: char): (k: nat)
    requires c in t
    ensures k < |t| && t[k] == c && c !in t[k + 1..]
  {
    if t[|t| - 1] == c then |t| - 1 else LastIndex(t[..|t| - 1], c)
  }

  /** Some '}' follows some '{' in `t`: where `/\{[\s\S]*\}/` matches. */
  predicate HasBracePair(t: string) {
    exists i, j :: 0 <= i < j < |t| && t[i] == '{' && t[j] == '}'
  }

  /** Text that opens with '{' and closes with '}'. */
  predicate Braced(c: string) {
    |c| >= 2 && c[0] == '{' && c[|c| - 1] == '}'
  }

  /** Where the match of `/\{[\s\S]*\}/` lies in `t`: from the first '{' to the last '}',
      present exactly when some '}' follows some '{'. */
  function ObjectBounds(t: string): (r: Option<(nat, nat)>)
    ensures r.Some? <==> HasBracePair(t)
    ensures r.Some? ==> var (i, j) := r.value;
      i < j < |t| && t[i] == '{' && '{' !in t[..i] && t[j] == '}' && '}' !in t[j + 1..]
  {
    if '{' in t then
      var i := FirstIndex(t, '{');
      if '}' in t[i + 1..] then
        var j := LastIndex(t, '}');
        LastAfter(t, i, '}');
        Some((i, j))
      else
        NoSpanAfterFirst(t, i);
        None
    else None
  }

  /** The text of the match, when there is one. */
  function ObjectSpan(t: string): (r: Option<string>)
    ensures r.Some? <==> ObjectBounds(t).Some?
    ensures r.Some? ==> Braced(r.value)
  {
    match ObjectBounds(t)
    case Some((i, j)) => Some(t[i..j + 1])
    case None => None
  }

  lemma LastAfter(t: string, i: nat, c: char)
    requires i < |t| && c in t[i + 1..]
    ensures c in t && LastIndex(t, c) > i
  {
    var k :| i + 1 <= k < |t| && t[k] == c;
    assert t[k] == c;
    var j := LastIndex(t, c);
    assert forall m :: j < m < |t| ==> t[m] == t[j + 1..][m - j - 1];
  }

  lemma NoSpanAfterFirst(t: string, i: nat)
    requires i < |t| && t[i] == '{' && '{' !in t[..i] && '}' !in t[i + 1..]
    ensures !HasBracePair(t)
  {
    assert forall m :: 0 <= m < i ==> t[m] == t[..i][m];
    assert forall m :: i < m < |t| ==> t[m] == t[i + 1..][m - i - 1];
  }

  /** Extracting the span again from an extracted span gives the same text. */
  lemma ObjectSpanIdempotent(t: string)
    requires ObjectSpan(t).Some?
    ensures ObjectSpan(ObjectSpan(t).value) == ObjectSpan(t)
  {
    var m := ObjectSpan(t).value;
    assert m[0] == '{' && m[|m| - 1] == '}';
    assert |m| >= 2;
    assert m[1..][|m| - 2] == '}';
    assert FirstIndex(m, '{') == 0;
    assert LastIndex(m, '}') == |m| - 1;
    assert ObjectBounds(m) == Some((0, |m| - 1));
    assert m[0..|m| - 1 + 1] == m;
  }

  /** The reply with its fences deleted, trimmed. */
  function Unfenced(raw: string, secondPassEatsNewline: bool): string {
    Trim(RemoveAll(RemoveAll(raw, JsonFence, true), Fence, secondPassEatsNewline))
  }

  lemma {:induction false} UnfencedHasNoFence(raw: string, eatNewline: bool)
    ensures !Contains(Unfenced(raw, eatNewline), Fence)
  {
    var once := RemoveAll(raw, JsonFence, true);
    NoFenceLeft(once, eatNewline);
    TrimKeepsNoFence(RemoveAll(once, Fence, eatNewline));
  }

  lemma TrimKeepsNoFence(s: string)
    requires !Contains(s, Fence)
    ensures !Contains(Trim(s), Fence)
  {
    var r := Trim(s);
    var a := |s| - |TrimStartBy(s, IsJsSpace)|;
    assert s[a..a + |r|] == r;
    SubstringKeepsAbsence(s, r, a);
  }

  /** The shape of what `Clean` returns, in terms of the unfenced text. */
  lemma SpanOrWhole(u: string)
    ensures var c := if ObjectSpan(u).Some? then ObjectSpan(u).value else u;
      if HasBracePair(u) then Braced(c) else c == u
  {
  }

  /** The cleaned text a validator hands to `JSON.parse`. `secondPassEatsNewline` tells the
      `/```\n?/g` form of the second replacement from the `/```/g` form. */
  function Clean(raw: string, secondPassEatsNewline: bool): string {
    var stripped := Unfenced(raw, secondPassEatsNewline);
    if ObjectSpan(stripped).Some? then ObjectSpan(stripped).value else stripped
  }

  lemma CleanUnfolds(raw: string, eatNewline: bool)
    ensures var u := Unfenced(raw, eatNewline);
      Clean(raw, eatNewline) == if ObjectSpan(u).Some? then ObjectSpan(u).value else u
  {
  }

  lemma SpanKeepsNoFence(u: string)
    requires !Contains(u, Fence)
    ensures !Contains(if ObjectSpan(u).Some? then ObjectSpan(u).value else u, Fence)
  {
    if ObjectSpan(u).Some? {
      var (i, j) := ObjectBounds(u).value;
      var span := u[i..j + 1];
      assert u[i..i + |span|] == span;
      SubstringKeepsAbsence(u, span, i);
    }
  }

  /** No code fence reaches the parser. */
  lemma {:induction false} CleanHasNoFence(raw: string, eatNewline: bool)
    ensures !Contains(Clean(raw, eatNewline), Fence)
  {
    CleanUnfolds(raw, eatNewline);
    UnfencedHasNoFence(raw, eatNewline);
    SpanKeepsNoFence(Unfenced(raw, eatNewline));
  }

  /** When the unfenced reply holds a '{' followed by a '}', the parser receives text that
      opens with '{' and closes with '}'; otherwise it receives the unfenced reply itself. */
  lemma {:induction false} CleanBraces(raw: string, eatNewline: bool)
    ensures var u := Unfenced(raw, eatNewline); var c := Clean(raw, eatNewline);
      if HasBracePair(u) then Braced(c) else c == u
  {
    var u := Unfenced(raw, eatNewline);
    CleanUnfolds(raw, eatNewline);
    SpanOrWhole(u);
  }

  /** A contiguous piece of text without a fence has none either. */
  lemma SubstringKeepsAbsence(s: string, t: string, a: nat)
    requires !Contains(s, Fence) && a + |t| <= |s| && s[a..a + |t|] == t
    ensures !Contains(t, Fence)
  {
    assert |Fence| == 3;
    forall i | 0 <= i <= |t| - 3 ensures !OccursAt(t, Fence, i) {
      assert t[i] == s[a + i] && t[i + 1] == s[a + i + 1] && t[i + 2] == s[a + i + 2];
      assert t[i..i + 3] == [t[i], t[i + 1], t[i + 2]];
      assert s[a + i..a + i + 3] == [s[a + i], s[a + i + 1], s[a + i + 2]];
      assert !OccursAt(s, Fence, a + i);
    }
  }

  // ---------------------------------------------------------------- the shared item test

  /** `i.name && i.quantity > 0`, the test the fridge validators keep items by; reading a
      property of a `null` item throws. */
  function NamedPositive(i: Json): (r: Outcome<bool>)
    ensures r.Thrown? <==> i == JNull
    ensures r == Ok(true) <==> i != JNull && Truthy(Field(i, "name")) && Positive(Field(i, "quantity"))
  {
    var name :- Get(i, "name");
    if !Truthy(name) then Ok(false)
    else Ok(Positive(Field(i, "quantity")))
  }

  /** The item array of a parsed reply, if it has one. */
  function ReplyItems(data: Json): seq<Json> {
    if IsArray(Field(data, "items")) then Field(data, "items").value.elems else []
  }

  /** The items a fridge validator keeps: a truthy name and a quantity above 0, in reply order. */
  function KeptItems(data: Json): seq<Json> {
    Filter(ReplyItems(data), Accepts(NamedPositive))
  }

  /** The test throws on an item list exactly when the list holds a `null`. */
  lemma KeepTestThrows(elems: seq<Json>)
    ensures FilterOk(elems, NamedPositive).Ok? <==> JNull !in elems
  {
    if JNull in elems {
      var i :| 0 <= i < |elems| && elems[i] == JNull;
      assert NamedPositive(elems[i]).Thrown?;
    }
  }

  /** Every kept item has a quantity that converts to a positive number. */
  lemma KeptQuantityPositive(data: Json, k: nat)
    requires k < |KeptItems(data)|
    ensures Positive(Field(KeptItems(data)[k], "quantity"))
  {
    var x := KeptItems(data)[k];
    assert Accepts(NamedPositive)(x);
    assert NamedPositive(x) == Ok(true);
  }
}
