/** Sequence operations the source expresses with `map`, `filter` and `new Set(...)`. */
module Seqs {

  /** `s.map(f)`. */
  function Map<A, B>(s: seq<A>, f: A -> B): (r: seq<B>)
    ensures |r| == |s| && forall i :: 0 <= i < |s| ==> r[i] == f(s[i])
  {
    seq(|s|, i requires 0 <= i < |s| => f(s[i]))
  }

  /** Mapping a concatenation maps each part. */
  lemma MapAppend<A, B>(a: seq<A>, b: seq<A>, f: A -> B)
    ensures Map(a + b, f) == Map(a, f) + Map(b, f)
  {
    var r := Map(a, f) + Map(b, f);
    forall i | 0 <= i < |a + b| ensures r[i] == f((a + b)[i]) {
      if i < |a| { assert r[i] == Map(a, f)[i]; } else { assert r[i] == Map(b, f)[i - |a|]; }
    }
  }

  /** Mapping a non-empty sequence maps its head, then its tail. */
  lemma MapCons<A, B>(s: seq<A>, f: A -> B)
    requires s != []
    ensures Map(s, f) == [f(s[0])] + Map(s[1..], f)
  {
    MapAppend([s[0]], s[1..], f);
    assert [s[0]] + s[1..] == s;
  }

  /** An element of a mapped sequence is the image of an element at some index. */
  lemma MapPreimage<A, B>(s: seq<A>, f: A -> B, y: B) returns (k: nat)
    requires y in Map(s, f)
    ensures k < |s| && f(s[k]) == y
  {
    var m := Map(s, f);
    k :| 0 <= k < |m| && m[k] == y;
  }

  /** `s.filter(p)`: the elements satisfying `p`, in their original order. */
  function Filter<A>(s: seq<A>, p: A -> bool): (r: seq<A>)
    ensures |r| <= |s|
    ensures forall i :: 0 <= i < |r| ==> p(r[i])
    decreases |s|
  {
    if s == [] then [] else (if p(s[0]) then [s[0]] else []) + Filter(s[1..], p)
  }

  /** `s.slice(0, n)`: the first `n` elements, or all of them when there are fewer. */
  function Take<A>(s: seq<A>, n: nat): (r: seq<A>)
    ensures |r| == (if |s| < n then |s| else n) && r == s[..|r|]
  {
    if |s| < n then s else s[..n]
  }

  lemma {:induction false} FilterAppend<A>(a: seq<A>, b: seq<A>, p: A -> bool)
    ensures Filter(a + b, p) == Filter(a, p) + Filter(b, p)
    decreases |a|
  {
    if a != [] {
      assert (a + b)[0] == a[0];
      assert (a + b)[1..] == a[1..] + b;
      FilterAppend(a[1..], b, p);
      calc {
        Filter(a + b, p);
        (if p(a[0]) then [a[0]] else []) + Filter(a[1..] + b, p);
        (if p(a[0]) then [a[0]] else []) + (Filter(a[1..], p) + Filter(b, p));
        ((if p(a[0]) then [a[0]] else []) + Filter(a[1..], p)) + Filter(b, p);
      }
    } else {
      assert a + b == b;
    }
  }

  /** Filtering a sequence with one element in front. */
  lemma FilterCons<A>(x: A, s: seq<A>, p: A -> bool)
    ensures Filter([x] + s, p) == (if p(x) then [x] else []) + Filter(s, p)
  {
    var r := [x] + s;
    assert r[0] == x && r[1..] == s;
  }

  /** Filtering a sequence extended by one element. */
  lemma FilterSnoc<A>(s: seq<A>, x: A, p: A -> bool)
    ensures Filter(s + [x], p) == Filter(s, p) + (if p(x) then [x] else [])
  {
    FilterAppend(s, [x], p);
    assert Filter([x], p) == (if p(x) then [x] else []) + Filter([x][1..], p);
    assert [x][1..] == [];
  }

  /** An element is kept exactly when it occurs in the input and satisfies the predicate. */
  lemma {:induction false} FilterMembers<A>(s: seq<A>, p: A -> bool, x: A)
    ensures x in Filter(s, p) <==> x in s && p(x)
    decreases |s|
  {
    if s != [] {
      FilterMembers(s[1..], p, x);
      assert s == [s[0]] + s[1..];
    }
  }

  /** Filtering with a predicate that holds of every element keeps the sequence. */
  lemma {:induction false} FilterAll<A>(s: seq<A>, p: A -> bool)
    requires forall i :: 0 <= i < |s| ==> p(s[i])
    ensures Filter(s, p) == s
    decreases |s|
  {
    if s != [] {
      FilterAll(s[1..], p);
    }
  }

  /** Filtering with a predicate that holds of no element gives the empty sequence. */
  lemma {:induction false} FilterNone<A>(s: seq<A>, p: A -> bool)
    requires forall i :: 0 <= i < |s| ==> !p(s[i])
    ensures Filter(s, p) == []
    decreases |s|
  {
    if s != [] {
      FilterNone(s[1..], p);
    }
  }

  /** A predicate and its negation split a sequence into two parts of complementary lengths. */
  lemma {:induction false} FilterComplementLength<A>(s: seq<A>, p: A -> bool, q: A -> bool)
    requires forall x :: q(x) == !p(x)
    ensures |Filter(s, p)| + |Filter(s, q)| == |s|
    decreases |s|
  {
    if s != [] {
      FilterComplementLength(s[1..], p, q);
    }
  }

  /** Filtering twice with the same predicate is filtering once. */
  lemma FilterIdempotent<A>(s: seq<A>, p: A -> bool)
    ensures Filter(Filter(s, p), p) == Filter(s, p)
  {
    FilterAll(Filter(s, p), p);
  }

  /** Two predicates that agree on every element filter alike. */
  lemma {:induction false} FilterCongruent<A>(s: seq<A>, p: A -> bool, q: A -> bool)
    requires forall i :: 0 <= i < |s| ==> p(s[i]) == q(s[i])
    ensures Filter(s, p) == Filter(s, q)
    decreases |s|
  {
    if s != [] {
      FilterCongruent(s[1..], p, q);
    }
  }

  /** A relation that holds of every ordered pair of the input holds of every ordered pair of a filtered sequence. */
  lemma {:induction false} FilterKeepsPairwise<A>(s: seq<A>, p: A -> bool, R: (A, A) -> bool)
    requires forall i, j :: 0 <= i < j < |s| ==> R(s[i], s[j])
    ensures forall i, j :: 0 <= i < j < |Filter(s, p)| ==> R(Filter(s, p)[i], Filter(s, p)[j])
    decreases |s|
  {
    if s != [] {
      FilterKeepsPairwise(s[1..], p, R);
      var t := Filter(s[1..], p);
      forall k | 0 <= k < |t| ensures R(s[0], t[k]) {
        FilterIsSubsequence(s[1..], p, k);
      }
    }
  }

  /** Every element of a filtered sequence is an element of the input, at an index no smaller than its own. */
  lemma {:induction false} FilterIsSubsequence<A>(s: seq<A>, p: A -> bool, k: nat)
    requires k < |Filter(s, p)|
    ensures exists j :: k <= j < |s| && s[j] == Filter(s, p)[k]
    decreases |s|
  {
    if s != [] {
      if p(s[0]) && k == 0 {
        assert s[0] == Filter(s, p)[0];
      } else {
        var k' := if p(s[0]) then k - 1 else k;
        FilterIsSubsequence(s[1..], p, k');
        var j :| k' <= j < |s[1..]| && s[1..][j] == Filter(s[1..], p)[k'];
        assert s[j + 1] == Filter(s, p)[k];
      }
    }
  }

  // ---------------------------------------------------------------- first occurrences

  /** The index of the first occurrence of `x` in `s`. */
  function FirstIndex<A(==)>(s: seq<A>, x: A): (k: nat)
    requires x in s
    ensures k < |s| && s[k] == x && x !in s[..k]
  {
    if s[0] == x then 0 else 1 + FirstIndex(s[1..], x)
  }

  /** `Array.from(new Set(s))`: the distinct elements of `s` in the order of their first occurrence. */
  function Dedup<A(==)>(s: seq<A>): (r: seq<A>)
    decreases |s|
  {
    if s == [] then []
    else
      var r := Dedup(s[..|s| - 1]);
      if s[|s| - 1] in r then r else r + [s[|s| - 1]]
  }

  /** Dedup keeps exactly the elements of its input. */
  lemma {:induction false} DedupMembers<A>(s: seq<A>, x: A)
    ensures x in Dedup(s) <==> x in s
    decreases |s|
  {
    if s != [] {
      var n := |s| - 1;
      DedupMembers(s[..n], x);
      DedupMembers(s[..n], s[n]);
      assert s == s[..n] + [s[n]];
    }
  }

  /** Dedup's elements are pairwise distinct. */
  lemma {:induction false} DedupDistinct<A>(s: seq<A>)
    ensures forall i, j :: 0 <= i < j < |Dedup(s)| ==> Dedup(s)[i] != Dedup(s)[j]
    decreases |s|
  {
    if s != [] {
      var x := s[|s| - 1];
      var r := Dedup(s[..|s| - 1]);
      assert Dedup(s) == if x in r then r else r + [x];
      DedupDistinct(s[..|s| - 1]);
      if x !in r {
        var r' := r + [x];
        forall i, j | 0 <= i < j < |r'| ensures r'[i] != r'[j] {
          if j == |r| {
            assert r'[i] == r[i] && r[i] in r;
          } else {
            assert r'[i] == r[i] && r'[j] == r[j];
          }
        }
      }
    }
  }

  /** Dedup lists the elements in the order of their first occurrence in the input. */
  lemma {:induction false} DedupOrder<A>(s: seq<A>)
    ensures forall i :: 0 <= i < |Dedup(s)| ==> Dedup(s)[i] in s
    ensures forall i, j :: 0 <= i < j < |Dedup(s)| ==> FirstIndex(s, Dedup(s)[i]) < FirstIndex(s, Dedup(s)[j])
    decreases |s|
  {
    if s != [] {
      var n := |s| - 1;
      var p := s[..n];
      var r := Dedup(s);
      var rp := Dedup(p);
      DedupOrder(p);
      forall x | x in p ensures x in s && FirstIndex(s, x) == FirstIndex(p, x) {
        FirstIndexPrefix(p, s, x);
      }
      forall i | 0 <= i < |rp| ensures rp[i] in p {
        DedupMembers(p, rp[i]);
      }
      if s[n] !in rp {
        DedupMembers(p, s[n]);
        assert s[n] !in p;
        assert FirstIndex(s, s[n]) == n by {
          FirstIndexOfFresh(p, s);
        }
        forall i | 0 <= i < |rp| ensures FirstIndex(s, rp[i]) < n {
        }
        assert r == rp + [s[n]];
      } else {
        assert r == rp;
      }
    }
  }

  lemma {:induction false} FirstIndexPrefix<A>(p: seq<A>, s: seq<A>, x: A)
    requires x in p && p <= s
    ensures x in s && FirstIndex(s, x) == FirstIndex(p, x)
    decreases |p|
  {
    assert s[FirstIndex(p, x)] == x;
    if p[0] != x {
      FirstIndexPrefix(p[1..], s[1..], x);
    }
  }

  lemma {:induction false} FirstIndexOfFresh<A>(p: seq<A>, s: seq<A>)
    requires |s| == |p| + 1 && p == s[..|p|] && s[|p|] !in p
    ensures FirstIndex(s, s[|p|]) == |p|
    decreases |p|
  {
    if p != [] {
      assert p[0] == s[0];
      assert s[1..][|p| - 1] == s[|p|];
      FirstIndexOfFresh(p[1..], s[1..]);
    }
  }

  /** A relation that holds of every ordered pair of the input holds of every ordered pair of its Dedup. */
  lemma DedupKeepsPairwise<A>(s: seq<A>, R: (A, A) -> bool)
    requires forall i, j :: 0 <= i < j < |s| ==> R(s[i], s[j])
    ensures forall i, j :: 0 <= i < j < |Dedup(s)| ==> R(Dedup(s)[i], Dedup(s)[j])
  {
    DedupOrder(s);
  }

  /** Dedup never lengthens its input. */
  lemma {:induction false} DedupLength<A>(s: seq<A>)
    ensures |Dedup(s)| <= |s|
    decreases |s|
  {
    if s != [] {
      DedupLength(s[..|s| - 1]);
    }
  }
}
