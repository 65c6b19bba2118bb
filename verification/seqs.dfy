/** Sequence helpers: duplicate-free sequences and the first-occurrence
    deduplication that both `Array.from(new Set(xs))` and the
    `arr.indexOf(val) === idx` filter perform. */
module Seqs {

  predicate NoDups<T(==)>(s: seq<T>) {
    forall a, b :: 0 <= a < b < |s| ==> s[a] != s[b]
  }

  /** The position of the first occurrence of `x` in `s` (`s.indexOf(x)`). */
  function FirstIndex<T(==)>(s: seq<T>, x: T): (k: nat)
    requires x in s
    ensures k < |s| && s[k] == x
    ensures forall j :: 0 <= j < k ==> s[j] != x
  {
    if s[0] == x then 0
    else
      var k := 1 + FirstIndex(s[1..], x);
      assert forall j :: 1 <= j < k ==> s[j] == s[1..][j - 1];
      k
  }

  /** An occurrence with none before it is the first one. */
  lemma FirstIndexIs<T>(s: seq<T>, x: T, k: nat)
    requires k < |s| && s[k] == x
    requires forall j :: 0 <= j < k ==> s[j] != x
    ensures FirstIndex(s, x) == k
  {
    var f := FirstIndex(s, x);
    assert !(f < k) && !(k < f);
  }

  /** Appending after a prefix does not move the first occurrences in it. */
  lemma FirstIndexPrefix<T>(s: seq<T>, t: seq<T>)
    ensures forall x :: x in s ==> FirstIndex(s + t, x) == FirstIndex(s, x)
  {
    forall x | x in s
      ensures FirstIndex(s + t, x) == FirstIndex(s, x)
    {
      var k := FirstIndex(s, x);
      assert (s + t)[k] == x;
      assert forall j :: 0 <= j < k ==> (s + t)[j] == s[j];
      FirstIndexIs(s + t, x, k);
    }
  }

  /** Keeps the first occurrence of every element, in the order of those
      first occurrences. */
  function Dedupe<T(==)>(s: seq<T>): (r: seq<T>)
    ensures NoDups(r)
    ensures forall x :: x in r ==> x in s
    ensures forall x :: x in s ==> x in r
    ensures forall a, b :: 0 <= a < b < |r| ==> FirstIndex(s, r[a]) < FirstIndex(s, r[b])
    ensures |r| <= |s|
    decreases |s|
  {
    if |s| == 0 then []
    else
      var init := s[..|s| - 1];
      var last := s[|s| - 1];
      var p := Dedupe(init);
      assert s == init + [last];
      FirstIndexPrefix(init, [last]);
      if last in init then p
      else
        FirstIndexIs(s, last, |s| - 1);
        p + [last]
  }

  /** Deduplicating a sequence that has no duplicates changes nothing. */
  lemma {:induction false} DedupeOfNoDups<T>(s: seq<T>)
    requires NoDups(s)
    ensures Dedupe(s) == s
    decreases |s|
  {
    if |s| > 0 {
      var init := s[..|s| - 1];
      var last := s[|s| - 1];
      assert Dedupe(s) == if last in init then Dedupe(init) else Dedupe(init) + [last];
      assert NoDups(init);
      assert last !in init by {
        forall k | 0 <= k < |init|
          ensures init[k] != last
        {
          assert init[k] == s[k];
        }
      }
      assert init + [last] == s;
      hide *;
      DedupeOfNoDups(init);
    }
  }

  /** Deduplication keeps the already-deduplicated prefix in place. */
  lemma {:induction false} DedupePrefix<T>(s: seq<T>, t: seq<T>)
    requires NoDups(s)
    ensures |Dedupe(s + t)| >= |s|
    ensures Dedupe(s + t)[..|s|] == s
    decreases |t|
  {
    hide FirstIndex;
    if |t| == 0 {
      assert s + t == s;
      DedupeOfNoDups(s);
    } else {
      var u := s + t;
      var init := u[..|u| - 1];
      assert init == s + t[..|t| - 1];
      DedupePrefix(s, t[..|t| - 1]);
      var p := Dedupe(init);
      assert Dedupe(u) == p || Dedupe(u) == p + [u[|u| - 1]];
      hide Dedupe, NoDups;
      if Dedupe(u) != p {
        assert Dedupe(u)[..|s|] == p[..|s|];
      }
    }
  }

  /** `r` is `s` with some elements deleted: what is left keeps its order. */
  predicate Subsequence<T(==)>(r: seq<T>, s: seq<T>)
    decreases |s|
  {
    if |r| == 0 then true
    else if |s| == 0 then false
    else (r[0] == s[0] && Subsequence(r[1..], s[1..])) || Subsequence(r, s[1..])
  }

  /** `s.filter(x => x !== v)`: every element other than `v`, in order. The
      order, the membership and the count together leave no other result. */
  function Without<T(==)>(s: seq<T>, v: T): (r: seq<T>)
    ensures forall x :: x in r ==> x in s && x != v
    ensures forall x :: x in s && x != v ==> x in r
    ensures Subsequence(r, s)
    ensures |r| == |s| - multiset(s)[v]
    ensures NoDups(s) ==> NoDups(r)
    decreases |s|
  {
    if |s| == 0 then []
    else
      assert s == [s[0]] + s[1..];
      assert multiset(s) == multiset([s[0]]) + multiset(s[1..]);
      var rest := Without(s[1..], v);
      if s[0] == v then rest
      else
        assert s[0] !in s[1..] ==> s[0] !in rest;
        [s[0]] + rest
  }

  /** Filtering out a value that does not occur changes nothing. */
  lemma {:induction false} WithoutAbsent<T>(s: seq<T>, v: T)
    requires v !in s
    ensures Without(s, v) == s
    decreases |s|
  {
    if |s| > 0 {
      assert v !in s[1..];
      WithoutAbsent(s[1..], v);
      assert s == [s[0]] + s[1..];
    }
  }

  /** A duplicate-free sequence whose elements all occur in `t` is no longer than `t`. */
  lemma {:induction false} NoDupsSubsetLength<T>(s: seq<T>, t: seq<T>)
    requires NoDups(s)
    requires forall x :: x in s ==> x in t
    ensures |s| <= |t|
    decreases |s|
  {
    if |s| > 0 {
      var x := s[|s| - 1];
      var init := s[..|s| - 1];
      assert x in t;
      var k :| 0 <= k < |t| && t[k] == x;
      var t' := t[..k] + t[k + 1..];
      forall y | y in init
        ensures y in t'
      {
        var j :| 0 <= j < |init| && init[j] == y;
        assert y != x;
        assert y in t;
        var m :| 0 <= m < |t| && t[m] == y;
        if m < k {
          assert t'[m] == y;
        } else {
          assert t'[m - 1] == y;
        }
      }
      NoDupsSubsetLength(init, t');
    }
  }
}
