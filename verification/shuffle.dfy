/** The Fisher-Yates `shuffle` of constants.ts, with `Math.random()` replaced
    by an explicit oracle. Every permutation the source can produce is the
    result for some oracle, so a property proved here for every oracle holds
    for every shuffle the source performs. */
module Shuffling {
  import opened Seqs

  /** The random draws of one shuffle: at loop counter `i` the source picks
      `Math.floor(Math.random() * (i + 1))`, modelled as `draw(i) % (i + 1)`. */
  type Draw = nat -> nat

  /** The oracle under which every swap is a no-op. */
  function IdentityDraw(): Draw {
    k => k
  }

  /** The oracle under which every step swaps with the first element. */
  function ZeroDraw(): Draw {
    k => 0
  }

  function Swap<T>(a: seq<T>, i: nat, j: nat): (r: seq<T>)
    requires i < |a| && j < |a|
    ensures |r| == |a|
    ensures r[i] == a[j] && r[j] == a[i]
    ensures forall k :: 0 <= k < |a| && k != i && k != j ==> r[k] == a[k]
  {
    a[i := a[j]][j := a[i]]
  }

  /** The loop body run for counters `i, i - 1, ..., 1`. */
  function ShuffleDown<T>(a: seq<T>, i: nat, draw: Draw): (r: seq<T>)
    requires i < |a|
    ensures |r| == |a|
    decreases i
  {
    if i == 0 then a
    else ShuffleDown(Swap(a, i, draw(i) % (i + 1)), i - 1, draw)
  }

  lemma {:induction false} ShuffleDownMultiset<T>(a: seq<T>, i: nat, draw: Draw)
    requires i < |a|
    ensures multiset(ShuffleDown(a, i, draw)) == multiset(a)
    decreases i
  {
    if i > 0 {
      var j := draw(i) % (i + 1);
      SwapMultiset(a, i, j);
      ShuffleDownMultiset(Swap(a, i, j), i - 1, draw);
    }
  }

  /** `shuffle(array)`: a permuted copy of `a`. */
  function Shuffle<T>(a: seq<T>, draw: Draw): (r: seq<T>)
    ensures |r| == |a|
    ensures multiset(r) == multiset(a)
  {
    if |a| == 0 then a
    else
      assert multiset(ShuffleDown(a, |a| - 1, draw)) == multiset(a) by {
        ShuffleDownMultiset(a, |a| - 1, draw);
      }
      ShuffleDown(a, |a| - 1, draw)
  }

  lemma SwapMultiset<T>(a: seq<T>, i: nat, j: nat)
    requires i < |a| && j < |a|
    ensures multiset(Swap(a, i, j)) == multiset(a)
  {
    if i != j {
      var b := a[i := a[j]];
      assert multiset(b) == multiset(a) - multiset{a[i]} + multiset{a[j]};
      assert multiset(b[j := a[i]]) == multiset(b) - multiset{b[j]} + multiset{a[i]};
    }
  }

  /** The indices `0, 1, ..., n - 1`. */
  function Iota(n: nat): (r: seq<nat>)
    ensures |r| == n
    ensures forall k :: 0 <= k < n ==> r[k] == k
  {
    seq(n, k requires 0 <= k < n => k)
  }

  /** `p` lists every index below `n` exactly once. */
  predicate IsPermutation(p: seq<nat>, n: nat) {
    && |p| == n
    && (forall k :: 0 <= k < n ==> p[k] < n)
    && NoDups(p)
    && (forall x :: 0 <= x < n ==> x in p)
  }

  /** Reads `s` in the order the indices `p` give. */
  function Apply<T>(s: seq<T>, p: seq<nat>): (r: seq<T>)
    requires forall k :: 0 <= k < |p| ==> p[k] < |s|
    ensures |r| == |p|
    ensures forall k :: 0 <= k < |p| ==> r[k] == s[p[k]]
  {
    seq(|p|, k requires 0 <= k < |p| => s[p[k]])
  }

  lemma SwapApply<T>(s: seq<T>, p: seq<nat>, i: nat, j: nat)
    requires i < |p| && j < |p|
    requires forall k :: 0 <= k < |p| ==> p[k] < |s|
    ensures forall k :: 0 <= k < |p| ==> Swap(p, i, j)[k] < |s|
    ensures Swap(Apply(s, p), i, j) == Apply(s, Swap(p, i, j))
  {
    var l := Swap(Apply(s, p), i, j);
    var r := Apply(s, Swap(p, i, j));
    assert forall k :: 0 <= k < |p| ==> l[k] == r[k];
  }

  /** Shuffling commutes with reading through an index sequence. */
  lemma {:induction false} ShuffleDownApply<T>(s: seq<T>, p: seq<nat>, i: nat, draw: Draw)
    requires i < |p|
    requires forall k :: 0 <= k < |p| ==> p[k] < |s|
    ensures var q := ShuffleDown<nat>(p, i, draw);
      (forall k :: 0 <= k < |q| ==> q[k] < |s|) && ShuffleDown(Apply(s, p), i, draw) == Apply(s, q)
    decreases i
  {
    if i > 0 {
      var j := draw(i) % (i + 1);
      var p' := Swap(p, i, j);
      SwapApply(s, p, i, j);
      ShuffleDownApply(s, p', i - 1, draw);
    }
  }

  /** Swapping two entries keeps a sequence free of duplicates. */
  lemma SwapNoDups<T>(a: seq<T>, i: nat, j: nat)
    requires i < |a| && j < |a|
    requires NoDups(a)
    ensures NoDups(Swap(a, i, j))
  {
    var b := Swap(a, i, j);
    forall x, y | 0 <= x < y < |b|
      ensures b[x] != b[y]
    {
      var x' := if x == i then j else if x == j then i else x;
      var y' := if y == i then j else if y == j then i else y;
      assert b[x] == a[x'] && b[y] == a[y'];
    }
  }

  lemma {:induction false} ShuffleDownNoDups<T>(a: seq<T>, i: nat, draw: Draw)
    requires i < |a|
    requires NoDups(a)
    ensures NoDups(ShuffleDown(a, i, draw))
    decreases i
  {
    if i > 0 {
      var j := draw(i) % (i + 1);
      SwapNoDups(a, i, j);
      ShuffleDownNoDups(Swap(a, i, j), i - 1, draw);
    }
  }

  lemma ShuffledIndicesInRange(n: nat, draw: Draw)
    ensures forall k :: 0 <= k < n ==> Shuffle<nat>(Iota(n), draw)[k] < n
  {
    var p := Shuffle<nat>(Iota(n), draw);
    forall k | 0 <= k < n
      ensures p[k] < n
    {
      assert p[k] in multiset(p);
      assert p[k] in Iota(n);
    }
  }

  lemma ShuffledIndicesComplete(n: nat, draw: Draw)
    ensures forall x :: 0 <= x < n ==> x in Shuffle<nat>(Iota(n), draw)
  {
    var p := Shuffle<nat>(Iota(n), draw);
    forall x | 0 <= x < n
      ensures x in p
    {
      assert Iota(n)[x] == x;
      assert x in multiset(Iota(n));
    }
  }

  lemma ShuffledIndicesNoDups(n: nat, draw: Draw)
    ensures NoDups(Shuffle<nat>(Iota(n), draw))
  {
    if n > 0 {
      ShuffleDownNoDups(Iota(n), n - 1, draw);
    }
  }

  /** The order in which `shuffle` leaves the positions of an `n`-element array. */
  function ShuffleOrder(n: nat, draw: Draw): (p: seq<nat>)
    ensures IsPermutation(p, n)
  {
    ShuffledIndicesInRange(n, draw);
    ShuffledIndicesComplete(n, draw);
    ShuffledIndicesNoDups(n, draw);
    Shuffle<nat>(Iota(n), draw)
  }

  /** The shuffled array is the original read in the order `ShuffleOrder` gives. */
  lemma ShuffleIsApply<T>(a: seq<T>, draw: Draw)
    ensures Shuffle(a, draw) == Apply(a, ShuffleOrder(|a|, draw))
  {
    if |a| > 0 {
      assert Apply(a, Iota(|a|)) == a;
      ShuffleDownApply(a, Iota(|a|), |a| - 1, draw);
    }
  }

  /** A shuffle holds exactly the elements of the input. */
  lemma ShuffleMembers<T>(a: seq<T>, draw: Draw, x: T)
    ensures x in Shuffle(a, draw) <==> x in a
  {
    assert x in multiset(Shuffle(a, draw)) <==> x in multiset(a);
  }

  /** Under the identity oracle `shuffle` returns its input unchanged. */
  lemma {:induction false} ShuffleDownIdentity<T>(a: seq<T>, i: nat)
    requires i < |a|
    ensures ShuffleDown(a, i, IdentityDraw()) == a
    decreases i
  {
    if i > 0 {
      assert IdentityDraw()(i) % (i + 1) == i;
      assert Swap(a, i, i) == a;
      ShuffleDownIdentity(a, i - 1);
    }
  }

  lemma ShuffleIdentity<T>(a: seq<T>)
    ensures Shuffle(a, IdentityDraw()) == a
  {
    if |a| > 0 {
      ShuffleDownIdentity(a, |a| - 1);
    }
  }

  /** Under the all-zero oracle each step swaps with the first element, so
      the loop down from `i` moves `a[1..i + 1]` forward and `a[0]` behind it. */
  lemma {:induction false} ShuffleDownZero<T>(a: seq<T>, i: nat)
    requires i < |a|
    ensures ShuffleDown(a, i, ZeroDraw()) == a[1..i + 1] + [a[0]] + a[i + 1..]
    decreases i
  {
    if i > 0 {
      assert ZeroDraw()(i) % (i + 1) == 0;
      var b := Swap(a, i, 0);
      ShuffleDownZero(b, i - 1);
      assert b[1..i] == a[1..i] && b[0] == a[i] && b[i..] == [a[0]] + a[i + 1..];
      assert a[1..i + 1] == a[1..i] + [a[i]];
    }
  }

  /** Under the all-zero oracle `shuffle` rotates its input left by one. */
  lemma ShuffleZero<T>(a: seq<T>)
    requires |a| > 0
    ensures Shuffle(a, ZeroDraw()) == a[1..] + [a[0]]
  {
    ShuffleDownZero(a, |a| - 1);
  }
}
