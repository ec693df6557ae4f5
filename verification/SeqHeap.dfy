/** The min-heap of sequences waiting for redelivery. */
module SeqHeaps {

  function Parent(i: nat): nat
    requires i > 0
  {
    (i - 1) / 2
  }

  function Swapped(a: seq<nat>, i: nat, j: nat): (b: seq<nat>)
    requires i < |a| && j < |a|
    ensures |b| == |a|
  {
    a[i := a[j]][j := a[i]]
  }

  lemma SwapKeeps(a: seq<nat>, i: nat, j: nat)
    requires i < |a| && j < |a|
    ensures multiset(Swapped(a, i, j)) == multiset(a)
  {
    var b := a[i := a[j]];
    assert multiset(b) == multiset(a) - multiset{a[i]} + multiset{a[j]};
    assert multiset(b[j := a[i]]) == multiset(b) - multiset{b[j]} + multiset{a[i]};
  }

  /** Element i is not below its parent. */
  ghost predicate OrderedAt(a: seq<nat>, i: nat) {
    0 < i < |a| ==> a[Parent(i)] <= a[i]
  }

  ghost predicate IsHeap(a: seq<nat>) {
    forall i: nat :: OrderedAt(a, i)
  }

  /** A heap but for element j, which may be too small for its place. */
  ghost predicate LowAt(a: seq<nat>, j: nat) {
    && (forall i: nat :: i != j ==> OrderedAt(a, i))
    && (forall i: nat :: 0 < i < |a| && Parent(i) == j && 0 < j < |a| ==> a[Parent(j)] <= a[i])
  }

  /** A heap but for element j, which may be too big for its place. */
  ghost predicate HighAt(a: seq<nat>, j: nat) {
    && (forall i: nat :: 0 < i < |a| && Parent(i) != j ==> OrderedAt(a, i))
    && (forall i: nat :: 0 < i < |a| && Parent(i) == j && 0 < j < |a| ==> a[Parent(j)] <= a[i])
  }

  lemma {:induction false} HeapMin(a: seq<nat>, i: nat)
    requires IsHeap(a) && i < |a|
    ensures a[0] <= a[i]
    decreases i
  {
    if i > 0 {
      assert OrderedAt(a, i);
      HeapMin(a, Parent(i));
    }
  }

  lemma UpStep(a: seq<nat>, j: nat)
    requires 0 < j < |a| && LowAt(a, j) && a[j] < a[Parent(j)]
    ensures LowAt(Swapped(a, j, Parent(j)), Parent(j))
  {
    var p := Parent(j);
    var b := Swapped(a, j, p);
    forall i: nat | i != p ensures OrderedAt(b, i) {
      assert i != j ==> OrderedAt(a, i);
    }
    assert OrderedAt(a, p);
    forall i: nat | 0 < i < |b| && Parent(i) == p && 0 < p ensures b[Parent(p)] <= b[i] {
      assert i != j ==> OrderedAt(a, i);
    }
  }

  lemma DownStep(a: seq<nat>, i: nat, c: nat)
    requires 0 < c < |a| && Parent(c) == i && HighAt(a, i) && a[c] < a[i]
    requires forall k: nat :: 0 < k < |a| && Parent(k) == i ==> a[c] <= a[k]
    ensures HighAt(Swapped(a, i, c), c)
  {
    var b := Swapped(a, i, c);
    forall k: nat | 0 < k < |b| && Parent(k) != c ensures OrderedAt(b, k) {
      assert Parent(k) != i ==> OrderedAt(a, k);
    }
    forall k: nat | 0 < k < |b| && Parent(k) == c ensures b[Parent(c)] <= b[k] {
      assert OrderedAt(a, k);
    }
  }

  /** Sifts element j up. */
  method Up(a0: seq<nat>, j0: nat) returns (a: seq<nat>)
    requires LowAt(a0, j0) && j0 < |a0|
    ensures IsHeap(a) && multiset(a) == multiset(a0)
  {
    hide LowAt, Swapped;
    a := a0;
    var j: nat := j0;
    while j > 0
      invariant j < |a| && LowAt(a, j) && multiset(a) == multiset(a0)
    {
      var p := Parent(j);
      if a[j] >= a[p] { break; }
      UpStep(a, j);
      SwapKeeps(a, j, p);
      a, j := Swapped(a, j, p), p;
    }
    LowEnds(a, j);
  }

  lemma LowEnds(a: seq<nat>, j: nat)
    requires LowAt(a, j) && OrderedAt(a, j)
    ensures IsHeap(a)
  {
  }

  lemma HighEnds(a: seq<nat>, i: nat)
    requires HighAt(a, i) && forall k: nat :: 0 < k < |a| && Parent(k) == i ==> a[i] <= a[k]
    ensures IsHeap(a)
  {
  }

  /** Sifts element 0 down. */
  method Down(a0: seq<nat>) returns (a: seq<nat>)
    requires HighAt(a0, 0) && |a0| > 0
    ensures IsHeap(a) && multiset(a) == multiset(a0)
  {
    hide HighAt, Swapped;
    a := a0;
    var i: nat := 0;
    while true
      invariant i < |a| && HighAt(a, i) && multiset(a) == multiset(a0)
      decreases |a| - i
    {
      var c := 2 * i + 1;
      if c >= |a| { break; }
      if c + 1 < |a| && a[c + 1] < a[c] { c := c + 1; }
      if a[c] >= a[i] { break; }
      DownStep(a, i, c);
      SwapKeeps(a, i, c);
      a, i := Swapped(a, i, c), c;
    }
    HighEnds(a, i);
  }

  class SeqHeap {
    var items: seq<nat>

    ghost predicate Valid()
      reads this
    {
      IsHeap(items)
    }

    constructor ()
      ensures Valid() && items == []
    {
      items := [];
    }

    method Push(x: nat)
      requires Valid()
      modifies this
      ensures Valid() && multiset(items) == multiset(old(items)) + multiset{x}
    {
      var b := items + [x];
      PushLow(items, x);
      var a := Up(b, |items|);
      assert multiset(b) == multiset(items) + multiset{x};
      items := a;
    }

    /** Removes the smallest. */
    method Pop() returns (x: nat)
      requires Valid() && |items| > 0
      modifies this
      ensures Valid() && x in old(items) && multiset(items) == multiset(old(items)) - multiset{x}
      ensures forall y :: y in old(items) ==> x <= y
    {
      var n := |items| - 1;
      x := items[0];
      forall y | y in items ensures x <= y {
        var i :| 0 <= i < |items| && items[i] == y;
        HeapMin(items, i);
      }
      assert items == items[..n] + [items[n]];
      if n == 0 {
        items := [];
      } else {
        PopHigh(items);
        var a := Down(items[..n][0 := items[n]]);
        PopKeeps(items);
        items := a;
      }
    }
  }

  lemma PushLow(a: seq<nat>, x: nat)
    requires IsHeap(a)
    ensures LowAt(a + [x], |a|)
  {
    forall i: nat | i != |a| ensures OrderedAt(a + [x], i) { assert OrderedAt(a, i); }
  }

  lemma PopHigh(a: seq<nat>)
    requires IsHeap(a) && |a| > 1
    ensures HighAt(a[..|a| - 1][0 := a[|a| - 1]], 0)
  {
    var b := a[..|a| - 1][0 := a[|a| - 1]];
    forall i: nat | 0 < i < |b| && Parent(i) != 0 ensures OrderedAt(b, i) { assert OrderedAt(a, i); }
  }

  lemma PopKeeps(a: seq<nat>)
    requires |a| > 1
    ensures multiset(a[..|a| - 1][0 := a[|a| - 1]]) == multiset(a) - multiset{a[0]}
  {
    var n := |a| - 1;
    assert a == a[..n] + [a[n]];
    var b := a[..n];
    assert multiset(b[0 := a[n]]) == multiset(b) - multiset{b[0]} + multiset{a[n]};
  }
}
