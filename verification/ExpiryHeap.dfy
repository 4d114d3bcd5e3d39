/** Sift steps of a binary heap, on the plain sequence of keys it orders. */
module ExpiryHeap {

  function Parent(i: nat): nat { if i == 0 then 0 else (i - 1) / 2 }

  predicate Leq(e: seq<int>, k: nat)
    requires k < |e|
  {
    e[Parent(k)] <= e[k]
  }

  /** The first n keys are a heap but perhaps for key j against its parent. */
  predicate HeapBut(e: seq<int>, n: nat, j: nat)
    requires n <= |e|
  {
    forall k: nat | k < n && k != j :: Leq(e, k)
  }

  /** ... but perhaps for the children of i. */
  predicate HeapAbove(e: seq<int>, n: nat, i: nat)
    requires n <= |e|
  {
    forall k: nat | k < n && (k == 0 || Parent(k) != i) :: Leq(e, k)
  }

  predicate IsHeap(e: seq<int>, n: nat)
    requires n <= |e|
  {
    forall k: nat | k < n :: Leq(e, k)
  }

  /** The children of j could hang from j's own parent, if it has one. */
  predicate Bridged(e: seq<int>, n: nat, j: nat)
    requires n <= |e|
  {
    j > 0 ==> forall k: nat | 0 < k < n && Parent(k) == j :: e[Parent(j)] <= e[k]
  }

  lemma ChildrenOf(i: nat, k: nat)
    requires k > 0 && Parent(k) == i
    ensures k == 2 * i + 1 || k == 2 * i + 2
  {
  }

  function Swapped(e: seq<int>, i: nat, j: nat): seq<int>
    requires i < |e| && j < |e|
  {
    e[i := e[j]][j := e[i]]
  }

  lemma UpStep(e: seq<int>, n: nat, j: nat)
    requires 0 < j < n <= |e| && e[j] < e[Parent(j)] && HeapBut(e, n, j) && Bridged(e, n, j)
    ensures var e' := Swapped(e, Parent(j), j);
      HeapBut(e', n, Parent(j)) && Bridged(e', n, Parent(j))
  {
    var i := Parent(j);
    var e' := Swapped(e, i, j);
    assert Leq(e, i);
    forall k: nat | k < n && k != i
      ensures Leq(e', k)
    {
      assert k != j ==> Leq(e, k);
    }
    forall k: nat | 0 < k < n && Parent(k) == i
      ensures e'[Parent(i)] <= e'[k]
    {
      assert k != j ==> Leq(e, k);
    }
  }

  lemma {:induction false} RootIsLeast(e: seq<int>, n: nat, i: nat)
    requires i < n <= |e| && IsHeap(e, n)
    ensures e[0] <= e[i]
  {
    if i > 0 {
      RootIsLeast(e, n, Parent(i));
      assert Leq(e, i);
    }
  }

  /** The smaller child of i takes its place. */
  lemma DownStep(e: seq<int>, n: nat, i: nat, j: nat, top: nat)
    requires 0 < j < n <= |e| && Parent(j) == i && e[j] < e[i]
    requires forall k: nat | 0 < k < n && Parent(k) == i :: e[j] <= e[k]
    requires forall k: nat | k < n && k != top && (k == 0 || Parent(k) != i) :: Leq(e, k)
    requires top <= i && (i != top ==> Leq(e, top)) && Bridged(e, n, i)
    ensures var e' := Swapped(e, i, j);
      HeapAbove(e', n, j) && Bridged(e', n, j)
  {
    var e' := Swapped(e, i, j);
    forall k: nat | k < n && (k == 0 || Parent(k) != j)
      ensures Leq(e', k)
    {
      if k != i && Parent(k) != i { assert k != top ==> Leq(e, k); }
    }
    forall k: nat | 0 < k < n && Parent(k) == j
      ensures e'[Parent(j)] <= e'[k]
    {
      assert Leq(e, k);
    }
  }
}
