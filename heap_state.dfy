/**
  The heap list of a game: a fixed number of stone counts, the move that a
  ply makes on it, and the totals the game loop and the random fallback read
  (the sum of all heaps and the first heap of maximum size).
 */
module HeapState {
  import opened NimArith

  /** Number of heaps in a game. */
  const NHeaps: nat := 3

  datatype Option<T> = None | Some(value: T)

  /** Remove `stones` stones from the heap at (zero-based) index `heap`. */
  datatype Move = Move(heap: nat, stones: nat)

  /** A move takes at least one stone and no more than its heap holds. */
  predicate Legal(s: seq<nat>, m: Move)
  {
    m.heap < |s| && 1 <= m.stones <= s[m.heap]
  }

  /** Total number of stones left. */
  function Sum(s: seq<nat>): nat
  {
    if s == [] then 0 else Sum(s[..|s| - 1]) + s[|s| - 1]
  }

  /** Changing one heap changes the total by the same amount. */
  lemma {:induction false} SumUpdate(s: seq<nat>, i: nat, v: nat)
    requires i < |s|
    ensures Sum(s[i := v]) + s[i] == Sum(s) + v
    decreases |s|
  {
    var n := |s| - 1;
    assert s[i := v][..n] == if i == n then s[..n] else s[..n][i := v];
    if i < n {
      SumUpdate(s[..n], i, v);
    }
  }

  /** The heaps after a legal move; the total drops by exactly the stones taken. */
  function Apply(s: seq<nat>, m: Move): (t: seq<nat>)
    requires Legal(s, m)
    ensures |t| == |s|
    ensures Sum(t) + m.stones == Sum(s)
    ensures NimSum(t) == Xor(Xor(NimSum(s), s[m.heap]), s[m.heap] - m.stones)
  {
    SumUpdate(s, m.heap, s[m.heap] - m.stones);
    NimSumUpdate(s, m.heap, s[m.heap] - m.stones);
    s[m.heap := s[m.heap] - m.stones]
  }

  /** The total is zero exactly when every heap is empty. */
  lemma {:induction false} SumZero(s: seq<nat>)
    ensures Sum(s) == 0 <==> forall k :: 0 <= k < |s| ==> s[k] == 0
    decreases |s|
  {
    if s != [] {
      var n := |s| - 1;
      SumZero(s[..n]);
      assert forall k :: 0 <= k < n ==> s[..n][k] == s[k];
    }
  }

  /** When no stones are left the nimm sum is zero. */
  lemma {:induction false} EmptyHeapsBalanced(s: seq<nat>)
    requires Sum(s) == 0
    ensures NimSum(s) == 0
    decreases |s|
  {
    if s != [] {
      var n := |s| - 1;
      EmptyHeapsBalanced(s[..n]);
    }
  }

  /**
    Index of the first heap of maximum size, the choice made by
    `heaps.index(max(heaps))`.
   */
  function FirstMaxIndex(s: seq<nat>): (i: nat)
    requires |s| > 0
    ensures i < |s|
    ensures forall k :: 0 <= k < |s| ==> s[k] <= s[i]
    ensures forall k :: 0 <= k < i ==> s[k] < s[i]
    decreases |s|
  {
    if |s| == 1 then 0
    else
      var j := FirstMaxIndex(s[..|s| - 1]);
      if s[|s| - 1] > s[j] then |s| - 1 else j
  }

  /** Size of the largest heap (0 when there are no heaps). */
  function MaxHeap(s: seq<nat>): nat
  {
    if s == [] then 0 else s[FirstMaxIndex(s)]
  }

  /** Some stone is left exactly when the largest heap is nonempty. */
  lemma MaxHeapPositive(s: seq<nat>)
    ensures Sum(s) > 0 <==> MaxHeap(s) >= 1
  {
    SumZero(s);
  }
}
