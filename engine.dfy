/**
  The computer's move selection: the perfect player's balancing move
  (play_correctly), the deliberately perturbed move of the fallible player
  (make_mistake), the random largest-heap fallback both share
  (choose_random), and the start-of-game test cpu_losing.

  Each method is proved equal to a specification function (CorrectMove,
  MistakeMove, NimSum) whose game-theoretic properties are separate lemmas.
 */
module Engine {
  import opened NimArith
  import opened HeapState

  /** A heap qualifies when XOR with the nimm sum makes it strictly smaller. */
  predicate Qualifies(size: nat, nim: nat)
  {
    Xor(size, nim) < size
  }

  /** The number of stones that brings a qualifying heap to its target size. */
  function CorrectAmount(size: nat, nim: nat): (c: nat)
    requires Qualifies(size, nim)
    ensures 1 <= c <= size
    ensures Xor(size - c, nim) == size
  {
    XorCancel(size, nim);
    size - Xor(size, nim)
  }

  /** The first qualifying heap at index i or later, if there is one. */
  function FirstQualifying(s: seq<nat>, nim: nat, i: nat): (r: Option<nat>)
    requires i <= |s|
    ensures r.Some? ==> i <= r.value < |s| && Qualifies(s[r.value], nim)
    ensures r.Some? ==> forall k :: i <= k < r.value ==> !Qualifies(s[k], nim)
    ensures r.None? ==> forall k :: i <= k < |s| ==> !Qualifies(s[k], nim)
    decreases |s| - i
  {
    if i == |s| then None
    else if Qualifies(s[i], nim) then Some(i)
    else FirstQualifying(s, nim, i + 1)
  }

  /** `draw` is a value random.randint(1, max(heaps)) can return. */
  predicate DrawOk(s: seq<nat>, draw: nat)
  {
    1 <= draw <= MaxHeap(s)
  }

  /** choose_random: `draw` stones from the first heap of maximum size. */
  function ChooseRandom(s: seq<nat>, draw: nat): (m: Move)
    requires DrawOk(s, draw)
    ensures Legal(s, m) && m.stones == draw
    ensures forall k :: 0 <= k < |s| ==> s[k] <= s[m.heap]
    ensures forall k :: 0 <= k < m.heap ==> s[k] < s[m.heap]
  {
    Move(FirstMaxIndex(s), draw)
  }

  /** The move play_correctly returns. */
  function CorrectMove(s: seq<nat>, draw: nat): Move
    requires DrawOk(s, draw)
  {
    var nim := NimSum(s);
    match FirstQualifying(s, nim, 0)
    case Some(i) => Move(i, CorrectAmount(s[i], nim))
    case None => ChooseRandom(s, draw)
  }

  /**
    The scan of make_mistake from index i on: the correct amount at the first
    qualifying heap where it can be changed by one stone, one fewer when the
    correct amount exceeds 1, one more when it is 1 and the heap holds more.
   */
  function MistakeScan(s: seq<nat>, nim: nat, i: nat): (r: Option<Move>)
    requires i <= |s|
    ensures r.Some? ==> i <= r.value.heap < |s| && Qualifies(s[r.value.heap], nim)
    ensures r.Some? ==>
      var c := CorrectAmount(s[r.value.heap], nim);
      (c > 1 && r.value.stones == c - 1) ||
      (c == 1 && c < s[r.value.heap] && r.value.stones == c + 1)
    ensures r.Some? ==> forall k :: i <= k < r.value.heap && Qualifies(s[k], nim) ==>
      CorrectAmount(s[k], nim) == s[k] == 1
    ensures r.None? ==> forall k :: i <= k < |s| && Qualifies(s[k], nim) ==>
      CorrectAmount(s[k], nim) == s[k] == 1
    decreases |s| - i
  {
    if i == |s| then None
    else if Qualifies(s[i], nim) then
      var c := CorrectAmount(s[i], nim);
      if c > 1 then Some(Move(i, c - 1))
      else if c < s[i] then Some(Move(i, c + 1))
      else MistakeScan(s, nim, i + 1)
    else MistakeScan(s, nim, i + 1)
  }

  /** The move make_mistake returns. */
  function MistakeMove(s: seq<nat>, draw: nat): Move
    requires DrawOk(s, draw)
  {
    match MistakeScan(s, NimSum(s), 0)
    case Some(m) => m
    case None => ChooseRandom(s, draw)
  }

  /**
    From a position with nonzero nimm sum the perfect player's move comes from
    the scan (never from the random fallback): it takes the correct amount
    from the lowest-indexed qualifying heap, is legal, and leaves nimm sum 0.
   */
  lemma CorrectMoveBalances(s: seq<nat>, draw: nat)
    requires DrawOk(s, draw) && NimSum(s) != 0
    ensures FirstQualifying(s, NimSum(s), 0).Some?
    ensures var m := CorrectMove(s, draw);
      m.heap < |s| && Qualifies(s[m.heap], NimSum(s)) &&
      (forall k :: 0 <= k < m.heap ==> !Qualifies(s[k], NimSum(s))) &&
      m.stones == s[m.heap] - Xor(s[m.heap], NimSum(s)) &&
      Legal(s, m) && NimSum(Apply(s, m)) == 0
  {
    var nim := NimSum(s);
    BalancingHeapExists(s);
    var r := FirstQualifying(s, nim, 0);
    assert r.Some?;
    var i := r.value;
    CorrectAmountBalances(s, i);
    assert CorrectMove(s, draw) == Move(i, CorrectAmount(s[i], nim));
  }

  /** Taking the correct amount from any qualifying heap leaves nimm sum 0. */
  lemma CorrectAmountBalances(s: seq<nat>, i: nat)
    requires i < |s| && Qualifies(s[i], NimSum(s))
    ensures Legal(s, Move(i, CorrectAmount(s[i], NimSum(s))))
    ensures NimSum(Apply(s, Move(i, CorrectAmount(s[i], NimSum(s))))) == 0
  {
    var nim := NimSum(s);
    var m := Move(i, CorrectAmount(s[i], nim));
    assert s[i] - m.stones == Xor(s[i], nim);
    XorComm(nim, s[i]);
    XorSelf(Xor(s[i], nim));
  }

  /** Every legal move from a position with nimm sum 0 makes it nonzero. */
  lemma AnyMoveUnbalances(s: seq<nat>, m: Move)
    requires Legal(s, m) && NimSum(s) == 0
    ensures NimSum(Apply(s, m)) != 0
  {
    XorZeroLeft(s[m.heap]);
    XorZeroIff(s[m.heap], s[m.heap] - m.stones);
  }

  /**
    With nimm sum 0 no heap qualifies, so play_correctly falls back to the
    random move; that move is legal and leaves the nimm sum nonzero.
   */
  lemma CorrectMoveFromBalanced(s: seq<nat>, draw: nat)
    requires DrawOk(s, draw) && NimSum(s) == 0
    ensures FirstQualifying(s, 0, 0).None?
    ensures CorrectMove(s, draw) == ChooseRandom(s, draw)
    ensures NimSum(Apply(s, CorrectMove(s, draw))) != 0
  {
    forall k | 0 <= k < |s|
      ensures !Qualifies(s[k], 0)
    {
      XorZero(s[k]);
    }
    AnyMoveUnbalances(s, ChooseRandom(s, draw));
  }

  /**
    When make_mistake's scan finds a move, the move is legal and leaves the
    nimm sum nonzero: the opponent is handed a winnable position.
   */
  lemma MistakeUnbalances(s: seq<nat>, draw: nat)
    requires DrawOk(s, draw) && MistakeScan(s, NimSum(s), 0).Some?
    ensures Legal(s, MistakeMove(s, draw))
    ensures NimSum(Apply(s, MistakeMove(s, draw))) != 0
  {
    var nim := NimSum(s);
    var m := MistakeScan(s, nim, 0).value;
    assert MistakeMove(s, draw) == m;
    var c := CorrectAmount(s[m.heap], nim);
    var target := s[m.heap] - c;
    // after the move the heap is target + 1 or target - 1, never the target
    assert s[m.heap] - m.stones != target;
    XorComm(nim, s[m.heap]);
    XorCancel(target, nim);
    XorComm(s[m.heap], nim);
    XorZeroIff(target, s[m.heap] - m.stones);
  }

  /**
    The fallible player's move is a genuine mistake whenever a heap holds two
    or more stones: if the scan finds no perturbable heap, the random fallback
    draws from a largest heap, which then cannot be a qualifying heap, and no
    amount taken from it restores nimm sum 0.
   */
  lemma MistakeIsGenuine(s: seq<nat>, draw: nat)
    requires DrawOk(s, draw) && NimSum(s) != 0 && MaxHeap(s) >= 2
    ensures NimSum(Apply(s, MistakeMove(s, draw))) != 0
  {
    var nim := NimSum(s);
    if MistakeScan(s, nim, 0).Some? {
      MistakeUnbalances(s, draw);
    } else {
      var m := ChooseRandom(s, draw);
      var h := m.heap;
      assert s[h] == MaxHeap(s);
      assert !Qualifies(s[h], nim);
      XorComm(nim, s[h]);
      XorZeroIff(Xor(nim, s[h]), s[h] - m.stones);
    }
  }

  /** The accumulation loop shared by play_correctly, make_mistake and cpu_losing. */
  method ComputeNimSum(heaps: seq<nat>) returns (nim: nat)
    requires |heaps| == NHeaps
    ensures nim == NimSum(heaps)
  {
    nim := 0;
    for i := 0 to NHeaps
      invariant nim == NimSum(heaps[..i])
    {
      assert heaps[..i + 1][..i] == heaps[..i];
      nim := Xor(nim, heaps[i]);
    }
    assert heaps[..NHeaps] == heaps;
  }

  /** play_correctly: balance the nimm sum if possible, else the random fallback. */
  method PlayCorrectly(heaps: seq<nat>, draw: nat) returns (m: Move)
    requires |heaps| == NHeaps && DrawOk(heaps, draw)
    ensures m == CorrectMove(heaps, draw)
    ensures Legal(heaps, m)
    ensures NimSum(heaps) != 0 ==> NimSum(Apply(heaps, m)) == 0
  {
    var nim := ComputeNimSum(heaps);
    for i := 0 to |heaps|
      invariant FirstQualifying(heaps, nim, i) == FirstQualifying(heaps, nim, 0)
    {
      var target := Xor(heaps[i], nim);
      if target < heaps[i] {
        m := Move(i, heaps[i] - target);
        if nim != 0 {
          CorrectMoveBalances(heaps, draw);
        }
        return;
      }
    }
    if nim != 0 {
      CorrectMoveBalances(heaps, draw);
    }
    m := ChooseRandom(heaps, draw);
  }

  /**
    make_mistake: perturb the first perturbable correct move by one stone;
    the random fallback when no qualifying heap can be perturbed.
   */
  method MakeMistake(heaps: seq<nat>, draw: nat) returns (m: Move)
    requires |heaps| == NHeaps && DrawOk(heaps, draw)
    ensures m == MistakeMove(heaps, draw)
    ensures Legal(heaps, m)
    ensures MistakeScan(heaps, NimSum(heaps), 0).Some? ==> NimSum(Apply(heaps, m)) != 0
  {
    var nim := ComputeNimSum(heaps);
    for i := 0 to |heaps|
      invariant MistakeScan(heaps, nim, i) == MistakeScan(heaps, nim, 0)
    {
      var target := Xor(heaps[i], nim);
      if target < heaps[i] {
        var correct := heaps[i] - target;
        if correct > 1 {
          m := Move(i, correct - 1);
          MistakeUnbalances(heaps, draw);
          return;
        } else if correct < heaps[i] {
          m := Move(i, correct + 1);
          MistakeUnbalances(heaps, draw);
          return;
        }
      }
    }
    m := ChooseRandom(heaps, draw);
  }

  /** cpu_losing: the computer would start from a lost position. */
  method CpuLosing(heaps: seq<nat>) returns (losing: bool)
    requires |heaps| == NHeaps
    ensures losing <==> NimSum(heaps) == 0
    ensures !losing ==> exists i :: 0 <= i < |heaps| && Qualifies(heaps[i], NimSum(heaps))
  {
    var nim := ComputeNimSum(heaps);
    losing := nim == 0;
    if !losing {
      BalancingHeapExists(heaps);
    }
  }
}
