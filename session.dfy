/**
  The turn controller and the game session: one ply by the computer or the
  human on the shared heap array, the one-shot mistake trigger of Dr. Nymm,
  the choice of the starting player, the main loop that runs until no stone
  is left, and the winner rule.

  Players are numbered as in the game: 1 is the computer, 2 the human.
 */
module Session {
  import opened NimArith
  import opened HeapState
  import opened Engine

  /** The number of the computer player; the other number (2) is the human. */
  const CpuPlayer: int := 1

  /** Dr. Nimm plays perfectly; Dr. Nymm makes one deliberate error. */
  datatype Opponent = Nimm | Nymm

  /** The mistake threshold on the total left, until the mistake has been made. */
  datatype Trigger = Armed(threshold: nat) | Fired

  datatype Side = Cpu | Human

  /** Who a player number stands for. */
  function SideOf(player: int): Side
  {
    if player == CpuPlayer then Cpu else Human
  }

  /** switch_player: the other of the two player numbers. */
  function SwitchPlayer(player: int): (other: int)
    requires player == 1 || player == 2
    ensures other == 1 || other == 2
    ensures other != player
  {
    3 - player
  }

  lemma SwitchPlayerInvolution(player: int)
    requires player == 1 || player == 2
    ensures SwitchPlayer(SwitchPlayer(player)) == player
    ensures SideOf(SwitchPlayer(player)) != SideOf(player)
  {
  }

  /**
    The winner once no stone is left: the player numbers switch after every
    ply, so the player NOT to move took the last stone.
   */
  function Winner(player: int): (w: Side)
    requires player == 1 || player == 2
    ensures w == SideOf(SwitchPlayer(player))
    ensures w == Human <==> player == CpuPlayer
  {
    if player == CpuPlayer then Human else Cpu
  }

  /**
    heap_invalid on a number the player typed (1-based): it must name a heap
    and that heap must still hold a stone.
   */
  predicate HeapInvalid(heap: nat, heaps: seq<nat>)
    requires |heaps| == NHeaps
  {
    !(1 <= heap <= NHeaps && heaps[heap - 1] > 0)
  }

  /** stones_invalid: the number typed must lie between 1 and the heap size. */
  predicate StonesInvalid(stones: nat, heapSize: nat)
  {
    !(1 <= stones <= heapSize)
  }

  /**
    What input_heap and input_stones hand to human_turn: a zero-based heap
    index whose 1-based number passed heap_invalid, and a stone count that
    passed stones_invalid for that heap.
   */
  predicate HumanMoveOk(heaps: seq<nat>, heap: nat, stones: nat)
    requires |heaps| == NHeaps
  {
    !HeapInvalid(heap + 1, heaps) && !StonesInvalid(stones, heaps[heap])
  }

  /** The validators accept exactly the legal moves. */
  lemma ValidatorsAcceptLegalMoves(heaps: seq<nat>, heap: nat, stones: nat)
    requires |heaps| == NHeaps
    ensures HumanMoveOk(heaps, heap, stones) <==> Legal(heaps, Move(heap, stones))
  {
  }

  /**
    Dr. Nymm errs on this ply: the trigger is still armed and the total left
    has dropped below it (a fired trigger stands for minus infinity).
   */
  predicate MistakeDue(opponent: Opponent, trigger: Trigger, total: nat)
  {
    opponent == Nymm && trigger.Armed? && total < trigger.threshold
  }

  /**
    The position is as the perfect player wants it: nimm sum nonzero when the
    computer is to move, zero when the human is.
   */
  predicate Balanced(heaps: seq<nat>, player: int)
  {
    player == CpuPlayer <==> NimSum(heaps) != 0
  }

  class Game {
    const heaps: array<nat>
    var player: int
    var trigger: Trigger
    const opponent: Opponent

    ghost predicate Valid()
      reads this
    {
      heaps.Length == NHeaps && (player == 1 || player == 2)
    }

    /**
      setup_game after the heaps, the trigger threshold and the opponent are
      drawn: the computer starts unless the initial nimm sum is 0.
     */
    constructor Setup(initial: seq<nat>, threshold: nat, opponent: Opponent)
      requires |initial| == NHeaps
      ensures Valid() && fresh(heaps)
      ensures heaps[..] == initial
      ensures trigger == Armed(threshold) && this.opponent == opponent
      ensures SideOf(player) == Human <==> NimSum(initial) == 0
      ensures Balanced(heaps[..], player)
    {
      heaps := new nat[NHeaps](i => if 0 <= i < |initial| then initial[i] else 0);
      trigger := Armed(threshold);
      this.opponent := opponent;
      var losing := CpuLosing(initial);
      var first := CpuPlayer;
      if losing {
        first := SwitchPlayer(first);
      }
      player := first;
      new;
      assert heaps[..] == initial;
    }

    /**
      cpu_turn: Dr. Nymm's mistake when it is due (and the trigger then fires
      for good), the correct move otherwise; the move is applied in place.
     */
    method CpuTurn(draw: nat) returns (m: Move, ghost mistaken: bool)
      requires Valid() && DrawOk(heaps[..], draw)
      modifies heaps, this`trigger
      ensures Valid()
      ensures mistaken <==> MistakeDue(opponent, old(trigger), Sum(old(heaps[..])))
      ensures mistaken ==> m == MistakeMove(old(heaps[..]), draw) && trigger == Fired
      ensures !mistaken ==> m == CorrectMove(old(heaps[..]), draw) && trigger == old(trigger)
      ensures Legal(old(heaps[..]), m) && heaps[..] == Apply(old(heaps[..]), m)
    {
      var snapshot := heaps[..];
      mistaken := MistakeDue(opponent, trigger, Sum(snapshot));
      if MistakeDue(opponent, trigger, Sum(snapshot)) {
        m := MakeMistake(snapshot, draw);
        trigger := Fired;
      } else {
        m := PlayCorrectly(snapshot, draw);
      }
      heaps[m.heap] := heaps[m.heap] - m.stones;
      assert heaps[..] == Apply(snapshot, m);
    }

    /** human_turn: apply the validated move the human typed. */
    method HumanTurn(heap: nat, stones: nat)
      requires Valid() && HumanMoveOk(heaps[..], heap, stones)
      modifies heaps
      ensures Legal(old(heaps[..]), Move(heap, stones))
      ensures heaps[..] == Apply(old(heaps[..]), Move(heap, stones))
    {
      ghost var before := heaps[..];
      heaps[heap] := heaps[heap] - stones;
      assert heaps[..] == Apply(before, Move(heap, stones));
    }

    /**
      player_turn: one ply by whoever is to move, then the turn passes.
      `draw` is used on the computer's ply, `humanHeap`/`humanStones` on the
      human's; `m` is the move made.
     */
    method PlayerTurn(draw: nat, humanHeap: nat, humanStones: nat)
      returns (ghost m: Move, ghost mistaken: bool)
      requires Valid()
      requires player == CpuPlayer ==> DrawOk(heaps[..], draw)
      requires player != CpuPlayer ==> HumanMoveOk(heaps[..], humanHeap, humanStones)
      modifies heaps, this`player, this`trigger
      ensures Valid() && player == SwitchPlayer(old(player))
      ensures Legal(old(heaps[..]), m) && heaps[..] == Apply(old(heaps[..]), m)
      ensures old(player) == CpuPlayer ==>
        (mistaken <==> MistakeDue(opponent, old(trigger), Sum(old(heaps[..])))) &&
        (mistaken ==> m == MistakeMove(old(heaps[..]), draw) && trigger == Fired) &&
        (!mistaken ==> m == CorrectMove(old(heaps[..]), draw) && trigger == old(trigger))
      ensures old(player) != CpuPlayer ==>
        !mistaken && m == Move(humanHeap, humanStones) && trigger == old(trigger)
    {
      if player == CpuPlayer {
        m, mistaken := CpuTurn(draw);
      } else {
        HumanTurn(humanHeap, humanStones);
        m, mistaken := Move(humanHeap, humanStones), false;
      }
      player := SwitchPlayer(player);
    }
  }

  /**
    main: set up the game and play plies until every heap is empty, then name
    the winner. `rand(k, hi)` is the k-th ply's random.randint(1, hi) and
    `human(k, heaps)` the validated move the human enters on ply k.
    `mistakes` counts the plies on which Dr. Nymm erred, and `lastMover` is
    the side that made the final ply, the one that took the last stone.
   */
  method PlayGame(initial: seq<nat>, threshold: nat, opponent: Opponent,
                  rand: (nat, nat) -> nat, human: (nat, seq<nat>) -> Move)
    returns (winner: Side, ghost mistakes: nat, ghost lastMover: Side)
    requires |initial| == NHeaps
    requires forall k: nat, hi: nat :: 1 <= hi ==> 1 <= rand(k, hi) <= hi
    requires forall k: nat, s: seq<nat> :: |s| == NHeaps && Sum(s) > 0 ==>
      HumanMoveOk(s, human(k, s).heap, human(k, s).stones)
    ensures opponent == Nimm ==> winner == Cpu
    ensures winner == Human ==> opponent == Nymm
    ensures mistakes <= 1
    ensures opponent == Nimm ==> mistakes == 0
    ensures winner == Human ==> mistakes == 1
    ensures Sum(initial) > 0 ==> winner == lastMover
  {
    var game := new Game.Setup(initial, threshold, opponent);
    var ply: nat := 0;
    mistakes := 0;
    lastMover := Cpu;
    while Sum(game.heaps[..]) > 0
      invariant game.Valid() && fresh(game.heaps) && game.opponent == opponent
      invariant ply == 0 ==> game.heaps[..] == initial
      invariant ply > 0 ==> lastMover == SideOf(SwitchPlayer(game.player))
      invariant mistakes == if game.trigger.Fired? then 1 else 0
      invariant opponent == Nimm ==> game.trigger.Armed?
      invariant game.trigger.Armed? ==> Balanced(game.heaps[..], game.player)
      decreases Sum(game.heaps[..])
    {
      var heaps := game.heaps[..];
      MaxHeapPositive(heaps);
      var draw := rand(ply, MaxHeap(heaps));
      var move := human(ply, heaps);
      lastMover := SideOf(game.player);
      ghost var m, mistaken := game.PlayerTurn(draw, move.heap, move.stones);
      if mistaken {
        mistakes := mistakes + 1;
      } else if game.trigger.Armed? {
        if SideOf(game.player) == Human {
          CorrectMoveBalances(heaps, draw);
        } else {
          AnyMoveUnbalances(heaps, m);
        }
      }
      ply := ply + 1;
    }
    EmptyHeapsBalanced(game.heaps[..]);
    winner := Winner(game.player);
  }
}
