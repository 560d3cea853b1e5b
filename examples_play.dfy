/**
  Worked positions for the engine: a start position with nimm sum 0, the
  perfect reply after the human opens it, and a perturbed reply.
 */
module WorkedExamples {
  import opened NimArith
  import opened HeapState
  import opened Engine
  import opened Session

  /** Heaps 1, 2, 3 balance each other. */
  lemma BalancedStart()
    ensures NimSum([1, 2, 3]) == 0
  {
    assert [1, 2, 3][..2] == [1, 2];
    assert [1, 2][..1] == [1];
    assert [1][..0] == [];
    XorZeroLeft(1);
    assert NimSum([1]) == 1;
    assert Xor(1, 2) == 3 by { XorStep(1, 2); XorStep(0, 1); }
    assert NimSum([1, 2]) == 3;
    XorSelf(3);
  }

  /** Set up on heaps 1, 2, 3, the game makes the human start. */
  method BalancedStartHumanFirst() returns (first: Side)
    ensures first == Human
  {
    var game := new Game.Setup([1, 2, 3], 0, Nimm);
    BalancedStart();
    first := SideOf(game.player);
  }

  /** After the human empties the third heap, the reply takes one stone from the second. */
  lemma PerfectReply(draw: nat)
    requires DrawOk([1, 2, 0], draw)
    ensures CorrectMove([1, 2, 0], draw) == Move(1, 1)
  {
    var s: seq<nat> := [1, 2, 0];
    assert s[..2] == [1, 2];
    assert s[..2][..1] == [1];
    assert Xor(1, 2) == 3 by { XorStep(1, 2); XorStep(0, 1); }
    assert s[..2][..1][..0] == [];
    XorZeroLeft(1);
    assert NimSum([1]) == 1;
    assert NimSum([1, 2]) == 3;
    XorZero(3);
    assert NimSum(s) == 3;
    assert Xor(1, 3) == 2 by { XorStep(1, 3); XorStep(0, 1); }
    assert Xor(2, 3) == 1 by { XorStep(2, 3); XorStep(1, 1); XorSelf(0); }
  }

  /** From 5, 3, 0 the correct move takes 2 from the first heap; Dr. Nymm takes 1. */
  lemma PerturbedReply(draw: nat)
    requires DrawOk([5, 3, 0], draw)
    ensures MistakeMove([5, 3, 0], draw) == Move(0, 1)
    ensures NimSum(Apply([5, 3, 0], Move(0, 1))) == 7
  {
    var s: seq<nat> := [5, 3, 0];
    assert s[..2] == [5, 3];
    assert s[..2][..1] == [5];
    assert s[..2][..1][..0] == [];
    XorZeroLeft(5);
    assert NimSum([5]) == 5;
    assert Xor(5, 3) == 6 by { XorStep(5, 3); XorStep(2, 1); XorStep(1, 0); XorZero(1); }
    assert NimSum([5, 3]) == 6;
    XorZero(6);
    assert NimSum(s) == 6;
    assert Xor(5, 6) == 3 by { XorStep(5, 6); XorStep(2, 3); XorStep(1, 1); XorSelf(0); }
    var t: seq<nat> := [4, 3, 0];
    assert Apply(s, Move(0, 1)) == t;
    assert t[..2] == [4, 3];
    assert t[..2][..1] == [4];
    assert t[..2][..1][..0] == [];
    XorZeroLeft(4);
    assert NimSum([4]) == 4;
    assert Xor(4, 3) == 7 by { XorStep(4, 3); XorStep(2, 1); XorStep(1, 0); XorZero(1); }
    assert NimSum([4, 3]) == 7;
    XorZero(7);
  }
}
