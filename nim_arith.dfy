/**
  Bitwise exclusive or on natural numbers and the "nimm sum" of a list of
  heaps, together with the facts the decision engine relies on: XOR is a
  commutative, associative self-inverse operation with 0 as unit, and a
  nonzero nimm sum always has a heap that can be reduced to balance it.
 */
module NimArith {

  /** Bitwise exclusive or, one binary digit at a time (lowest digit first). */
  function Xor(a: nat, b: nat): nat
    decreases a + b
  {
    if a == 0 && b == 0 then 0
    else 2 * Xor(a / 2, b / 2) + (if a % 2 == b % 2 then 0 else 1)
  }

  /** The one-digit unfolding of Xor, valid for every pair (also 0, 0). */
  lemma XorStep(a: nat, b: nat)
    ensures Xor(a, b) == 2 * Xor(a / 2, b / 2) + (if a % 2 == b % 2 then 0 else 1)
  {
  }

  lemma {:induction false} XorZero(a: nat)
    ensures Xor(a, 0) == a
    decreases a
  {
    if a != 0 {
      XorZero(a / 2);
    }
  }

  /** XOR with 0 on the left is the identity too. */
  lemma XorZeroLeft(a: nat)
    ensures Xor(0, a) == a
  {
    XorComm(0, a);
    XorZero(a);
  }

  lemma {:induction false} XorSelf(a: nat)
    ensures Xor(a, a) == 0
    decreases a
  {
    if a != 0 {
      XorSelf(a / 2);
    }
  }

  lemma {:induction false} XorComm(a: nat, b: nat)
    ensures Xor(a, b) == Xor(b, a)
    decreases a + b
  {
    if a != 0 || b != 0 {
      XorComm(a / 2, b / 2);
    }
  }

  lemma {:induction false} XorAssoc(a: nat, b: nat, c: nat)
    ensures Xor(Xor(a, b), c) == Xor(a, Xor(b, c))
    decreases a + b + c
  {
    if a != 0 || b != 0 || c != 0 {
      XorStep(a, b);
      XorStep(b, c);
      XorStep(Xor(a, b), c);
      XorStep(a, Xor(b, c));
      XorAssoc(a / 2, b / 2, c / 2);
    }
  }

  /** Two numbers have XOR zero exactly when they are equal. */
  lemma {:induction false} XorZeroIff(a: nat, b: nat)
    ensures Xor(a, b) == 0 <==> a == b
    decreases a + b
  {
    if a != 0 || b != 0 {
      XorZeroIff(a / 2, b / 2);
      XorSelf(a);
    }
  }

  /** XOR with the same number twice cancels out. */
  lemma XorCancel(a: nat, b: nat)
    ensures Xor(Xor(a, b), b) == a
  {
    XorAssoc(a, b, b);
    XorSelf(b);
    XorZero(a);
  }

  /**
    HasTopBit(a, t): t is nonzero and the binary digit of a at the position of
    t's highest 1 digit is 1.
   */
  predicate HasTopBit(a: nat, t: nat)
    decreases t
  {
    t > 0 && if t == 1 then a % 2 == 1 else HasTopBit(a / 2, t / 2)
  }

  /** Zero has no digit set. */
  lemma {:induction false} TopBitOfZero(t: nat)
    ensures !HasTopBit(0, t)
    decreases t
  {
    if t > 1 {
      TopBitOfZero(t / 2);
    }
  }

  /** Every nonzero number has its own highest digit set. */
  lemma {:induction false} TopBitOwn(t: nat)
    requires t > 0
    ensures HasTopBit(t, t)
    decreases t
  {
    if t > 1 {
      TopBitOwn(t / 2);
    }
  }

  /**
    Flipping the digits of t in a number that has t's highest digit set clears
    that digit and leaves the higher ones alone, so the number decreases.
   */
  lemma {:induction false} TopBitClears(a: nat, t: nat)
    requires HasTopBit(a, t)
    ensures Xor(a, t) < a
    decreases t
  {
    XorStep(a, t);
    if t == 1 {
      XorZero(a / 2);
    } else {
      TopBitClears(a / 2, t / 2);
    }
  }

  /** If the XOR of two numbers has t's highest digit set, one of them does. */
  lemma {:induction false} TopBitSplit(a: nat, b: nat, t: nat)
    requires HasTopBit(Xor(a, b), t)
    ensures HasTopBit(a, t) || HasTopBit(b, t)
    decreases t
  {
    XorStep(a, b);
    if t > 1 {
      TopBitSplit(a / 2, b / 2, t / 2);
    }
  }

  /** The nimm sum: the heaps XORed together from the first to the last. */
  function NimSum(s: seq<nat>): nat
  {
    if s == [] then 0 else Xor(NimSum(s[..|s| - 1]), s[|s| - 1])
  }

  /** If the nimm sum has t's highest digit set, some heap has it set too. */
  lemma {:induction false} NimSumTopBit(s: seq<nat>, t: nat)
    requires HasTopBit(NimSum(s), t)
    ensures exists i :: 0 <= i < |s| && HasTopBit(s[i], t)
    decreases |s|
  {
    if s == [] {
      TopBitOfZero(t);
      assert false;
    }
    var n := |s| - 1;
    TopBitSplit(NimSum(s[..n]), s[n], t);
    if !HasTopBit(s[n], t) {
      NimSumTopBit(s[..n], t);
      var i :| 0 <= i < n && HasTopBit(s[..n][i], t);
      assert s[i] == s[..n][i];
    }
  }

  /**
    A nonzero nimm sum S always leaves a heap h with h XOR S < h: the heap
    holding S's highest 1 digit.
   */
  lemma BalancingHeapExists(s: seq<nat>)
    requires NimSum(s) != 0
    ensures exists i :: 0 <= i < |s| && Xor(s[i], NimSum(s)) < s[i]
  {
    var t := NimSum(s);
    TopBitOwn(t);
    NimSumTopBit(s, t);
    var i :| 0 <= i < |s| && HasTopBit(s[i], t);
    TopBitClears(s[i], t);
  }

  /** Changing one heap to v changes the nimm sum by XOR with the old and new size. */
  lemma {:induction false} NimSumUpdate(s: seq<nat>, i: nat, v: nat)
    requires i < |s|
    ensures NimSum(s[i := v]) == Xor(Xor(NimSum(s), s[i]), v)
    decreases |s|
  {
    var n := |s| - 1;
    var t := s[i := v];
    assert t[..n] == if i == n then s[..n] else s[..n][i := v];
    if i == n {
      XorCancel(NimSum(s[..n]), s[n]);
    } else {
      NimSumUpdate(s[..n], i, v);
      var p := NimSum(s[..n]);
      calc {
        Xor(Xor(Xor(p, s[i]), v), s[n]);
        { XorAssoc(Xor(p, s[i]), v, s[n]); XorComm(v, s[n]);
          XorAssoc(Xor(p, s[i]), s[n], v); }
        Xor(Xor(Xor(p, s[i]), s[n]), v);
        { XorAssoc(p, s[i], s[n]); XorComm(s[i], s[n]); XorAssoc(p, s[n], s[i]); }
        Xor(Xor(Xor(p, s[n]), s[i]), v);
      }
    }
  }
}
