/** Binary digits of natural numbers, the arithmetic that the radix pass relies on. */
module Bits {

  /** Whether `x` has the bit of weight 2^k. */
  predicate Bit(x: nat, k: nat) {
    if k == 0 then x % 2 == 1 else Bit(x / 2, k - 1)
  }

  function Pow2(k: nat): (p: nat)
    ensures p > 0
  {
    if k == 0 then 1 else 2 * Pow2(k - 1)
  }

  /** Bitwise or. */
  function Or(x: nat, y: nat): nat
    decreases x + y
  {
    if x == 0 && y == 0 then 0
    else 2 * Or(x / 2, y / 2) + (if x % 2 == 1 || y % 2 == 1 then 1 else 0)
  }

  lemma {:induction false} OrBit(x: nat, y: nat, k: nat)
    ensures Bit(Or(x, y), k) <==> Bit(x, k) || Bit(y, k)
    decreases k
  {
    hide Or;
    OrParts(x, y);
    if x == 0 && y == 0 {
      ZeroBit(k);
    } else if k > 0 {
      OrBit(x / 2, y / 2, k - 1);
    }
  }

  lemma OrParts(x: nat, y: nat)
    ensures x == 0 && y == 0 ==> Or(x, y) == 0
    ensures x != 0 || y != 0 ==> Or(x, y) / 2 == Or(x / 2, y / 2) && (Or(x, y) % 2 == 1 <==> x % 2 == 1 || y % 2 == 1)
  {
    if x != 0 || y != 0 {
      var half, low := Or(x / 2, y / 2), if x % 2 == 1 || y % 2 == 1 then 1 else 0;
      assert Or(x, y) == 2 * half + low;
      hide Or;
      assert (2 * half + low) / 2 == half;
    }
  }

  lemma {:induction false} ZeroBit(k: nat)
    ensures !Bit(0, k)
  {
    if k > 0 {
      ZeroBit(k - 1);
    }
  }

  /** A number below 2^k has no bit at `k`. */
  lemma {:induction false} SmallHasNoBit(x: nat, k: nat)
    requires x < Pow2(k)
    ensures !Bit(x, k)
  {
    if k > 0 {
      SmallHasNoBit(x / 2, k - 1);
    }
  }

  /** Numbers with the same bits are equal. */
  lemma {:induction false} SameBits(x: nat, y: nat)
    requires forall k: nat :: Bit(x, k) == Bit(y, k)
    ensures x == y
    decreases x + y
  {
    if x + y > 0 {
      assert Bit(x, 0) == Bit(y, 0);
      forall k: nat
        ensures Bit(x / 2, k) == Bit(y / 2, k)
      {
        assert Bit(x, k + 1) == Bit(y, k + 1);
      }
      SameBits(x / 2, y / 2);
    }
  }

  /** The highest differing bit decides the order. */
  lemma {:induction false} TopBitDecides(x: nat, y: nat, k: nat)
    requires !Bit(x, k) && Bit(y, k)
    requires forall j: nat :: k < j ==> Bit(x, j) == Bit(y, j)
    ensures x < y
  {
    forall j: nat | if k == 0 then true else k - 1 < j
      ensures Bit(x / 2, j) == Bit(y / 2, j)
    {
      assert Bit(x, j + 1) == Bit(y, j + 1);
    }
    if k == 0 {
      SameBits(x / 2, y / 2);
    } else {
      TopBitDecides(x / 2, y / 2, k - 1);
    }
  }

  /** A nonzero number has a bit. */
  lemma {:induction false} NonzeroHasBit(x: nat) returns (k: nat)
    requires x != 0
    ensures Bit(x, k)
  {
    if x % 2 == 1 {
      k := 0;
    } else {
      var j := NonzeroHasBit(x / 2);
      k := j + 1;
    }
  }

  // conversion to an eight-bit signed char
  function ToSignedChar(x: int): int {
    (x + 128) % 256 - 128
  }
}
