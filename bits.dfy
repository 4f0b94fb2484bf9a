/**
 * The driver's two bit helpers, `checkBit` and `updateByte`, over
 * non-negative integers.  JavaScript's `&`, `|` and `& ~` are written out
 * bit by bit (And, Or, AndNot) and `1 << k` is Pow2(k); Bit(x, i) is the
 * independent reference for "bit i of x" that the lemmas relate them to.
 */
module Bits {
  import opened Wrappers

  /** 2 to the power k, the value of `1 << k`. */
  function Pow2(k: nat): (r: nat)
    ensures r >= 1
  {
    if k == 0 then 1 else 2 * Pow2(k - 1)
  }

  /** Bit i of x (bit 0 is the least significant). */
  function Bit(x: nat, i: nat): (r: nat)
    ensures r <= 1
  {
    if i == 0 then x % 2 else Bit(x / 2, i - 1)
  }

  /** `a & b` */
  function And(a: nat, b: nat): nat
  {
    if a == 0 || b == 0 then 0
    else 2 * And(a / 2, b / 2) + (if a % 2 == 1 && b % 2 == 1 then 1 else 0)
  }

  /** `a | b` */
  function Or(a: nat, b: nat): nat
  {
    if a == 0 then b
    else if b == 0 then a
    else 2 * Or(a / 2, b / 2) + (if a % 2 == 1 || b % 2 == 1 then 1 else 0)
  }

  /** `a & ~m` */
  function AndNot(a: nat, m: nat): nat
  {
    if a == 0 then 0
    else 2 * AndNot(a / 2, m / 2) + (if a % 2 == 1 && m % 2 == 0 then 1 else 0)
  }

  /** checkBit(byte, bit): 1 when `byte & (1 << bit)` is non-zero, else 0. */
  function CheckBit(b: nat, k: nat): nat
  {
    if And(b, Pow2(k)) != 0 then 1 else 0
  }

  /**
   * updateByte(byte, bit, value): clears the bit for value 0, sets it for
   * value 1, and falls through to `undefined` (None) for any other value.
   */
  function UpdateByte(b: nat, k: nat, v: int): Option<nat>
  {
    if v == 0 then Some(AndNot(b, Pow2(k)))
    else if v == 1 then Some(Or(b, Pow2(k)))
    else None
  }

  /** x is b with bit k forced to v and every other bit kept. */
  ghost predicate ForcesBit(b: nat, x: nat, k: nat, v: int)
  {
    Bit(x, k) == v && forall i :: i != k ==> Bit(x, i) == Bit(b, i)
  }

  // ---------------------------------------------------------------------
  // Bit-level facts about the operators

  lemma {:induction false} BitOfZero(i: nat)
    ensures Bit(0, i) == 0
  {
    if i > 0 { BitOfZero(i - 1); }
  }

  lemma {:induction false} BitOfPow2(k: nat, i: nat)
    ensures Bit(Pow2(k), i) == if i == k then 1 else 0
  {
    if k == 0 {
      if i > 0 { BitOfZero(i - 1); }
    } else if i > 0 {
      assert Pow2(k) / 2 == Pow2(k - 1);
      BitOfPow2(k - 1, i - 1);
    }
  }

  lemma {:induction false} BitOfAnd(a: nat, b: nat, i: nat)
    ensures Bit(And(a, b), i) == if Bit(a, i) == 1 && Bit(b, i) == 1 then 1 else 0
    decreases a
  {
    if a == 0 || b == 0 {
      BitOfZero(i);
    } else if i > 0 {
      assert And(a, b) / 2 == And(a / 2, b / 2);
      BitOfAnd(a / 2, b / 2, i - 1);
    }
  }

  lemma {:induction false} BitOfOr(a: nat, b: nat, i: nat)
    ensures Bit(Or(a, b), i) == if Bit(a, i) == 1 || Bit(b, i) == 1 then 1 else 0
    decreases a
  {
    if a == 0 || b == 0 {
      BitOfZero(i);
    } else if i > 0 {
      assert Or(a, b) / 2 == Or(a / 2, b / 2);
      BitOfOr(a / 2, b / 2, i - 1);
    }
  }

  lemma {:induction false} BitOfAndNot(a: nat, m: nat, i: nat)
    ensures Bit(AndNot(a, m), i) == if Bit(a, i) == 1 && Bit(m, i) == 0 then 1 else 0
    decreases a
  {
    if a == 0 {
      BitOfZero(i);
    } else if i > 0 {
      assert AndNot(a, m) / 2 == AndNot(a / 2, m / 2);
      BitOfAndNot(a / 2, m / 2, i - 1);
    }
  }

  /** Two numbers with the same bits are equal. */
  lemma {:induction false} BitsDetermine(a: nat, b: nat)
    requires forall i :: Bit(a, i) == Bit(b, i)
    ensures a == b
    decreases a + b
  {
    if a != 0 || b != 0 {
      assert Bit(a, 0) == Bit(b, 0);
      forall i: nat ensures Bit(a / 2, i) == Bit(b / 2, i) {
        assert Bit(a, i + 1) == Bit(b, i + 1);
      }
      BitsDetermine(a / 2, b / 2);
    }
  }

  /** A number below 2^n has no bit at position n or above. */
  lemma {:induction false} BelowPow2HasNoHighBits(x: nat, n: nat)
    ensures x < Pow2(n) ==> forall i :: n <= i ==> Bit(x, i) == 0
  {
    if x < Pow2(n) {
      if n == 0 {
        forall i: nat ensures Bit(x, i) == 0 { BitOfZero(i); }
      } else {
        BelowPow2HasNoHighBits(x / 2, n - 1);
        forall i: nat | n <= i ensures Bit(x, i) == 0 {
          assert Bit(x, i) == Bit(x / 2, i - 1);
        }
      }
    }
  }

  /** A number with no bit at position n or above is below 2^n. */
  lemma {:induction false} NoHighBitsBelowPow2(x: nat, n: nat)
    requires forall i :: n <= i ==> Bit(x, i) == 0
    ensures x < Pow2(n)
  {
    if n == 0 {
      forall i: nat ensures Bit(x, i) == Bit(0, i) { BitOfZero(i); }
      BitsDetermine(x, 0);
    } else {
      forall i: nat | n - 1 <= i ensures Bit(x / 2, i) == 0 {
        assert Bit(x, i + 1) == 0;
      }
      NoHighBitsBelowPow2(x / 2, n - 1);
    }
  }

  // ---------------------------------------------------------------------
  // checkBit

  /** checkBit returns 1 exactly when bit k of b is set, and 0 otherwise. */
  lemma CheckBitIsBit(b: nat, k: nat)
    ensures CheckBit(b, k) == Bit(b, k)
    ensures CheckBit(b, k) == 0 || CheckBit(b, k) == 1
  {
    var a := And(b, Pow2(k));
    BitOfAnd(b, Pow2(k), k);
    BitOfPow2(k, k);
    if Bit(b, k) == 1 {
      BitOfZero(k);
    } else {
      forall i: nat ensures Bit(a, i) == Bit(0, i) {
        BitOfAnd(b, Pow2(k), i);
        BitOfPow2(k, i);
        BitOfZero(i);
      }
      BitsDetermine(a, 0);
    }
  }

  /** Two concrete cases of checkBit. */
  lemma CheckBitExamples()
    ensures CheckBit(0xB2, 1) == 1
    ensures CheckBit(0xB2, 0) == 0
  {
  }

  // ---------------------------------------------------------------------
  // updateByte

  lemma UpdateByteForces(b: nat, k: nat, v: int)
    requires v == 0 || v == 1
    ensures UpdateByte(b, k, v).Some?
    ensures ForcesBit(b, UpdateByte(b, k, v).value, k, v)
  {
    var r := UpdateByte(b, k, v).value;
    forall i: nat ensures Bit(r, i) == if i == k then v else Bit(b, i) {
      BitOfPow2(k, i);
      if v == 0 { BitOfAndNot(b, Pow2(k), i); } else { BitOfOr(b, Pow2(k), i); }
    }
  }

  /**
   * updateByte is defined exactly for values 0 and 1, and then its result is
   * the one number that has bit k equal to v and every other bit of b.
   */
  lemma UpdateByteCharacterised(b: nat, k: nat, v: int, x: nat)
    ensures UpdateByte(b, k, v).Some? <==> v == 0 || v == 1
    ensures (v == 0 || v == 1) ==> (UpdateByte(b, k, v) == Some(x) <==> ForcesBit(b, x, k, v))
  {
    if v == 0 || v == 1 {
      UpdateByteForces(b, k, v);
      var r := UpdateByte(b, k, v).value;
      if ForcesBit(b, x, k, v) {
        forall i: nat ensures Bit(x, i) == Bit(r, i) {
        }
        BitsDetermine(x, r);
      }
    }
  }

  /** Applying updateByte twice with the same arguments is applying it once. */
  lemma UpdateByteIdempotent(b: nat, k: nat, v: int)
    requires v == 0 || v == 1
    ensures UpdateByte(UpdateByte(b, k, v).value, k, v) == UpdateByte(b, k, v)
  {
    UpdateByteForces(b, k, v);
    var r := UpdateByte(b, k, v).value;
    UpdateByteForces(r, k, v);
    var r2 := UpdateByte(r, k, v).value;
    UpdateByteCharacterised(b, k, v, r2);
  }

  /**
   * Setting then clearing bit k is the same as clearing it; this gives back
   * the original number exactly when its bit k was clear.
   */
  lemma UpdateByteSetThenClear(b: nat, k: nat)
    ensures UpdateByte(UpdateByte(b, k, 1).value, k, 0) == UpdateByte(b, k, 0)
    ensures UpdateByte(UpdateByte(b, k, 1).value, k, 0) == Some(b) <==> Bit(b, k) == 0
  {
    UpdateByteForces(b, k, 1);
    var s := UpdateByte(b, k, 1).value;
    UpdateByteForces(s, k, 0);
    var c := UpdateByte(s, k, 0).value;
    UpdateByteCharacterised(b, k, 0, c);
    UpdateByteCharacterised(b, k, 0, b);
  }

  /** Reading back the bit updateByte forced gives the forced value; other bits read as before. */
  lemma UpdateThenCheckBit(b: nat, k: nat, v: int, j: nat)
    requires v == 0 || v == 1
    ensures CheckBit(UpdateByte(b, k, v).value, k) == v
    ensures j != k ==> CheckBit(UpdateByte(b, k, v).value, j) == CheckBit(b, j)
  {
    UpdateByteForces(b, k, v);
    CheckBitIsBit(UpdateByte(b, k, v).value, k);
    CheckBitIsBit(UpdateByte(b, k, v).value, j);
    CheckBitIsBit(b, j);
  }

  /** Updating a bit inside a byte (k below 8) keeps a byte a byte. */
  lemma UpdateByteWithinByte(b: nat, k: nat, v: int)
    requires b < 256 && k < 8 && (v == 0 || v == 1)
    ensures UpdateByte(b, k, v).value < 256
  {
    UpdateByteForces(b, k, v);
    var r := UpdateByte(b, k, v).value;
    assert Pow2(8) == 256;
    BelowPow2HasNoHighBits(b, 8);
    forall i: nat | 8 <= i ensures Bit(r, i) == 0 {
    }
    NoHighBitsBelowPow2(r, 8);
  }

  /**
   * What an unadjusted offset (k = pin, 8 <= k) does to a byte: bits 0 to 7
   * are left as they were, setting produces a value of 256 or more, and
   * clearing gives back the byte unchanged.
   */
  lemma UpdateByteAboveByte(b: nat, k: nat, v: int)
    requires 8 <= k && (v == 0 || v == 1)
    ensures forall i :: i < 8 ==> Bit(UpdateByte(b, k, v).value, i) == Bit(b, i)
    ensures v == 1 ==> UpdateByte(b, k, v).value >= 256
    ensures v == 0 && b < 256 ==> UpdateByte(b, k, v) == Some(b)
  {
    UpdateByteForces(b, k, v);
    var r := UpdateByte(b, k, v).value;
    assert Pow2(8) == 256;
    BelowPow2HasNoHighBits(r, 8);
    if v == 0 && b < 256 {
      BelowPow2HasNoHighBits(b, 8);
      UpdateByteCharacterised(b, k, v, b);
    }
  }
}
