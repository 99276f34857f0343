/** The operators on integers the offline decoder computes with, bit by bit and without a width. */
module PythonInts {
  import opened Bits

  /** a & b */
  function And(a: nat, b: nat): nat {
    if a == 0 || b == 0 then 0
    else 2 * And(a / 2, b / 2) + (if a % 2 == 1 && b % 2 == 1 then 1 else 0)
  }

  /** a | b */
  function Or(a: nat, b: nat): nat {
    if a == 0 && b == 0 then 0
    else 2 * Or(a / 2, b / 2) + (if a % 2 == 1 || b % 2 == 1 then 1 else 0)
  }

  /** a ^ b */
  function ExclusiveOr(a: nat, b: nat): nat {
    if a == 0 && b == 0 then 0
    else 2 * ExclusiveOr(a / 2, b / 2) + (if a % 2 != b % 2 then 1 else 0)
  }

  /** n << count */
  function ShiftLeft(n: nat, count: nat): nat { if count == 0 then n else 2 * ShiftLeft(n, count - 1) }

  /** n >> count */
  function ShiftRight(n: nat, count: nat): nat { if count == 0 then n else ShiftRight(n / 2, count - 1) }

  lemma {:induction false} XorWithin(a: nat, b: nat, width: nat)
    requires a < Power2(width) && b < Power2(width)
    ensures ExclusiveOr(a, b) == XorBits(a, b, width)
  {
    if width == 0 {
    } else {
      XorWithin(a / 2, b / 2, width - 1);
      if a == 0 && b == 0 { XorNothing(width); }
    }
  }

  lemma {:induction false} XorNothing(width: nat)
    ensures XorBits(0, 0, width) == 0
  {
    if width == 0 {
    } else {
      XorNothing(width - 1);
    }
  }

  lemma XorOfBytes(a: Byte, b: Byte)
    ensures ExclusiveOr(a, b) == Xor(a, b)
  {
    EightBits();
    XorWithin(a, b, 8);
  }

  lemma {:induction false} MaskIsRemainder(n: nat, width: nat)
    ensures And(n, Power2(width) - 1) == n % Power2(width)
  {
    if width == 0 {
    } else {
      var half := Power2(width - 1);
      HalfOfRemainder(n, half);
      MaskIsRemainder(n / 2, width - 1);
      assert (2 * half - 1) / 2 == half - 1 && (2 * half - 1) % 2 == 1;
    }
  }

  lemma Masks(n: nat)
    ensures And(n, 0x7f) == n % 128 && And(n, 0xff) == n % 256
  {
    EightBits();
    MaskIsRemainder(n, 7);
    MaskIsRemainder(n, 8);
  }

  lemma OrWithOne(n: nat)
    ensures Or(n, 1) == OrOne(n)
  {
    OrNothing(n / 2);
  }

  lemma {:induction false} OrNothing(n: nat)
    ensures Or(n, 0) == n
  {
    if n == 0 {
    } else {
      OrNothing(n / 2);
    }
  }
}
