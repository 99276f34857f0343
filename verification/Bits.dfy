/** Bytes as numbers, and the bit operations the cipher applies to them. */
module Bits {
  import opened Arithmetic

  type Byte = n: nat | n < 256

  type Bytes = seq<Byte>

  function Power2(n: nat): (p: nat)
    ensures p > 0
  {
    if n == 0 then 1 else 2 * Power2(n - 1)
  }

  /** Exclusive or of the low `width` bits. */
  function XorBits(a: nat, b: nat, width: nat): (r: nat)
    ensures r < Power2(width)
  {
    if width == 0 then 0
    else 2 * XorBits(a / 2, b / 2, width - 1) + (if a % 2 == b % 2 then 0 else 1)
  }

  function Xor(a: Byte, b: Byte): Byte {
    EightBits();
    XorBits(a, b, 8)
  }

  /** n | 1 */
  function OrOne(n: nat): nat { if n % 2 == 0 then n + 1 else n }

  /** The bit of weight two to the i. */
  predicate Bit(n: nat, i: nat) { if i == 0 then n % 2 == 1 else Bit(n / 2, i - 1) }

  lemma EightBits()
    ensures Power2(8) == 256
  {
    assert Power2(4) == 16;
  }

  lemma {:induction false} XorBitsAt(a: nat, b: nat, width: nat, i: nat)
    requires i < width
    ensures Bit(XorBits(a, b, width), i) <==> Bit(a, i) != Bit(b, i)
  {
    var r := XorBits(a, b, width);
    if i == 0 {
      assert r % 2 == if a % 2 == b % 2 then 0 else 1;
    } else {
      assert r / 2 == XorBits(a / 2, b / 2, width - 1);
      XorBitsAt(a / 2, b / 2, width - 1, i - 1);
    }
  }

  /** Each of the eight bits of the exclusive or is set exactly where those of its arguments differ. */
  lemma XorBit(a: Byte, b: Byte, i: nat)
    requires i < 8
    ensures Bit(Xor(a, b), i) <==> Bit(a, i) != Bit(b, i)
  {
    XorBitsAt(a, b, 8, i);
  }

  /** A number is known by its bits. */
  lemma {:induction false} BitsDetermine(a: nat, b: nat, width: nat)
    requires a < Power2(width) && b < Power2(width)
    requires forall i: nat :: i < width ==> Bit(a, i) == Bit(b, i)
    ensures a == b
  {
    if width == 0 {
    } else {
      assert Bit(a, 0) == Bit(b, 0);
      forall i: nat | i < width - 1 ensures Bit(a / 2, i) == Bit(b / 2, i) {
        assert Bit(a, i + 1) == Bit(b, i + 1);
      }
      BitsDetermine(a / 2, b / 2, width - 1);
    }
  }

  lemma XorTwice(a: Byte, b: Byte)
    ensures Xor(Xor(a, b), b) == a
  {
    forall i: nat | i < 8 ensures Bit(Xor(Xor(a, b), b), i) == Bit(a, i) {
      XorBit(a, b, i);
      XorBit(Xor(a, b), b, i);
    }
    EightBits();
    hide Bit, Xor, Power2;
    BitsDetermine(Xor(Xor(a, b), b), a, 8);
  }

  /** Doubling the lower seven bits moves them up by one. */
  lemma DoubleBit(n: Byte, i: nat)
    requires i < 8
    ensures Bit(n % 128 * 2, i) <==> i > 0 && Bit(n, i - 1)
  {
    if i > 0 {
      assert Power2(7) == 128 by { EightBits(); }
      BitsBelow(n, 7, i - 1);
    }
  }

  lemma {:induction false} BitsBelow(n: nat, width: nat, i: nat)
    requires i < width
    ensures Bit(n % Power2(width), i) == Bit(n, i)
  {
    HalfOfRemainder(n, Power2(width - 1));
    var r := n % Power2(width);
    if i == 0 {
    } else {
      BitsBelow(n / 2, width - 1, i - 1);
    }
  }

  lemma HalfOfRemainder(n: nat, half: nat)
    requires half > 0
    ensures n % (2 * half) / 2 == n / 2 % half && n % (2 * half) % 2 == n % 2
  {
    var m := n / 2;
    var q, r := m / half, m % half;
    Divides(m, half);
    RemainderDoubles(n, m, half, q, r);
  }

  lemma Divides(m: nat, n: nat)
    requires n > 0
    ensures m == (m / n) * n + m % n && m % n < n
  {
  }

  lemma RemainderDoubles(n: nat, m: nat, half: nat, q: nat, r: nat)
    requires m == n / 2 && half > 0 && m == q * half + r && r < half
    ensures n % (2 * half) == 2 * r + n % 2
  {
    var p := q * half;
    assert q * (2 * half) == 2 * p;
    DivModUnique(n, 2 * half, q, 2 * r + n % 2);
  }
}
