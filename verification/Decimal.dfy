/** Decimal numbers in text. A character stands for one byte of a frame. */
module Decimal {
  import opened Wrappers
  import opened Arithmetic

  predicate IsDigit(c: char) { '0' <= c <= '9' }

  function Digit(d: nat): (c: char)
    requires d < 10
    ensures IsDigit(c) && DigitValue(c) == d
  {
    ('0' as int + d) as char
  }

  function DigitValue(c: char): (d: nat)
    requires IsDigit(c)
    ensures d < 10
  {
    c as int - '0' as int
  }

  lemma DigitOfValue(c: char)
    requires IsDigit(c)
    ensures Digit(DigitValue(c)) == c
  {
  }

  predicate AllDigits(s: string) { forall i :: 0 <= i < |s| ==> IsDigit(s[i]) }

  function Value(s: string): nat
    requires AllDigits(s)
  {
    if s == "" then 0 else 10 * Value(s[..|s| - 1]) + DigitValue(s[|s| - 1])
  }

  function Pow10(n: nat): (p: nat)
    ensures p > 0
  {
    if n == 0 then 1 else 10 * Pow10(n - 1)
  }

  /** The last `width` digits of n: the whole of n when it has no more. */
  function Pad(n: nat, width: nat): (s: string)
    ensures |s| == width && AllDigits(s)
  {
    if width == 0 then "" else Pad(n / 10, width - 1) + [Digit(n % 10)]
  }

  lemma ValueAppend(s: string, d: nat)
    requires AllDigits(s) && d < 10
    ensures AllDigits(s + [Digit(d)]) && Value(s + [Digit(d)]) == 10 * Value(s) + d
  {
    assert (s + [Digit(d)])[..|s|] == s;
  }

  lemma {:induction false} PadValue(n: nat, width: nat)
    requires n < Pow10(width)
    ensures Value(Pad(n, width)) == n
  {
    hide Value, Digit;
    if width == 0 {
      assert Value("") == 0 by { NoDigits(); }
    } else {
      PadValue(n / 10, width - 1);
      ValueAppend(Pad(n / 10, width - 1), n % 10);
    }
  }

  lemma NoDigits()
    ensures Value("") == 0
  {
  }

  lemma {:induction false} ValuePad(s: string)
    requires AllDigits(s)
    ensures Value(s) < Pow10(|s|) && Pad(Value(s), |s|) == s
  {
    if s == "" {
    } else {
      var most, last := s[..|s| - 1], s[|s| - 1];
      ValuePad(most);
      DigitOfValue(last);
      assert Value(s) / 10 == Value(most) && Value(s) % 10 == DigitValue(last);
      assert s == most + [last];
    }
  }

  // ---- without padding ----

  function Digits(n: nat): (s: string)
    ensures |s| > 0 && AllDigits(s)
  {
    if n < 10 then [Digit(n)] else Digits(n / 10) + [Digit(n % 10)]
  }

  lemma {:induction false} DigitsValue(n: nat)
    ensures Value(Digits(n)) == n
  {
    var s := Digits(n);
    if n < 10 {
      assert s[..0] == "";
    } else {
      DigitsValue(n / 10);
      assert s[..|s| - 1] == Digits(n / 10);
    }
  }

  function Itoa(n: int): (s: string)
    ensures |s| > 0
  {
    if n < 0 then "-" + Digits(-n) else Digits(n)
  }

  const MAX_INT := 0x7fff_ffff_ffff_ffff
  const MIN_INT := -0x8000_0000_0000_0000

  /** strconv.Atoi: an optional sign, digits, and a value that fits 64 bits. */
  function Atoi(s: string): (r: Option<int>)
    ensures r.Some? ==> MIN_INT <= r.value <= MAX_INT
  {
    var signed := s != "" && (s[0] == '-' || s[0] == '+');
    var body := if signed then s[1..] else s;
    if body == "" || !AllDigits(body) then None
    else
      var magnitude: int := Value(body);
      var n := if signed && s[0] == '-' then -magnitude else magnitude;
      if MIN_INT <= n <= MAX_INT then Some(n) else None
  }

  lemma AtoiItoa(n: int)
    requires MIN_INT <= n <= MAX_INT
    ensures Atoi(Itoa(n)) == Some(n)
  {
    hide Value, Digits;
    if n < 0 {
      AtoiMinus(-n);
    } else {
      DigitsValue(n);
      AtoiPlain(Digits(n));
    }
  }

  lemma AtoiPlain(s: string)
    requires s != "" && AllDigits(s) && Value(s) <= MAX_INT
    ensures Atoi(s) == Some(Value(s))
  {
    hide Value;
    assert IsDigit(s[0]);
  }

  lemma AtoiMinus(n: int)
    requires 0 <= n <= -MIN_INT
    ensures Atoi("-" + Digits(n)) == Some(-n)
  {
    hide Value, Digits, AllDigits;
    DigitsValue(n);
    assert ("-" + Digits(n))[1..] == Digits(n);
  }

  lemma DigitsInjective(a: nat, b: nat)
    requires Digits(a) == Digits(b)
    ensures a == b
  {
    DigitsValue(a);
    DigitsValue(b);
  }

  /** A number prints as its digits without a needless zero, and with a minus exactly if it is below zero. */
  lemma ItoaIsPlain(n: int)
    ensures n >= 0 ==> AllDigits(Itoa(n)) && Value(Itoa(n)) == n
    ensures n < 0 ==> Itoa(n)[0] == '-' && AllDigits(Itoa(n)[1..]) && Value(Itoa(n)[1..]) == -n
    ensures var digits := if n < 0 then Itoa(n)[1..] else Itoa(n); |digits| > 1 ==> digits[0] != '0'
  {
    hide Value, AllDigits;
    var m: nat := if n < 0 then -n else n;
    DigitsValue(m);
    NoNeedlessZero(m);
    if n < 0 { assert Itoa(n)[1..] == Digits(m); }
  }

  lemma {:induction false} NoNeedlessZero(n: nat)
    ensures (|Digits(n)| > 1 ==> Digits(n)[0] != '0') && (n > 0 ==> Digits(n)[0] != '0')
  {
    if n < 10 {
    } else {
      NoNeedlessZero(n / 10);
    }
  }

  /** What a text without a sign, with a plus and with a minus is read as. */
  lemma AtoiReads(digits: string)
    requires digits != "" && AllDigits(digits)
    ensures var value: int := Value(digits);
            && Atoi(digits) == (if value <= MAX_INT then Some(value) else None)
            && Atoi("+" + digits) == (if value <= MAX_INT then Some(value) else None)
            && Atoi("-" + digits) == (if value <= MAX_INT + 1 then Some(-value) else None)
  {
    hide Value;
    assert IsDigit(digits[0]);
    assert ("+" + digits)[1..] == digits && ("-" + digits)[1..] == digits;
  }

  /** And nothing but digits, with at most one sign before them, is read at all. */
  lemma OnlyNumbersAreRead(s: string)
    requires Atoi(s).Some?
    ensures s != ""
    ensures var digits := if s[0] == '-' || s[0] == '+' then s[1..] else s; digits != "" && AllDigits(digits)
  {
    hide Value;
  }
}
