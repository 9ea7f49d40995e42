/** Bytes and the bit arithmetic that the decoder applies to them.

    A byte of the robot's reply is an integer in 0..255 (indexing a Python
    `bytes` object yields an int).  The decoder tests flags with Python's
    integer `&`; `BitAnd` is that operator on non-negative integers, and `Bit`
    is the independent description of a binary digit that it is proved
    against. */
module Bits {

  type Byte = x: int | 0 <= x < 256

  function Pow2(k: nat): (r: nat)
    ensures r >= 1
  {
    if k == 0 then 1 else 2 * Pow2(k - 1)
  }

  /** Binary digit k of a is 1. */
  predicate Bit(a: nat, k: nat)
  {
    (a / Pow2(k)) % 2 == 1
  }

  /** Digit k of a is digit k-1 of a with its lowest digit dropped. */
  lemma BitStep(a: nat, k: nat)
    requires k > 0
    ensures Bit(a, k) <==> Bit(a / 2, k - 1)
  {
    DivModDouble(a, Pow2(k - 1));
  }

  /** Python's `a & b` for non-negative integers, computed digit by digit
      from the least significant end. */
  function BitAnd(a: nat, b: nat): (r: nat)
    ensures r <= a && r <= b
    decreases a
  {
    if a == 0 || b == 0 then 0
    else 2 * BitAnd(a / 2, b / 2) + (if a % 2 == 1 && b % 2 == 1 then 1 else 0)
  }

  /** `&` keeps exactly the digits set in both operands. */
  lemma {:induction false} BitAndBits(a: nat, b: nat, k: nat)
    ensures Bit(BitAnd(a, b), k) <==> Bit(a, k) && Bit(b, k)
    decreases a
  {
    if a != 0 && b != 0 && k > 0 {
      var r := BitAnd(a, b);
      assert r / 2 == BitAnd(a / 2, b / 2);
      BitAndBits(a / 2, b / 2, k - 1);
      BitStep(r, k);
      BitStep(a, k);
      BitStep(b, k);
    }
  }

  /** Masking with the single-digit constant 2^k gives a non-zero result
      exactly when digit k is set: `bool(d & MASK)` reads one flag. */
  lemma {:induction false} MaskSelectsBit(a: nat, k: nat)
    ensures BitAnd(a, Pow2(k)) != 0 <==> Bit(a, k)
    decreases k
  {
    if a != 0 && k > 0 {
      assert Pow2(k) / 2 == Pow2(k - 1) && Pow2(k) % 2 == 0;
      MaskSelectsBit(a / 2, k - 1);
      BitStep(a, k);
    }
  }

  lemma ModUnique(a: nat, d: nat, q: nat, x: nat)
    requires d > 0 && x < d && a == d * q + x
    ensures a % d == x && a / d == q
  {
    var q', x' := a / d, a % d;
    assert d * q + x == d * q' + x';
    assert d * (q - q') == d * q - d * q';
    assert d * (q' - q) == d * q' - d * q;
    MulAtLeast(d, q - q');
    MulAtLeast(d, q' - q);
  }

  lemma MulAtLeast(d: nat, k: int)
    ensures k >= 1 ==> d * k >= d
  {
  }

  /** Division and remainder by 2*m, split into the lowest digit and the
      rest. */
  lemma DivModDouble(a: nat, m: nat)
    requires m > 0
    ensures a / (2 * m) == (a / 2) / m
    ensures a % (2 * m) == 2 * ((a / 2) % m) + a % 2
  {
    var q, t := a / 2, (a / 2) % m;
    var s := q / m;
    assert q == m * s + t;
    assert a == (2 * m) * s + (2 * t + a % 2);
    ModUnique(a, 2 * m, s, 2 * t + a % 2);
  }

  /** a and b agree on their n lowest binary digits. */
  predicate AgreeBelow(a: nat, b: nat, n: nat)
  {
    forall k :: 0 <= k < n ==> (Bit(a, k) <==> Bit(b, k))
  }

  /** Agreement below n+1 adds digit n to agreement below n. */
  lemma AgreeBelowSucc(a: nat, b: nat, n: nat)
    ensures AgreeBelow(a, b, n + 1) <==> AgreeBelow(a, b, n) && (Bit(a, n) <==> Bit(b, n))
  {
  }

  lemma AgreeBelowStep(a: nat, b: nat, n: nat)
    requires n > 0
    ensures AgreeBelow(a, b, n) <==> a % 2 == b % 2 && AgreeBelow(a / 2, b / 2, n - 1)
  {
    if AgreeBelow(a, b, n) {
      forall k | 0 <= k < n - 1
        ensures Bit(a / 2, k) <==> Bit(b / 2, k)
      {
        assert Bit(a, k + 1) <==> Bit(b, k + 1);
        BitStep(a, k + 1);
        BitStep(b, k + 1);
      }
      assert Bit(a, 0) <==> Bit(b, 0);
    }
    if a % 2 == b % 2 && AgreeBelow(a / 2, b / 2, n - 1) {
      forall k | 0 <= k < n
        ensures Bit(a, k) <==> Bit(b, k)
      {
        if k > 0 {
          assert Bit(a / 2, k - 1) <==> Bit(b / 2, k - 1);
          BitStep(a, k);
          BitStep(b, k);
        }
      }
    }
  }

  /** Two bytes with the same eight digits are equal. */
  lemma AgreeOnByte(a: nat, b: nat)
    requires a < 256 && b < 256
    requires Bit(a, 0) == Bit(b, 0) && Bit(a, 1) == Bit(b, 1)
    requires Bit(a, 2) == Bit(b, 2) && Bit(a, 3) == Bit(b, 3)
    requires Bit(a, 4) == Bit(b, 4) && Bit(a, 5) == Bit(b, 5)
    requires Bit(a, 6) == Bit(b, 6) && Bit(a, 7) == Bit(b, 7)
    ensures a == b
  {
    forall k | 0 <= k < 8
      ensures Bit(a, k) <==> Bit(b, k)
    {
      // Split k into its eight values so that each case meets one requires.
      if k == 0 {} else if k == 1 {} else if k == 2 {} else if k == 3 {}
      else if k == 4 {} else if k == 5 {} else if k == 6 {} else {}
    }
    EqualModByte(a, b);
  }

  lemma EqualModByte(a: nat, b: nat)
    requires a < 256 && b < 256 && AgreeBelow(a, b, 8)
    ensures a == b
  {
    SameLowBits(a, b, 8);
    assert Pow2(8) == 256;
  }

  /** Two numbers agree on their n lowest digits exactly when they are
      congruent modulo 2^n. */
  lemma {:induction false} SameLowBits(a: nat, b: nat, n: nat)
    ensures AgreeBelow(a, b, n) <==> a % Pow2(n) == b % Pow2(n)
    decreases n
  {
    if n > 0 {
      SameLowBits(a / 2, b / 2, n - 1);
      AgreeBelowStep(a, b, n);
      DivModDouble(a, Pow2(n - 1));
      DivModDouble(b, Pow2(n - 1));
    }
  }
}
