/** Machine words as natural numbers.

    The source builds its atomic words with shifts, masks and bitwise or. This module
    gives those operators their bit-by-bit meaning on naturals and proves the arithmetic
    form each packed word relies on. */
module Words {

  const U32: nat := 0x1_0000_0000
  const U62: nat := 0x4000_0000_0000_0000
  const U64: nat := 0x1_0000_0000_0000_0000

  datatype Option<+T> = None | Some(value: T)

  function Pow2(k: nat): (p: nat)
    ensures p >= 1
  {
    if k == 0 then 1 else 2 * Pow2(k - 1)
  }

  /** `u32::is_power_of_two`. */
  predicate IsPowerOfTwo(n: nat) {
    n == 1 || (n > 1 && n % 2 == 0 && IsPowerOfTwo(n / 2))
  }

  function BitAnd(x: nat, y: nat): nat {
    if x == 0 || y == 0 then 0 else 2 * BitAnd(x / 2, y / 2) + (x % 2) * (y % 2)
  }

  function BitOr(x: nat, y: nat): nat
    decreases x + y
  {
    if x == 0 && y == 0 then 0
    else 2 * BitOr(x / 2, y / 2) + (if x % 2 == 1 || y % 2 == 1 then 1 else 0)
  }

  function BitXor(x: nat, y: nat): nat
    decreases x + y
  {
    if x == 0 && y == 0 then 0
    else 2 * BitXor(x / 2, y / 2) + (if x % 2 != y % 2 then 1 else 0)
  }

  lemma {:induction false} Pow2Sum(a: nat, b: nat)
    ensures Pow2(a + b) == Pow2(a) * Pow2(b)
  {
    if a > 0 {
      Pow2Sum(a - 1, b);
      assert 2 * (Pow2(a - 1) * Pow2(b)) == (2 * Pow2(a - 1)) * Pow2(b);
    }
  }

  lemma Pow2Of32()
    ensures Pow2(32) == U32
  {
    assert Pow2(4) == 16;
    Pow2Sum(4, 4);
    Pow2Sum(8, 8);
    Pow2Sum(16, 16);
  }

  lemma Pow2Of62()
    ensures Pow2(62) == U62
  {
    Pow2Of32();
    Pow2Sum(30, 32);
    assert Pow2(32) == 4 * Pow2(30);
  }

  lemma {:induction false} PowerOfTwoExponent(n: nat) returns (k: nat)
    requires IsPowerOfTwo(n)
    ensures n == Pow2(k)
  {
    if n == 1 {
      k := 0;
    } else {
      var j := PowerOfTwoExponent(n / 2);
      k := j + 1;
    }
  }

  lemma {:induction false} AndLowBits(x: nat, k: nat)
    ensures BitAnd(x, Pow2(k) - 1) == x % Pow2(k)
  {
    if k == 0 {
      assert Pow2(k) == 1;
    } else if x == 0 {
      ZeroMod(Pow2(k));
    } else {
      var p := Pow2(k - 1);
      AndLowBits(x / 2, k - 1);
      AndOdd(x, p);
      ModDouble(x, p);
    }
  }

  lemma ZeroMod(d: nat)
    requires 0 < d
    ensures 0 % d == 0
  {
    DivModUnique(0, d, 0, 0);
  }

  /** One step of masking with `2 * p - 1`. */
  lemma AndOdd(x: nat, p: nat)
    requires 0 < x && 1 <= p
    ensures BitAnd(x, 2 * p - 1) == 2 * BitAnd(x / 2, p - 1) + x % 2
  {
    assert (2 * p - 1) / 2 == p - 1 && (2 * p - 1) % 2 == 1;
  }

  lemma ModDouble(x: nat, p: nat)
    requires p >= 1
    ensures x % (2 * p) == 2 * ((x / 2) % p) + x % 2
  {
    var q, r := (x / 2) / p, (x / 2) % p;
    assert x == 2 * (q * p + r) + x % 2;
    assert x == q * (2 * p) + (2 * r + x % 2) by {
      assert 2 * (q * p) == q * (2 * p);
    }
    DivModUnique(x, 2 * p, q, 2 * r + x % 2);
  }

  lemma DivModUnique(x: nat, d: nat, q: nat, r: nat)
    requires d > 0 && r < d && x == q * d + r
    ensures x / d == q && x % d == r
  {
    var q', r' := x / d, x % d;
    assert q' * d + r' == q * d + r;
    if q' < q {
      MulGap(q', q, d);
    } else if q < q' {
      MulGap(q, q', d);
    }
  }

  lemma MulLe(a: nat, b: nat, d: nat)
    requires a <= b
    ensures a * d <= b * d
  {
    if a < b { MulGap(a, b, d); }
  }

  lemma MulGap(a: nat, b: nat, d: nat)
    requires a < b
    ensures a * d + d <= b * d
  {
    var k := b - a - 1;
    assert b * d == (a + 1 + k) * d == a * d + d + k * d;
    assert k * d >= 0;
  }

  /** The ring index computation `seq & (size - 1)` selects `seq % size`. */
  lemma MaskIsModulo(seqNo: nat, size: nat)
    requires IsPowerOfTwo(size)
    ensures BitAnd(seqNo, size - 1) == seqNo % size
  {
    var k := PowerOfTwoExponent(size);
    AndLowBits(seqNo, k);
  }

  /** Two numbers with the same residue are at least the modulus apart. */
  lemma SameResidueGap(a: nat, b: nat, d: nat)
    requires 0 < d && a < b && a % d == b % d
    ensures a + d <= b
  {
    DivModExact(a, d);
    DivModExact(b, d);
    MulApart(a / d, b / d, d, a % d);
  }

  lemma DivModExact(a: nat, d: nat)
    requires 0 < d
    ensures a == (a / d) * d + a % d
  {
  }

  lemma MulApart(qa: nat, qb: nat, d: nat, r: nat)
    requires qa * d + r < qb * d + r
    ensures qa * d + r + d <= qb * d + r
  {
    if qb <= qa { MulLe(qb, qa, d); } else { MulGap(qa, qb, d); }
  }

  lemma AddModulus(q: nat, d: nat)
    requires 0 < d
    ensures (q + d) % d == q % d
  {
    var k, r := q / d, q % d;
    assert q + d == (k + 1) * d + r by { assert (k + 1) * d == k * d + d; }
    DivModUnique(q + d, d, k + 1, r);
  }

  /** `x << k`. */
  function Shift(x: nat, k: nat): nat { if k == 0 then x else 2 * Shift(x, k - 1) }

  lemma {:induction false} ShiftIs(x: nat, k: nat)
    ensures Shift(x, k) == x * Pow2(k)
  {
    if k > 0 {
      ShiftIs(x, k - 1);
      MulTwice(x, Pow2(k - 1));
    }
  }

  lemma {:induction false} OrDisjoint(hi: nat, lo: nat, k: nat)
    requires lo < Pow2(k)
    ensures BitOr(Shift(hi, k), lo) == Shift(hi, k) + lo
  {
    if k == 0 {
      OrZero(hi);
    } else {
      OrDisjoint(hi, lo / 2, k - 1);
      OrNext(Shift(hi, k - 1), lo);
    }
  }

  lemma OrNext(h: nat, lo: nat)
    requires BitOr(h, lo / 2) == h + lo / 2
    ensures BitOr(2 * h, lo) == 2 * h + lo
  {
    assert (2 * h) / 2 == h && (2 * h) % 2 == 0;
  }

  lemma {:induction false} OrZero(x: nat)
    ensures BitOr(x, 0) == x
  {
    if x > 0 {
      OrZero(x / 2);
    }
  }

  /** Masking with high bits only keeps the high part of a word. */
  lemma {:induction false} AndHighBits(hi: nat, lo: nat, m: nat, k: nat)
    requires lo < Pow2(k)
    ensures BitAnd(Shift(hi, k) + lo, Shift(m, k)) == Shift(BitAnd(hi, m), k)
  {
    if k > 0 {
      AndHighBits(hi, lo / 2, m, k - 1);
      AndShift(Shift(hi, k - 1), lo, Shift(m, k - 1));
    }
  }

  lemma AndShift(h: nat, lo: nat, y: nat)
    ensures BitAnd(2 * h + lo, 2 * y) == 2 * BitAnd(h + lo / 2, y)
  {
    HalfSum(h, lo);
    AndDouble(2 * h + lo, y);
  }

  lemma HalfSum(h: nat, lo: nat)
    ensures (2 * h + lo) / 2 == h + lo / 2
  {
  }

  lemma MulTwice(a: nat, p: nat)
    ensures a * (2 * p) == 2 * (a * p)
  {
  }

  lemma AndDouble(x: nat, y: nat)
    ensures BitAnd(x, 2 * y) == 2 * BitAnd(x / 2, y)
  {
    assert (2 * y) / 2 == y && (2 * y) % 2 == 0;
  }

  // ---- exclusive or ----

  lemma {:induction false} XorTwice(x: nat, y: nat)
    ensures BitXor(BitXor(x, y), y) == x
    decreases x + y
  {
    if x != 0 || y != 0 {
      XorTwice(x / 2, y / 2);
      XorStep(x, y);
      XorStep(BitXor(x, y), y);
    }
  }

  /** One bit of an exclusive or. */
  lemma XorStep(x: nat, y: nat)
    ensures BitXor(x, y) / 2 == BitXor(x / 2, y / 2)
    ensures BitXor(x, y) % 2 == if x % 2 == y % 2 then 0 else 1
  {
  }

  lemma {:induction false} XorZero(x: nat)
    ensures BitXor(x, 0) == x
  {
    if x > 0 { XorZero(x / 2); }
  }

  /** Exclusive or with a short word leaves the high part alone. */
  lemma {:induction false} XorHigh(hi: nat, x: nat, y: nat, k: nat)
    requires x < Pow2(k) && y < Pow2(k)
    ensures BitXor(Shift(hi, k) + x, y) == Shift(hi, k) + BitXor(x, y)
    decreases k
  {
    if k == 0 {
      XorZero(hi);
    } else {
      XorHigh(hi, x / 2, y / 2, k - 1);
      XorNext(Shift(hi, k - 1), x, y);
    }
  }

  lemma XorNext(h: nat, x: nat, y: nat)
    requires BitXor(h + x / 2, y / 2) == h + BitXor(x / 2, y / 2)
    ensures BitXor(2 * h + x, y) == 2 * h + BitXor(x, y)
  {
    HalfSum(h, x);
    XorStep(2 * h + x, y);
    XorStep(x, y);
  }

  lemma {:induction false} XorSmall(x: nat, y: nat, k: nat)
    requires x < Pow2(k) && y < Pow2(k)
    ensures BitXor(x, y) < Pow2(k)
    decreases k
  {
    if k > 0 {
      XorSmall(x / 2, y / 2, k - 1);
      XorStep(x, y);
    }
  }

  lemma XorBound(x: nat, y: nat)
    requires x < U64 && y < U64
    ensures BitXor(x, y) < U64
  {
    Pow2Of32();
    Pow2Sum(32, 32);
    XorSmall(x, y, 64);
  }
}
