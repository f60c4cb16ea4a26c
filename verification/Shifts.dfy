/**
 The program's shifts and masks, as recursive functions on natural numbers.  Products and
 quotients by powers of two are never written as such, so every proof here is linear.
 */
module Shifts {

  /** `x << n` */
  function Shl(x: nat, n: nat): (r: nat)
    ensures r >= x
  {
    if n == 0 then x else 2 * Shl(x, n - 1)
  }

  /** `x >> n` */
  function Shr(x: nat, n: nat): nat {
    if n == 0 then x else Shr(x, n - 1) / 2
  }

  /** `1 << n` */
  function Pow2(n: nat): (r: nat)
    ensures r > 0
  {
    Shl(1, n)
  }

  lemma {:induction false} ShrBounds(x: nat, n: nat)
    ensures Shl(Shr(x, n), n) <= x < Shl(Shr(x, n), n) + Pow2(n)
  {
    if n > 0 {
      ShrBounds(x, n - 1);
      ShlHalf(Shr(x, n - 1), n);
    }
  }

  lemma {:induction false} ShlHalf(q: nat, n: nat)
    requires n > 0
    ensures Shl(q, n - 1) == Shl(q / 2, n) + if q % 2 == 0 then 0 else Pow2(n - 1)
  {
    ShlDouble(q / 2, n - 1);
    ShlAdd(2 * (q / 2), q % 2, n - 1);
    ShlZero(n - 1);
  }

  lemma {:induction false} ShlZero(n: nat)
    ensures Shl(0, n) == 0
  {
    if n > 0 { ShlZero(n - 1); }
  }

  lemma {:induction false} ShlAdd(x: nat, y: nat, n: nat)
    ensures Shl(x + y, n) == Shl(x, n) + Shl(y, n)
  {
    if n > 0 { ShlAdd(x, y, n - 1); }
  }

  lemma {:induction false} ShlDouble(x: nat, n: nat)
    ensures Shl(2 * x, n) == 2 * Shl(x, n) == Shl(x, n + 1)
  {
    if n > 0 { ShlDouble(x, n - 1); }
  }

  lemma ShlNext(x: nat, n: nat)
    ensures Shl(x + 1, n) == Shl(x, n) + Pow2(n)
  {
    ShlAdd(x, 1, n);
  }

  lemma {:induction false} ShlShl(x: nat, a: nat, b: nat)
    ensures Shl(Shl(x, a), b) == Shl(x, a + b)
  {
    if b > 0 { ShlShl(x, a, b - 1); }
  }

  lemma Pow2Shl(a: nat, b: nat)
    ensures Shl(Pow2(a), b) == Pow2(a + b)
  {
    ShlShl(1, a, b);
  }

  lemma {:induction false} ShlMonotone(x: nat, y: nat, n: nat)
    requires x <= y
    ensures Shl(x, n) <= Shl(y, n)
    ensures x < y ==> Shl(x, n) + Pow2(n) <= Shl(y, n)
  {
    if n > 0 { ShlMonotone(x, y, n - 1); }
  }

  lemma ShlCancel(x: nat, y: nat, n: nat)
    ensures Shl(x, n) <= Shl(y, n) <==> x <= y
    ensures Shl(x, n) < Shl(y, n) <==> x < y
    ensures Shl(x, n) < Shl(y, n) + Pow2(n) <==> x <= y
  {
    if x <= y { ShlMonotone(x, y, n); }
    if y <= x { ShlMonotone(y, x, n); }
  }

  lemma {:induction false} Pow2Monotone(a: nat, b: nat)
    requires a <= b
    ensures Pow2(a) <= Pow2(b)
  {
    if a < b { Pow2Monotone(a, b - 1); }
  }

  lemma ShrUnique(x: nat, q: nat, n: nat)
    requires Shl(q, n) <= x < Shl(q, n) + Pow2(n)
    ensures Shr(x, n) == q
  {
    ShrBounds(x, n);
    ShlCancel(Shr(x, n), q, n);
    ShlCancel(q, Shr(x, n), n);
  }

  lemma {:induction false} ShrShr(x: nat, a: nat, b: nat)
    ensures Shr(Shr(x, a), b) == Shr(x, a + b)
  {
    if b > 0 { ShrShr(x, a, b - 1); }
  }

  lemma {:induction false} ShrMonotone(x: nat, y: nat, n: nat)
    requires x <= y
    ensures Shr(x, n) <= Shr(y, n)
  {
    if n > 0 { ShrMonotone(x, y, n - 1); }
  }

  /** Bits shifted in below do not disturb the bits above. */
  lemma ShrOfShl(x: nat, n: nat, u: nat)
    requires u < Pow2(n)
    ensures Shr(Shl(x, n) + u, n) == x
  {
    ShrUnique(Shl(x, n) + u, x, n);
  }

  lemma ShrBelow(x: nat, a: nat, b: nat)
    requires x < Pow2(a + b)
    ensures Shr(x, a) < Pow2(b)
  {
    ShrBounds(x, a);
    Pow2Shl(b, a);
    ShlCancel(Shr(x, a), Pow2(b), a);
  }

  lemma ShlBelow(x: nat, h: nat, n: nat, u: nat)
    requires x < Pow2(h) && u < Pow2(n)
    ensures Shl(x, n) + u < Pow2(h + n)
  {
    ShlMonotone(x, Pow2(h), n);
    Pow2Shl(h, n);
  }

  /** `x & ((1 << n) - 1)` */
  function Low(x: nat, n: nat): (r: nat)
    ensures r < Pow2(n)
  {
    ShrBounds(x, n);
    x - Shl(Shr(x, n), n)
  }

  lemma LowOfShl(x: nat, n: nat, u: nat)
    requires u < Pow2(n)
    ensures Low(Shl(x, n) + u, n) == u
  {
    ShrOfShl(x, n, u);
    hide Shl, Shr;
  }

  /** The `b` bits above bit `a`, cut out from either end. */
  lemma LowShr(x: nat, a: nat, b: nat)
    ensures Shr(Low(x, a + b), a) == Low(Shr(x, a), b)
  {
    ShrShr(x, a, b);
    var q, y := Shr(x, a + b), Shr(x, a);
    ShlShl(q, b, a);
    ShrBounds(x, a);
    ShlAdd(Shl(q, b), Low(y, b), a);
    ShrUnique(Low(x, a + b), Low(y, b), a);
  }

  lemma LowLow(x: nat, a: nat, b: nat)
    ensures Low(Low(x, a + b), a) == Low(x, a)
  {
    LowShr(x, a, b);
    ShrShr(x, a, b);
    var q, y := Shr(x, a + b), Shr(x, a);
    ShlShl(q, b, a);
    ShlAdd(Shl(q, b), Low(y, b), a);
  }

  lemma LowShl(x: nat, k: nat, n: nat, u: nat)
    requires u < Pow2(n)
    ensures Low(Shl(x, n) + u, k + n) == Shl(Low(x, k), n) + u
  {
    ShrOfShl(x, n, u);
    ShrShr(Shl(x, n) + u, n, k);
    ShlShl(Shr(x, k), k, n);
    ShlAdd(Shl(Shr(x, k), k), Low(x, k), n);
    assert k + n == n + k;
  }

  lemma Pow2Literals()
    ensures Pow2(0) == 1 && Pow2(1) == 2 && Pow2(2) == 4 && Pow2(3) == 8 && Pow2(4) == 16
    ensures Pow2(5) == 32 && Pow2(6) == 64 && Pow2(7) == 128 && Pow2(8) == 256 && Pow2(9) == 512
    ensures Pow2(10) == 1024 && Pow2(11) == 2048 && Pow2(12) == 4096 && Pow2(13) == 8192
    ensures Pow2(14) == 0x4000 && Pow2(15) == 0x8000 && Pow2(16) == 0x1_0000 && Pow2(17) == 0x2_0000
    ensures Pow2(18) == 0x4_0000 && Pow2(19) == 0x8_0000 && Pow2(20) == 0x10_0000 && Pow2(21) == 0x20_0000
  {}
}
