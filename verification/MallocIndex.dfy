/**
  Sizes and bin indices of the allocator (shared/malloc.c.h), in unsigned 32-bit arithmetic that
  wraps around.
*/
module MallocIndex {
  const WORD := 0x1_0000_0000
  const SIZE_SZ := 4
  const ALIGN_MASK := 7
  const MINSIZE := 16
  const NBINS := 96
  const NSMALLBINS := 32
  const MIN_LARGE_SIZE := 256
  const MAX_FAST := 72       // request2size(DEFAULT_MXFAST)
  const NFASTBINS := 10      // fastbin_index(request2size(MAX_FAST_SIZE)) + 1

  type uint32 = x: int | 0 <= x < WORD

  // ----- word operations -----

  function Pow2(n: nat): (r: nat)
    ensures r > 0
  {
    if n == 0 then 1 else 2 * Pow2(n - 1)
  }

  function Sub(x: uint32, y: uint32): uint32 { (x - y) % WORD }

  function Shl(x: uint32, n: nat): uint32 { x * Pow2(n) % WORD }

  function Shr(x: nat, n: nat): nat { DivNat(x, Pow2(n)) }

  function DivNat(x: nat, d: nat): nat
    requires d > 0
  {
    DivBounds(x, d);
    x / d
  }

  function Not(x: uint32): uint32 { WORD - 1 - x }

  function And(x: nat, y: nat): nat
  {
    if x == 0 || y == 0 then 0 else 2 * And(x / 2, y / 2) + (x % 2) * (y % 2)
  }

  lemma {:induction false} AndOnes(x: nat, k: nat)
    requires x < Pow2(k)
    ensures And(x, Pow2(k) - 1) == x
    decreases k
  {
    if x != 0 {
      AndOnes(x / 2, k - 1);
      assert (Pow2(k) - 1) / 2 == Pow2(k - 1) - 1;
    }
  }

  /** Masking with a single bit extracts it. */
  lemma {:induction false} AndBit(x: nat, k: nat)
    ensures And(x, Pow2(k)) == x / Pow2(k) % 2 * Pow2(k)
    decreases k
  {
    if x != 0 {
      if k == 0 {
        assert And(x / 2, 0) == 0;
      } else {
        AndBit(x / 2, k - 1);
        DivTwice(x, Pow2(k - 1));
      }
    }
  }

  lemma MulStrict(a: int, d: int)
    requires d > 0
    ensures a >= 1 ==> a * d >= d
    ensures a <= -1 ==> a * d <= -d
  {
  }

  lemma DivUnique(x: int, d: int, q: int, r: int)
    requires d > 0 && x == q * d + r && 0 <= r < d
    ensures x / d == q && x % d == r
  {
    MulStrict(q - x / d, d);
    assert (q - x / d) * d == x % d - r;
  }

  lemma DivTwice(x: nat, d: nat)
    requires d > 0
    ensures x / 2 / d == x / (2 * d)
  {
    var q, r := x / 2 / d, x / 2 % d;
    assert x == q * (2 * d) + (2 * r + x % 2);
    DivUnique(x, 2 * d, q, 2 * r + x % 2);
  }

  lemma DivBounds(x: nat, d: nat)
    requires d > 0
    ensures 0 <= x / d && x / d * d <= x < (x / d + 1) * d
  {
    assert x == x / d * d + x % d;
  }

  // ----- request2size -----

  predicate OutOfRange(req: uint32) { req >= WORD - 2 * MINSIZE }

  /** The chunk size for a request: a multiple of 8, at least MINSIZE, with room for the request
      and the size field, and no larger than that needs; adding MINSIZE cannot wrap around. */
  function RequestSize(req: uint32): (nb: uint32)
    requires !OutOfRange(req)
    ensures nb % 8 == 0 && MINSIZE <= nb && req + SIZE_SZ <= nb && nb + MINSIZE < WORD
    ensures nb > MINSIZE ==> nb < req + SIZE_SZ + 8
  {
    var padded := req + SIZE_SZ + ALIGN_MASK;
    MaskAlign(padded);
    if padded < MINSIZE then MINSIZE else And(padded, Not(ALIGN_MASK))
  }

  lemma MaskAlign(x: nat)
    requires x < WORD
    ensures And(x, Not(ALIGN_MASK)) == x / 8 * 8
  {
    assert And(x / 8, 0x1FFF_FFFF) == x / 8 by {
      Pow2Of29();
      AndOnes(x / 8, 29);
    }
    assert And(x / 4, 0x3FFF_FFFE) == 2 * And(x / 8, 0x1FFF_FFFF);
    assert And(x / 2, 0x7FFF_FFFC) == 2 * And(x / 4, 0x3FFF_FFFE);
    assert And(x, 0xFFFF_FFF8) == 2 * And(x / 2, 0x7FFF_FFFC);
  }

  lemma Pow2Of29()
    ensures Pow2(29) == 0x2000_0000
  {
    assert Pow2(8) == 256;
    assert Pow2(16) == 0x1_0000;
    assert Pow2(24) == 0x100_0000;
  }

  /** A request that `sYSMALLOc` retries asks for the same chunk size again. */
  lemma RetrySize(nb: uint32)
    requires nb % 8 == 0 && MINSIZE <= nb < MIN_LARGE_SIZE
    ensures nb - ALIGN_MASK >= 0 && !OutOfRange(nb - ALIGN_MASK) && RequestSize(nb - ALIGN_MASK) == nb
  {
  }

  // ----- bin indices -----

  function Log2(x: nat): nat
    requires x > 0
  {
    if x == 1 then 0 else 1 + Log2(x / 2)
  }

  lemma {:induction false} LogBounds(x: nat)
    requires x > 0
    ensures Pow2(Log2(x)) <= x < 2 * Pow2(Log2(x))
  {
    if x > 1 {
      LogBounds(x / 2);
    }
  }

  lemma {:induction false} LogUnique(x: nat, m: nat)
    requires Pow2(m) <= x < 2 * Pow2(m)
    ensures x > 0 && Log2(x) == m
  {
    if m > 0 {
      LogUnique(x / 2, m - 1);
    }
  }

  lemma {:induction false} LogMonotone(x: nat, y: nat)
    requires 0 < x <= y
    ensures Log2(x) <= Log2(y)
  {
    if x > 1 {
      LogMonotone(x / 2, y / 2);
    }
  }

  /** k when the 16-bit number x is below the limit, else 0: the borrow of the subtraction. */
  function Short(x: uint32, limit: uint32, k: nat): nat
  {
    Pow2Of16();
    And(Shr(Sub(x, limit), 16), k)
  }

  lemma Pow2Of16()
    ensures Pow2(8) == 256 && Pow2(14) == 0x4000 && Pow2(16) == 0x1_0000
  {
    assert Pow2(5) == 32;
  }

  lemma SmallPowers()
    ensures Pow2(0) == 1 && Pow2(1) == 2 && Pow2(2) == 4 && Pow2(3) == 8 && Pow2(4) == 16 && Pow2(8) == 256
  {
  }

  lemma ShortBy(x: uint32, limit: uint32, j: nat)
    requires x < 0x1_0000 && 0 < limit <= 0x1_0000 && 1 <= j <= 3
    ensures Short(x, limit, Pow2(j)) == if x < limit then Pow2(j) else 0
  {
    Pow2Of16();
    AndBit(Shr(Sub(x, limit), 16), j);
    assert Shr(Sub(x, limit), 16) == if x < limit then 0xFFFF else 0;
    assert Pow2(j) == if j == 1 then 2 else if j == 2 then 4 else 8;
  }

  lemma {:induction false} LogShift(x: nat, n: nat)
    requires x > 0
    ensures x * Pow2(n) > 0 && Log2(x * Pow2(n)) == Log2(x) + n
    decreases n
  {
    if n > 0 {
      LogShift(x, n - 1);
      var y := x * Pow2(n - 1);
      Doubled(x, Pow2(n - 1));
      LogStep(2 * y);
    }
  }

  lemma Doubled(a: int, b: int)
    ensures a * (2 * b) == 2 * (a * b)
  {
  }

  lemma LogStep(x: nat)
    requires x >= 2
    ensures x / 2 > 0 && Log2(x) == 1 + Log2(x / 2)
  {
  }

  /** The branch-free search for the highest set bit of a non-zero 16-bit number: the number is
      shifted up by 8, 4 and 2 places where its upper half is empty. */
  function HighBit(x: uint32): int
    requires 1 <= x < 0x1_0000
  {
    var n := Short(x, 0x100, 8);
    var x1 := Shl(x, n);
    var m1 := Short(x1, 0x1000, 4);
    var x2 := Shl(x1, m1);
    var m2 := Short(x2, 0x4000, 2);
    Pow2Of16();
    var two := Shr(Shl(x2, m2), 14);
    13 - (n + m1 + m2) + And(two, Not(two / 2 % WORD))
  }

  /** One shift: no bit is lost. */
  lemma Shifted(x: uint32, limit: uint32, j: nat)
    requires 1 <= j <= 3 && limit == (if j == 3 then 0x100 else if j == 2 then 0x1000 else 0x4000)
    requires (if j == 3 then 1 else if j == 2 then 0x100 else 0x1000) <= x < 0x1_0000
    ensures var n := Short(x, limit, Pow2(j)); Shl(x, n) == x * Pow2(n) && limit <= Shl(x, n) < 0x1_0000
    ensures var n := Short(x, limit, Pow2(j)); Log2(x * Pow2(n)) == Log2(x) + n
  {
    hide Short; hide Log2; hide Pow2;
    ShortBy(x, limit, j);
    SmallPowers();
    var n := Short(x, limit, Pow2(j));
    LogShift(x, n);
    assert Pow2(n) == if x >= limit then 1 else if j == 3 then 256 else if j == 2 then 16 else 4;
    assert x * Pow2(n) < 0x1_0000;
  }

  lemma HighBitIsLog(x: uint32)
    requires 1 <= x < 0x1_0000
    ensures HighBit(x) == Log2(x)
  {
    hide Short; hide Log2; hide And; hide Shr; hide Shl;
    assert Pow2(1) == 2 && Pow2(2) == 4 && Pow2(3) == 8;
    Shifted(x, 0x100, 3);
    var x1 := Shl(x, Short(x, 0x100, 8));
    Shifted(x1, 0x1000, 2);
    var x2 := Shl(x1, Short(x1, 0x1000, 4));
    Shifted(x2, 0x4000, 1);
    TopBits(Shl(x2, Short(x2, 0x4000, 2)));
  }

  lemma TopBits(x: uint32)
    requires 0x4000 <= x < 0x1_0000
    ensures var two := Shr(x, 14); 13 + And(two, Not(two / 2 % WORD)) == Log2(x)
  {
    Pow2Of16();
    assert Pow2(15) == 0x8000;
    var two := Shr(x, 14);
    assert And(1, 0xFFFF_FFFF) == 1 && And(1, 0x7FFF_FFFF) == 1;
    assert And(two, Not(two / 2 % WORD)) == if two == 1 then 1 else 2;
    LogUnique(x, if two == 1 then 14 else 15);
  }

  function LargebinIndex(sz: nat): nat
    requires sz >= MIN_LARGE_SIZE
  {
    var x := sz / 256;
    if x >= 0x1_0000 then NBINS - 1
    else
      var m := HighBit(x);
      HighBitIsLog(x);
      NSMALLBINS + 4 * m + Shr(sz, m + 6) % 4
  }

  function BinIndex(sz: nat): nat
  {
    if sz < MIN_LARGE_SIZE then sz / 8 else LargebinIndex(sz)
  }

  /** A large bin holds the sizes of one quarter of a power of two. */
  lemma LargebinRange(sz: nat)
    requires MIN_LARGE_SIZE <= sz < 0x100_0000
    ensures var m := Log2(sz / 256); var q := LargebinIndex(sz) - NSMALLBINS - 4 * m;
      && m < 16 && 0 <= q < 4 && (4 + q) * Pow2(m + 6) <= sz < (5 + q) * Pow2(m + 6)
  {
    hide HighBit; hide Log2; hide Pow2;
    var x := sz / 256;
    HighBitIsLog(x);
    LogBelow(x);
    LogBounds(x);
    Quarters(sz, Log2(x));
  }

  lemma Quarters(sz: nat, m: nat)
    requires Pow2(m) <= sz / 256 < 2 * Pow2(m)
    ensures var q := Shr(sz, m + 6) % 4; (4 + q) * Pow2(m + 6) <= sz < (5 + q) * Pow2(m + 6)
  {
    hide Pow2; hide Shr;
    var d := Pow2(m + 6);
    QuarterSize(m);
    ByteSteps(sz, Pow2(m), d);
    InQuarter(sz, d);
    ShrIs(sz, m + 6);
  }

  lemma QuarterSize(m: nat)
    ensures 256 * Pow2(m) == 4 * Pow2(m + 6) && Pow2(m + 6) > 0
  {
    Pow2Sum(m, 6);
    assert Pow2(6) == 64;
  }

  lemma ByteSteps(sz: nat, p: nat, d: nat)
    requires p <= sz / 256 < 2 * p && 256 * p == 4 * d
    ensures 4 * d <= sz < 8 * d
  {
  }

  lemma ShrIs(sz: nat, k: nat)
    ensures Pow2(k) > 0 && Shr(sz, k) == sz / Pow2(k)
  {
  }

  lemma InQuarter(sz: nat, d: nat)
    requires d > 0 && 4 * d <= sz < 8 * d
    ensures var q := sz / d % 4; (4 + q) * d <= sz < (5 + q) * d
  {
    DivBounds(sz, d);
    MulStrict(sz / d - 3, d);
    MulStrict(8 - sz / d, d);
    assert (8 - sz / d) * d == 8 * d - sz / d * d;
    var n := sz / d;
    assert 4 <= n < 8 && n % 4 == n - 4;
    assert (n + 1) * d == n * d + d;
  }

  lemma {:induction false} Pow2Sum(m: nat, k: nat)
    ensures Pow2(m + k) == Pow2(m) * Pow2(k)
    decreases k
  {
    if k > 0 {
      Pow2Sum(m, k - 1);
      Doubled(Pow2(m), Pow2(k - 1));
    }
  }

  lemma LogBelow(x: nat)
    requires 0 < x < 0x1_0000
    ensures Log2(x) < 16
  {
    LogMonotone(x, 0xFFFF);
    Pow2Of16();
    assert Pow2(15) == 0x8000;
    LogUnique(0xFFFF, 15);
  }

  /** Bin indices grow with the size, and stay below NBINS. */
  lemma BinIndexMonotone(a: nat, b: nat)
    requires a <= b
    ensures BinIndex(a) <= BinIndex(b) < NBINS
  {
    if b >= MIN_LARGE_SIZE {
      LargebinBelow(b);
      if a >= MIN_LARGE_SIZE {
        LargebinMonotone(a, b);
      }
    }
  }

  lemma LargebinBelow(b: nat)
    requires b >= MIN_LARGE_SIZE
    ensures NSMALLBINS <= LargebinIndex(b) < NBINS
  {
    if b < 0x100_0000 {
      LargebinRange(b);
    }
  }

  lemma LargebinMonotone(a: nat, b: nat)
    requires MIN_LARGE_SIZE <= a <= b
    ensures LargebinIndex(a) <= LargebinIndex(b)
  {
    hide Log2; hide Pow2; hide LargebinIndex;
    LargebinBelow(a);
    if b >= 0x100_0000 {
      TopBin(b);
    } else {
      LargebinRange(a);
      LargebinRange(b);
      LogMonotone(a / 256, b / 256);
      var m := Log2(a / 256);
      MulStrict(LargebinIndex(a) - LargebinIndex(b), Pow2(m + 6));
      QuarterGap(LargebinIndex(a) - NSMALLBINS - 4 * m, LargebinIndex(b) - NSMALLBINS - 4 * m, Pow2(m + 6));
    }
  }

  lemma QuarterGap(p: int, q: int, d: int)
    ensures (4 + p) * d - (5 + q) * d == (p - q) * d - d
  {
  }

  lemma TopBin(b: nat)
    requires b >= 0x100_0000
    ensures LargebinIndex(b) == NBINS - 1
  {
  }

  /** A chunk of a higher bin is larger. */
  lemma HigherBinLarger(a: nat, b: nat)
    requires BinIndex(a) < BinIndex(b)
    ensures a < b
  {
    if b <= a {
      BinIndexMonotone(b, a);
    }
  }

  /** Small bins hold one size each. */
  lemma SmallBinExact(a: nat, b: nat)
    requires a % 8 == 0 && b % 8 == 0 && BinIndex(a) == BinIndex(b) && BinIndex(a) < NSMALLBINS
    ensures a == b
  {
    if a >= MIN_LARGE_SIZE {
      LargebinBelow(a);
    }
    if b >= MIN_LARGE_SIZE {
      LargebinBelow(b);
    }
  }
}
