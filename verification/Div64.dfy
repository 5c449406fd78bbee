/**
  64-bit division out of 32-bit divides (shared/div64.c), and the 64-bit routines of user/test.c:
  division by shifting and subtracting, multiplication by 16-bit limbs.
*/
module Div64 {
  import opened MallocIndex

  const U64 := 0x1_0000_0000_0000_0000

  type uint64 = x: int | 0 <= x < U64

  datatype Division = Done(quotient: uint64, remainder: uint64) | Fault

  // ----- arithmetic -----

  lemma MulMono(a: int, b: int, c: int)
    requires a <= b && c >= 0
    ensures a * c <= b * c
  {
  }

  /** The quotient and remainder are the only ones. */
  lemma DivIs(x: int, y: int, q: int, r: int)
    requires y > 0 && x == q * y + r && 0 <= r < y
    ensures q == x / y && r == x % y
  {
    DivUnique(x, y, q, r);
  }

  lemma DivFacts(x: nat, y: int)
    requires y > 0
    ensures 0 <= x / y && x == x / y * y + x % y && 0 <= x % y < y
  {
    DivBounds(x, y);
    assert x == x / y * y + x % y;
  }

  /** A quotient is below a bound when the dividend is. */
  lemma DivBelow(x: nat, y: int, b: int)
    requires y > 0 && x < b * y
    ensures x / y < b
  {
    DivFacts(x, y);
    MulStrict(x / y - b + 1, y);
    assert (x / y - b + 1) * y == x / y * y - b * y + y;
  }

  // ----- the 32-bit divide instruction -----

  /** `divl`: 64 by 32 bits; it faults on a zero divisor and on a quotient of more than 32 bits. */
  function Divl(high: uint32, low: uint32, d: uint32): (r: Division)
    ensures high < d ==> r.Done? && r.quotient == (high * WORD + low) / d && r.remainder == (high * WORD + low) % d
    ensures high < d ==> r.quotient < WORD && r.remainder < d
    ensures high >= d ==> r == Fault
  {
    if high >= d then Fault
    else
      var n := high * WORD + low;
      DivFacts(n, d);
      QuotientFits(high, low, d);
      Done(n / d, n % d)
  }

  lemma QuotientFits(high: uint32, low: uint32, d: uint32)
    requires high < d
    ensures (high * WORD + low) / d < WORD
  {
    MulMono(high + 1, d, WORD);
    assert WORD * d == d * WORD;
    DivBelow(high * WORD + low, d, WORD);
  }

  // ----- do_div64 -----

  /** `rshift64` */
  function Shifted(x: uint64, l: nat): (r: uint64)
    ensures r == x / Pow2(l)
  {
    DivBounds(x, Pow2(l));
    MulMono(1, Pow2(l), x / Pow2(l));
    x / Pow2(l)
  }

  /** q is the quotient or at most 2 below it. */
  ghost predicate Near(x: nat, y: nat, q: int) { q >= 0 && q * y <= x < (q + 3) * y }

  /** The shift that brings a divisor of more than 32 bits down to 32: `log2(y1) + 1`. */
  function ShiftOf(y: uint64): (l: nat)
    requires y >= WORD
    ensures 1 <= l <= 32 && WORD / 2 * Pow2(l) <= y < WORD * Pow2(l)
  {
    var y1 := y / WORD;
    LogBounds(y1);
    LogSmall(y1);
    ShiftBounds(y, y1, Pow2(Log2(y1)));
    Log2(y1) + 1
  }

  lemma LogSmall(n: nat)
    requires 0 < n < WORD
    ensures Log2(n) < 32
  {
    LogMonotone(n, 0xFFFF_FFFF);
    Pow2Of16();
    Pow2Sum(16, 15);
    assert Pow2(15) == 0x8000;
    LogUnique(0xFFFF_FFFF, 31);
  }

  lemma ShiftBounds(y: uint64, y1: nat, p: nat)
    requires y1 == y / WORD && p <= y1 < 2 * p
    ensures WORD / 2 * (2 * p) <= y < WORD * (2 * p)
  {
    DivBounds(y, WORD);
    MulMono(p, y1, WORD);
    MulMono(y1 + 1, 2 * p, WORD);
  }

  /** The shifted divisor plus one is not a 32-bit number. */
  predicate Wraps(y: uint64)
  {
    y >= WORD && Shifted(y, ShiftOf(y)) == WORD - 1
  }

  /** The divide faults exactly for the divisors whose leading 32 bits, followed by at least one
      more bit, are all ones. */
  lemma WrapsIff(y: uint64)
    ensures Wraps(y) <==> exists l: nat :: 1 <= l <= 32 && LeadingOnes(y, l)
  {
    hide ShiftOf; hide Shifted; hide Pow2;
    if y >= WORD {
      var l := ShiftOf(y);
      DivBounds(y, Pow2(l));
      ShiftedDivisor(y);
      if Wraps(y) {
        assert LeadingOnes(y, l);
      }
      forall k: nat | 1 <= k <= 32 && LeadingOnes(y, k) ensures Wraps(y) {
        OnesShift(y, k, l);
      }
    } else {
      forall k: nat | 1 <= k <= 32 ensures !LeadingOnes(y, k) {
        BelowWord(y, k);
      }
    }
  }

  ghost predicate LeadingOnes(y: nat, l: nat) { (WORD - 1) * Pow2(l) <= y < WORD * Pow2(l) }

  lemma BelowWord(y: nat, k: nat)
    requires y < WORD && k >= 1
    ensures !LeadingOnes(y, k)
  {
    MulMono(2, Pow2(k), WORD - 1);
  }

  lemma SameScale(y: nat, p: nat, q: nat)
    requires (WORD - 1) * p <= y < WORD * p && WORD / 2 * q <= y < WORD * q
    ensures 2 * p > q && 2 * q > p
  {
  }

  lemma Doubles(k: nat, l: nat)
    requires k < l
    ensures 2 * Pow2(k) <= Pow2(l)
  {
    Pow2Sum(k + 1, l - k - 1);
    MulMono(1, Pow2(l - k - 1), Pow2(k + 1));
  }

  lemma OnesShift(y: uint64, k: nat, l: nat)
    requires y >= WORD && l == ShiftOf(y) && LeadingOnes(y, k)
    ensures k == l && Shifted(y, l) == WORD - 1
  {
    hide Pow2; hide ShiftOf; hide Shifted;
    SameScale(y, Pow2(k), Pow2(l));
    if k < l {
      Doubles(k, l);
    }
    if l < k {
      Doubles(l, k);
    }
    OnesQuotient(y, Pow2(l));
  }

  lemma OnesQuotient(y: nat, p: nat)
    requires p > 0 && (WORD - 1) * p <= y < WORD * p
    ensures y / p == WORD - 1
  {
    DivIs(y, p, WORD - 1, y - (WORD - 1) * p);
  }

  /** For instance 2^64 - 2^32. */
  lemma WrapExample()
    ensures Wraps(0xFFFF_FFFF_0000_0000)
  {
    Pow2Of16();
    Pow2Sum(16, 16);
    assert LeadingOnes(0xFFFF_FFFF_0000_0000, 32);
    WrapsIff(0xFFFF_FFFF_0000_0000);
  }

  lemma ShiftedDivisor(y: uint64)
    requires y >= WORD
    ensures WORD / 2 <= Shifted(y, ShiftOf(y)) < WORD
  {
    var p := Pow2(ShiftOf(y));
    DivBelow(y, p, WORD);
    DivBounds(y, p);
    MulStrict(WORD / 2 - y / p, p);
    assert (WORD / 2 - y / p) * p == WORD / 2 * p - y / p * p;
  }

  lemma ShiftedDividend(x: uint64, l: nat)
    requires 1 <= l <= 32
    ensures Shifted(x, l) / WORD < WORD / 2 && Shifted(x, l) < U64 / 2
  {
    var p := Pow2(l);
    DivBounds(x, p);
    assert p >= 2;
    MulMono(2, p, x / p);
    assert x / p * p <= x && x / p * 2 <= x / p * p;
  }

  /** The estimate is not above the quotient and at most 2 below it. */
  lemma Estimate(x: uint64, y: uint64, l: nat)
    requires y >= WORD && l == ShiftOf(y) && !Wraps(y)
    ensures Near(x, y, Shifted(x, l) / (Shifted(y, l) + 1))
  {
    hide Pow2; hide ShiftOf; hide Near;
    ShiftedDivisor(y);
    ShiftedDividend(x, l);
    DivBounds(x, Pow2(l));
    DivBounds(y, Pow2(l));
    EstimateNear(x, y, Pow2(l), Shifted(x, l), Shifted(y, l));
  }

  lemma EstimateNear(x: uint64, y: uint64, p: nat, xs: nat, ys: nat)
    requires xs * p <= x < (xs + 1) * p && ys * p <= y < (ys + 1) * p && WORD / 2 <= ys < WORD - 1 && xs < U64 / 2
    ensures Near(x, y, xs / (ys + 1))
  {
    var qe := xs / (ys + 1);
    DivBounds(xs, ys + 1);
    LowerEstimate(x, y, p, xs, ys, qe);
    MulMono(WORD / 2, ys + 1, WORD);
    DivBelow(xs, ys + 1, WORD);
    UpperEstimate(x, y, p, xs, ys, qe);
  }

  lemma LowerEstimate(x: nat, y: nat, p: nat, xs: nat, ys: nat, qe: nat)
    requires xs * p <= x && y < (ys + 1) * p && qe * (ys + 1) <= xs
    ensures qe * y <= x
  {
    MulMono(y, (ys + 1) * p, qe);
    MulMono(qe * (ys + 1), xs, p);
    assert (ys + 1) * p * qe == qe * (ys + 1) * p;
    assert y * qe == qe * y;
  }

  lemma UpperEstimate(x: nat, y: nat, p: nat, xs: nat, ys: nat, qe: nat)
    requires x < (xs + 1) * p && ys * p <= y && xs < (qe + 1) * (ys + 1) && WORD / 2 <= ys && qe < WORD
    ensures x < (qe + 3) * y
  {
    var a := (qe + 1) * (ys + 1);
    var b := (qe + 3) * ys;
    assert a <= b by {
      assert a == qe * ys + qe + ys + 1;
      assert b == qe * ys + 3 * ys;
    }
    MulMono(xs + 1, a, p);
    MulMono(a, b, p);
    MulMono(ys * p, y, qe + 3);
    assert b * p == ys * p * (qe + 3);
    assert y * (qe + 3) == (qe + 3) * y;
  }

  /** `do_div64`: quotient and remainder for every divisor, except that the divide faults when the
      shifted divisor plus one wraps to zero.  At most two corrections are needed, and no other
      divide overflows. */
  method DoDiv64(x: uint64, y: uint64) returns (res: Division, ghost corrections: nat)
    ensures Wraps(y) ==> res == Fault
    ensures y == 0 ==> res == Done(0, x)
    ensures y != 0 && !Wraps(y) ==> res == DivMod(x, y)
    ensures corrections <= 2
  {
    var y1, y0 := y / WORD, y % WORD;
    var x1, x0 := x / WORD, x % WORD;
    corrections := 0;
    if y1 != 0 {
      res, corrections := WideDivisor(x, y);
    } else if x1 < y0 {
      res := Divl(x1, x0, y0);
    } else if y0 != 0 {
      res := TwoDivides(x, y);
    } else {
      res := Done(0, x);
    }
  }

  /** The exact quotient and remainder. */
  function DivMod(x: uint64, y: uint64): Division
    requires y > 0
  {
    DivFacts(x, y);
    MulMono(1, y, x / y);
    Done(x / y, x % y)
  }

  method WideDivisor(x: uint64, y: uint64) returns (res: Division, ghost corrections: nat)
    requires y >= WORD
    ensures res == if Wraps(y) then Fault else DivMod(x, y)
    ensures corrections <= 2 && (res.Done? ==> res.quotient < WORD)
  {
    hide Pow2; hide ShiftOf; hide Divl; hide Shifted; hide Near; hide DivMod;
    corrections := 0;
    var l := ShiftOf(y);
    var y0 := Shifted(y, l);
    var xs := Shifted(x, l);
    ShiftedDivisor(y);
    ShiftedDividend(x, l);
    var d := Divl(xs / WORD, xs % WORD, (y0 + 1) % WORD);
    if d.Fault? { return Fault, 0; }
    Estimate(x, y, l);
    assert xs / WORD * WORD + xs % WORD == xs;
    res, corrections := Correct(x, y, d.quotient);
    QuotientSmall(x, y);
  }

  /** The quotient by a divisor of more than 32 bits has at most 32 bits. */
  lemma QuotientSmall(x: uint64, y: uint64)
    requires y >= WORD
    ensures DivMod(x, y).quotient < WORD
  {
    MulMono(WORD, y, WORD);
    DivBelow(x, y, WORD);
  }

  function Times(a: int, b: int): int { a * b }

  lemma TimesNext(q: int, y: int)
    ensures Times(q + 1, y) == Times(q, y) + y
  {
  }

  lemma NearStart(x: nat, y: nat, q: int)
    requires Near(x, y, q)
    ensures 0 <= x - Times(q, y) < 3 * y && q >= 0
  {
    assert (q + 3) * y == q * y + 3 * y;
  }

  lemma TimesDiv(x: int, y: int, q: int, r: int)
    requires 0 <= x < U64 && 0 < y < U64 && x == Times(q, y) + r && 0 <= r < y
    ensures 0 <= q < U64 && DivMod(x, y) == Done(q, r)
  {
    DivIs(x, y, q, r);
  }

  /** The loop that corrects the estimate. */
  method Correct(x: uint64, y: uint64, estimate: nat) returns (res: Division, ghost corrections: nat)
    requires y >= WORD && Near(x, y, estimate)
    ensures res == DivMod(x, y) && corrections <= 2
  {
    hide Times; hide Near; hide DivMod;
    corrections := 0;
    NearStart(x, y, estimate);
    var q := estimate;
    var r := x - Times(q, y);
    while r >= y
      invariant 0 <= r && x == Times(q, y) + r && corrections <= 2
      invariant r < (if corrections == 0 then 3 * y else if corrections == 1 then 2 * y else y)
      decreases r
    {
      TimesNext(q, y);
      q := q + 1;
      r := r - y;
      corrections := corrections + 1;
    }
    TimesDiv(x, y, q, r);
    res := Done(q, r);
  }

  method TwoDivides(x: uint64, y: uint64) returns (res: Division)
    requires 0 < y < WORD
    ensures res == DivMod(x, y)
  {
    hide Divl;
    var x1, x0 := x / WORD, x % WORD;
    var first := Divl(0, x1, y);
    var second := Divl(first.remainder, x0, y);
    LongDivision(x, y, x1, x0, first.quotient, first.remainder, second.quotient, second.remainder);
    res := Done(first.quotient * WORD + second.quotient, second.remainder);
  }

  lemma LongDivision(x: uint64, y: int, x1: int, x0: int, q1: int, r1: int, q0: int, r0: int)
    requires 0 < y && x1 == x / WORD && x0 == x % WORD && 0 <= q0 < WORD
    requires q1 == x1 / y && r1 == x1 % y && q0 == (r1 * WORD + x0) / y && r0 == (r1 * WORD + x0) % y
    ensures q1 * WORD + q0 == x / y && r0 == x % y && 0 <= q1 * WORD + q0 < U64
  {
    DivFacts(x1, y);
    DivFacts(r1 * WORD + x0, y);
    assert x == (q1 * WORD + q0) * y + r0 by {
      assert x == x1 * WORD + x0;
      assert x1 * WORD == q1 * y * WORD + r1 * WORD;
      assert q1 * y * WORD == q1 * WORD * y;
      assert (q1 * WORD + q0) * y == q1 * WORD * y + q0 * y;
    }
    DivIs(x, y, q1 * WORD + q0, r0);
    DivBounds(x, y);
    MulMono(1, y, x / y);
  }

  // ----- div64 of user/test.c -----

  /** Shift and subtract: double the divisor as long as it fits, then halve it again. */
  method ShiftSubtract(x0: uint64, d0: uint64) returns (q: uint64, r: uint64)
    ensures d0 == 0 ==> q == 0 && r == x0
    ensures d0 != 0 ==> q == x0 / d0 && r == x0 % d0
  {
    var x, div: int, mul: nat := x0, d0, 1;
    if div > x || div == 0 {
      if d0 != 0 {
        DivIs(x0, d0, 0, x0);
      }
      return 0, x;
    }
    ghost var k: nat := 0;
    while div < U64 / 2
      invariant mul == Pow2(k) && div == d0 * mul && 0 < div <= x < U64
      decreases x - div
    {
      var newd := div + div;
      if newd > x { break; }
      div := newd;
      mul := mul + mul;
      k := k + 1;
    }
    assert x < 2 * div;
    q, r := Subtract(x0, d0, div, mul, k);
  }

  method Subtract(x0: uint64, d0: uint64, div0: int, mul0: nat, ghost k0: nat) returns (q: uint64, r: uint64)
    requires 0 < d0 && mul0 == Pow2(k0) && div0 == d0 * mul0 && div0 <= x0 < 2 * div0
    ensures q == x0 / d0 && r == x0 % d0
  {
    var div, mul := div0, mul0;
    ghost var k := k0;
    var quotient: nat, x := mul, x0 - div;
    while true
      invariant mul == Pow2(k) && div == d0 * mul && 0 <= x < div && x0 == quotient * d0 + x
      decreases k
    {
      if mul == 1 {
        DivIs(x0, d0, quotient, x);
        DivBounds(x0, d0);
        MulMono(1, d0, x0 / d0);
        return quotient, x;
      }
      Halve(d0, mul, k);
      mul := mul / 2;
      div := div / 2;
      k := k - 1;
      if x >= div {
        assert (quotient + mul) * d0 == quotient * d0 + d0 * mul;
        quotient := quotient + mul;
        x := x - div;
      }
    }
  }

  lemma Halve(d: int, mul: nat, k: nat)
    requires mul == Pow2(k) && mul != 1
    ensures k > 0 && mul / 2 == Pow2(k - 1) && d * mul / 2 == d * (mul / 2) && d * mul == 2 * (d * (mul / 2))
  {
    var h := Pow2(k - 1);
    assert mul == 2 * h;
    assert d * mul == 2 * (d * h);
  }

  // ----- mul64 of user/test.c -----

  function Limb(x: uint64, i: nat): int
    requires i < 4
  {
    if i == 0 then x % 0x1_0000
    else if i == 1 then x / 0x1_0000 % 0x1_0000
    else if i == 2 then x / 0x1_0000_0000 % 0x1_0000
    else x / 0x1_0000_0000_0000
  }

  lemma Limbs(x: uint64)
    ensures x == Limb(x, 0) + 0x1_0000 * Limb(x, 1) + 0x1_0000_0000 * Limb(x, 2) + 0x1_0000_0000_0000 * Limb(x, 3)
    ensures forall i: nat :: i < 4 ==> 0 <= Limb(x, i) < 0x1_0000
  {
    LowLimb(x);
    LowLimb(x / 0x1_0000);
    LowLimb(x / 0x1_0000_0000);
    assert x / 0x1_0000 / 0x1_0000 == x / 0x1_0000_0000;
    assert x / 0x1_0000_0000 / 0x1_0000 == x / 0x1_0000_0000_0000;
    hide Limb;
    LimbIs(x);
  }

  lemma LowLimb(x: int)
    requires 0 <= x
    ensures x == x % 0x1_0000 + 0x1_0000 * (x / 0x1_0000) && 0 <= x % 0x1_0000 < 0x1_0000 && 0 <= x / 0x1_0000
  {
  }

  lemma LimbIs(x: uint64)
    ensures Limb(x, 0) == x % 0x1_0000 && Limb(x, 1) == x / 0x1_0000 % 0x1_0000
    ensures Limb(x, 2) == x / 0x1_0000_0000 % 0x1_0000 && Limb(x, 3) == x / 0x1_0000_0000_0000 < 0x1_0000
  {
  }

  /** Multiplication by 16-bit limbs is multiplication modulo 2^64, and no product of two limbs
      overflows 32 bits. */
  method Mul64(x: uint64, y: uint64) returns (res: uint64)
    ensures res == x * y % U64
  {
    hide Limb; hide Product;
    var a, b, c, d := Limb(x, 0), Limb(x, 1), Limb(x, 2), Limb(x, 3);
    var e, f, g, h := Limb(y, 0), Limb(y, 1), Limb(y, 2), Limb(y, 3);
    Limbs(x);
    Limbs(y);
    var s3 := Product(d, e) + Product(c, f) + Product(b, g) + Product(a, h);
    var s2 := Product(c, e) + Product(b, f) + Product(a, g);
    var s1 := Product(b, e) + Product(a, f);
    var s0 := Product(a, e);
    res := s3;
    res := ShiftAdd(res, s2);
    res := ShiftAdd(res, s1);
    res := ShiftAdd(res, s0);
    Assembled(x, y, s3, s2, s1, s0);
  }

  /** `res <<= 16; res += s;` in 64 bits. */
  function ShiftAdd(r: uint64, s: nat): uint64 { (r * 0x1_0000 + s) % U64 }

  lemma Assembled(x: uint64, y: uint64, s3: nat, s2: nat, s1: nat, s0: nat)
    requires s3 < U64
    requires s3 == Limb(x, 3) * Limb(y, 0) + Limb(x, 2) * Limb(y, 1) + Limb(x, 1) * Limb(y, 2) + Limb(x, 0) * Limb(y, 3)
    requires s2 == Limb(x, 2) * Limb(y, 0) + Limb(x, 1) * Limb(y, 1) + Limb(x, 0) * Limb(y, 2)
    requires s1 == Limb(x, 1) * Limb(y, 0) + Limb(x, 0) * Limb(y, 1) && s0 == Limb(x, 0) * Limb(y, 0)
    ensures ShiftAdd(ShiftAdd(ShiftAdd(s3, s2), s1), s0) == x * y % U64
  {
    hide Limb;
    var a, b, c, d := Limb(x, 0), Limb(x, 1), Limb(x, 2), Limb(x, 3);
    var e, f, g, h := Limb(y, 0), Limb(y, 1), Limb(y, 2), Limb(y, 3);
    Limbs(x);
    Limbs(y);
    Horner(s3, s2, s1, s0);
    Columns(a, b, c, d, e, f, g, h);
    Drop(x * y, s0 + 0x1_0000 * s1 + 0x1_0000_0000 * s2 + 0x1_0000_0000_0000 * s3,
         b * h + c * g + d * f + 0x1_0000 * (c * h + d * g) + 0x1_0000_0000 * (d * h));
  }

  /** A 32-bit product. */
  function Product(a: int, b: int): (r: int)
    requires 0 <= a < 0x1_0000 && 0 <= b < 0x1_0000
    ensures r == a * b && 0 <= r < WORD
  {
    ProductBound(a, b);
    Small(a * b);
    a * b % WORD
  }

  lemma ProductBound(a: int, b: int)
    requires 0 <= a < 0x1_0000 && 0 <= b < 0x1_0000
    ensures 0 <= a * b < WORD
  {
    MulMono(0, a, b);
    MulMono(a, 0xFFFF, b);
    assert a * b <= 0xFFFF * b;
  }

  lemma Small(n: int)
    requires 0 <= n < WORD
    ensures n % WORD == n
  {
  }

  lemma Drop(p: int, s: int, k: int)
    requires p == s + U64 * k
    ensures p % U64 == s % U64
  {
  }

  lemma Horner(s3: nat, s2: nat, s1: nat, s0: nat)
    requires s3 < U64
    ensures ShiftAdd(ShiftAdd(ShiftAdd(s3, s2), s1), s0)
         == (s0 + 0x1_0000 * s1 + 0x1_0000_0000 * s2 + 0x1_0000_0000_0000 * s3) % U64
  {
    var t2 := s3 * 0x1_0000 + s2;
    ModStep(t2, s1);
    ModStep(t2 * 0x1_0000 + s1, s0);
  }

  lemma ModStep(t: nat, s: nat)
    ensures (t % U64 * 0x1_0000 + s) % U64 == (t * 0x1_0000 + s) % U64
  {
    var q := t / U64;
    Drop(t * 0x1_0000 + s, t % U64 * 0x1_0000 + s, q * 0x1_0000);
  }

  lemma Columns(a: int, b: int, c: int, d: int, e: int, f: int, g: int, h: int)
    ensures (a + 0x1_0000 * b + 0x1_0000_0000 * c + 0x1_0000_0000_0000 * d)
          * (e + 0x1_0000 * f + 0x1_0000_0000 * g + 0x1_0000_0000_0000 * h)
         == a * e + 0x1_0000 * (b * e + a * f) + 0x1_0000_0000 * (c * e + b * f + a * g)
          + 0x1_0000_0000_0000 * (d * e + c * f + b * g + a * h)
          + U64 * (b * h + c * g + d * f + 0x1_0000 * (c * h + d * g) + 0x1_0000_0000 * (d * h))
  {
    var y := e + 0x1_0000 * f + 0x1_0000_0000 * g + 0x1_0000_0000_0000 * h;
    Spread(a, e, f, g, h);
    Spread(b, e, f, g, h);
    Spread(c, e, f, g, h);
    Spread(d, e, f, g, h);
    assert (a + 0x1_0000 * b + 0x1_0000_0000 * c + 0x1_0000_0000_0000 * d) * y
        == a * y + 0x1_0000 * (b * y) + 0x1_0000_0000 * (c * y) + 0x1_0000_0000_0000 * (d * y);
  }

  lemma Spread(a: int, e: int, f: int, g: int, h: int)
    ensures a * (e + 0x1_0000 * f + 0x1_0000_0000 * g + 0x1_0000_0000_0000 * h)
         == a * e + 0x1_0000 * (a * f) + 0x1_0000_0000 * (a * g) + 0x1_0000_0000_0000 * (a * h)
  {
  }
}
