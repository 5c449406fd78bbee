/**
  Printing numbers (the `print_num` part of `_doprnt`, shared/doprnt.c) and reading them back
  (`strtoul`, shared/strtoul.c).  A C string is the sequence of its characters before the NUL.
*/
module NumberText {
  import opened MallocIndex

  const MAXBUF := 32

  predicate IsBase(base: nat) { base == 8 || base == 10 || base == 16 }

  // ----- digits -----

  function Digit(d: nat): char
    requires d < 16
  {
    "0123456789abcdef"[d]
  }

  /** The digits of u, most significant first. */
  function Digits(u: nat, base: nat): (s: string)
    requires 2 <= base <= 16
    ensures |s| > 0
  {
    if u < base then [Digit(u)] else Digits(u / base, base) + [Digit(u % base)]
  }

  /** The value of a character as a digit of the base, as `strtoul` sees it. */
  function ValueOf(c: char, base: nat): (v: int)
    ensures -1 <= v < 36 && v < (if base > 0 then base else 1)
  {
    var n := c as int;
    if '0' <= c <= '9' && n - '0' as int < base then n - '0' as int
    else if 'a' <= c <= 'z' && n - 'a' as int + 10 < base then n - 'a' as int + 10
    else if 'A' <= c <= 'Z' && n - 'A' as int + 10 < base then n - 'A' as int + 10
    else -1
  }

  lemma DigitValue(d: nat, base: nat)
    requires d < base <= 16
    ensures ValueOf(Digit(d), base) == d && Digit(d) != 'x' && Digit(d) != 'X' && !IsSpace(Digit(d))
    ensures Digit(d) == '0' <==> d == 0
  {
  }

  predicate IsSpace(c: char) { c == ' ' || c == '\t' || c == '\n' || c == '\r' || c as int == 11 || c as int == 12 }

  lemma {:induction false} DigitsFit(u: nat, base: nat, k: nat)
    requires 2 <= base <= 16 && u < Pow2(k) && k > 0
    ensures |Digits(u, base)| <= k
    decreases k
  {
    if u >= base {
      assert k > 1 by { assert k == 1 ==> Pow2(k) == 2; }
      Quotient(u, base);
      DigitsFit(u / base, base, k - 1);
    }
  }

  lemma TwoTimes(q: nat, base: nat)
    requires base >= 2
    ensures 2 * q <= q * base
  {
  }

  lemma Quotient(u: nat, base: nat)
    requires base >= 2
    ensures 0 <= u / base <= u / 2 && u == u / base * base + u % base && 0 <= u % base < base
  {
    DivBounds(u, base);
    TwoTimes(u / base, base);
    assert u == u / base * base + u % base;
  }

  // ----- print_num -----

  /** A conversion: field width, precision (-1 for none), zero padding, left adjustment, `#`. */
  datatype Format = Format(width: nat, prec: int, zeroPad: bool, left: bool, alt: bool)

  function Repeat(c: char, n: int): (s: string)
    ensures |s| == (if n > 0 then n else 0) && forall i :: 0 <= i < |s| ==> s[i] == c
  {
    seq(if n > 0 then n else 0, i => c)
  }

  function Prefix(u: nat, base: nat, alt: bool): string {
    if u != 0 && alt then (if base == 8 then "0" else if base == 16 then "0x" else "") else ""
  }

  /** What is left of the width for padding. */
  function Room(u: nat, base: nat, sign: string, f: Format): int
    requires 2 <= base <= 16
  {
    var d := |Digits(u, base)|;
    f.width - d - |sign| - |Prefix(u, base, f.alt)| - (if f.prec > d then f.prec - d else 0)
  }

  /** The text of a number: blanks, sign, prefix, zeros for the precision and for the width, digits,
      blanks. */
  function Printed(u: nat, base: nat, sign: string, f: Format): string
    requires 2 <= base <= 16
  {
    var d := Digits(u, base);
    var room := Room(u, base, sign, f);
    Repeat(' ', if !f.zeroPad && !f.left then room else 0) + sign + Prefix(u, base, f.alt)
    + Repeat('0', f.prec - |d|) + Repeat('0', if f.zeroPad then room else 0) + d
    + Repeat(' ', if !f.zeroPad && f.left then room else 0)
  }

  function Max(a: int, b: int): int { if a > b then a else b }

  /** The length of the output: the width, unless sign, prefix and digits need more. */
  lemma PrintedLength(u: nat, base: nat, sign: string, f: Format)
    requires 2 <= base <= 16
    ensures |Printed(u, base, sign, f)|
         == Max(f.width, |sign| + |Prefix(u, base, f.alt)| + Max(f.prec, |Digits(u, base)|))
  {
  }

  /** Where everything stands in a text: blanks only before the sign or, with left adjustment, after
      the digits, and none with zero padding; the prefix directly after the sign; zeros between the
      prefix and the digits; as long as the width asks for. */
  predicate LaidOut(t: string, sign: string, prefix: string, d: string, f: Format) {
    var body := |sign| + |prefix| + Max(f.prec, |d|);
    var pad := Max(f.width - body, 0);
    var lead, trail := if f.left || f.zeroPad then 0 else pad, if f.left && !f.zeroPad then pad else 0;
    && |t| == body + pad
    && (forall i :: 0 <= i < lead ==> t[i] == ' ')
    && t[lead..lead + |sign|] == sign && t[lead + |sign|..lead + |sign| + |prefix|] == prefix
    && (forall i :: lead + |sign| + |prefix| <= i < |t| - trail - |d| ==> t[i] == '0')
    && t[|t| - trail - |d|..|t| - trail] == d
    && (forall i :: |t| - trail <= i < |t| ==> t[i] == ' ')
  }

  lemma PrintedPlaces(u: nat, base: nat, sign: string, f: Format)
    requires 2 <= base <= 16
    ensures
      var prefix := if u != 0 && f.alt && base == 8 then "0" else if u != 0 && f.alt && base == 16 then "0x" else "";
      LaidOut(Printed(u, base, sign, f), sign, prefix, Digits(u, base), f)
  {
    hide Digits; hide LaidOut; hide Prefix; hide Repeat;
    PrefixIs(u, base, f.alt);
    var d, prefix, room := Digits(u, base), Prefix(u, base, f.alt), Room(u, base, sign, f);
    var a := Repeat(' ', if !f.zeroPad && !f.left then room else 0);
    var z := Repeat('0', f.prec - |d|) + Repeat('0', if f.zeroPad then room else 0);
    var b := Repeat(' ', if !f.zeroPad && f.left then room else 0);
    Regrouped(a + sign + prefix, Repeat('0', f.prec - |d|), Repeat('0', if f.zeroPad then room else 0));
    PartsPlaced(a, sign, prefix, z, d, b, f);
  }

  lemma Regrouped(a: string, b: string, c: string)
    ensures a + b + c == a + (b + c)
  {
  }

  lemma PartsPlaced(a: string, sign: string, prefix: string, z: string, d: string, b: string, f: Format)
    requires var pad := Max(f.width - (|sign| + |prefix| + Max(f.prec, |d|)), 0);
      && |a| == (if f.left || f.zeroPad then 0 else pad) && |b| == (if f.left && !f.zeroPad then pad else 0)
      && |z| == Max(f.prec, |d|) - |d| + (if f.zeroPad then pad else 0)
    requires (forall i :: 0 <= i < |a| ==> a[i] == ' ') && (forall i :: 0 <= i < |b| ==> b[i] == ' ')
    requires forall i :: 0 <= i < |z| ==> z[i] == '0'
    ensures LaidOut(a + sign + prefix + z + d + b, sign, prefix, d, f)
  {
    var p1 := a + sign;
    var p2 := p1 + prefix;
    var p3 := p2 + z;
    var p4 := p3 + d;
    var t := p4 + b;
    var i, j, k, l, m := |a|, |p1|, |p2|, |p3|, |p4|;
    Appended(a, sign, 0, i);
    Appended(p1, prefix, 0, i);
    Appended(p1, prefix, i, j);
    Appended(p2, z, 0, i);
    Appended(p2, z, i, j);
    Appended(p2, z, j, k);
    Appended(p3, d, 0, i);
    Appended(p3, d, i, j);
    Appended(p3, d, j, k);
    Appended(p3, d, k, l);
    Appended(p4, b, 0, i);
    Appended(p4, b, i, j);
    Appended(p4, b, j, k);
    Appended(p4, b, k, l);
    Appended(p4, b, l, m);
    AllSame(t, 0, i, a, ' ');
    AllSame(t, k, l, z, '0');
    AllSame(t, m, |t|, b, ' ');
  }

  lemma Appended(x: string, y: string, i: nat, j: nat)
    requires i <= j <= |x|
    ensures (x + y)[i..j] == x[i..j] && (x + y)[|x|..|x| + |y|] == y && x[0..|x|] == x
  {
  }

  lemma AllSame(t: string, i: nat, j: nat, s: string, c: char)
    requires i <= j <= |t| && t[i..j] == s && forall x :: 0 <= x < |s| ==> s[x] == c
    ensures forall x :: i <= x < j ==> t[x] == c
  {
    forall x | i <= x < j ensures t[x] == c {
      assert t[x] == s[x - i];
    }
  }

  /** The layout determines the text. */
  lemma LaidOutOnce(t: string, t': string, sign: string, prefix: string, d: string, f: Format)
    requires LaidOut(t, sign, prefix, d, f) && LaidOut(t', sign, prefix, d, f)
    ensures t == t'
  {
    var pad := Max(f.width - (|sign| + |prefix| + Max(f.prec, |d|)), 0);
    var lead, trail := if f.left || f.zeroPad then 0 else pad, if f.left && !f.zeroPad then pad else 0;
    var j, k, l := lead + |sign|, lead + |sign| + |prefix|, |t| - trail - |d|;
    SliceSame(t, t', lead, j);
    SliceSame(t, t', j, k);
    SliceSame(t, t', l, l + |d|);
    forall i | 0 <= i < |t| ensures t[i] == t'[i] {
      if i < lead {
        assert t[i] == ' ' && t'[i] == ' ';
      } else if k <= i < l {
        assert t[i] == '0' && t'[i] == '0';
      } else if l + |d| <= i {
        assert t[i] == ' ' && t'[i] == ' ';
      }
    }
  }

  lemma SliceSame(t: string, t': string, i: nat, j: nat)
    requires i <= j <= |t| == |t'| && t[i..j] == t'[i..j]
    ensures forall k :: i <= k < j ==> t[k] == t'[k]
  {
    forall k | i <= k < j ensures t[k] == t'[k] {
      assert t[k] == t[i..j][k - i] && t'[k] == t'[i..j][k - i];
    }
  }

  /** Without left adjustment the text ends in the digits, with it it begins with the sign; with zero
      padding both, and there is no blank.  A blank stands first, or last, exactly when the width is
      larger than what has to be printed and the adjustment is to the right, or to the left. */
  lemma PrintedEnds(u: nat, base: nat, sign: string, f: Format)
    requires 2 <= base <= 16 && ' ' !in sign
    ensures var t, d := Printed(u, base, sign, f), Digits(u, base);
      var wide := f.width > |sign| + |Prefix(u, base, f.alt)| + Max(f.prec, |d|);
      && |t| >= |sign| + |d| > 0 && (!f.left || f.zeroPad ==> t[|t| - |d|..] == d)
      && (f.left || f.zeroPad ==> t[..|sign|] == sign)
      && (f.zeroPad ==> ' ' !in t)
      && (t[0] == ' ' <==> wide && !f.left && !f.zeroPad) && (t[|t| - 1] == ' ' <==> wide && f.left && !f.zeroPad)
  {
    hide Printed; hide Digits; hide Prefix;
    PrintedPlaces(u, base, sign, f);
    PrefixIs(u, base, f.alt);
    AllDigits(u, base);
    var t, d, prefix := Printed(u, base, sign, f), Digits(u, base), Prefix(u, base, f.alt);
    var lead := if f.left || f.zeroPad then 0 else |t| - |sign| - |prefix| - Max(f.prec, |d|);
    var trail := if f.left && !f.zeroPad then |t| - |sign| - |prefix| - Max(f.prec, |d|) else 0;
    NoBlankInside(t, sign, prefix, d, lead, trail);
    if trail == 0 {
      assert t[|t| - |d|..] == t[|t| - |d|..|t|];
    }
  }

  lemma NoBlankInside(t: string, sign: string, prefix: string, d: string, lead: nat, trail: nat)
    requires lead + |sign| + |prefix| + |d| + trail <= |t| && ' ' !in sign && ' ' !in prefix && ' ' !in d
    requires t[lead..lead + |sign|] == sign && t[lead + |sign|..lead + |sign| + |prefix|] == prefix
    requires forall i :: lead + |sign| + |prefix| <= i < |t| - trail - |d| ==> t[i] == '0'
    requires t[|t| - trail - |d|..|t| - trail] == d
    ensures forall i :: lead <= i < |t| - trail ==> t[i] != ' '
  {
    forall i | lead <= i < |t| - trail ensures t[i] != ' ' {
      var j, k, l := lead + |sign|, lead + |sign| + |prefix|, |t| - trail - |d|;
      if i < j {
        assert t[i] == sign[i - lead];
      } else if i < k {
        assert t[i] == prefix[i - j];
      } else if l <= i {
        assert t[i] == d[i - l];
      }
    }
  }

  lemma PrefixIs(u: nat, base: nat, alt: bool)
    ensures Prefix(u, base, alt)
         == if u != 0 && alt && base == 8 then "0" else if u != 0 && alt && base == 16 then "0x" else ""
    ensures ' ' !in Prefix(u, base, alt)
  {
  }

  /** The digits are lower-case digits of the base, and the first is not 0 unless it is the only one. */
  lemma {:induction false} DigitsPlain(u: nat, base: nat)
    requires 2 <= base <= 16
    ensures forall i :: 0 <= i < |Digits(u, base)| ==> Digits(u, base)[i] in "0123456789abcdef"[..base]
    ensures |Digits(u, base)| > 1 ==> Digits(u, base)[0] != '0'
    ensures u > 0 ==> Digits(u, base)[0] != '0'
    decreases u
  {
    hide Digits; hide Digit;
    DigitsStep(u, base);
    Quotient(u, base);
    DigitIn(u % base, base);
    if u / base != 0 {
      DigitsPlain(u / base, base);
    } else {
      QuotientZero(u, base);
    }
  }

  lemma DigitIn(d: nat, base: nat)
    requires d < base <= 16
    ensures Digit(d) in "0123456789abcdef"[..base] && (Digit(d) == '0' <==> d == 0)
  {
    assert "0123456789abcdef"[..base][d] == Digit(d);
  }

  /** The code: a digit buffer filled from the back, then the characters one by one. */
  method PrintNum(u: uint32, base: nat, sign: string, f: Format) returns (out: string)
    requires 2 <= base <= 16 && |sign| <= 1
    ensures out == Printed(u, base, sign, f)
  {
    hide Digits; hide Digit; hide Repeat; hide Prefix;
    var prefix := Prefix(u, base, f.alt);
    var digits := DigitBuffer(u, base);
    var prec := f.prec - |digits|;
    var length := f.width - |digits|;
    if sign != "" {
      length := length - 1;
    }
    length := length - |prefix|;
    if prec > 0 {
      length := length - prec;
    }
    ghost var room := length;
    assert room == Room(u, base, sign, f);
    out := "";
    out, length := Pad(out, ' ', length, !f.zeroPad && !f.left);
    assert out == Repeat(' ', if !f.zeroPad && !f.left then room else 0);
    out := out + sign;
    out := out + prefix;
    out, prec := Pad(out, '0', prec, true);
    out, length := Pad(out, '0', length, f.zeroPad);
    NoZeros(length);
    out := out + digits;
    out, length := Pad(out, ' ', length, f.left);
  }

  /** Nothing is printed for a count that is not positive. */
  lemma NoZeros(n: int)
    ensures n <= 0 ==> Repeat('0', n) == [] && Repeat(' ', n) == []
    ensures Repeat('0', 0) == [] && Repeat(' ', 0) == []
  {
  }

  /** `if (on) while (--n >= 0) putc(c)` */
  method Pad(start: string, c: char, n0: int, on: bool) returns (out: string, n: int)
    ensures out == start + Repeat(c, if on then n0 else 0)
    ensures if on then n < 0 else n == n0
  {
    out, n := start, n0;
    if on {
      n := n - 1;
      ghost var done := 0;
      while n >= 0
        invariant n >= -1 || n == n0 - 1
        invariant done == n0 - 1 - n && done >= 0 && out == start + Repeat(c, done)
      {
        out := out + [c];
        n := n - 1;
        done := done + 1;
      }
    }
  }

  lemma DigitsStep(u: nat, base: nat)
    requires 2 <= base <= 16
    ensures 0 <= u % base < 16 && 0 <= u / base && (u / base == 0 <==> u < base) && (u > 0 ==> u / base < u)
    ensures Digits(u, base) == (if u / base == 0 then [] else Digits(u / base, base)) + [Digit(u % base)]
  {
    hide Digit;
    Quotient(u, base);
    QuotientZero(u, base);
  }

  lemma QuotientZero(u: nat, base: nat)
    requires base >= 2
    ensures u / base == 0 <==> u < base
    ensures u < base ==> u % base == u
  {
    if u < base {
      DivUnique(u, base, 0, u);
    } else {
      AtLeastOnce(u, base);
    }
  }

  lemma AtLeastOnce(u: nat, base: nat)
    requires u >= base >= 2
    ensures u / base >= 1
  {
    DivBounds(u, base);
    MulStrict(1 - (u / base + 1), base);
    assert (u / base + 1) * base == u / base * base + base;
  }

  /** The digits, stored from the end of the buffer backwards; the buffer is large enough. */
  method DigitBuffer(u0: uint32, base: nat) returns (digits: string)
    requires 2 <= base <= 16
    ensures digits == Digits(u0, base)
  {
    hide Digits; hide Digit;
    var buf := new char[MAXBUF];
    var p := MAXBUF;
    var u: nat, more := u0, true;
    ThirtyTwo();
    DigitsFit(u0, base, 32);
    while more
      invariant 0 <= p <= MAXBUF && (more ==> |Digits(u, base)| <= p)
      invariant Digits(u0, base) == (if more then Digits(u, base) else []) + buf[p..]
      decreases more, u
    {
      DigitsStep(u, base);
      var c, rest := Digit(u % base), u / base;
      Regroup(if rest == 0 then [] else Digits(rest, base), c, buf[p..]);
      p := p - 1;
      Store(buf, p, c);
      u := rest;
      more := u != 0;
    }
    digits := buf[p..];
  }

  method Store(buf: array<char>, p: nat, c: char)
    requires p < buf.Length
    modifies buf
    ensures buf[p..] == [c] + old(buf[p + 1..])
  {
    buf[p] := c;
  }

  lemma Regroup(a: string, c: char, b: string)
    ensures (a + [c]) + b == a + ([c] + b)
  {
  }

  lemma ThirtyTwo()
    ensures Pow2(32) == WORD
  {
    Pow2Of16();
    Pow2Sum(16, 16);
  }

  // ----- strtoul -----

  function SkipSpaces(s: string): string {
    if s != [] && IsSpace(s[0]) then SkipSpaces(s[1..]) else s
  }

  /** A hexadecimal prefix that the base allows. */
  predicate HasPrefix(s: string, base: nat) {
    (base == 16 || base == 0) && |s| >= 2 && s[0] == '0' && (s[1] == 'x' || s[1] == 'X')
  }

  function SkipPrefix(s: string, base: nat): string { if HasPrefix(s, base) then s[2..] else s }

  /** Base 0 stands for the base that the first characters announce. */
  function RealBase(s: string, base: nat): nat {
    if base != 0 then base
    else if HasPrefix(s, base) then 16
    else if s != [] && s[0] == '0' then 8
    else 10
  }

  /** Digits are read as long as there are any; the value is kept in 32 bits. */
  function ReadDigits(s: string, base: nat, v: uint32): (uint32, string)
  {
    if s == [] || ValueOf(s[0], base) < 0 then (v, s)
    else ReadDigits(s[1..], base, (v * base + ValueOf(s[0], base)) % WORD)
  }

  /** `strtoul`: the value and what follows the number. */
  function Parsed(s: string, base: nat): (uint32, string) {
    var t := SkipSpaces(s);
    ReadDigits(SkipPrefix(t, base), RealBase(t, base), 0)
  }

  method Strtoul(s: string, base0: nat) returns (v: uint32, rest: string)
    ensures (v, rest) == Parsed(s, base0)
  {
    hide ValueOf; hide IsSpace; hide ReadDigits;
    var base := base0;
    var p := 0;
    assert s[0..] == s;
    while p < |s| && IsSpace(s[p])
      invariant 0 <= p <= |s| && SkipSpaces(s[p..]) == SkipSpaces(s)
    {
      assert s[p..][1..] == s[p + 1..];
      p := p + 1;
    }
    ghost var t := s[p..];
    if (base == 16 || base == 0) && p + 1 < |s| && s[p] == '0' && (s[p + 1] == 'x' || s[p + 1] == 'X') {
      p := p + 2;
      base := 16;
    }
    if base == 0 {
      base := if p < |s| && s[p] == '0' then 8 else 10;
    }
    assert s[p..] == SkipPrefix(t, base0) && base == RealBase(t, base0);
    v, rest := DigitLoop(s, p, base);
  }

  /** The loop that reads the digits from place p0 on. */
  method DigitLoop(s: string, p0: nat, base: nat) returns (v: uint32, rest: string)
    requires p0 <= |s|
    ensures (v, rest) == ReadDigits(s[p0..], base, 0)
  {
    hide ValueOf;
    v := 0;
    var p := p0;
    while p < |s| && ValueOf(s[p], base) >= 0
      invariant p0 <= p <= |s|
      invariant ReadDigits(s[p..], base, v) == ReadDigits(s[p0..], base, 0)
    {
      assert s[p..][1..] == s[p + 1..];
      v := (v * base + ValueOf(s[p], base)) % WORD;
      p := p + 1;
    }
    rest := s[p..];
  }

  // ----- upper case -----

  function Lower(c: char): char { if 'A' <= c <= 'Z' then (c as int + 32) as char else c }

  /** The texts differ in the case of letters only. */
  predicate SameButCase(s: string, t: string) { |s| == |t| && forall i :: 0 <= i < |s| ==> Lower(s[i]) == Lower(t[i]) }

  lemma CaseOfDigit(c: char, d: char, base: nat)
    requires Lower(c) == Lower(d)
    ensures ValueOf(c, base) == ValueOf(d, base) && (IsSpace(c) <==> IsSpace(d)) && (c == '0' <==> d == '0')
    ensures c == 'x' || c == 'X' <==> d == 'x' || d == 'X'
  {
  }

  lemma {:induction false} CaseOfSpaces(s: string, t: string)
    requires SameButCase(s, t)
    ensures SameButCase(SkipSpaces(s), SkipSpaces(t))
  {
    if s != [] {
      CaseOfDigit(s[0], t[0], 16);
      CaseOfSpaces(s[1..], t[1..]);
    }
  }

  lemma {:induction false} CaseOfDigits(s: string, t: string, base: nat, v: uint32)
    requires SameButCase(s, t)
    ensures ReadDigits(s, base, v).0 == ReadDigits(t, base, v).0
    ensures SameButCase(ReadDigits(s, base, v).1, ReadDigits(t, base, v).1)
  {
    hide ValueOf;
    if s != [] {
      CaseOfDigit(s[0], t[0], base);
      if ValueOf(s[0], base) >= 0 {
        CaseOfDigits(s[1..], t[1..], base, (v * base + ValueOf(s[0], base)) % WORD);
      }
    }
  }

  /** `strtoul` does not see the case of letters. */
  lemma CaseBlind(s: string, t: string, base: nat)
    requires SameButCase(s, t)
    ensures Parsed(s, base).0 == Parsed(t, base).0 && SameButCase(Parsed(s, base).1, Parsed(t, base).1)
  {
    hide ReadDigits; hide SkipSpaces; hide ValueOf; hide IsSpace;
    CaseOfSpaces(s, t);
    var a, b := SkipSpaces(s), SkipSpaces(t);
    if |a| > 0 {
      CaseOfDigit(a[0], b[0], 16);
    }
    if |a| > 1 {
      CaseOfDigit(a[1], b[1], 16);
    }
    CaseOfDigits(SkipPrefix(a, base), SkipPrefix(b, base), RealBase(a, base), 0);
  }

  // ----- the round trip -----

  lemma {:induction false} SkipsBlanks(n: int, t: string)
    requires t == [] || !IsSpace(t[0])
    ensures SkipSpaces(Repeat(' ', n) + t) == t
    decreases if n > 0 then n else 0
  {
    if n > 0 {
      assert (Repeat(' ', n) + t)[1..] == Repeat(' ', n - 1) + t;
      SkipsBlanks(n - 1, t);
    } else {
      assert Repeat(' ', n) + t == t;
    }
  }

  lemma {:induction false} ReadsZeros(n: int, t: string, base: nat)
    requires base > 0
    ensures ReadDigits(Repeat('0', n) + t, base, 0) == ReadDigits(t, base, 0)
    decreases if n > 0 then n else 0
  {
    if n > 0 {
      hide ReadDigits;
      var rest := Repeat('0', n - 1) + t;
      assert Repeat('0', n) + t == ['0'] + rest;
      ReadStep('0', rest, base, 0);
      ReadsZeros(n - 1, t, base);
    } else {
      assert Repeat('0', n) + t == t;
    }
  }

  /** One digit is read. */
  lemma ReadStep(c: char, t: string, base: nat, v: uint32)
    requires ValueOf(c, base) >= 0
    ensures ReadDigits([c] + t, base, v) == ReadDigits(t, base, (v * base + ValueOf(c, base)) % WORD)
  {
    hide ValueOf;
    assert ([c] + t)[1..] == t;
  }

  lemma {:induction false} ReadsDigits(u: uint32, t: string, base: nat)
    requires 2 <= base <= 16
    ensures ReadDigits(Digits(u, base) + t, base, 0) == ReadDigits(t, base, u)
    decreases u
  {
    hide Digits; hide Digit; hide ValueOf; hide ReadDigits;
    DigitsStep(u, base);
    Quotient(u, base);
    var last := [Digit(u % base)];
    if u / base == 0 {
      DivUnique(u, base, 0, u);
      assert Digits(u, base) + t == last + t;
      ReadOne(u % base, t, base, 0);
    } else {
      ReadsDigits(u / base, last + t, base);
      assert Digits(u, base) + t == Digits(u / base, base) + (last + t);
      ReadOne(u % base, t, base, u / base);
    }
  }

  lemma ReadOne(d: nat, t: string, base: nat, v: uint32)
    requires d < base <= 16 && 0 <= v * base + d < WORD
    ensures ReadDigits([Digit(d)] + t, base, v) == ReadDigits(t, base, v * base + d)
  {
    hide ReadDigits; hide ValueOf; hide Digit;
    DigitValue(d, base);
    ReadStep(Digit(d), t, base, v);
  }

  lemma ReadsNothing(n: int, base: nat, u: uint32)
    ensures ReadDigits(Repeat(' ', n), base, u) == (u, Repeat(' ', n))
  {
  }

  /** Zeros, digits and blanks. */
  function Number(u: uint32, base: nat, n1: int, n2: int, trail: int): string
    requires 2 <= base <= 16
  {
    Repeat('0', n1) + (Repeat('0', n2) + (Digits(u, base) + Repeat(' ', trail)))
  }

  lemma NumberRead(u: uint32, base: nat, n1: int, n2: int, trail: int)
    requires 2 <= base <= 16
    ensures ReadDigits(Number(u, base, n1, n2, trail), base, 0) == (u, Repeat(' ', trail))
  {
    hide Digits; hide Repeat; hide ReadDigits;
    var d := Digits(u, base);
    ReadsZeros(n1, Repeat('0', n2) + (d + Repeat(' ', trail)), base);
    ReadsZeros(n2, d + Repeat(' ', trail), base);
    ReadsDigits(u, Repeat(' ', trail), base);
    ReadsNothing(trail, base, u);
  }

  lemma PrintedShape(u: uint32, base: nat, f: Format)
    requires 2 <= base <= 16
    ensures exists lead, n1, n2, trail ::
      Printed(u, base, "", f) == Repeat(' ', lead) + (Prefix(u, base, f.alt) + Number(u, base, n1, n2, trail))
  {
    hide Digits; hide Repeat; hide Prefix;
    var d := Digits(u, base);
    var room := Room(u, base, "", f);
    var lead, trail := (if !f.zeroPad && !f.left then room else 0), (if !f.zeroPad && f.left then room else 0);
    var n1, n2 := f.prec - |d|, if f.zeroPad then room else 0;
    assert Printed(u, base, "", f) == Repeat(' ', lead) + (Prefix(u, base, f.alt) + Number(u, base, n1, n2, trail));
  }

  /** Printing an unsigned number in base 8, 10 or 16 and reading it back in that base gives the
      number, for every width, precision, padding, adjustment and `#`; what is left is blanks. */
  lemma PrintThenParse(u: uint32, base: nat, f: Format)
    requires IsBase(base)
    ensures Parsed(Printed(u, base, "", f), base).0 == u
    ensures exists n :: Parsed(Printed(u, base, "", f), base).1 == Repeat(' ', n)
  {
    hide Digits; hide Digit; hide Repeat; hide ReadDigits; hide SkipSpaces; hide SkipPrefix; hide Printed;
    hide Prefix; hide Number;
    PrintedShape(u, base, f);
    var lead, n1, n2, trail :|
      Printed(u, base, "", f) == Repeat(' ', lead) + (Prefix(u, base, f.alt) + Number(u, base, n1, n2, trail));
    var number := Number(u, base, n1, n2, trail);
    NumberRead(u, base, n1, n2, trail);
    NumberStart(u, base, n1, n2, trail);
    PrefixSkipped(u, base, f.alt, number);
    SkipsBlanks(lead, Prefix(u, base, f.alt) + number);
    assert Parsed(Printed(u, base, "", f), base) == (u, Repeat(' ', trail));
  }

  /** With `#` the base need not be given: reading a non-zero octal or hexadecimal number in base 0
      finds the base and the number. */
  lemma PrintThenGuess(u: uint32, base: nat, f: Format)
    requires (base == 8 || base == 16) && f.alt && u != 0
    ensures Parsed(Printed(u, base, "", f), 0).0 == u
  {
    hide Digits; hide Digit; hide Repeat; hide ReadDigits; hide SkipSpaces; hide SkipPrefix; hide Printed;
    hide Prefix; hide Number;
    hide RealBase;
    PrintedShape(u, base, f);
    var lead, n1, n2, trail :|
      Printed(u, base, "", f) == Repeat(' ', lead) + (Prefix(u, base, f.alt) + Number(u, base, n1, n2, trail));
    var number := Number(u, base, n1, n2, trail);
    NumberRead(u, base, n1, n2, trail);
    NumberStart(u, base, n1, n2, trail);
    PrefixSkipped(u, base, f.alt, number);
    PrefixGuessed(u, base, number);
    SkipsBlanks(lead, Prefix(u, base, f.alt) + number);
  }

  /** Without `#`, a decimal number comes back in base 0 if and only if it is printed without leading
      zeros or is less than 8; otherwise the zero announces octal. */
  lemma DecimalGuessedIff(u: uint32, f: Format)
    ensures Parsed(Printed(u, 10, "", f), 0).0 == u <==> u < 8 || !LeadingZero(u, f)
  {
    hide Digits; hide Digit; hide Repeat; hide ReadDigits; hide SkipSpaces; hide SkipPrefix; hide Printed;
    hide Prefix; hide Number; hide RealBase;
    var lead, n1, n2, trail := DecimalShape(u, f);
    var number := Number(u, 10, n1, n2, trail);
    NumberStart(u, 10, n1, n2, trail);
    SkipsBlanks(lead, number);
    DecimalStart(u, n1, n2, trail);
    var base := RealBase(number, 0);
    if base == 10 {
      NumberRead(u, 10, n1, n2, trail);
    } else {
      OctalNumber(u, n1, n2, trail);
    }
  }

  lemma OctalNumber(u: uint32, n1: int, n2: int, trail: int)
    ensures ReadDigits(Number(u, 10, n1, n2, trail), 8, 0).0 == u <==> u < 8
  {
    hide Digits; hide ReadDigits;
    var d, t := Digits(u, 10), Repeat(' ', trail);
    ReadsZeros(n1, Repeat('0', n2) + (d + t), 8);
    ReadsZeros(n2, d + t, 8);
    OctalOf(u, t);
  }

  /** Zeros for the precision or the width come before the digits. */
  predicate LeadingZero(u: uint32, f: Format) {
    f.prec > |Digits(u, 10)| || (f.zeroPad && f.width > |Digits(u, 10)|)
  }

  lemma DecimalShape(u: uint32, f: Format) returns (lead: int, n1: int, n2: int, trail: int)
    ensures Printed(u, 10, "", f) == Repeat(' ', lead) + Number(u, 10, n1, n2, trail)
    ensures n1 > 0 || n2 > 0 <==> LeadingZero(u, f)
  {
    hide Digits; hide Repeat; hide Number; hide Prefix;
    PrefixIs(u, 10, f.alt);
    var d, room := Digits(u, 10), Room(u, 10, "", f);
    lead, trail := (if !f.zeroPad && !f.left then room else 0), (if !f.zeroPad && f.left then room else 0);
    n1, n2 := f.prec - |d|, if f.zeroPad then room else 0;
    Joined(Repeat(' ', lead), Repeat('0', n1), Repeat('0', n2), d, Repeat(' ', trail));
    NumberIs(u, n1, n2, trail);
  }

  lemma Joined(a: string, b: string, c: string, d: string, e: string)
    ensures a + "" + "" + b + c + d + e == a + (b + (c + (d + e)))
  {
  }

  lemma NumberIs(u: uint32, n1: int, n2: int, trail: int)
    ensures Number(u, 10, n1, n2, trail) == Repeat('0', n1) + (Repeat('0', n2) + (Digits(u, 10) + Repeat(' ', trail)))
  {
  }

  /** Which base the text of a decimal number announces. */
  lemma DecimalStart(u: uint32, n1: int, n2: int, trail: int)
    ensures var s := Number(u, 10, n1, n2, trail);
      RealBase(s, 0) == (if n1 > 0 || n2 > 0 || u == 0 then 8 else 10) && SkipPrefix(s, 0) == s
  {
    hide Digits;
    NumberStart(u, 10, n1, n2, trail);
    DigitsPlain(u, 10);
    var s, d := Number(u, 10, n1, n2, trail), Digits(u, 10);
    if n1 <= 0 && n2 <= 0 {
      assert s[0] == d[0];
      if u == 0 {
        assert d[0] == '0' by { DigitsStep(u, 10); }
      }
    } else {
      assert s[0] == '0';
    }
  }

  /** Decimal digits read in base 8 give less, unless there is only one and it is an octal digit. */
  lemma OctalOf(u: uint32, t: string)
    requires t == [] || ValueOf(t[0], 8) < 0
    ensures ReadDigits(Digits(u, 10) + t, 8, 0).0 == u <==> u < 8
  {
    hide Digits; hide Digit; hide ReadDigits; hide ValueOf;
    DigitsStep(u, 10);
    QuotientZero(u, 10);
    Quotient(u, 10);
    var last := Digit(u % 10);
    if u < 10 {
      assert Digits(u, 10) + t == [last] + t;
      OctalDigit(u, t, 0);
    } else {
      var front := Digits(u / 10, 10);
      assert Digits(u, 10) + t == front + ([last] + t);
      OctalFront(u / 10, [last] + t);
      if v: uint32 :| v <= u / 10 && ReadDigits(front + ([last] + t), 8, 0) == ReadDigits([last] + t, 8, v) {
        OctalDigit(u % 10, t, v);
      }
    }
  }

  lemma OctalDigit(d: nat, t: string, v: uint32)
    requires d < 10 && (t == [] || ValueOf(t[0], 8) < 0) && v * 8 + d < WORD
    ensures ReadDigits([Digit(d)] + t, 8, v).0 == if d < 8 then v * 8 + d else v
  {
    assert ([Digit(d)] + t)[1..] == t && ([Digit(d)] + t)[0] == Digit(d);
  }

  /** Reading stops in the middle with at most the number, or goes on with at most the number. */
  lemma {:induction false} OctalFront(u: uint32, t: string)
    ensures ReadDigits(Digits(u, 10) + t, 8, 0).0 <= u
      || exists v: uint32 :: v <= u && ReadDigits(Digits(u, 10) + t, 8, 0) == ReadDigits(t, 8, v)
    decreases u
  {
    hide Digits; hide Digit; hide ReadDigits; hide ValueOf;
    DigitsStep(u, 10);
    QuotientZero(u, 10);
    Quotient(u, 10);
    var last := Digit(u % 10);
    if u < 10 {
      assert Digits(u, 10) + t == [last] + t;
      OctalOne(u, t, 0);
    } else {
      var front := Digits(u / 10, 10);
      assert Digits(u, 10) + t == front + ([last] + t);
      OctalFront(u / 10, [last] + t);
      if v: uint32 :| v <= u / 10 && ReadDigits(front + ([last] + t), 8, 0) == ReadDigits([last] + t, 8, v) {
        OctalOne(u % 10, t, v);
      }
    }
  }

  lemma OctalOne(d: nat, t: string, v: uint32)
    requires d < 10 && v * 8 + d < WORD
    ensures ReadDigits([Digit(d)] + t, 8, v) == if d < 8 then ReadDigits(t, 8, v * 8 + d) else (v, [Digit(d)] + t)
  {
    assert ([Digit(d)] + t)[1..] == t && ([Digit(d)] + t)[0] == Digit(d);
  }

  lemma PrefixGuessed(u: nat, base: nat, t: string)
    requires (base == 8 || base == 16) && u != 0 && |t| > 0 && t[0] != 'x' && t[0] != 'X'
    ensures var s := Prefix(u, base, true) + t; RealBase(s, 0) == base && SkipPrefix(s, 0) == SkipPrefix(s, base)
  {
    var s := Prefix(u, base, true) + t;
    assert base == 8 ==> s[0] == '0' && s[1] == t[0];
  }

  /** A number starts with a digit, and not with 0x. */
  lemma NumberStart(u: uint32, base: nat, n1: int, n2: int, trail: int)
    requires 2 <= base <= 16
    ensures var s := Number(u, base, n1, n2, trail);
      && |s| > 0 && !IsSpace(s[0]) && ValueOf(s[0], base) >= 0 && s[0] != 'x' && s[0] != 'X'
      && (|s| > 1 ==> s[1] != 'x' && s[1] != 'X')
  {
    var d := Digits(u, base);
    AllDigits(u, base);
    DigitValue(0, base);
    var s := Repeat('0', n1) + (Repeat('0', n2) + (d + Repeat(' ', trail)));
    forall i | 0 <= i < |s| ensures s[i] == '0' || s[i] == ' ' || s[i] in d {
    }
  }

  lemma {:induction false} AllDigits(u: nat, base: nat)
    requires 2 <= base <= 16
    ensures forall c :: c in Digits(u, base) ==> ValueOf(c, base) >= 0 && c != 'x' && c != 'X' && !IsSpace(c)
    decreases u
  {
    hide ValueOf;
    DigitsStep(u, base);
    Quotient(u, base);
    DigitValue(u % base, base);
    if u / base != 0 {
      AllDigits(u / base, base);
    }
  }

  lemma PrefixSkipped(u: nat, base: nat, alt: bool, t: string)
    requires IsBase(base) && |t| > 0 && (|t| > 1 ==> t[1] != 'x' && t[1] != 'X') && !IsSpace(t[0])
    ensures |Prefix(u, base, alt) + t| > 0 && !IsSpace((Prefix(u, base, alt) + t)[0])
    ensures ReadDigits(SkipPrefix(Prefix(u, base, alt) + t, base), base, 0) == ReadDigits(t, base, 0)
  {
    var p := Prefix(u, base, alt);
    if p == "0" {
      assert (p + t)[1..] == t;
      assert ValueOf('0', base) == 0;
    } else if p == "0x" {
      assert (p + t)[2..] == t;
    } else {
      assert p + t == t;
    }
  }
}
