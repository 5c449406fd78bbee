/**
  The Internet checksum of kernel/lwip/src/core/inet.c on a little-endian machine: the one's
  complement of the one's complement sum of 16-bit words (section 2 of RFC 1071), over memory that
  may be cut into buffers anywhere, with the pseudo header of section 3.1 of RFC 793.
*/
module Checksum {
  const U16 := 0x1_0000
  const U32 := 0x1_0000_0000

  type byte = x: int | 0 <= x < 256
  type uint16 = x: int | 0 <= x < U16
  type uint32 = x: int | 0 <= x < U32

  // ----- one's complement arithmetic -----

  /** The sum of the little-endian words; an odd last byte counts as a word with high byte 0. */
  function WordSum(d: seq<byte>): nat {
    if |d| == 0 then 0 else if |d| == 1 then d[0] else d[0] + 256 * d[1] + WordSum(d[2..])
  }

  /** The 16-bit one's complement value of a sum: carries are added back in until none is left. */
  function Norm(n: nat): (r: uint16)
    decreases n
  {
    if n < U16 then n else Norm(n / U16 + n % U16)
  }

  /** Equal as one's complement numbers: zero only when all bits are zero. */
  predicate Equiv(x: nat, y: nat) { x % 65535 == y % 65535 && (x == 0 <==> y == 0) }

  /** Numbers that differ by a multiple of 65535. */
  lemma Differ(x: nat, y: nat, k: int)
    requires x == y + 65535 * k
    ensures x % 65535 == y % 65535
  {
  }

  lemma Quotients(x: nat)
    ensures x == 65535 * (x / 65535) + x % 65535
  {
  }

  lemma ModTimes(x: nat, y: nat)
    requires x % 65535 == y % 65535
    ensures (256 * x) % 65535 == (256 * y) % 65535
  {
    Quotients(x);
    Quotients(y);
    Differ(256 * x, 256 * y, 256 * (x / 65535 - y / 65535));
  }

  lemma ModPlus(x: nat, y: nat, z: nat)
    requires x % 65535 == y % 65535
    ensures (x + z) % 65535 == (y + z) % 65535
  {
    Quotients(x);
    Quotients(y);
    Differ(x + z, y + z, x / 65535 - y / 65535);
  }

  /** The value of a sum as a one's complement number. */
  function Residue(n: nat): nat { if n == 0 then 0 else (n - 1) % 65535 + 1 }

  /** Adding the carries back in does not change the residue. */
  lemma CarryResidue(n: nat)
    requires n >= U16
    ensures 0 < n / U16 + n % U16 < n && Residue(n / U16 + n % U16) == Residue(n)
  {
    var m := n / U16 + n % U16;
    assert n == U16 * (n / U16) + n % U16;
    Differ(n - 1, m - 1, n / U16);
  }

  lemma ResidueSmall(n: uint16)
    ensures Residue(n) == n
  {
  }

  lemma ResidueEquiv(n: nat)
    ensures Residue(n) < U16 && Equiv(Residue(n), n)
  {
    if n > 0 {
      var r := (n - 1) % 65535;
      Quotients(n - 1);
      Differ(n, r + 1, (n - 1) / 65535);
    }
  }

  lemma EquivResidue(x: nat, y: nat)
    requires Equiv(x, y)
    ensures Residue(x) == Residue(y)
  {
    if x > 0 {
      Quotients(x);
      Quotients(y);
      if x % 65535 > 0 {
        Differ(x - 1, x % 65535 - 1, x / 65535);
        Differ(y - 1, y % 65535 - 1, y / 65535);
      } else {
        Differ(x - 1, 65534, x / 65535 - 1);
        Differ(y - 1, 65534, y / 65535 - 1);
      }
    }
  }

  /** Closed form: a residue modulo 65535, with 65535 for the non-zero multiples. */
  lemma {:induction false} NormIs(n: nat)
    ensures Norm(n) == Residue(n)
    ensures Equiv(Norm(n), n)
    decreases n
  {
    hide Residue; hide Equiv;
    if n >= U16 {
      CarryResidue(n);
      NormIs(n / U16 + n % U16);
    } else {
      ResidueSmall(n);
    }
    ResidueEquiv(n);
  }

  lemma NormEquiv(x: nat, y: nat)
    requires Equiv(x, y)
    ensures Norm(x) == Norm(y)
  {
    hide Norm; hide Residue; hide Equiv;
    NormIs(x);
    NormIs(y);
    EquivResidue(x, y);
  }

  lemma NormAdd(x: nat, y: nat)
    ensures Norm(x + Norm(y)) == Norm(x + y)
  {
    hide Norm; hide Residue;
    NormIs(y);
    ModPlus(Norm(y), y, x);
    NormEquiv(x + Norm(y), x + y);
  }

  lemma NormTimes(x: nat)
    ensures Norm(256 * Norm(x)) == Norm(256 * x)
  {
    hide Norm; hide Residue;
    NormIs(x);
    ModTimes(Norm(x), x);
    NormEquiv(256 * Norm(x), 256 * x);
  }

  /** Swapping the two bytes multiplies by 256. */
  function Swap(n: uint16): uint16 { n % 256 * 256 + n / 256 }

  lemma SwapIs(n: uint16)
    ensures Swap(n) == Norm(256 * n)
  {
    Differ(256 * n, Swap(n), n / 256);
    NormEquiv(256 * n, Swap(n));
  }

  lemma SwapNorm(x: nat)
    ensures Swap(Norm(x)) == Norm(256 * x)
  {
    SwapIs(Norm(x));
    NormTimes(x);
  }

  // ----- sums of concatenations -----

  lemma {:induction false} SumEven(b: seq<byte>, c: seq<byte>)
    requires |b| % 2 == 0
    ensures WordSum(b + c) == WordSum(b) + WordSum(c)
  {
    if b == [] {
      assert b + c == c;
    } else {
      assert (b + c)[2..] == b[2..] + c;
      SumEven(b[2..], c);
    }
  }

  lemma SumHead(x: byte, c: seq<byte>)
    ensures WordSum([x] + c) == x + WordSum([0] + c)
  {
    if c != [] {
      assert ([x] + c)[2..] == c[1..] && ([0] + c)[2..] == c[1..];
    }
  }

  lemma {:induction false} SumOdd(b: seq<byte>, c: seq<byte>)
    requires |b| % 2 == 1
    ensures WordSum(b + c) == WordSum(b) + WordSum([0] + c)
  {
    if |b| == 1 {
      assert b + c == [b[0]] + c;
      SumHead(b[0], c);
    } else {
      assert (b + c)[2..] == b[2..] + c;
      SumOdd(b[2..], c);
    }
  }

  /** Moved by one byte, a sum is multiplied by 256. */
  lemma {:induction false} SumShifted(c: seq<byte>)
    ensures Equiv(WordSum([0] + c), 256 * WordSum(c))
  {
    if |c| == 1 {
      assert ([0] + c)[2..] == [];
    } else if |c| > 1 {
      var r := c[2..];
      assert ([0] + c)[2..] == [c[1]] + r;
      SumHead(c[1], r);
      SumShifted(r);
      ShiftTwo(c[0], c[1], WordSum([0] + r), WordSum(r));
    }
  }

  lemma ShiftTwo(x: byte, y: byte, u: nat, t: nat)
    requires Equiv(u, 256 * t)
    ensures Equiv(256 * x + y + u, 256 * (x + 256 * y + t))
  {
    Differ(256 * (x + 256 * y + t), 256 * x + y + 256 * t, y);
    ModPlus(u, 256 * t, 256 * x + y);
  }

  function Flatten(chunks: seq<seq<byte>>): seq<byte> {
    if chunks == [] then [] else Flatten(chunks[..|chunks| - 1]) + chunks[|chunks| - 1]
  }

  // ----- lwip_chksum -----

  function Fold(acc: uint32): uint32 { acc / U16 + acc % U16 }

  lemma FoldNorm(acc: uint32)
    ensures Norm(Fold(acc)) == Norm(acc) && Fold(acc) <= acc && (acc >= U16 ==> Fold(acc) < acc)
  {
  }

  /** The little-endian word of two bytes. */
  function Word(low: int, high: int): int { low + 256 * high }

  lemma SumStep(data: seq<byte>, i: nat)
    requires i + 1 < |data|
    ensures WordSum(data[i..]) == Word(data[i], data[i + 1]) + WordSum(data[i + 2..])
  {
    assert data[i..][2..] == data[i + 2..];
  }

  lemma SumLast(data: seq<byte>, i: nat)
    requires i <= |data| <= i + 1
    ensures WordSum(data[i..]) == if i == |data| then 0 else data[i]
  {
  }

  lemma OddByte(x: byte)
    ensures Word(0, x) < U16 && Swap(Word(0, x)) == x
  {
  }

  /** `lwip_chksum`: two folds are enough, and the 32-bit accumulator does not overflow for any
      length a buffer can have. */
  method LwipChksum(data: seq<byte>) returns (sum: uint16)
    requires |data| < U16
    ensures sum == Norm(WordSum(data))
  {
    hide Norm; hide WordSum; hide Swap;
    var acc: uint32 := 0;
    var len := |data|;
    var i := 0;
    assert data[0..] == data;
    while len > 1
      invariant 0 <= i <= |data| && i % 2 == 0 && len == |data| - i
      invariant acc <= i / 2 * 65535 && acc + WordSum(data[i..]) == WordSum(data)
    {
      SumStep(data, i);
      acc := (acc + Word(data[i], data[i + 1])) % U32;
      i := i + 2;
      len := len - 2;
    }
    SumLast(data, i);
    if len == 1 {
      OddByte(data[i]);
      acc := (acc + Swap(Word(0, data[i]))) % U32;
    }
    sum := FoldSum(acc);
  }

  /** Two folds of the accumulator. */
  method FoldSum(start: uint32) returns (sum: uint16)
    ensures sum == Norm(start)
  {
    hide Norm; hide Fold;
    var acc := start;
    FoldTwice(acc);
    FoldNorm(acc);
    acc := Fold(acc);
    if acc >= U16 {
      FoldNorm(acc);
      acc := Fold(acc);
    }
    NormSmall(acc);
    sum := acc;
  }

  lemma FoldTwice(acc: uint32)
    ensures Fold(acc) <= 0x1_FFFE && (Fold(acc) >= U16 ==> Fold(Fold(acc)) < U16)
  {
  }

  lemma NormSmall(n: uint16)
    ensures Norm(n) == n
  {
  }

  /** The loop that adds the carries back in. */
  method AddCarries(start: uint32) returns (acc: uint16)
    ensures acc == Norm(start)
  {
    var a: uint32 := start;
    while a / U16 != 0
      invariant Norm(a) == Norm(start)
      decreases a
    {
      FoldNorm(a);
      a := Fold(a);
    }
    acc := a;
  }

  /** `inet_chksum` */
  method InetChksum(data: seq<byte>) returns (sum: uint16)
    requires |data| < U16
    ensures sum == 65535 - Norm(WordSum(data))
  {
    var acc := LwipChksum(data);
    acc := AddCarries(acc);
    NormIs(WordSum(data));
    NormIs(Norm(WordSum(data)));
    sum := 65535 - acc;
  }

  // ----- buffers cut anywhere -----

  /** What the accumulator holds after some chunks: their sum, moved by one byte when an odd number
      of bytes has been read. */
  function Expected(chunks: seq<seq<byte>>): uint16 {
    var b := Flatten(chunks);
    if |b| % 2 == 0 then Norm(WordSum(b)) else Norm(256 * WordSum(b))
  }

  lemma AddChunk(chunks: seq<seq<byte>>, c: seq<byte>)
    ensures var acc := Norm(Expected(chunks) + Norm(WordSum(c)));
      Expected(chunks + [c]) == if |c| % 2 == 0 then acc else Swap(acc)
  {
    hide Norm; hide WordSum; hide Swap; hide Expected; hide Flatten;
    var b := Flatten(chunks);
    FlattenMore(chunks, c);
    NormAdd(Expected(chunks), WordSum(c));
    ExpectedIs(chunks);
    ExpectedIs(chunks + [c]);
    if |b| % 2 == 0 {
      AfterEven(b, c);
    } else {
      AfterOdd(b, c);
    }
  }

  lemma FlattenMore(chunks: seq<seq<byte>>, c: seq<byte>)
    ensures Flatten(chunks + [c]) == Flatten(chunks) + c
  {
    assert (chunks + [c])[..|chunks|] == chunks;
  }

  lemma ExpectedIs(chunks: seq<seq<byte>>)
    ensures var b := Flatten(chunks);
      Expected(chunks) == if |b| % 2 == 0 then Norm(WordSum(b)) else Norm(256 * WordSum(b))
  {
  }

  lemma AfterEven(b: seq<byte>, c: seq<byte>)
    requires |b| % 2 == 0
    ensures Norm(WordSum(b + c)) == Norm(Norm(WordSum(b)) + WordSum(c))
    ensures Norm(256 * WordSum(b + c)) == Swap(Norm(Norm(WordSum(b)) + WordSum(c)))
  {
    hide Norm; hide WordSum; hide Swap;
    SumEven(b, c);
    NormAdd(WordSum(c), WordSum(b));
    SwapNorm(WordSum(b) + WordSum(c));
  }

  lemma AfterOdd(b: seq<byte>, c: seq<byte>)
    requires |b| % 2 == 1
    ensures Norm(256 * WordSum(b + c)) == Norm(Norm(256 * WordSum(b)) + WordSum(c))
    ensures Norm(WordSum(b + c)) == Swap(Norm(Norm(256 * WordSum(b)) + WordSum(c)))
  {
    hide Norm; hide WordSum; hide Swap; hide Equiv;
    var s, t := WordSum(b), WordSum(c);
    SumOdd(b, c);
    SumShifted(c);
    NormAdd(t, 256 * s);
    SwapNorm(256 * s + t);
    OddSum(s, t, WordSum([0] + c));
  }

  /** With u the sum t moved by one byte. */
  lemma OddSum(s: nat, t: nat, u: nat)
    requires Equiv(u, 256 * t)
    ensures Norm(256 * (256 * s + t)) == Norm(s + u)
    ensures Norm(256 * s + t) == Norm(256 * (s + u))
  {
    hide Norm;
    Differ(256 * (256 * s + t), s + 256 * t, s);
    ModPlus(u, 256 * t, s);
    NormEquiv(256 * (256 * s + t), s + u);
    ModTimes(u, 256 * t);
    Differ(256 * (256 * t), t, t);
    ModPlus(256 * u, t, 256 * s);
    NormEquiv(256 * s + t, 256 * (s + u));
  }

  // ----- inet_chksum_pseudo -----

  /** The pseudo header as it stands in memory, in network byte order. */
  function PseudoHeader(src: seq<byte>, dest: seq<byte>, proto: byte, len: uint16): seq<byte>
    requires |src| == 4 && |dest| == 4
  {
    src + dest + [0, proto, len / 256, len % 256]
  }

  /** An address read as a little-endian 32-bit number. */
  function Addr(a: seq<byte>): uint32
    requires |a| == 4
  {
    var x: int, y: int, z: int, w: int := a[0], a[1], a[2], a[3];
    x + 256 * y + 0x1_0000 * z + 0x100_0000 * w
  }

  lemma HeaderSum(src: seq<byte>, dest: seq<byte>, proto: byte, len: uint16)
    requires |src| == 4 && |dest| == 4
    ensures WordSum(PseudoHeader(src, dest, proto, len)) ==
      Addr(src) % U16 + Addr(src) / U16 + Addr(dest) % U16 + Addr(dest) / U16 + Swap(proto) + Swap(len)
  {
    var tail := [0, proto, len / 256, len % 256];
    assert PseudoHeader(src, dest, proto, len) == src + (dest + tail);
    SumEven(src, dest + tail);
    SumEven(dest, tail);
    FourBytes(src);
    FourBytes(dest);
    FourBytes(tail);
  }

  lemma FourBytes(a: seq<byte>)
    requires |a| == 4
    ensures WordSum(a) == Word(a[0], a[1]) + Word(a[2], a[3])
    ensures Addr(a) % U16 == Word(a[0], a[1]) && Addr(a) / U16 == Word(a[2], a[3])
  {
    assert a[0..] == a;
    SumStep(a, 0);
    SumStep(a, 2);
    SumLast(a, 4);
  }

  /** The loop of `inet_chksum_pseudo` over the buffers. */
  method DataSum(chunks: seq<seq<byte>>) returns (acc: uint16)
    requires forall i :: 0 <= i < |chunks| ==> |chunks[i]| < U16
    ensures acc == Norm(WordSum(Flatten(chunks)))
  {
    hide Norm; hide WordSum; hide Swap; hide Expected;
    acc := 0;
    var swapped := 0;
    var i := 0;
    EmptySum();
    assert chunks[..0] == [];
    while i < |chunks|
      invariant 0 <= i <= |chunks| && acc == Expected(chunks[..i]) && swapped == |Flatten(chunks[..i])| % 2
    {
      var s := LwipChksum(chunks[i]);
      AddChunk(chunks[..i], chunks[i]);
      assert chunks[..i + 1] == chunks[..i] + [chunks[i]];
      assert chunks[..i + 1][..i] == chunks[..i];
      acc := AddCarries((acc + s) % U32);
      if |chunks[i]| % 2 != 0 {
        swapped := 1 - swapped;
        acc := Swap(acc);
      }
      i := i + 1;
    }
    assert chunks[..i] == chunks;
    ExpectedIs(chunks);
    if swapped == 1 {
      Unswapped(WordSum(Flatten(chunks)));
      acc := Swap(acc);
    }
  }

  /** 32-bit addition. */
  function Plus32(a: uint32, b: uint32): (r: uint32)
    ensures a + b < U32 ==> r == a + b
  {
    (a + b) % U32
  }

  /** For any cut of the data into buffers, `inet_chksum_pseudo` is the Internet checksum of the
      pseudo header followed by the data. */
  method InetChksumPseudo(chunks: seq<seq<byte>>, src: seq<byte>, dest: seq<byte>, proto: byte, protoLen: uint16)
    returns (sum: uint16)
    requires |src| == 4 && |dest| == 4 && forall i :: 0 <= i < |chunks| ==> |chunks[i]| < U16
    ensures sum == 65535 - Norm(WordSum(PseudoHeader(src, dest, proto, protoLen) + Flatten(chunks)))
  {
    hide Norm; hide WordSum; hide Swap; hide Flatten; hide PseudoHeader; hide Addr; hide Plus32;
    var data := DataSum(chunks);
    var srcLow: uint16, srcHigh: uint16 := Addr(src) % U16, Addr(src) / U16;
    var destLow: uint16, destHigh: uint16 := Addr(dest) % U16, Addr(dest) / U16;
    var acc: uint32 := data;
    acc := Plus32(acc, srcLow);
    acc := Plus32(acc, srcHigh);
    acc := Plus32(acc, destLow);
    acc := Plus32(acc, destHigh);
    acc := Plus32(acc, Swap(proto));
    acc := Plus32(acc, Swap(protoLen));
    ghost var b, h := Flatten(chunks), PseudoHeader(src, dest, proto, protoLen);
    HeaderSum(src, dest, proto, protoLen);
    assert acc == WordSum(h) + data;
    NormAdd(WordSum(h), WordSum(b));
    HeaderEven(src, dest, proto, protoLen);
    SumEven(h, b);
    var folded := AddCarries(acc);
    sum := 65535 - folded;
  }

  lemma HeaderEven(src: seq<byte>, dest: seq<byte>, proto: byte, len: uint16)
    requires |src| == 4 && |dest| == 4
    ensures |PseudoHeader(src, dest, proto, len)| % 2 == 0
  {
  }

  lemma EmptySum()
    ensures Expected([]) == 0 && Flatten([]) == []
  {
  }

  lemma Unswapped(s: nat)
    ensures Swap(Norm(256 * s)) == Norm(s)
  {
    hide Norm; hide Swap;
    SwapNorm(256 * s);
    Differ(256 * (256 * s), s, s);
    NormEquiv(256 * (256 * s), s);
  }

  // ----- the checksum as a check -----

  /** A message with checksum field zero, its checksum stored in the field: the receiver's checksum
      over the whole is 0, and only that value of the field gives 0, up to the two zeros. */
  lemma Verifies(before: seq<byte>, after: seq<byte>, c: uint16)
    requires |before| % 2 == 0
    ensures var field := [c % 256, c / 256]; var sum := 65535 - Norm(WordSum(before + [0, 0] + after));
      && (c == sum ==> 65535 - Norm(WordSum(before + field + after)) == 0)
      && (65535 - Norm(WordSum(before + field + after)) == 0 ==> c % 65535 == sum % 65535)
  {
    hide Norm;
    var field := [c % 256, c / 256];
    assert before + field + after == before + (field + after) && before + [0, 0] + after == before + ([0, 0] + after);
    SumEven(before, field + after);
    SumEven(before, [0, 0] + after);
    SumEven(field, after);
    SumEven([0, 0], after);
    TwoBytes(c);
    var s := WordSum(before + [0, 0] + after);
    assert WordSum(before + field + after) == s + c;
    NormIs(s);
    NormIs(s + c);
    Complement(s, c);
  }

  lemma TwoBytes(c: uint16)
    ensures WordSum([c % 256, c / 256]) == c && WordSum([0, 0]) == 0
  {
    assert WordSum([c % 256, c / 256][2..]) == 0;
    assert WordSum([0, 0][2..]) == 0;
  }

  lemma Complement(s: nat, c: uint16)
    ensures var n, m := Residue(s), Residue(s + c);
      && (c == 65535 - n ==> m == 65535)
      && (m == 65535 ==> c % 65535 == (65535 - n) % 65535)
  {
    if s > 0 {
      var k, n := (s - 1) / 65535, (s - 1) % 65535 + 1;
      assert s == 65535 * k + n;
    }
  }

  // ----- inet_chksum_pbuf -----

  /** `inet_chksum_pbuf`: the bytes of the accumulator are not swapped after an odd buffer, since
      the shifts on line 162 bind closer than the masks. */
  method InetChksumPbuf(chunks: seq<seq<byte>>) returns (sum: uint16)
    requires forall i :: 0 <= i < |chunks| ==> |chunks[i]| < U16
    ensures sum == PbufSum(chunks)
  {
    hide Norm; hide WordSum; hide Swap; hide Plain; hide Flatten;
    var acc: uint32 := 0;
    var swapped := 0;
    var i := 0;
    EmptySum();
    NonePlain(chunks);
    NormZero();
    while i < |chunks|
      invariant 0 <= i <= |chunks| && acc == Norm(Plain(chunks[..i])) && swapped == |Flatten(chunks[..i])| % 2
    {
      var s := LwipChksum(chunks[i]);
      PlainMore(chunks, i);
      NormAdd(Norm(Plain(chunks[..i])), WordSum(chunks[i]));
      NormAdd(WordSum(chunks[i]), Plain(chunks[..i]));
      acc := (acc + s) % U32;
      acc := AddCarries(acc);
      if |chunks[i]| % 2 != 0 {
        swapped := 1 - swapped;
        acc := acc / 256 % 256 * 256 + acc % 256;
      }
      i := i + 1;
    }
    assert chunks[..i] == chunks;
    if swapped == 1 {
      acc := Swap(acc);
    }
    sum := 65535 - acc;
  }

  lemma NormZero()
    ensures Norm(0) == 0
  {
  }

  lemma NonePlain(chunks: seq<seq<byte>>)
    ensures Plain(chunks[..0]) == 0 && Flatten(chunks[..0]) == []
  {
  }

  lemma PlainMore(chunks: seq<seq<byte>>, i: nat)
    requires i < |chunks|
    ensures Plain(chunks[..i + 1]) == Plain(chunks[..i]) + WordSum(chunks[i])
    ensures |Flatten(chunks[..i + 1])| == |Flatten(chunks[..i])| + |chunks[i]|
  {
    hide WordSum;
    assert chunks[..i + 1][..i] == chunks[..i];
  }

  /** The sum of the sums of the buffers, each taken from its own start. */
  function Plain(chunks: seq<seq<byte>>): nat {
    if chunks == [] then 0 else Plain(chunks[..|chunks| - 1]) + WordSum(chunks[|chunks| - 1])
  }

  function PbufSum(chunks: seq<seq<byte>>): uint16 {
    65535 - (if |Flatten(chunks)| % 2 == 0 then Norm(Plain(chunks)) else Swap(Norm(Plain(chunks))))
  }

  function FlatSum(chunks: seq<seq<byte>>): uint16 { 65535 - Norm(WordSum(Flatten(chunks))) }

  // Which cuts `inet_chksum_pbuf` gets right.

  ghost predicate HasLengths(chunks: seq<seq<byte>>, lens: seq<nat>) {
    |chunks| == |lens| && forall i :: 0 <= i < |lens| ==> |chunks[i]| == lens[i]
  }

  predicate AllEven(lens: seq<nat>) { forall i :: 0 <= i < |lens| ==> lens[i] % 2 == 0 }

  lemma {:induction false} EvenPlain(chunks: seq<seq<byte>>)
    requires forall i :: 0 <= i < |chunks| ==> |chunks[i]| % 2 == 0
    ensures |Flatten(chunks)| % 2 == 0 && Plain(chunks) == WordSum(Flatten(chunks))
  {
    if chunks != [] {
      var init := chunks[..|chunks| - 1];
      EvenPlain(init);
      SumEven(Flatten(init), chunks[|chunks| - 1]);
    }
  }

  function Zeros(n: nat): (r: seq<byte>)
    ensures |r| == n
  {
    seq(n, i => 0)
  }

  lemma {:induction false} SumZeros(n: nat)
    ensures WordSum(Zeros(n)) == 0
  {
    if n >= 2 {
      assert Zeros(n)[2..] == Zeros(n - 2);
      SumZeros(n - 2);
    }
  }

  function Total(lens: seq<nat>): nat { if lens == [] then 0 else Total(lens[..|lens| - 1]) + lens[|lens| - 1] }

  /** Buffers of the given lengths, all zero except for the first byte of buffer i. */
  function Probe(lens: seq<nat>, i: nat): (r: seq<seq<byte>>)
    requires i < |lens| ==> lens[i] > 0
    ensures |r| == |lens|
  {
    seq(|lens|, k requires 0 <= k < |lens| => if k == i then [1] + Zeros(lens[k] - 1) else Zeros(lens[k]))
  }

  lemma SumOne(n: nat)
    ensures WordSum([1] + Zeros(n)) == 1 && WordSum([0] + ([1] + Zeros(n))) == 256
  {
    SumHead(1, Zeros(n));
    assert [0] + Zeros(n) == Zeros(n + 1);
    SumZeros(n + 1);
    SumZeros(n);
    assert ([0] + ([1] + Zeros(n)))[2..] == Zeros(n);
  }

  /** What one more buffer of a probe adds. */
  lemma ProbeLast(b: seq<byte>, n: nat, one: bool)
    requires one ==> n > 0
    ensures var c := if one then [1] + Zeros(n - 1) else Zeros(n);
      && WordSum(c) == (if one then 1 else 0)
      && WordSum(b + c) == WordSum(b) + (if !one then 0 else if |b| % 2 == 0 then 1 else 256)
  {
    hide WordSum;
    var c := if one then [1] + Zeros(n - 1) else Zeros(n);
    SumZeros(n);
    SumZeros(n + 1);
    assert [0] + Zeros(n) == Zeros(n + 1);
    if one {
      SumOne(n - 1);
    }
    if |b| % 2 == 0 {
      SumEven(b, c);
    } else {
      SumOdd(b, c);
    }
  }

  lemma ProbeInit(lens: seq<nat>, i: nat)
    requires lens != [] && (i < |lens| ==> lens[i] > 0)
    ensures var n := |lens| - 1; var init := lens[..n];
      && (i < |init| ==> init[i] > 0) && Probe(lens, i)[..n] == Probe(init, i)
      && Probe(lens, i)[n] == (if i == n then [1] + Zeros(lens[n] - 1) else Zeros(lens[n]))
      && (i < n ==> init[..i] == lens[..i])
  {
  }

  lemma {:induction false} ProbeSums(lens: seq<nat>, i: nat)
    requires i < |lens| ==> lens[i] > 0
    ensures var chunks := Probe(lens, i);
      && |Flatten(chunks)| == Total(lens)
      && Plain(chunks) == (if i < |lens| then 1 else 0)
      && WordSum(Flatten(chunks)) == (if i >= |lens| then 0 else if Total(lens[..i]) % 2 == 0 then 1 else 256)
    decreases |lens|
  {
    hide WordSum; hide Probe; hide Zeros;
    if lens == [] {
      ProbeNone(i);
    } else {
      var n := |lens| - 1;
      var init, chunks := lens[..n], Probe(lens, i);
      ProbeInit(lens, i);
      ProbeSums(init, i);
      ProbeLast(Flatten(Probe(init, i)), lens[n], i == n);
      assert |chunks| == |lens|;
    }
  }

  lemma ProbeNone(i: nat)
    ensures Probe([], i) == [] && WordSum([]) == 0
  {
  }

  /** A buffer whose first byte the code weighs wrongly: the first odd one if the total is odd, the
      last odd one if it is even. */
  lemma {:induction false} Misweighed(lens: seq<nat>) returns (i: nat)
    requires !AllEven(lens)
    ensures i < |lens| && lens[i] > 0 && (Total(lens) % 2 == 0 <==> Total(lens[..i]) % 2 == 1)
    decreases |lens|
  {
    var n := |lens| - 1;
    var init := lens[..n];
    if Total(lens) % 2 == 0 && lens[n] % 2 == 1 {
      i := n;
    } else if AllEven(init) {
      EvenTotal(init);
      i := n;
    } else {
      i := Misweighed(init);
      assert lens[..n][..i] == lens[..i];
      if lens[n] % 2 == 1 {
        i := FirstOdd(lens);
      }
    }
  }

  lemma {:induction false} EvenTotal(lens: seq<nat>)
    requires AllEven(lens)
    ensures Total(lens) % 2 == 0
  {
    if lens != [] {
      EvenTotal(lens[..|lens| - 1]);
    }
  }

  lemma {:induction false} FirstOdd(lens: seq<nat>) returns (i: nat)
    requires !AllEven(lens)
    ensures i < |lens| && lens[i] % 2 == 1 && Total(lens[..i]) % 2 == 0
    decreases |lens|
  {
    var n := |lens| - 1;
    if AllEven(lens[..n]) {
      EvenTotal(lens[..n]);
      i := n;
    } else {
      i := FirstOdd(lens[..n]);
      assert lens[..n][..i] == lens[..i];
    }
  }

  /** `inet_chksum_pbuf` is the Internet checksum of the data, for all data in buffers of the given
      lengths, exactly when all the lengths are even. */
  lemma PbufChecksumIff(lens: seq<nat>)
    ensures (forall chunks: seq<seq<byte>> :: HasLengths(chunks, lens) ==> PbufSum(chunks) == FlatSum(chunks)) <==>
      AllEven(lens)
  {
    hide Norm; hide WordSum; hide Swap; hide Plain; hide Flatten;
    if AllEven(lens) {
      forall chunks: seq<seq<byte>> | HasLengths(chunks, lens) ensures PbufSum(chunks) == FlatSum(chunks) {
        EvenPlain(chunks);
      }
    } else {
      var i := Misweighed(lens);
      var chunks := Probe(lens, i);
      ProbeSums(lens, i);
      NormSmall(1);
      NormSmall(256);
      SwapOne();
      assert HasLengths(chunks, lens) && PbufSum(chunks) != FlatSum(chunks);
    }
  }

  lemma SwapOne()
    ensures Swap(1) == 256
  {
  }
}
