/**
  The packets of the GDB Remote Serial Protocol as kernel/gdb_serial.c sends them: fragments of
  raw or hexadecimal text, run-length encoded, and the hexadecimal reader `hex2bin`.
*/
module RunLength {
  type byte = x: int | 0 <= x < 256

  const STAR: byte := 42    // '*'
  const DOLLAR: byte := 36  // '$'
  const HASH: byte := 35    // '#'

  // ----- hexadecimal -----

  function HexChar(n: int): byte
    requires 0 <= n < 16
  {
    if n < 10 then 48 + n else 97 + n - 10
  }

  /** `hex`: the value of a digit, -1 for anything else. */
  function Hex(c: byte): (v: int)
    ensures -1 <= v < 16
  {
    if 48 <= c <= 57 then c - 48
    else if 97 <= c <= 102 then c - 97 + 10
    else if 65 <= c <= 70 then c - 65 + 10
    else -1
  }

  lemma HexInverse(n: int)
    requires 0 <= n < 16
    ensures Hex(HexChar(n)) == n && HexChar(n) != STAR
  {
  }

  function HexText(d: seq<byte>): (t: seq<byte>)
    ensures |t| == 2 * |d|
  {
    if d == [] then [] else [HexChar(d[0] / 16), HexChar(d[0] % 16)] + HexText(d[1..])
  }

  datatype Option<T> = None | Some(value: T)

  /** What `hex2bin` makes of `len` pairs of digits. */
  function Bytes(t: seq<byte>, len: nat): Option<seq<byte>>
    requires |t| >= 2 * len
  {
    if len == 0 then Some([])
    else if Hex(t[0]) < 0 || Hex(t[1]) < 0 then None
    else
      var rest := Bytes(t[2..], len - 1);
      if rest.None? then None else Some([16 * Hex(t[0]) + Hex(t[1])] + rest.value)
  }

  /** `hex2bin`: either all bytes, or -1 at the first character that is no digit. */
  method Hex2Bin(t: seq<byte>, len: nat) returns (r: int, out: seq<byte>)
    requires |t| >= 2 * len
    ensures r == (if Bytes(t, len).Some? then 0 else -1) && (r == 0 ==> Some(out) == Bytes(t, len))
  {
    hide Bytes; hide Hex;
    out := [];
    var i := 0;
    assert t[0..] == t;
    while i < len
      invariant 0 <= i <= len && |t[2 * i..]| >= 2 * (len - i)
      invariant Bytes(t[2 * i..], len - i).None? <==> Bytes(t, len).None?
      invariant Bytes(t, len).Some? ==> Bytes(t, len).value == out + Bytes(t[2 * i..], len - i).value
    {
      var high, low := Hex(t[2 * i]), Hex(t[2 * i + 1]);
      BytesStep(t, i, len - i);
      if high < 0 || low < 0 {
        return -1, out;
      }
      out := out + [16 * high + low];
      i := i + 1;
    }
    NoBytes(t[2 * i..]);
    assert out + [] == out;
    r := 0;
  }

  lemma NoBytes(t: seq<byte>)
    ensures Bytes(t, 0) == Some([])
  {
  }

  /** One pair of digits of the text at place i. */
  lemma BytesStep(t: seq<byte>, i: nat, len: nat)
    requires len > 0 && |t| >= 2 * (i + len)
    ensures var high, low := Hex(t[2 * i]), Hex(t[2 * i + 1]);
      var rest := Bytes(t[2 * (i + 1)..], len - 1);
      Bytes(t[2 * i..], len) == if high < 0 || low < 0 || rest.None? then None else Some([16 * high + low] + rest.value)
  {
    hide Hex;
    assert t[2 * i..][2..] == t[2 * (i + 1)..];
  }

  /** Reading back the text of any data gives the data. */
  lemma {:induction false} HexRoundTrip(d: seq<byte>)
    ensures Bytes(HexText(d), |d|) == Some(d)
  {
    if d != [] {
      HexRoundTrip(d[1..]);
      HexInverse(d[0] / 16);
      HexInverse(d[0] % 16);
      assert HexText(d)[2..] == HexText(d[1..]);
      assert [d[0]] + d[1..] == d;
    }
  }

  // ----- the encoder -----

  /** A fragment: its bytes up to its length or its NUL, and whether they go out in hexadecimal. */
  datatype Fragment = Fragment(data: seq<byte>, hexify: bool)

  /** The text of a fragment before run-length encoding. */
  function Text(f: Fragment): seq<byte> { if f.hexify then HexText(f.data) else f.data }

  function Texts(fs: seq<Fragment>): seq<byte> {
    if fs == [] then [] else Texts(fs[..|fs| - 1]) + Text(fs[|fs| - 1])
  }

  function Same(c: byte, n: nat): (s: seq<byte>)
    ensures |s| == n && forall i :: 0 <= i < n ==> s[i] == c
  {
    seq(n, i => c)
  }

  // ----- the decoder -----

  /** How the debugger expands a body: a character, `*` and a count of at least 29 stand for the
      character once and then count - 29 times more. */
  function Expand(s: seq<byte>): Option<seq<byte>>
  {
    if s == [] then Some([])
    else if |s| >= 2 && s[1] == STAR then
      if |s| < 3 || s[2] < 29 then None
      else
        var rest := Expand(s[3..]);
        if rest.None? then None else Some(Same(s[0], s[2] - 28) + rest.value)
    else
      var rest := Expand(s[1..]);
      if rest.None? then None else Some([s[0]] + rest.value)
  }

  /** A piece of encoded text: a plain character, or a run. */
  datatype Item = Plain(c: byte) | Run(c: byte, rl: nat)

  /** Runs are as long as one printable count can say. */
  predicate Good(i: Item) { i.Run? ==> 4 <= i.rl <= 98 }

  function Sent(i: Item): seq<byte>
    requires Good(i)
  {
    if i.Plain? then [i.c] else [i.c, STAR, 29 + i.rl - 1]
  }

  function Meant(i: Item): seq<byte> { if i.Plain? then [i.c] else Same(i.c, i.rl) }

  predicate AllGood(items: seq<Item>) { forall k :: 0 <= k < |items| ==> Good(items[k]) }

  function SentAll(items: seq<Item>): seq<byte>
    requires AllGood(items)
  {
    if items == [] then [] else Sent(items[0]) + SentAll(items[1..])
  }

  function MeantAll(items: seq<Item>): seq<byte> {
    if items == [] then [] else Meant(items[0]) + MeantAll(items[1..])
  }

  /** Where the decoder can tell a `*` of the text from the `*` of a run: it follows a run. */
  ghost predicate Clear(items: seq<Item>) {
    forall k :: 0 < k < |items| && items[k].c == STAR ==> items[k - 1].Run?
  }

  /** Expanding what was sent gives what was meant, for any number of fragments. */
  lemma {:induction false} ExpandItems(items: seq<Item>)
    requires AllGood(items) && Clear(items)
    ensures Expand(SentAll(items)) == Some(MeantAll(items))
  {
    if items != [] {
      assert Clear(items[1..]);
      ExpandItems(items[1..]);
      if items[0].Plain? {
        assert |items| > 1 ==> items[1].c != STAR;
        PlainStep(items);
      } else {
        RunStep(items);
      }
    }
  }

  /** The decoder reads a plain character that no `*` follows. */
  lemma PlainStep(items: seq<Item>)
    requires AllGood(items) && items != [] && items[0].Plain? && (|items| > 1 ==> items[1].c != STAR)
    ensures var rest := Expand(SentAll(items[1..]));
      Expand(SentAll(items)) == if rest.None? then None else Some([items[0].c] + rest.value)
  {
    var s, rest := SentAll(items), SentAll(items[1..]);
    assert s[1..] == rest;
    if |items| > 1 {
      assert s[1] == rest[0] == items[1].c;
    }
  }

  /** The decoder reads a run. */
  lemma RunStep(items: seq<Item>)
    requires AllGood(items) && items != [] && items[0].Run?
    ensures var rest := Expand(SentAll(items[1..]));
      Expand(SentAll(items)) == if rest.None? then None else Some(Same(items[0].c, items[0].rl) + rest.value)
  {
    assert SentAll(items)[3..] == SentAll(items[1..]);
  }

  lemma {:induction false} SentJoin(a: seq<Item>, b: seq<Item>)
    requires AllGood(a) && AllGood(b)
    ensures AllGood(a + b) && SentAll(a + b) == SentAll(a) + SentAll(b)
  {
    hide Sent; hide Meant; hide Good;
    if a == [] {
      assert a + b == b;
    } else {
      assert (a + b)[1..] == a[1..] + b;
      SentJoin(a[1..], b);
    }
  }

  lemma {:induction false} MeantJoin(a: seq<Item>, b: seq<Item>)
    ensures MeantAll(a + b) == MeantAll(a) + MeantAll(b)
    ensures AllGood(a + b) <==> AllGood(a) && AllGood(b)
    ensures Starless(a + b) <==> Starless(a) && Starless(b)
  {
    hide Meant; hide Good;
    if a == [] {
      assert a + b == b;
    } else {
      assert (a + b)[1..] == a[1..] + b && a == [a[0]] + a[1..];
      MeantJoin(a[1..], b);
    }
  }

  // ----- the items of a fragment -----

  function MinOf(a: nat, b: nat): nat { if a < b then a else b }

  /** The length of the block of equal bytes at the front. */
  function Block(d: seq<byte>): (n: nat)
    requires d != []
    ensures 1 <= n <= |d| && (forall i :: 0 <= i < n ==> d[i] == d[0]) && (n < |d| ==> d[n] != d[0])
  {
    if |d| > 1 && d[1] == d[0] then 1 + Block(d[1..]) else 1
  }

  lemma BlockAt(d: seq<byte>, n: nat)
    requires 0 < n <= |d| && forall i :: 0 <= i < n ==> d[i] == d[0]
    ensures n <= Block(d) && (n < |d| && d[n] != d[0] ==> Block(d) == n)
  {
  }

  /** What `putfrags` makes of raw data: runs of 4 to 98 equal bytes, other bytes as they are. */
  function RawItems(d: seq<byte>): seq<Item>
  {
    if d == [] then []
    else if Block(d) >= 4 then
      var n := MinOf(Block(d), 98);
      [Run(d[0], n)] + RawItems(d[n..])
    else [Plain(d[0])] + RawItems(d[1..])
  }

  /** The same in hexadecimal, where a run is one of equal bytes with equal digits. */
  function HexItems(d: seq<byte>): seq<Item>
  {
    if d == [] then []
    else if d[0] / 16 == d[0] % 16 && Block(d) >= 2 then
      var n := MinOf(Block(d), 49);
      [Run(HexChar(d[0] % 16), 2 * n)] + HexItems(d[n..])
    else [Plain(HexChar(d[0] / 16)), Plain(HexChar(d[0] % 16))] + HexItems(d[1..])
  }

  function Items(f: Fragment): seq<Item> { if f.hexify then HexItems(f.data) else RawItems(f.data) }

  function AllItems(fs: seq<Fragment>): seq<Item> {
    if fs == [] then [] else AllItems(fs[..|fs| - 1]) + Items(fs[|fs| - 1])
  }

  /** How many bytes of a block of n equal bytes its first item stands for. */
  function ItemLength(n: nat): (m: nat)
    requires n > 0
    ensures 1 <= m <= n
  {
    if n >= 4 then MinOf(n, 98) else 1
  }

  function ItemOf(c: byte, m: nat): Item { if m == 1 then Plain(c) else Run(c, m) }

  lemma RawUnfold(d: seq<byte>)
    requires d != []
    ensures var m := ItemLength(Block(d)); var first := ItemOf(d[0], m);
      && RawItems(d) == [first] + RawItems(d[m..]) && RawItems(d)[1..] == RawItems(d[m..])
      && Good(first) && Meant(first) == d[..m]
  {
    hide Block;
    assert d[..1] == [d[0]];
  }

  lemma MeantUnfold(items: seq<Item>)
    requires items != []
    ensures MeantAll(items) == Meant(items[0]) + MeantAll(items[1..])
    ensures AllGood(items) <==> Good(items[0]) && AllGood(items[1..])
  {
    hide Meant; hide Good;
    if AllGood(items[1..]) && Good(items[0]) {
      forall k | 0 <= k < |items| ensures Good(items[k]) {
        assert k > 0 ==> items[k] == items[1..][k - 1];
      }
    }
  }

  lemma {:induction false} RawMeaning(d: seq<byte>)
    ensures AllGood(RawItems(d)) && MeantAll(RawItems(d)) == d
    decreases |d|
  {
    hide RawItems; hide MeantAll; hide Meant; hide ItemLength; hide Good; hide AllGood; hide ItemOf; hide Block;
    if d == [] {
      NoItems();
    } else {
      var n := ItemLength(Block(d));
      RawUnfold(d);
      RawMeaning(d[n..]);
      MeantUnfold(RawItems(d));
      CutAt(d, n);
    }
  }

  lemma CutAt(d: seq<byte>, n: nat)
    requires n <= |d|
    ensures d == d[..n] + d[n..]
  {
  }

  lemma NoItems()
    ensures RawItems([]) == [] && HexItems([]) == [] && HexText([]) == []
    ensures AllGood([]) && MeantAll([]) == [] && SentAll([]) == [] && ByteSum([]) == 0 && Starless([])
  {
  }

  predicate Starless(items: seq<Item>) { forall k :: 0 <= k < |items| ==> items[k].c != STAR }

  lemma {:induction false} HexMeaning(d: seq<byte>)
    ensures AllGood(HexItems(d)) && MeantAll(HexItems(d)) == HexText(d) && Starless(HexItems(d))
    decreases |d|
  {
    hide Block; hide MeantAll; hide HexText; hide HexChar; hide AllGood; hide Starless; hide Good; hide HexItems;
    if d == [] {
      NoItems();
    } else {
      var run := d[0] / 16 == d[0] % 16 && Block(d) >= 2;
      var n := if run then MinOf(Block(d), 49) else 1;
      var first := HexFirst(d, n);
      HexMeaning(d[n..]);
      MeantJoin(first, HexItems(d[n..]));
      HexJoin(d[..n], d[n..]);
      CutAt(d, n);
    }
  }

  /** The items of the bytes of hexadecimal data that go out together. */
  lemma HexFirst(d: seq<byte>, n: nat) returns (first: seq<Item>)
    requires d != [] && n == if d[0] / 16 == d[0] % 16 && Block(d) >= 2 then MinOf(Block(d), 49) else 1
    ensures n <= |d| && HexItems(d) == first + HexItems(d[n..])
    ensures AllGood(first) && Starless(first) && MeantAll(first) == HexText(d[..n])
  {
    hide Block; hide MeantAll; hide HexText; hide AllGood; hide Starless; hide Good; hide HexChar;
    if d[0] / 16 == d[0] % 16 && Block(d) >= 2 {
      first := [Run(HexChar(d[0] % 16), 2 * n)];
      HexRunItem(d, n);
    } else {
      first := [Plain(HexChar(d[0] / 16)), Plain(HexChar(d[0] % 16))];
      HexPlainItems(d[0]);
      assert d[..1] == [d[0]];
    }
  }

  lemma HexRunItem(d: seq<byte>, n: nat)
    requires d != [] && d[0] / 16 == d[0] % 16 && Block(d) >= 2 && n == MinOf(Block(d), 49)
    ensures var items := [Run(HexChar(d[0] % 16), 2 * n)];
      AllGood(items) && Starless(items) && MeantAll(items) == HexText(d[..n])
  {
    hide Block; hide HexText;
    HexRun(d[..n], d[0]);
    assert MeantAll([]) == [];
  }

  lemma HexPlainItems(b: byte)
    ensures var items := [Plain(HexChar(b / 16)), Plain(HexChar(b % 16))];
      AllGood(items) && Starless(items) && MeantAll(items) == HexText([b])
  {
    var items := [Plain(HexChar(b / 16)), Plain(HexChar(b % 16))];
    assert items[1..] == [items[1]] && items[1..][1..] == [] && MeantAll([]) == [];
    assert [b][1..] == [] && HexText([]) == [];
  }

  /** The items of a fragment mean its text. */
  lemma ItemsMean(f: Fragment)
    ensures AllGood(Items(f)) && MeantAll(Items(f)) == Text(f)
    ensures f.hexify || STAR !in f.data ==> Starless(Items(f))
  {
    if f.hexify {
      HexMeaning(f.data);
    } else {
      RawMeaning(f.data);
      RawBytes(f.data);
    }
  }

  lemma {:induction false} RawBytes(d: seq<byte>)
    ensures forall k :: 0 <= k < |RawItems(d)| ==> RawItems(d)[k].c in d
    decreases |d|
  {
    if d != [] {
      var n := ItemLength(Block(d));
      RawBytes(d[n..]);
    }
  }

  lemma {:induction false} AllItemsMean(fs: seq<Fragment>)
    ensures AllGood(AllItems(fs)) && MeantAll(AllItems(fs)) == Texts(fs)
    ensures (forall i :: 0 <= i < |fs| ==> fs[i].hexify || STAR !in fs[i].data) ==> Starless(AllItems(fs))
  {
    hide MeantAll; hide Items; hide Text; hide AllGood; hide Starless;
    if fs == [] {
      NoItems();
    } else {
      var front, last := fs[..|fs| - 1], fs[|fs| - 1];
      AllItemsMean(front);
      ItemsMean(last);
      MeantJoin(AllItems(front), Items(last));
      assert forall i :: 0 <= i < |front| ==> front[i] == fs[i];
    }
  }

  lemma StarlessClear(items: seq<Item>)
    requires Starless(items)
    ensures Clear(items)
  {
  }

  lemma {:induction false} HexRun(d: seq<byte>, b: byte)
    requires b / 16 == b % 16 && forall i :: 0 <= i < |d| ==> d[i] == b
    ensures HexText(d) == Same(HexChar(b % 16), 2 * |d|)
  {
    if d != [] {
      HexRun(d[1..], b);
    }
  }

  lemma {:induction false} HexJoin(a: seq<byte>, b: seq<byte>)
    ensures HexText(a + b) == HexText(a) + HexText(b)
  {
    if a == [] {
      assert a + b == b;
    } else {
      assert (a + b)[1..] == a[1..] + b;
      HexJoin(a[1..], b);
    }
  }

  // ----- exactly when a raw fragment survives -----

  /** The blocks of equal bytes after which, or inside which, a `*` follows a plain character: runs
      hold at most 98 bytes, and up to 3 bytes left over by them are sent as they are. */
  predicate StarsSafe(d: seq<byte>)
  {
    d == [] ||
    var n := Block(d);
    && (d[0] == STAR ==> n % 98 != 2 && n % 98 != 3)
    && (n < |d| && d[n] == STAR ==> n % 98 == 0 || n % 98 > 3)
    && StarsSafe(d[n..])
  }

  /** The items of a block of n equal bytes. */
  function BlockItems(c: byte, n: nat): (items: seq<Item>)
  {
    if n == 0 then []
    else var m := ItemLength(n); [ItemOf(c, m)] + BlockItems(c, n - m)
  }

  predicate EndsInRun(items: seq<Item>) { items != [] && items[|items| - 1].Run? }

  lemma {:induction false} BlockShape(c: byte, n: nat)
    ensures var items := BlockItems(c, n);
      && (forall k :: 0 <= k < |items| ==> items[k].c == c)
      && (n > 0 ==> items != [] && (EndsInRun(items) <==> n % 98 == 0 || n % 98 > 3))
  {
    if n > 0 {
      hide BlockItems; hide ItemOf;
      var m := ItemLength(n);
      BlockUnfold(c, n);
      BlockShape(c, n - m);
      LeftOver(n);
      ItemOfIs(c, m);
    }
  }

  lemma ItemOfIs(c: byte, m: nat)
    ensures ItemOf(c, m).c == c && (ItemOf(c, m).Run? <==> m != 1)
  {
  }

  /** A block of `*` is clear unless two or three are left over by its runs. */
  lemma {:induction false} BlockClear(n: nat)
    ensures Clear(BlockItems(STAR, n)) <==> n % 98 != 2 && n % 98 != 3
  {
    hide Clear; hide BlockItems;
    if n == 0 {
      BlockUnfold(STAR, 1);
      ClearOne(Plain(STAR));
    } else {
      var m := ItemLength(n);
      BlockUnfold(STAR, n);
      BlockClear(n - m);
      BlockShape(STAR, n - m);
      ClearJoin([ItemOf(STAR, m)], BlockItems(STAR, n - m));
      ClearOne(ItemOf(STAR, m));
      LeftOver(n);
    }
  }

  lemma BlockUnfold(c: byte, n: nat)
    requires n > 0
    ensures var m := ItemLength(n); BlockItems(c, n) == [ItemOf(c, m)] + BlockItems(c, n - m)
    ensures BlockItems(c, 0) == []
  {
  }

  /** What is left of a block after its first item. */
  lemma LeftOver(n: nat)
    requires n > 0
    ensures n >= 98 ==> ItemLength(n) == 98 && (n - 98) % 98 == n % 98
    ensures 4 <= n < 98 ==> ItemLength(n) == n && n % 98 == n
    ensures n < 4 ==> ItemLength(n) == 1 && n % 98 == n
  {
  }

  lemma ClearOne(i: Item)
    ensures Clear([i]) && Clear([])
  {
  }

  lemma {:induction false} BlockFirst(d: seq<byte>, n: nat)
    requires 0 < n <= |d| && (forall i :: 0 <= i < n ==> d[i] == d[0]) && (n < |d| ==> d[n] != d[0])
    ensures RawItems(d) == BlockItems(d[0], n) + RawItems(d[n..])
    decreases n
  {
    hide Block; hide RawItems; hide ItemOf; hide ItemLength;
    BlockAt(d, n);
    RawUnfold(d);
    var m := ItemLength(n);
    var rest := d[m..];
    if m < n {
      assert rest[0] == d[0] && rest[n - m..] == d[n..];
      BlockFirst(rest, n - m);
    }
  }

  lemma ClearJoin(a: seq<Item>, b: seq<Item>)
    ensures Clear(a + b) <==>
      Clear(a) && Clear(b) && (a != [] && b != [] && b[0].c == STAR ==> EndsInRun(a))
  {
    var c := a + b;
    if Clear(c) {
      forall k | 0 < k < |a| && a[k].c == STAR ensures a[k - 1].Run? {
        assert c[k] == a[k] && c[k - 1] == a[k - 1];
      }
      forall k | 0 < k < |b| && b[k].c == STAR ensures b[k - 1].Run? {
        assert c[|a| + k] == b[k] && c[|a| + k - 1] == b[k - 1];
      }
      if a != [] && b != [] {
        assert c[|a|] == b[0] && c[|a| - 1] == a[|a| - 1];
      }
    }
  }

  /** The condition on the data is the condition on what is sent. */
  lemma {:induction false} SafeIsClear(d: seq<byte>)
    ensures Clear(RawItems(d)) <==> StarsSafe(d)
    decreases |d|
  {
    if d != [] {
      hide RawItems; hide BlockItems; hide Clear;
      var n := Block(d);
      BlockFirst(d, n);
      SafeIsClear(d[n..]);
      ClearJoin(BlockItems(d[0], n), RawItems(d[n..]));
      RawFirst(d[n..]);
      BlockShape(d[0], n);
      BlockClear(n);
      PlainBlock(d[0], n);
    }
  }

  lemma PlainBlock(c: byte, n: nat)
    ensures c != STAR ==> Clear(BlockItems(c, n))
  {
    hide BlockItems;
    BlockShape(c, n);
  }

  lemma RawFirst(d: seq<byte>)
    ensures d != [] ==> RawItems(d) != [] && RawItems(d)[0].c == d[0]
    ensures d == [] ==> RawItems(d) == []
  {
  }

  /** What is sent begins with the first byte, and goes on with `*` or the second. */
  lemma SentSecond(d: seq<byte>)
    requires AllGood(RawItems(d)) && d != []
    ensures var s := SentAll(RawItems(d));
      && s != [] && s[0] == d[0]
      && (|s| > 1 ==> s[1] == STAR || (|d| > 1 && s[1] == d[1]))
  {
    hide Block; hide RawItems; hide ItemLength;
    var m := ItemLength(Block(d));
    RawUnfold(d);
    RawFirst(d[m..]);
  }

  // A decoder that has once read a `*` of the text as that of a run is behind: it has used up more of
  // the packet than the encoder spent on the text read so far, and it stays behind.  It could gain
  // only by a run of more than 98, which the encoder sends as a run of 98 with the count 126; but the
  // first 126 in the packet would have to be read before it is there.

  /** What is sent for raw data. */
  function Encoded(d: seq<byte>): seq<byte> {
    RawMeaning(d);
    SentAll(RawItems(d))
  }

  /** The number of characters sent for a block of n equal bytes. */
  function BlockCost(n: nat): nat { 3 * (n / 98) + MinOf(n % 98, 3) }

  lemma CostStep(n: nat, k: nat)
    requires k <= 98
    ensures BlockCost(n) <= BlockCost(n + k) <= BlockCost(n) + MinOf(k, 3)
  {
    var a, r := n / 98, n % 98;
    if r + k < 98 {
      assert (n + k) / 98 == a && (n + k) % 98 == r + k;
    } else {
      assert (n + k) / 98 == a + 1 && (n + k) % 98 == r + k - 98;
    }
  }

  /** What is sent splits where a block ends. */
  lemma {:induction false} EncodedJoin(u: seq<byte>, v: seq<byte>)
    requires u != [] && v != [] ==> u[|u| - 1] != v[0]
    ensures Encoded(u + v) == Encoded(u) + Encoded(v)
    decreases |u|
  {
    hide RawItems; hide SentAll; hide BlockItems; hide Block; hide AllGood; hide MeantAll; hide ByteSum; hide HexItems;
    NoItems();
    if u == [] {
      assert u + v == v;
    } else {
      var n := Block(u);
      var w := u[n..];
      assert (u + v)[n..] == w + v;
      BlockFirst(u, n);
      BlockFirst(u + v, n);
      EncodedJoin(w, v);
      BlockGood(u[0], n);
      RawMeaning(w);
      RawMeaning(w + v);
      SentJoin(BlockItems(u[0], n), RawItems(w));
      SentJoin(BlockItems(u[0], n), RawItems(w + v));
    }
  }

  lemma {:induction false} BlockGood(c: byte, n: nat)
    ensures AllGood(BlockItems(c, n)) && |SentAll(BlockItems(c, n))| == BlockCost(n)
  {
    if n > 0 {
      hide BlockItems; hide AllGood; hide SentAll;
      var m := ItemLength(n);
      BlockUnfold(c, n);
      BlockGood(c, n - m);
      var first := [ItemOf(c, m)];
      OneSent(c, m);
      SentJoin(first, BlockItems(c, n - m));
      BlockCosts(n);
    }
  }

  lemma OneSent(c: byte, m: nat)
    requires m == 1 || 4 <= m <= 98
    ensures AllGood([ItemOf(c, m)]) && SentAll([ItemOf(c, m)]) == Sent(ItemOf(c, m))
  {
    assert SentAll([]) == [];
  }

  lemma BlockCosts(n: nat)
    requires n > 0
    ensures var m := ItemLength(n); BlockCost(n) == BlockCost(n - m) + (if m == 1 then 1 else 3)
  {
    LeftOver(n);
    if n >= 98 {
      assert (n - 98) / 98 == n / 98 - 1;
    }
  }

  lemma EncodedBlock(c: byte, n: nat)
    ensures |Encoded(Same(c, n))| == BlockCost(n)
  {
    hide RawItems; hide SentAll; hide BlockItems;
    NoItems();
    if n > 0 {
      var d := Same(c, n);
      BlockFirst(d, n);
      assert d[n..] == [];
      BlockGood(c, n);
      assert BlockItems(c, n) + [] == BlockItems(c, n);
    }
  }

  /** The number of characters sent in hexadecimal for n equal bytes with equal digits. */
  function HexCost(n: nat): nat { 3 * (n / 49) + (if n % 49 == 0 then 0 else if n % 49 == 1 then 2 else 3) }

  lemma HexCosts(n: nat)
    ensures n >= 49 ==> HexCost(n) == HexCost(n - 49) + 3
    ensures 2 <= n < 49 ==> HexCost(n) == 3
    ensures HexCost(0) == 0 && HexCost(1) == 2
  {
    if n >= 49 {
      assert (n - 49) / 49 == n / 49 - 1 && (n - 49) % 49 == n % 49;
    }
  }

  lemma {:induction false} HexBlockSent(b: byte, n: nat)
    requires b / 16 == b % 16
    ensures AllGood(HexItems(Same(b, n))) && |SentAll(HexItems(Same(b, n)))| == HexCost(n)
  {
    hide Block; hide HexItems; hide SentAll; hide HexChar; hide AllGood; hide Good; hide HexCost;
    NoItems();
    HexCosts(n);
    var d := Same(b, n);
    if n == 0 {
      assert d == [];
    } else {
      BlockAt(d, n);
      var m := if n >= 2 then MinOf(n, 49) else 1;
      assert d[m..] == Same(b, n - m);
      HexBlockSent(b, n - m);
      HexNext(d, m);
    }
  }

  lemma HexNext(d: seq<byte>, m: nat)
    requires d != [] && d[0] / 16 == d[0] % 16 && m == (if Block(d) >= 2 then MinOf(Block(d), 49) else 1)
    requires m <= |d| && AllGood(HexItems(d[m..]))
    ensures AllGood(HexItems(d)) && |SentAll(HexItems(d))| == |SentAll(HexItems(d[m..]))| + (if m >= 2 then 3 else 2)
  {
    hide Block; hide HexChar;
    var rest := HexItems(d[m..]);
    if m >= 2 {
      var first := [Run(HexChar(d[0] % 16), 2 * m)];
      assert HexItems(d) == first + rest && SentAll([]) == [] && first[1..] == [];
      SentJoin(first, rest);
    } else {
      var first := [Plain(HexChar(d[0] / 16)), Plain(HexChar(d[0] % 16))];
      assert HexItems(d) == first + rest && SentAll([]) == [] && first[1..] == [first[1]] && first[1..][1..] == [];
      SentJoin(first, rest);
    }
  }

  /** Where the block of equal bytes begins in which position o lies. */
  lemma {:induction false} BlockStart(d: seq<byte>, o: nat) returns (q: nat)
    requires o < |d|
    ensures q <= o && (forall i :: q <= i <= o ==> d[i] == d[o]) && (q > 0 ==> d[q - 1] != d[q])
  {
    if o > 0 && d[o - 1] == d[o] {
      q := BlockStart(d, o - 1);
    } else {
      q := o;
    }
  }

  /** What was spent on the first o bytes, when their last block begins at q. */
  lemma SpentOn(d: seq<byte>, q: nat, o: nat)
    requires q <= o <= |d| && (q < o ==> forall i :: q <= i < o ==> d[i] == d[q]) && (0 < q < |d| ==> d[q - 1] != d[q])
    ensures |Encoded(d[..o])| == |Encoded(d[..q])| + BlockCost(o - q)
  {
    hide Encoded;
    if q == o {
      assert d[..o] == d[..q];
    } else {
      assert d[..o] == d[..q] + Same(d[q], o - q);
      EncodedJoin(d[..q], Same(d[q], o - q));
      EncodedBlock(d[q], o - q);
    }
  }

  /** The bytes sent for the block that begins at q. */
  lemma SentAt(d: seq<byte>, q: nat)
    requires q < |d| && (q > 0 ==> d[q - 1] != d[q])
    ensures var s, b := Encoded(d), |Encoded(d[..q])|;
      && b < |s| && s[b] == d[q]
      && (Block(d[q..]) >= 98 ==> b + 2 < |s| && s[b + 2] == 126)
  {
    assert d == d[..q] + d[q..];
    EncodedJoin(d[..q], d[q..]);
    FirstSent(d[q..]);
    assert forall i :: 0 <= i < |Encoded(d[q..])| ==> Encoded(d)[|Encoded(d[..q])| + i] == Encoded(d[q..])[i];
  }

  lemma FirstSent(d: seq<byte>)
    requires d != []
    ensures var s := Encoded(d); s != [] && s[0] == d[0] && (Block(d) >= 98 ==> |s| > 2 && s[2] == 126)
  {
    hide Block; hide RawItems;
    RawUnfold(d);
    RawMeaning(d);
    assert RawItems(d)[0] == ItemOf(d[0], ItemLength(Block(d)));
  }

  /** The decoder, which took the `*` in second place for that of a run, has read j characters of the
      packet and o bytes of the text, and is behind. */
  ghost predicate Behind(d: seq<byte>, j: nat, o: nat) {
    var s := Encoded(d);
    && 0 < j <= |s| && 0 < o <= |d| && |Encoded(d[..o])| < j && |d| > 1 && d[1] == STAR
    && forall i :: 0 < i < j ==> s[i] != 126
  }

  /** The next character of the packet, if it is the next of the text, is not 126. */
  lemma NotYet(d: seq<byte>, j: nat, o: nat)
    requires Behind(d, j, o) && j < |Encoded(d)| && o < |d| && d[o] == Encoded(d)[j]
    ensures Encoded(d)[j] != 126
  {
    hide Encoded; hide Block;
    var q := BlockStart(d, o);
    SpentOn(d, q, o);
    SentAt(d, q);
    assert q == 0 ==> d[1] == d[o];
    assert q > 0 ==> |Encoded(d[..q])| > 0 by {
      if q > 0 {
        SentAt(d, 0);
        SomethingSent(d[..q]);
      }
    }
  }

  lemma SomethingSent(d: seq<byte>)
    requires d != []
    ensures Encoded(d) != []
  {
    hide Encoded;
    FirstSent(d);
  }

  /** The text has no run of 98 or more at this place. */
  lemma NoLongRun(d: seq<byte>, j: nat, o: nat, k: nat)
    requires Behind(d, j, o) && j + 1 < |Encoded(d)| && Encoded(d)[j + 1] == STAR && o + k <= |d| && k > 0
    requires j < |Encoded(d)| && forall i :: o <= i < o + k ==> d[i] == Encoded(d)[j]
    ensures k < 98
  {
    hide Encoded; hide Block;
    var q := BlockStart(d, o);
    SpentOn(d, q, o);
    SentAt(d, q);
    NotYet(d, j, o);
    BlockReaches(d, q, o, k);
  }

  lemma BlockReaches(d: seq<byte>, q: nat, o: nat, k: nat)
    requires q <= o && 0 < k && o + k <= |d| && (forall i :: q <= i <= o ==> d[i] == d[o])
    requires forall i :: o <= i < o + k ==> d[i] == d[o]
    ensures Block(d[q..]) >= k
  {
    var w := d[q..];
    var n := o + k - q;
    forall i | 0 <= i < n ensures w[i] == w[0] {
      assert w[i] == d[q + i] == d[o];
    }
    BlockAt(w, n);
  }

  /** What the next k equal bytes cost. */
  lemma SpentNext(d: seq<byte>, o: nat, k: nat)
    requires 0 < k <= 98 && o + k <= |d| && forall i :: o <= i < o + k ==> d[i] == d[o]
    ensures |Encoded(d[..o + k])| <= |Encoded(d[..o])| + MinOf(k, 3)
  {
    hide Encoded; hide BlockCost;
    var q := BlockStart(d, o);
    SpentOn(d, q, o);
    SpentOn(d, q, o + k);
    CostStep(o - q, k);
  }

  /** What a decoder does that reads a `*` in second place. */
  lemma ReadsRun(t: seq<byte>, r: seq<byte>)
    requires |t| >= 2 && t[1] == STAR && Expand(t) == Some(r)
    ensures |t| >= 3 && t[2] >= 29
    ensures var k := t[2] - 28;
      k <= |r| && (forall i :: 0 <= i < k ==> r[i] == t[0]) && Expand(t[3..]) == Some(r[k..])
  {
    var k := t[2] - 28;
    assert Same(t[0], k) == r[..k];
  }

  lemma ReadsPlain(t: seq<byte>, r: seq<byte>)
    requires t != [] && (|t| >= 2 ==> t[1] != STAR) && Expand(t) == Some(r)
    ensures r != [] && r[0] == t[0] && Expand(t[1..]) == Some(r[1..])
  {
  }

  lemma ReadsNothing(d: seq<byte>, j: nat, o: nat)
    requires Behind(d, j, o) && j == |Encoded(d)|
    ensures Expand(Encoded(d)[j..]) != Some(d[o..])
  {
    hide Encoded;
    assert d[..|d|] == d && Encoded(d)[j..] == [];
  }

  lemma {:induction false} StaysBehind(d: seq<byte>, j: nat, o: nat)
    requires Behind(d, j, o)
    ensures Expand(Encoded(d)[j..]) != Some(d[o..])
    decreases |Encoded(d)| - j
  {
    hide Encoded; hide Expand; hide Behind;
    BehindFacts(d, j, o);
    var s := Encoded(d);
    var t := s[j..];
    if t == [] {
      ReadsNothing(d, j, o);
    } else if Expand(t) == Some(d[o..]) {
      var run := |t| >= 2 && t[1] == STAR;
      var k, m := 1, 1;
      if run {
        ReadsRun(t, d[o..]);
        k, m := t[2] - 28, 3;
      } else {
        ReadsPlain(t, d[o..]);
      }
      forall i | o <= i < o + k ensures d[i] == s[j] {
        assert d[o..][i - o] == d[i];
      }
      assert t[m..] == s[j + m..] && d[o..][k..] == d[o + k..];
      BehindStep(d, j, o, k, m);
      StaysBehind(d, j + m, o + k);
    }
  }

  lemma BehindFacts(d: seq<byte>, j: nat, o: nat)
    requires Behind(d, j, o)
    ensures 0 < j <= |Encoded(d)| && 0 < o <= |d|
  {
  }

  lemma BehindStep(d: seq<byte>, j: nat, o: nat, k: nat, m: nat)
    requires Behind(d, j, o) && 0 < k && o + k <= |d| && j + m <= |Encoded(d)|
    requires j < |Encoded(d)| && forall i :: o <= i < o + k ==> d[i] == Encoded(d)[j]
    requires if m == 1 then k == 1 else m == 3 && Encoded(d)[j + 1] == STAR && Encoded(d)[j + 2] == k + 28
    ensures Behind(d, j + m, o + k)
  {
    hide Encoded;
    NotYet(d, j, o);
    if m == 3 {
      NoLongRun(d, j, o, k);
    }
    SpentNext(d, o, k);
    forall i | 0 < i < j + m ensures Encoded(d)[i] != 126 {
      assert i < j || i == j || i == j + 1 || i == j + 2;
    }
  }

  /** A `*` after a plain character is read as a run, and the result is another text. */
  lemma StarMisread(d: seq<byte>)
    requires |d| > 1 && Block(d) < 4 && d[1] == STAR
    ensures Expand(Encoded(d)) != Some(d)
  {
    hide Block; hide RawItems; hide Expand; hide SentAll; hide AllGood; hide Encoded;
    var s := Encoded(d);
    SentStart(d);
    if Expand(s) == Some(d) {
      ReadsRun(s, d);
      var k := s[2] - 28;
      BlockAt(d, k);
      assert d[..k] == Same(d[0], k);
      EncodedBlock(d[0], k);
      assert k < 3;
      assert Behind(d, 3, k);
      StaysBehind(d, 3, k);
    }
  }

  /** What is sent when a `*` follows a plain character. */
  lemma SentStart(d: seq<byte>)
    requires |d| > 1 && Block(d) < 4 && d[1] == STAR
    ensures var s := Encoded(d);
      && |s| >= 2 && s[0] == d[0] && s[1] == STAR && (|s| > 2 ==> s[2] == STAR || (|d| > 2 && s[2] == d[2]))
  {
    hide Block; hide RawItems; hide Good; hide SentAll; hide AllGood;
    RawMeaning(d);
    SentPlain(d);
    SentSecond(d[1..]);
  }

  lemma SentPlain(d: seq<byte>)
    requires d != [] && Block(d) < 4 && AllGood(RawItems(d))
    ensures AllGood(RawItems(d[1..])) && SentAll(RawItems(d)) == [d[0]] + SentAll(RawItems(d[1..]))
  {
    hide Block; hide RawItems;
    FirstItems(d, false);
    var items := RawItems(d);
    assert items[1..] == RawItems(d[1..]) && items[0] == Plain(d[0]);
  }

  lemma {:induction false} UnclearLossy(d: seq<byte>)
    requires AllGood(RawItems(d)) && !Clear(RawItems(d))
    ensures Expand(SentAll(RawItems(d))) != Some(d)
    decreases |d|
  {
    hide Block; hide RawItems; hide Expand; hide Good; hide Clear; hide SentAll; hide ItemLength; hide Meant;
    ClearOne(Plain(0));
    NoItems();
    var n := ItemLength(Block(d));
    RawUnfold(d);
    var items, first, rest := RawItems(d), ItemOf(d[0], n), d[n..];
    ClearOne(first);
    ClearJoin([first], RawItems(rest));
    RawFirst(rest);
    LengthOne(Block(d));
    if first.Plain? && n < |d| && d[1] == STAR {
      StarMisread(d);
    } else {
      UnclearLossy(rest);
      CutAt(d, n);
      assert items[0] == first && (rest != [] ==> items[1] == RawItems(rest)[0]);
      if first.Plain? {
        PlainStep(items);
      } else {
        RunStep(items);
      }
      SameFront(items[0], d, n, Expand(SentAll(items[1..])));
    }
  }

  lemma LengthOne(n: nat)
    requires n > 0
    ensures ItemLength(n) == 1 <==> n < 4
  {
  }

  /** Equal fronts: the whole differs where the rest differs. */
  lemma SameFront(first: Item, d: seq<byte>, n: nat, rest: Option<seq<byte>>)
    requires 1 <= n <= |d| && Meant(first) == d[..n] && rest != Some(d[n..])
    ensures rest.Some? ==> Meant(first) + rest.value != d
  {
    assert rest.Some? ==> (Meant(first) + rest.value)[n..] == rest.value;
  }

  /** A raw fragment comes back if and only if every `*` in it follows a run. */
  lemma LosslessIff(d: seq<byte>)
    ensures AllGood(RawItems(d)) && (Expand(SentAll(RawItems(d))) == Some(d) <==> StarsSafe(d))
  {
    RawMeaning(d);
    SafeIsClear(d);
    if StarsSafe(d) {
      ExpandItems(RawItems(d));
    } else {
      UnclearLossy(d);
    }
  }

  // ----- putfrags -----

  /** The end of the run that starts at p, not beyond the limit. */
  method RunEnd(d: seq<byte>, p: nat, from: nat, limit: nat) returns (q: nat)
    requires p < |d| && p < from <= limit <= |d| && forall i :: p <= i < from ==> d[i] == d[p]
    ensures from <= q <= limit && q - p == MinOf(Block(d[p..]), limit - p)
  {
    q := from;
    while q < limit && d[q] == d[p]
      invariant from <= q <= limit && forall i :: p <= i < q ==> d[i] == d[p]
    {
      q := q + 1;
    }
    BlockAt(d[p..], q - p);
  }

  /** The test that starts a run at position p. */
  predicate StartsRun(d: seq<byte>, p: nat, hexify: bool)
    requires p < |d|
  {
    p + (if hexify then 1 else 3) < |d| && d[p + 1] == d[p]
    && (if hexify then d[p] / 16 == d[p] % 16 else d[p + 2] == d[p] && d[p + 3] == d[p])
  }

  /** The next items of raw data from position p on, and where they end. */
  method NextRaw(d: seq<byte>, p: nat) returns (items: seq<Item>, q: nat)
    requires p < |d|
    ensures p < q <= |d| && RawItems(d[p..]) == items + RawItems(d[q..])
  {
    hide Block; hide RawItems; hide HexItems;
    RunTest(d, p, false);
    FirstItems(d[p..], false);
    if StartsRun(d, p, false) {
      q := RunEnd(d, p, p + 4, MinOf(p + 98, |d|));
      items := [Run(d[p], q - p)];
    } else {
      q := p + 1;
      items := [Plain(d[p])];
    }
    assert d[p..][q - p..] == d[q..];
  }

  /** The same in hexadecimal. */
  method NextHex(d: seq<byte>, p: nat) returns (items: seq<Item>, q: nat)
    requires p < |d|
    ensures p < q <= |d| && HexItems(d[p..]) == items + HexItems(d[q..])
  {
    hide Block; hide RawItems; hide HexItems; hide HexChar;
    RunTest(d, p, true);
    FirstItems(d[p..], true);
    if StartsRun(d, p, true) {
      q := RunEnd(d, p, p + 2, MinOf(p + 49, |d|));
      items := [Run(HexChar(d[p] % 16), 2 * (q - p))];
    } else {
      q := p + 1;
      items := [Plain(HexChar(d[p] / 16)), Plain(HexChar(d[p] % 16))];
    }
    assert d[p..][q - p..] == d[q..];
  }

  lemma RunTest(d: seq<byte>, p: nat, hexify: bool)
    requires p < |d|
    ensures StartsRun(d, p, hexify) <==>
      if hexify then d[p] / 16 == d[p] % 16 && Block(d[p..]) >= 2 else Block(d[p..]) >= 4
  {
    var n := if hexify then 1 else 3;
    var rest := d[p..];
    if p + n < |d| && forall i :: 0 <= i <= n ==> rest[i] == rest[0] {
      BlockAt(rest, n + 1);
    }
    assert Block(rest) > n ==> rest[1] == rest[0] && rest[n] == rest[0] && (n == 3 ==> rest[2] == rest[0]);
  }

  /** The items at the front of data. */
  lemma FirstItems(d: seq<byte>, hexify: bool)
    requires d != []
    ensures !hexify && Block(d) >= 4 ==>
      var n := MinOf(Block(d), 98); RawItems(d) == [Run(d[0], n)] + RawItems(d[n..])
    ensures !hexify && Block(d) < 4 ==> RawItems(d) == [Plain(d[0])] + RawItems(d[1..])
    ensures hexify && d[0] / 16 == d[0] % 16 && Block(d) >= 2 ==>
      var n := MinOf(Block(d), 49); HexItems(d) == [Run(HexChar(d[0] % 16), 2 * n)] + HexItems(d[n..])
    ensures hexify && !(d[0] / 16 == d[0] % 16 && Block(d) >= 2) ==>
      HexItems(d) == [Plain(HexChar(d[0] / 16)), Plain(HexChar(d[0] % 16))] + HexItems(d[1..])
  {
    hide Block;
  }

  method EncodeFragment(f: Fragment) returns (items: seq<Item>)
    ensures items == Items(f)
  {
    hide RawItems; hide HexItems;
    items := [];
    var p := 0;
    assert f.data[0..] == f.data;
    while p < |f.data|
      invariant 0 <= p <= |f.data| && Items(f) == items + Items(Fragment(f.data[p..], f.hexify))
    {
      var next: seq<Item>;
      if f.hexify {
        next, p := NextHex(f.data, p);
      } else {
        next, p := NextRaw(f.data, p);
      }
      items := items + next;
    }
    assert f.data[p..] == [];
    NoItems();
  }

  function ByteSum(s: seq<byte>): nat { if s == [] then 0 else ByteSum(s[..|s| - 1]) + s[|s| - 1] }

  /** A packet: `$`, the body, `#` and the sum of the body modulo 256 in two hexadecimal digits. */
  function Packet(body: seq<byte>): seq<byte> {
    var c := ByteSum(body) % 256;
    [DOLLAR] + body + [HASH, HexChar(c / 16), HexChar(c % 16)]
  }

  /** One transmission of `putfrags`: the packet holds the items of the fragments and ends in the
      checksum of its body, every count is a printable character, and expanding the body gives the
      text of the fragments wherever every `*` of the text follows a run. */
  method PutFrags(frags: seq<Fragment>) returns (packet: seq<byte>)
    ensures var items := AllItems(frags);
      && AllGood(items) && packet == Packet(SentAll(items)) && MeantAll(items) == Texts(frags)
      && (Clear(items) ==> Expand(SentAll(items)) == Some(Texts(frags)))
      && (forall k :: 0 <= k < |items| && items[k].Run? ==> 32 <= 29 + items[k].rl - 1 <= 126)
    ensures (forall i :: 0 <= i < |frags| ==> frags[i].hexify || STAR !in frags[i].data) ==> Clear(AllItems(frags))
    ensures |frags| == 1 && !frags[0].hexify ==>
      AllGood(AllItems(frags)) &&
      (Expand(SentAll(AllItems(frags))) == Some(frags[0].data) <==> StarsSafe(frags[0].data))
  {
    hide Expand; hide SentAll; hide MeantAll; hide ByteSum; hide Clear; hide AllItems; hide StarsSafe; hide Texts;
    var checksum: int;
    packet, checksum := SendFragments(frags);
    AllItemsMean(frags);
    ghost var items := AllItems(frags);
    if Starless(items) {
      StarlessClear(items);
    }
    if Clear(items) {
      ExpandItems(items);
    }
    if |frags| == 1 && !frags[0].hexify {
      OneFragment(frags);
      LosslessIff(frags[0].data);
    }
    packet := packet + [HASH];
    packet := packet + [HexChar(checksum / 16)];
    packet := packet + [HexChar(checksum % 16)];
    assert forall k :: 0 <= k < |items| && items[k].Run? ==> Good(items[k]);
  }

  lemma OneFragment(frags: seq<Fragment>)
    requires |frags| == 1
    ensures AllItems(frags) == Items(frags[0])
  {
    assert AllItems(frags[..0]) == [];
  }

  method SendFragments(frags: seq<Fragment>) returns (packet: seq<byte>, checksum: int)
    ensures AllGood(AllItems(frags)) && packet == [DOLLAR] + SentAll(AllItems(frags))
    ensures checksum == ByteSum(SentAll(AllItems(frags))) % 256
  {
    hide SentAll; hide MeantAll; hide ByteSum; hide Text; hide Good; hide Items; hide Clear;
    packet, checksum := [DOLLAR], 0;
    var i := 0;
    NoItems();
    assert AllItems(frags[..0]) == [];
    while i < |frags|
      invariant 0 <= i <= |frags| && AllGood(AllItems(frags[..i]))
      invariant packet == [DOLLAR] + SentAll(AllItems(frags[..i]))
      invariant checksum == ByteSum(SentAll(AllItems(frags[..i]))) % 256
    {
      var next := EncodeFragment(frags[i]);
      ItemsMean(frags[i]);
      packet, checksum := SendItems(packet, checksum, next, SentAll(AllItems(frags[..i])));
      SentJoin(AllItems(frags[..i]), next);
      assert frags[..i + 1][..i] == frags[..i];
      i := i + 1;
    }
    assert frags[..i] == frags;
  }

  lemma SumStep(s: seq<byte>, c: byte)
    ensures ByteSum(s + [c]) == ByteSum(s) + c
  {
    assert (s + [c])[..|s|] == s;
  }

  lemma SentMore(body: seq<byte>, s: seq<byte>, j: nat)
    requires j < |s|
    ensures body + s[..j + 1] == body + s[..j] + [s[j]]
  {
  }

  /** `SEND`, character by character. */
  method SendBytes(start: seq<byte>, sum: int, s: seq<byte>, ghost body: seq<byte>) returns (out: seq<byte>,
                   checksum: int)
    requires sum == ByteSum(body) % 256 && start == [DOLLAR] + body
    ensures out == [DOLLAR] + (body + s) && checksum == ByteSum(body + s) % 256
  {
    hide ByteSum;
    out, checksum := start, sum;
    ghost var sent := body;
    var j := 0;
    while j < |s|
      invariant 0 <= j <= |s| && sent == body + s[..j] && out == [DOLLAR] + sent && checksum == ByteSum(sent) % 256
    {
      SumStep(sent, s[j]);
      SentMore(body, s, j);
      sent := sent + [s[j]];
      out := out + [s[j]];
      var c: int := s[j];
      checksum := (checksum + c) % 256;
      j := j + 1;
    }
    assert s[..j] == s;
  }

  method SendItems(start: seq<byte>, sum: int, items: seq<Item>, ghost body: seq<byte>) returns (out: seq<byte>,
                   checksum: int)
    requires AllGood(items) && sum == ByteSum(body) % 256 && start == [DOLLAR] + body
    ensures out == [DOLLAR] + (body + SentAll(items)) && checksum == ByteSum(body + SentAll(items)) % 256
  {
    hide ByteSum; hide SentAll;
    out, checksum := start, sum;
    var k := 0;
    NoItems();
    assert items[..0] == [] && body + [] == body;
    while k < |items|
      invariant 0 <= k <= |items| && AllGood(items[..k])
      invariant out == [DOLLAR] + (body + SentAll(items[..k])) && checksum == ByteSum(body + SentAll(items[..k])) % 256
    {
      out, checksum := SendBytes(out, checksum, Sent(items[k]), body + SentAll(items[..k]));
      SentJoin(items[..k], [items[k]]);
      SentOne(items[k]);
      assert items[..k + 1] == items[..k] + [items[k]];
      assert body + SentAll(items[..k]) + Sent(items[k]) == body + (SentAll(items[..k]) + Sent(items[k]));
      k := k + 1;
    }
    assert items[..k] == items;
  }

  lemma SentOne(i: Item)
    requires Good(i)
    ensures AllGood([i]) && SentAll([i]) == Sent(i)
  {
    assert SentAll([]) == [];
  }

  /** A raw fragment that does not come back: `a*b` is sent as it is and read as a run of 70 `a`. */
  lemma StarIsAmbiguous()
    ensures var d: seq<byte> := [97, STAR, 98];
      && !StarsSafe(d) && AllGood(RawItems(d)) && SentAll(RawItems(d)) == d
      && Expand(SentAll(RawItems(d))) == Some(Same(97, 70)) && Same(97, 70) != d
  {
    var d: seq<byte> := [97, STAR, 98];
    assert d[1..] == [STAR, 98] && d[1..][1..] == [98] && [STAR, 98][1..] == [98] && [98][1..] == [];
    assert RawItems([]) == [] && RawItems([98]) == [Plain(98)] && RawItems([STAR, 98]) == [Plain(STAR), Plain(98)];
    var items := [Plain(97), Plain(STAR), Plain(98)];
    assert RawItems(d) == items;
    assert items[1..] == [Plain(STAR), Plain(98)] && items[1..][1..] == [Plain(98)];
    SentOne(Plain(98));
    assert SentAll([Plain(STAR), Plain(98)]) == [STAR, 98];
    assert SentAll(items) == d;
    assert d[3..] == [] && Expand([]) == Some([]) && Same(97, 70) + [] == Same(97, 70);
  }

  /** With several fragments the condition is sufficient only: a fragment `*` and one of 14 `*` are
      sent as four `*`, read as a run of 14 and a plain one, and come back by luck. */
  lemma LuckyStars()
    ensures var frags := [Fragment([STAR], false), Fragment(Same(STAR, 14), false)];
      && AllGood(AllItems(frags)) && !Clear(AllItems(frags))
      && Expand(SentAll(AllItems(frags))) == Some(Texts(frags))
  {
    hide RawItems; hide Expand; hide SentAll; hide Block;
    var one, many := Fragment([STAR], false), Fragment(Same(STAR, 14), false);
    var frags := [one, many];
    StarItems();
    OneFragment([one]);
    assert frags[..1] == [one];
    var items := AllItems(frags);
    assert items == [Plain(STAR), Run(STAR, 14)];
    assert !Clear(items) by {
      assert items[1].c == STAR && !items[0].Run?;
    }
    FourStars();
    assert Texts([one][..0]) == [] && Texts([one]) == [STAR];
    assert Texts(frags) == [STAR] + Same(STAR, 14) == Same(STAR, 15);
  }

  lemma StarItems()
    ensures RawItems([STAR]) == [Plain(STAR)] && RawItems(Same(STAR, 14)) == [Run(STAR, 14)]
  {
    var d := Same(STAR, 14);
    BlockAt(d, 14);
    assert d[14..] == [] && [STAR][1..] == [] && RawItems([]) == [];
  }

  lemma FourStars()
    ensures var items := [Plain(STAR), Run(STAR, 14)];
      AllGood(items) && Expand(SentAll(items)) == Some(Same(STAR, 15))
  {
    var items, s := [Plain(STAR), Run(STAR, 14)], [STAR, STAR, STAR, STAR];
    assert items[1..] == [Run(STAR, 14)];
    SentOne(Run(STAR, 14));
    assert SentAll(items) == s;
    hide SentAll;
    assert s[3..] == [STAR] && [STAR][1..] == [] && [STAR] + [] == [STAR] && Expand([]) == Some([]);
    assert Expand([STAR]) == Some([STAR]);
    assert Expand(s) == Some(Same(STAR, 14) + [STAR]);
    assert Same(STAR, 14) + [STAR] == Same(STAR, 15);
  }
}
