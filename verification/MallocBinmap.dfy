/**
  The bitmap of bins of the allocator (shared/malloc.c.h): one bit per bin, in 32-bit words.
*/
module MallocBinmap {
  import opened MallocIndex

  const BINMAPSIZE := 3

  // ----- single words -----

  function Double(m: bv32): bv32 { m << 1 }

  /** `idx2bit`: the bit of bin k within its word. */
  function Mask(k: nat): bv32
    requires k < 32
  {
    if k == 0 then 1 else Double(Mask(k - 1))
  }

  function Both(a: bv32, b: bv32): bv32 { a & b }

  /** `map & bit` is not zero. */
  predicate Hits(w: bv32, bit: bv32) { Both(w, bit) != 0 }

  /** `bit > map || bit == 0`: no set bit from `bit` on. */
  predicate Beyond(bit: bv32, w: bv32) { bit > w || bit == 0 }

  function SetBit(w: bv32, bit: bv32): bv32 { w | bit }

  function ClearBit(w: bv32, bit: bv32): bv32 { w & !bit }

  predicate Disjoint(m: bv32, n: bv32) { Both(m, n) == 0 }

  predicate Single(m: bv32) { m != 0 && m & (m - 1) == 0 }

  lemma DoubleSingle(m: bv32)
    requires Single(m)
    ensures Double(m) != 0 ==> Single(Double(m)) && Double(m) > m
    ensures Double(m) == 0 <==> m == 0x8000_0000
  {
  }

  lemma SinglesDisjoint(m: bv32, n: bv32)
    requires Single(m) && Single(n) && m != n
    ensures Disjoint(m, n)
  {
  }

  lemma SameHits(m: bv32, w: bv32)
    requires m != 0
    ensures Hits(SetBit(w, m), m) && !Hits(ClearBit(w, m), m)
  {
  }

  lemma OtherSet(m: bv32, n: bv32, w: bv32)
    requires Disjoint(m, n)
    ensures Hits(SetBit(w, m), n) <==> Hits(w, n)
  {
    hide Both; hide SetBit; hide Disjoint;
    SetKeeps(m, n, w);
  }

  lemma SetKeeps(m: bv32, n: bv32, w: bv32)
    requires Disjoint(m, n)
    ensures Both(SetBit(w, m), n) == Both(w, n)
  {
  }

  lemma OtherClear(m: bv32, n: bv32, w: bv32)
    requires Disjoint(m, n)
    ensures Hits(ClearBit(w, m), n) <==> Hits(w, n)
  {
    hide Both; hide ClearBit; hide Disjoint;
    ClearKeeps(m, n, w);
  }

  lemma ClearKeeps(m: bv32, n: bv32, w: bv32)
    requires Disjoint(m, n)
    ensures Both(ClearBit(w, m), n) == Both(w, n)
  {
  }

  lemma SingleNonZero(m: bv32)
    requires Single(m)
    ensures m != 0
  {
  }

  predicate AtMost(m: bv32, n: bv32) { m <= n }

  lemma BeyondHits(m: bv32, n: bv32, w: bv32)
    requires Single(m) && Single(n) && AtMost(m, n) && Beyond(m, w)
    ensures !Hits(w, n)
  {
  }

  /** A bit that is not beyond the word is set, or the next one is not beyond it either. */
  lemma NotBeyond(m: bv32, w: bv32)
    requires Single(m) && !Beyond(m, w)
    ensures Hits(w, m) || !Beyond(Double(m), w)
  {
  }

  lemma LastMask()
    ensures Mask(31) == 0x8000_0000
  {
    assert Mask(4) == 0x10;
    assert Mask(8) == 0x100;
    assert Mask(12) == 0x1000;
    assert Mask(16) == 0x1_0000;
    assert Mask(20) == 0x10_0000;
    assert Mask(24) == 0x100_0000;
    assert Mask(28) == 0x1000_0000;
  }

  lemma {:induction false} ZeroStays(k: nat, j: nat)
    requires k <= j < 32 && Mask(k) == 0
    ensures Mask(j) == 0
    decreases j
  {
    if k < j {
      ZeroStays(k, j - 1);
    }
  }

  lemma {:induction false} MaskSingle(k: nat)
    requires k < 32
    ensures Single(Mask(k)) && (k == 31 <==> Double(Mask(k)) == 0)
  {
    hide Single; hide Double;
    LastMask();
    if k > 0 {
      MaskSingle(k - 1);
      DoubleSingle(Mask(k - 1));
    } else {
      OneSingle();
    }
    DoubleSingle(Mask(k));
    if k < 31 && Double(Mask(k)) == 0 {
      assert Mask(k + 1) == 0;
      ZeroStays(k + 1, 31);
    }
  }

  lemma OneSingle()
    ensures Single(1)
  {
  }

  lemma {:induction false} MaskGrows(j: nat, k: nat)
    requires j < k < 32
    ensures Mask(j) < Mask(k)
    decreases k
  {
    hide Single; hide Double;
    MaskSingle(k - 1);
    DoubleSingle(Mask(k - 1));
    if j < k - 1 {
      MaskGrows(j, k - 1);
    }
  }

  lemma MaskOrder(k: nat, j: nat)
    requires k <= j < 32
    ensures AtMost(Mask(k), Mask(j))
  {
    hide Mask;
    if k < j {
      MaskGrows(k, j);
    }
  }

  // ----- mark_bin and unmark_bin -----

  predicate Has(w: bv32, k: nat)
    requires k < 32
  {
    Hits(w, Mask(k))
  }

  lemma HasAfter(w: bv32, k: nat, j: nat)
    requires k < 32 && j < 32
    ensures Has(SetBit(w, Mask(k)), j) <==> j == k || Has(w, j)
    ensures Has(ClearBit(w, Mask(k)), j) <==> j != k && Has(w, j)
  {
    hide Mask; hide Single; hide SetBit; hide ClearBit; hide Hits; hide Disjoint;
    MaskSingle(k);
    MaskSingle(j);
    SingleNonZero(Mask(k));
    SameHits(Mask(k), w);
    if j != k {
      if j < k { MaskGrows(j, k); } else { MaskGrows(k, j); }
      SinglesDisjoint(Mask(k), Mask(j));
      OtherSet(Mask(k), Mask(j), w);
      OtherClear(Mask(k), Mask(j), w);
    }
  }

  /** `idx2block` */
  function WordOf(i: nat): (w: nat)
    requires i < NBINS
    ensures w < BINMAPSIZE && 32 * w <= i < 32 * w + 32
  {
    i / 32
  }

  function PlaceOf(i: nat): (k: nat)
    requires i < NBINS
    ensures k < 32 && i == 32 * WordOf(i) + k
  {
    i - 32 * WordOf(i)
  }

  predicate Marked(words: seq<bv32>, i: nat)
    requires |words| == BINMAPSIZE + 1 && i < NBINS
  {
    Has(words[WordOf(i)], PlaceOf(i))
  }

  function Mark(words: seq<bv32>, i: nat): (r: seq<bv32>)
    requires |words| == BINMAPSIZE + 1 && i < NBINS
    ensures |r| == |words|
  {
    words[WordOf(i) := SetBit(words[WordOf(i)], Mask(PlaceOf(i)))]
  }

  function Unmark(words: seq<bv32>, i: nat): (r: seq<bv32>)
    requires |words| == BINMAPSIZE + 1 && i < NBINS
    ensures |r| == |words|
  {
    words[WordOf(i) := ClearBit(words[WordOf(i)], Mask(PlaceOf(i)))]
  }

  lemma MarkedAfter(words: seq<bv32>, i: nat, j: nat)
    requires |words| == BINMAPSIZE + 1 && i < NBINS && j < NBINS
    ensures var w := Mark(words, i); Marked(w, j) <==> j == i || Marked(words, j)
    ensures var w := Unmark(words, i); Marked(w, j) <==> j != i && Marked(words, j)
  {
    hide Has; hide SetBit; hide ClearBit; hide Mask; hide WordOf; hide PlaceOf;
    HasAfter(words[WordOf(i)], PlaceOf(i), PlaceOf(j));
    assert i == j <==> WordOf(i) == WordOf(j) && PlaceOf(i) == PlaceOf(j);
  }

  // ----- the walk -----

  ghost predicate Covers(words: seq<bv32>, full: seq<bool>)
  {
    && |words| == BINMAPSIZE + 1 && |full| == NBINS && words[BINMAPSIZE] == 0
    && forall i: nat :: 2 <= i < NBINS && full[i] ==> Marked(words, i)
  }

  lemma MarkCovers(words: seq<bv32>, full: seq<bool>, i: nat)
    requires Covers(words, full) && 2 <= i < NBINS
    ensures Covers(Mark(words, i), full[i := true])
  {
    hide Mask; hide SetBit; hide Marked;
    forall j: nat | 2 <= j < NBINS && full[i := true][j] ensures Marked(Mark(words, i), j) {
      MarkedAfter(words, i, j);
    }
  }

  lemma UnmarkCovers(words: seq<bv32>, full: seq<bool>, i: nat)
    requires Covers(words, full) && 2 <= i < NBINS && !full[i]
    ensures Covers(Unmark(words, i), full)
  {
    hide Mask; hide ClearBit; hide Marked;
    forall j: nat | 2 <= j < NBINS && full[j] ensures Marked(Unmark(words, i), j) {
      MarkedAfter(words, i, j);
    }
  }

  lemma UnmarkedEmpty(words: seq<bv32>, full: seq<bool>, block: nat, bin: nat)
    requires Covers(words, full) && block < BINMAPSIZE && 2 <= bin && 32 * block <= bin < 32 * block + 32
    requires !Has(words[block], bin - 32 * block)
    ensures !full[bin]
  {
    hide Has;
    assert WordOf(bin) == block && PlaceOf(bin) == bin - 32 * block;
    assert !Marked(words, bin);
  }

  /** The bit variable of the walk: the bit of `bin` in its word, 0 once it is shifted out. */
  function BitOf(block: nat, bin: nat): bv32
    requires 32 * block <= bin <= 32 * block + 32
  {
    if bin == 32 * block + 32 then 0 else Mask(bin - 32 * block)
  }

  lemma NextBit(block: nat, bin: nat)
    requires 32 * block <= bin < 32 * block + 32
    ensures BitOf(block, bin + 1) == Double(BitOf(block, bin))
  {
    hide Double; hide Single;
    MaskSingle(bin - 32 * block);
  }

  lemma BeyondFrom(w: bv32, k: nat, j: nat)
    requires k <= j < 32 && Beyond(Mask(k), w)
    ensures !Has(w, j)
  {
    hide Beyond; hide Hits; hide Single; hide Mask; hide AtMost; hide Double;
    MaskSingle(k);
    MaskSingle(j);
    MaskOrder(k, j);
    BeyondHits(Mask(k), Mask(j), w);
  }

  /** When the current bit is beyond the word, the rest of the block is empty. */
  lemma RestEmpty(words: seq<bv32>, full: seq<bool>, block: nat, bin: nat)
    requires Covers(words, full) && block < BINMAPSIZE && 2 <= bin && 32 * block <= bin <= 32 * block + 32
    requires Beyond(BitOf(block, bin), words[block])
    ensures forall i :: bin <= i < 32 * block + 32 ==> !full[i]
  {
    hide Beyond; hide Mask; hide Covers; hide Has;
    CoversSize(words, full);
    forall i | bin <= i < 32 * block + 32 ensures !full[i] {
      BeyondFrom(words[block], bin - 32 * block, i - 32 * block);
      UnmarkedEmpty(words, full, block, i);
    }
  }

  lemma CoversSize(words: seq<bv32>, full: seq<bool>)
    requires Covers(words, full)
    ensures |full| == NBINS && |words| == BINMAPSIZE + 1
  {
  }

  /** Advance to the next set bit of a word that has one. */
  method NextSet(words: seq<bv32>, full: seq<bool>, block: nat, start: nat) returns (bin: nat)
    requires Covers(words, full) && block < BINMAPSIZE && 2 <= start && 32 * block <= start < 32 * block + 32
    requires !Beyond(BitOf(block, start), words[block])
    ensures start <= bin < 32 * block + 32
    ensures forall i :: start <= i < bin ==> !full[i]
  {
    hide Beyond; hide Hits; hide Mask; hide Double; hide Covers;
    CoversSize(words, full);
    bin := start;
    var bit := BitOf(block, start);
    while !Hits(words[block], bit)
      invariant start <= bin < 32 * block + 32 && bit == BitOf(block, bin) && !Beyond(bit, words[block])
      invariant forall i :: start <= i < bin ==> !full[i]
      decreases 32 * block + 32 - bin
    {
      UnmarkedEmpty(words, full, block, bin);
      MaskSingle(bin - 32 * block);
      NotBeyond(bit, words[block]);
      NextBit(block, bin);
      ZeroIsBeyond(words[block]);
      bin := bin + 1;
      bit := Double(bit);
    }
  }

  lemma ZeroIsBeyond(w: bv32)
    ensures Beyond(0, w)
  {
  }

  /** The search of `mALLOc` through the bitmap: skip words and bits without a mark, clear the
      mark of a bin that turns out empty.  It returns the least non-empty bin from `start` on, or
      NBINS when there is none. */
  method NextBin(words: seq<bv32>, full: seq<bool>, start: nat) returns (bin: nat, words': seq<bv32>)
    requires Covers(words, full) && 2 <= start <= NBINS
    ensures Covers(words', full)
    ensures start <= bin <= NBINS && (bin < NBINS ==> full[bin])
    ensures forall i :: start <= i < bin ==> !full[i]
  {
    hide Beyond; hide Mask; hide Covers; hide Unmark; hide Double;
    CoversSize(words, full);
    words' := words;
    bin := start;
    var block := start / 32;
    while block < BINMAPSIZE
      invariant 0 <= block <= BINMAPSIZE && start <= bin <= NBINS
      invariant 32 * block <= bin <= 32 * block + 32
      invariant Covers(words', full) && |words'| == BINMAPSIZE + 1
      invariant forall i :: start <= i < bin ==> !full[i]
      decreases BINMAPSIZE - block, 32 * block + 32 - bin
    {
      if Beyond(BitOf(block, bin), words'[block]) {
        RestEmpty(words', full, block, bin);
        block := block + 1;
        bin := 32 * block;
      } else {
        ZeroIsBeyond(words'[block]);
        bin := NextSet(words', full, block, bin);
        if full[bin] {
          return;
        }
        UnmarkCovers(words', full, bin);
        words' := Unmark(words', bin);
        CoversSize(words', full);
        bin := bin + 1;
      }
    }
  }
}
