/**
  The free lists of the allocator (shared/malloc.c.h).  `frees` maps the address of every free
  chunk to its size.  Bin 1 holds chunks that are not sorted yet, the others the chunks of their
  index, large bins in decreasing order of size from front to back.
*/
module MallocBins {
  import opened OrderedQueue
  import opened MallocIndex

  ghost predicate Descending(q: seq<int>, frees: map<int, nat>) {
    && (forall i :: 0 <= i < |q| ==> q[i] in frees)
    && forall i, j :: 0 <= i < j < |q| ==> frees[q[i]] >= frees[q[j]]
  }

  /** Every list holds free chunks of its index, without repetition. */
  ghost predicate Lists(bins: seq<seq<int>>, frees: map<int, nat>) {
    && |bins| == NBINS && bins[0] == []
    && (forall i :: 0 <= i < NBINS ==> NoDup(bins[i]))
    && (forall i, x :: 0 <= i < NBINS && x in bins[i] ==> x in frees && (i != 1 ==> BinIndex(frees[x]) == i))
    && (forall i :: NSMALLBINS <= i < NBINS ==> Descending(bins[i], frees))
  }

  ghost predicate Sizes(frees: map<int, nat>) {
    forall x :: x in frees ==> MINSIZE <= frees[x] && frees[x] % 8 == 0 && 2 <= BinIndex(frees[x]) < NBINS
  }

  /** Every free chunk is in exactly one list. */
  ghost predicate Binned(bins: seq<seq<int>>, frees: map<int, nat>) {
    && Sizes(frees) && Lists(bins, frees)
    && (forall x :: x in frees ==> (x in bins[1] <==> x !in bins[BinIndex(frees[x])]))
  }

  lemma SizeIndex(sz: nat)
    requires MINSIZE <= sz
    ensures 2 <= BinIndex(sz) < NBINS
  {
    BinIndexMonotone(MINSIZE, sz);
  }

  lemma BinnedSize(bins: seq<seq<int>>, frees: map<int, nat>)
    requires Binned(bins, frees)
    ensures |bins| == NBINS && bins[0] == []
  {
  }

  // ----- taking a chunk off its list -----

  function ListOf(bins: seq<seq<int>>, frees: map<int, nat>, x: int): nat
    requires |bins| == NBINS && x in frees && 0 <= frees[x]
  {
    if x in bins[1] then 1 else BinIndex(frees[x])
  }

  function Unlinked(bins: seq<seq<int>>, i: nat, x: int): seq<seq<int>>
    requires i < |bins|
  {
    bins[i := Remove(bins[i], x)]
  }

  lemma RemoveDescending(q: seq<int>, x: int, frees: map<int, nat>)
    requires Descending(q, frees) && NoDup(q) && x in q
    ensures Descending(Remove(q, x), frees)
  {
    hide Remove;
    var i := FirstAt(q, x);
    RemoveAt(q, x, i);
    var r := q[..i] + q[i + 1..];
    forall j | 0 <= j < |r| ensures r[j] == q[if j < i then j else j + 1] {
      WithoutAt(q, i, j);
    }
  }

  lemma DescendingLess(q: seq<int>, x: int, frees: map<int, nat>)
    requires Descending(q, frees) && x !in q
    ensures Descending(q, frees - {x})
  {
  }

  lemma UnlinkLists(bins: seq<seq<int>>, frees: map<int, nat>, i: nat, x: int)
    requires Binned(bins, frees) && x in frees && i == ListOf(bins, frees, x)
    ensures i < NBINS && x in bins[i] && Lists(Unlinked(bins, i, x), frees - {x})
  {
    hide BinIndex; hide Descending;
    RemoveMembers(bins[i], x);
    var b := Unlinked(bins, i, x);
    forall j | NSMALLBINS <= j < NBINS ensures Descending(b[j], frees - {x}) {
      if j == i {
        RemoveDescending(bins[i], x, frees);
      }
      DescendingLess(b[j], x, frees);
    }
  }

  lemma UnlinkBinned(bins: seq<seq<int>>, frees: map<int, nat>, i: nat, x: int)
    requires Binned(bins, frees) && x in frees && i == ListOf(bins, frees, x)
    ensures i < NBINS && x in bins[i] && Binned(Unlinked(bins, i, x), frees - {x})
  {
    hide BinIndex; hide Descending; hide Lists;
    assert Lists(bins, frees) && |bins| == NBINS by { ListsSize(bins, frees); }
    UnlinkLists(bins, frees, i, x);
    UnlinkMembers(bins, frees, i, x);
  }

  lemma ListsSize(bins: seq<seq<int>>, frees: map<int, nat>)
    requires Lists(bins, frees)
    ensures |bins| == NBINS && bins[0] == []
  {
  }

  lemma UnlinkMembers(bins: seq<seq<int>>, frees: map<int, nat>, i: nat, x: int)
    requires Lists(bins, frees) && i < NBINS
    ensures |Unlinked(bins, i, x)| == NBINS
    ensures forall j, y :: 0 <= j < NBINS && y != x ==> (y in Unlinked(bins, i, x)[j] <==> y in bins[j])
  {
    hide BinIndex; hide Descending;
    RemoveMembers(bins[i], x);
  }

  // ----- putting a chunk on a list -----

  lemma PushBinned(bins: seq<seq<int>>, frees: map<int, nat>, x: int, sz: nat)
    requires Binned(bins, frees) && x !in frees && MINSIZE <= sz && sz % 8 == 0
    ensures Binned(bins[1 := [x] + bins[1]], frees[x := sz])
  {
    SizeIndex(sz);
    hide BinIndex; hide Descending;
    var b, f := bins[1 := [x] + bins[1]], frees[x := sz];
    forall i | NSMALLBINS <= i < NBINS ensures Descending(b[i], f) {
      DescendingMore(bins[i], frees, x, sz);
    }
  }

  lemma DescendingMore(q: seq<int>, frees: map<int, nat>, x: int, sz: nat)
    requires Descending(q, frees) && x !in frees
    ensures Descending(q, frees[x := sz])
  {
  }

  /** The place of a chunk in a large bin: everything before it is at least as large, everything
      after it at most as large. */
  ghost predicate Fits(q: seq<int>, frees: map<int, nat>, x: int, at: nat)
    requires x in frees && at <= |q| && forall i :: 0 <= i < |q| ==> q[i] in frees
  {
    && (forall i :: 0 <= i < at ==> frees[q[i]] >= frees[x])
    && (forall i :: at <= i < |q| ==> frees[q[i]] <= frees[x])
  }

  lemma InsertDescending(q: seq<int>, frees: map<int, nat>, x: int, at: nat)
    requires Descending(q, frees) && x in frees && at <= |q| && Fits(q, frees, x, at)
    ensures Descending(q[..at] + [x] + q[at..], frees)
  {
    var r := q[..at] + [x] + q[at..];
    forall i | 0 <= i < |r| ensures r[i] == (if i < at then q[i] else if i == at then x else q[i - 1]) {
    }
  }

  lemma InsertNoDup(q: seq<int>, x: int, at: nat)
    requires NoDup(q) && x !in q && at <= |q|
    ensures NoDup(q[..at] + [x] + q[at..])
    ensures forall y :: y in q[..at] + [x] + q[at..] <==> y == x || y in q
  {
    var r := q[..at] + [x] + q[at..];
    assert q == q[..at] + q[at..];
  }

  /** The last unsorted chunk moves to its own bin. */
  function Filed(bins: seq<seq<int>>, i: nat, x: int, at: nat): seq<seq<int>>
    requires |bins| == NBINS && 1 < i < NBINS && bins[1] != [] && at <= |bins[i]|
  {
    var u := bins[1];
    bins[1 := u[..|u| - 1]][i := bins[i][..at] + [x] + bins[i][at..]]
  }

  lemma LastUnsorted(bins: seq<seq<int>>, frees: map<int, nat>)
    requires Binned(bins, frees) && bins[1] != []
    ensures var u := bins[1]; var x := u[|u| - 1];
      && x in frees && x !in u[..|u| - 1] && x !in bins[BinIndex(frees[x])] && 2 <= BinIndex(frees[x]) < NBINS
      && NoDup(u[..|u| - 1]) && (forall y :: y in u <==> y == x || y in u[..|u| - 1])
  {
    hide BinIndex; hide Descending;
    var u := bins[1];
    assert u[|u| - 1] in bins[1];
    assert u == u[..|u| - 1] + [u[|u| - 1]];
  }

  lemma FileBinned(bins: seq<seq<int>>, frees: map<int, nat>, x: int, at: nat)
    requires Binned(bins, frees) && bins[1] != [] && x == bins[1][|bins[1]| - 1] && x in frees
    requires at <= |bins[BinIndex(frees[x])]| && (BinIndex(frees[x]) >= NSMALLBINS ==> FitsIn(bins, frees, x, at))
    ensures 1 < BinIndex(frees[x]) && Binned(Filed(bins, BinIndex(frees[x]), x, at), frees)
  {
    hide BinIndex; hide Descending; hide Fits;
    LastUnsorted(bins, frees);
    var i := BinIndex(frees[x]);
    InsertNoDup(bins[i], x, at);
    var b := Filed(bins, i, x, at);
    forall j | NSMALLBINS <= j < NBINS ensures Descending(b[j], frees) {
      if j == i {
        InsertDescending(bins[i], frees, x, at);
      }
    }
  }

  ghost predicate FitsIn(bins: seq<seq<int>>, frees: map<int, nat>, x: int, at: nat)
    requires Binned(bins, frees) && x in frees && at <= |bins[BinIndex(frees[x])]|
  {
    var q := bins[BinIndex(frees[x])];
    && (forall i :: 0 <= i < |q| ==> q[i] in frees)
    && Fits(q, frees, x, at)
  }

  // ----- searching -----

  ghost predicate NoFit(frees: map<int, nat>, nb: nat) {
    forall x :: x in frees ==> frees[x] < nb
  }

  /** p is a smallest chunk that is large enough. */
  ghost predicate BestFit(frees: map<int, nat>, p: int, nb: nat) {
    && p in frees && frees[p] >= nb
    && forall x :: x in frees && frees[x] >= nb ==> frees[p] <= frees[x]
  }

  /** Nothing large enough for nb is unsorted or in a bin below `bin`. */
  ghost predicate NoneBelow(bins: seq<seq<int>>, frees: map<int, nat>, nb: nat, bin: nat) {
    forall x :: x in frees && frees[x] >= nb ==> bin <= BinIndex(frees[x])
  }

  lemma LastIsSmallest(bins: seq<seq<int>>, frees: map<int, nat>, i: nat, y: int)
    requires Binned(bins, frees) && 2 <= i < NBINS && y in bins[i]
    ensures var x := bins[i][|bins[i]| - 1]; x in frees && BinIndex(frees[x]) == i && y in frees && frees[x] <= frees[y]
  {
    hide BinIndex;
    var x := bins[i][|bins[i]| - 1];
    assert x in bins[i];
    if i < NSMALLBINS {
      SmallBinExact(frees[x], frees[y]);
    } else {
      assert Descending(bins[i], frees);
    }
  }

  /** The back of the first non-empty bin above the index of nb is a best fit. */
  lemma HigherBinBest(bins: seq<seq<int>>, frees: map<int, nat>, nb: nat, bin: nat)
    requires Binned(bins, frees) && bins[1] == [] && BinIndex(nb) < bin < NBINS && 2 <= bin && bins[bin] != []
    requires NoneBelow(bins, frees, nb, bin)
    ensures BestFit(frees, bins[bin][|bins[bin]| - 1], nb)
  {
    hide BinIndex; hide Descending;
    var p := bins[bin][|bins[bin]| - 1];
    LastIsSmallest(bins, frees, bin, p);
    HigherBinLarger(nb, frees[p]);
    forall x | x in frees && frees[x] >= nb ensures frees[p] <= frees[x] {
      assert x in bins[BinIndex(frees[x])];
      if BinIndex(frees[x]) == bin {
        LastIsSmallest(bins, frees, bin, x);
      } else {
        HigherBinLarger(frees[p], frees[x]);
      }
    }
  }

  /** The empty bins passed by the walk hold nothing. */
  lemma WalkedEmpty(bins: seq<seq<int>>, frees: map<int, nat>, nb: nat, start: nat, bin: nat)
    requires Binned(bins, frees) && bins[1] == [] && 2 <= start <= bin <= NBINS
    requires forall i :: start <= i < bin ==> bins[i] == []
    requires NoneBelow(bins, frees, nb, start)
    ensures NoneBelow(bins, frees, nb, bin)
    ensures bin == NBINS ==> NoFit(frees, nb)
  {
    hide BinIndex; hide Descending;
    forall x | x in frees && frees[x] >= nb ensures bin <= BinIndex(frees[x]) < NBINS {
      assert x in bins[BinIndex(frees[x])];
    }
  }

  /** For a small request, an empty exact bin means that nothing fits below the next bin. */
  lemma SmallNone(bins: seq<seq<int>>, frees: map<int, nat>, nb: nat)
    requires Binned(bins, frees) && bins[1] == [] && MINSIZE <= nb < MIN_LARGE_SIZE && nb % 8 == 0 && bins[nb / 8] == []
    ensures NoneBelow(bins, frees, nb, BinIndex(nb) + 1)
  {
    SmallIndex(nb);
    hide BinIndex; hide Descending; hide Binned;
    forall x | x in frees && frees[x] >= nb ensures BinIndex(nb) + 1 <= BinIndex(frees[x]) {
      BinIndexMonotone(nb, frees[x]);
      InItsBin(bins, frees, x);
    }
  }

  lemma SmallIndex(nb: nat)
    requires nb < MIN_LARGE_SIZE
    ensures BinIndex(nb) == nb / 8
  {
  }

  /** With the unsorted list empty, every free chunk is in the bin of its size. */
  lemma InItsBin(bins: seq<seq<int>>, frees: map<int, nat>, x: int)
    requires Binned(bins, frees) && |bins| == NBINS && bins[1] == [] && x in frees
    ensures BinIndex(frees[x]) < NBINS && x in bins[BinIndex(frees[x])]
  {
    hide BinIndex; hide Descending;
  }

  /** For a large request, nothing fits in lower bins. */
  lemma LargeNone(bins: seq<seq<int>>, frees: map<int, nat>, nb: nat)
    requires Binned(bins, frees)
    ensures NoneBelow(bins, frees, nb, BinIndex(nb))
  {
    forall x | x in frees && frees[x] >= nb ensures BinIndex(nb) <= BinIndex(frees[x]) {
      BinIndexMonotone(nb, frees[x]);
    }
  }

  /** Scanning the bin of a large request from the back: the first that fits is a best fit. */
  lemma ScanBest(bins: seq<seq<int>>, frees: map<int, nat>, nb: nat, i: nat, k: nat)
    requires Binned(bins, frees) && bins[1] == [] && i == BinIndex(nb) && NSMALLBINS <= i < NBINS == |bins|
    requires k < |bins[i]|
    requires bins[i][k] in frees && frees[bins[i][k]] >= nb
    requires forall j :: k < j < |bins[i]| ==> bins[i][j] in frees && frees[bins[i][j]] < nb
    ensures BestFit(frees, bins[i][k], nb)
  {
    hide BinIndex; hide Descending; hide Binned;
    forall x | x in frees && frees[x] >= nb ensures frees[bins[i][k]] <= frees[x] {
      ScanOne(bins, frees, nb, i, k, x);
    }
  }

  lemma InBin(bins: seq<seq<int>>, frees: map<int, nat>, i: nat, x: int)
    requires Binned(bins, frees) && 2 <= i < NBINS && x in bins[i]
    ensures x in frees && BinIndex(frees[x]) == i
  {
    hide BinIndex; hide Descending; hide Sizes;
  }

  lemma ScanOne(bins: seq<seq<int>>, frees: map<int, nat>, nb: nat, i: nat, k: nat, x: int)
    requires Binned(bins, frees) && bins[1] == [] && i == BinIndex(nb) && NSMALLBINS <= i < NBINS == |bins|
    requires k < |bins[i]|
    requires bins[i][k] in frees && x in frees && frees[x] >= nb
    requires forall j :: k < j < |bins[i]| ==> bins[i][j] in frees && frees[bins[i][j]] < nb
    ensures frees[bins[i][k]] <= frees[x]
  {
    hide BinIndex; hide Sizes;
    BinIndexMonotone(nb, frees[x]);
    assert x in bins[BinIndex(frees[x])];
    InBin(bins, frees, i, bins[i][k]);
    if BinIndex(frees[x]) != i {
      HigherBinLarger(frees[bins[i][k]], frees[x]);
    } else {
      assert Descending(bins[i], frees);
    }
  }

  lemma ScanNone(bins: seq<seq<int>>, frees: map<int, nat>, nb: nat)
    requires Binned(bins, frees) && bins[1] == [] && BinIndex(nb) < NBINS
    requires var q := bins[BinIndex(nb)]; forall j :: 0 <= j < |q| ==> q[j] in frees && frees[q[j]] < nb
    ensures NoneBelow(bins, frees, nb, BinIndex(nb) + 1)
  {
    hide BinIndex; hide Descending; hide Binned; hide NoneBelow;
    LargeNone(bins, frees, nb);
    BinnedSize(bins, frees);
    forall x | x in frees && frees[x] >= nb ensures BinIndex(nb) + 1 <= BinIndex(frees[x]) {
      InItsBin(bins, frees, x);
      AboveBin(bins, frees, nb, x);
    }
    NoneAbove(bins, frees, nb);
  }

  lemma AboveBin(bins: seq<seq<int>>, frees: map<int, nat>, nb: nat, x: int)
    requires NoneBelow(bins, frees, nb, BinIndex(nb)) && x in frees && frees[x] >= nb
    ensures BinIndex(nb) <= BinIndex(frees[x])
  {
    hide BinIndex;
  }

  lemma NoneAbove(bins: seq<seq<int>>, frees: map<int, nat>, nb: nat)
    requires forall x :: x in frees && frees[x] >= nb ==> BinIndex(nb) + 1 <= BinIndex(frees[x])
    ensures NoneBelow(bins, frees, nb, BinIndex(nb) + 1)
  {
    hide BinIndex;
  }

  /** A chunk of exactly the requested size is a best fit. */
  lemma ExactBest(frees: map<int, nat>, p: int, nb: nat)
    requires p in frees && frees[p] == nb
    ensures BestFit(frees, p, nb)
  {
  }

  // ----- fast lists -----

  /** Fast lists hold used chunks, one size per list. */
  ghost predicate FastOk(fast: seq<seq<int>>, used: map<int, nat>) {
    && |fast| == NFASTBINS
    && (forall i :: 0 <= i < NFASTBINS ==> NoDup(fast[i]))
    && (forall i, x :: 0 <= i < NFASTBINS && x in fast[i] ==>
         x in used && used[x] == 8 * (i + 2) && used[x] <= MAX_FAST)
  }

  lemma FastTail(fast: seq<seq<int>>, used: map<int, nat>)
    requires FastOk(fast, used)
    ensures |fast| == NFASTBINS && forall i :: 8 <= i < NFASTBINS ==> fast[i] == []
  {
    forall i | 8 <= i < NFASTBINS ensures fast[i] == [] {
      if fast[i] != [] {
        FastIndex(fast, used, i, fast[i][0]);
      }
    }
  }

  lemma FastIndex(fast: seq<seq<int>>, used: map<int, nat>, i: nat, x: int)
    requires FastOk(fast, used) && i < NFASTBINS && x in fast[i]
    ensures x in used && used[x] == 8 * (i + 2) && i <= 7
  {
  }

  predicate InFast(fast: seq<seq<int>>, x: int) {
    exists i :: 0 <= i < |fast| && x in fast[i]
  }

  /** The blocks that belong to the program. */
  ghost function Live(used: map<int, nat>, fast: seq<seq<int>>): map<int, nat> {
    map x | x in used && !InFast(fast, x) :: used[x]
  }

  lemma FastMore(fast: seq<seq<int>>, used: map<int, nat>, p: int, sz: nat)
    requires FastOk(fast, used) && p !in used
    ensures FastOk(fast, used[p := sz]) && !InFast(fast, p)
    ensures p !in Live(used, fast) && Live(used[p := sz], fast) == Live(used, fast)[p := sz]
  {
  }

  lemma FastLess(fast: seq<seq<int>>, used: map<int, nat>, p: int)
    requires FastOk(fast, used) && !InFast(fast, p)
    ensures FastOk(fast, used - {p}) && Live(used - {p}, fast) == Live(used, fast) - {p}
  {
  }

  lemma FastPush(fast: seq<seq<int>>, used: map<int, nat>, p: int, i: nat)
    requires FastOk(fast, used) && p in Live(used, fast) && i < NFASTBINS && used[p] == 8 * (i + 2)
    requires used[p] <= MAX_FAST
    ensures FastOk(fast[i := [p] + fast[i]], used) && Live(used, fast[i := [p] + fast[i]]) == Live(used, fast) - {p}
  {
    var f := fast[i := [p] + fast[i]];
    assert p !in fast[i];
    forall x ensures InFast(f, x) <==> x == p || InFast(fast, x) {
      FastMember(fast, i, p, x);
    }
  }

  lemma FastMember(fast: seq<seq<int>>, i: nat, p: int, x: int)
    requires i < |fast|
    ensures InFast(fast[i := [p] + fast[i]], x) <==> x == p || InFast(fast, x)
  {
    var f := fast[i := [p] + fast[i]];
    if x == p {
      assert x in f[i];
    }
    if InFast(fast, x) {
      var j :| 0 <= j < |fast| && x in fast[j];
      assert x in f[j];
    }
  }

  lemma FastPop(fast: seq<seq<int>>, used: map<int, nat>, i: nat)
    requires FastOk(fast, used) && i < NFASTBINS && fast[i] != []
    ensures var p := fast[i][0]; var f := fast[i := fast[i][1..]];
      && p in used && used[p] == 8 * (i + 2) && p !in Live(used, fast) && FastOk(f, used) && !InFast(f, p)
      && Live(used, f) == Live(used, fast)[p := used[p]]
  {
    var p, f := fast[i][0], fast[i := fast[i][1..]];
    assert p in fast[i];
    assert fast[i] == [p] + fast[i][1..];
    assert f[i := [p] + f[i]] == fast;
    forall x ensures InFast(fast, x) <==> x == p || InFast(f, x) {
      FastMember(f, i, p, x);
    }
    assert !InFast(f, p) by {
      PopAbsent(fast, used, i);
    }
  }

  lemma PopAbsent(fast: seq<seq<int>>, used: map<int, nat>, i: nat)
    requires FastOk(fast, used) && i < NFASTBINS && fast[i] != []
    ensures !InFast(fast[i := fast[i][1..]], fast[i][0])
  {
    var p, f := fast[i][0], fast[i := fast[i][1..]];
    assert p in fast[i];
    assert fast[i] == [p] + fast[i][1..];
    forall j | 0 <= j < |f| ensures p !in f[j] {
      assert p in fast[j] ==> used[p] == 8 * (j + 2);
    }
  }
}
