/**
  The allocator itself (shared/malloc.c.h): `mALLOc`, `fREe` and `malloc_consolidate` over
  boundary tags, fast lists, sorted bins, the bitmap and the top chunk.  Links between the chunks
  of a list are kept as sequences.  Memory from the system is a parameter: `more` bytes that
  extend top, or 0 when the system refuses.
*/
module Malloc {
  import opened OrderedQueue
  import opened MallocIndex
  import opened MallocBinmap
  import opened MallocTags
  import opened MallocBins
  import opened MallocGaps
  import opened MallocUnsorted

  const CONSOLIDATION_THRESHOLD := 0x2_0000

  function Full(bins: seq<seq<int>>): (r: seq<bool>)
    ensures |r| == |bins| && forall i :: 0 <= i < |r| ==> (r[i] <==> bins[i] != [])
  {
    seq(|bins|, i requires 0 <= i < |bins| => bins[i] != [])
  }

  /** Top has room for a chunk, or the heap is still empty. */
  ghost predicate TopOk(a: Arena) {
    && a.top in a.head && a.base > 0
    && (a.head[a.top].sz >= MINSIZE || (a.head[a.top].sz == 0 && a.starts == {a.top}))
  }

  ghost predicate Core(a: Arena, bins: seq<seq<int>>, fast: seq<seq<int>>, binmap: seq<bv32>) {
    && Tags(a) && Binned(bins, Frees(a)) && FastOk(fast, Used(a)) && Covers(binmap, Full(bins)) && TopOk(a)
  }

  ghost predicate AllEmpty(lists: seq<seq<int>>) { forall i :: 0 <= i < |lists| ==> lists[i] == [] }

  /** Without the ANYCHUNKS flag all lists are empty, without the FASTCHUNKS flag the fast ones. */
  ghost predicate Flags(bins: seq<seq<int>>, fast: seq<seq<int>>, anychunks: bool, fastchunks: bool) {
    && (!anychunks ==> AllEmpty(bins))
    && (!fastchunks ==> AllEmpty(fast)) && (fastchunks ==> anychunks)
  }

  // ----- facts about the parts -----

  lemma CoversLess(words: seq<bv32>, bins: seq<seq<int>>, bins': seq<seq<int>>)
    requires Covers(words, Full(bins)) && |bins'| == |bins|
    requires forall i :: 2 <= i < |bins| && bins[i] == [] ==> bins'[i] == []
    ensures Covers(words, Full(bins'))
  {
    hide Marked;
  }

  lemma UnlinkCovers(words: seq<bv32>, bins: seq<seq<int>>, i: nat, x: int)
    requires Covers(words, Full(bins)) && |bins| == NBINS && i < NBINS
    ensures Covers(words, Full(Unlinked(bins, i, x)))
  {
    CoversLess(words, bins, Unlinked(bins, i, x));
  }

  lemma NoFast(used: map<int, nat>, fast: seq<seq<int>>)
    requires AllEmpty(fast)
    ensures Live(used, fast) == used
  {
  }

  /** The block p has been handed out for a request of nb bytes; nothing else has changed. */
  ghost predicate Grants(before: map<int, nat>, after: map<int, nat>, p: int, nb: nat) {
    && p > 0 && p % 8 == 0 && p !in before && p in after
    && nb <= after[p] < nb + MINSIZE && after == before[p := after[p]]
  }

  lemma TakeTop(a: Arena, p: int)
    requires TopOk(a) && Tags(a) && p in a.starts && IsFree(a, p)
    ensures TopOk(Take(a, p))
  {
    hide Tags;
    ChunkFacts(a, p);
    BasePinuse(a);
  }

  lemma JoinTopOk(a: Arena, q: int)
    requires TopOk(a) && Tags(a) && Releasable(a, q) && q + a.head[q].sz != a.top
    ensures TopOk(MallocTags.Release(a, q)) && TopOk(MergeNext(a, q))
  {
    hide Tags;
    ChunkFacts(a, q);
  }

  lemma SplitTopKept(a: Arena, p: int, nb: nat)
    requires TopOk(a) && Tags(a) && p in a.starts && Splits(a, p, nb)
    ensures TopOk(Split(a, p, nb))
  {
    hide Tags;
    ChunkFacts(a, p);
    TopIn(a);
    SplitNew(a, p, nb);
  }

  lemma FileCovers(words: seq<bv32>, bins: seq<seq<int>>, i: nat, x: int, at: nat)
    requires |bins| == NBINS && 1 < i < NBINS && bins[1] != [] && at <= |bins[i]| && Covers(words, Full(bins))
    ensures Covers(Mark(words, i), Full(Filed(bins, i, x, at)))
  {
    hide Covers;
    CoversSize(words, Full(bins));
    MarkCovers(words, Full(bins), i);
    var b := bins[i := bins[i][..at] + [x] + bins[i][at..]];
    assert Full(b) == Full(bins)[i := true];
    CoversLess(Mark(words, i), b, Filed(bins, i, x, at));
  }

  lemma ListMember(bins: seq<seq<int>>, frees: map<int, nat>, i: nat, k: nat)
    requires Binned(bins, frees) && i < NBINS == |bins| && k < |bins[i]|
    ensures bins[i][k] in frees
  {
    hide BinIndex; hide Descending; hide Sizes;
    var x := bins[i][k];
    assert x in bins[i];
  }

  lemma LargeDescending(bins: seq<seq<int>>, frees: map<int, nat>, i: nat)
    requires Binned(bins, frees) && NSMALLBINS <= i < NBINS
    ensures |bins| == NBINS && Descending(bins[i], frees)
  {
    hide BinIndex; hide Descending;
  }

  lemma LargeIndex(nb: nat)
    requires nb >= MIN_LARGE_SIZE
    ensures NSMALLBINS <= BinIndex(nb) < NBINS
  {
    LargebinBelow(nb);
  }

  lemma EmptyFrees(bins: seq<seq<int>>, frees: map<int, nat>)
    requires Binned(bins, frees) && AllEmpty(bins)
    ensures forall x :: x !in frees
  {
    hide BinIndex; hide Descending; hide Sizes;
    BinnedSize(bins, frees);
    forall x ensures x !in frees {
      EmptyFree(bins, frees, x);
    }
  }

  lemma EmptyFree(bins: seq<seq<int>>, frees: map<int, nat>, x: int)
    requires Binned(bins, frees) && AllEmpty(bins) && |bins| == NBINS
    ensures x !in frees
  {
    hide Binned;
    if x in frees {
      var i := Somewhere(bins, frees, x);
    }
  }

  lemma Somewhere(bins: seq<seq<int>>, frees: map<int, nat>, x: int) returns (i: nat)
    requires Binned(bins, frees) && x in frees
    ensures i < |bins| && x in bins[i]
  {
    hide BinIndex; hide Descending;
    i := ListOf(bins, frees, x);
  }

  lemma ListNoDup(bins: seq<seq<int>>, frees: map<int, nat>, i: nat)
    requires Binned(bins, frees) && i < NBINS == |bins|
    ensures forall k :: 0 <= k < |bins[i]| ==> bins[i][k] !in bins[i][..k]
  {
    hide BinIndex; hide Descending; hide Sizes;
    assert NoDup(bins[i]);
  }

  /** A chunk found in its bin is not unsorted. */
  lemma NotUnsorted(bins: seq<seq<int>>, frees: map<int, nat>, i: nat, x: int)
    requires Binned(bins, frees) && 2 <= i < NBINS == |bins| && x in bins[i]
    ensures x in frees && x !in bins[1] && i == BinIndex(frees[x])
  {
    InBin(bins, frees, i, x);
    hide BinIndex; hide Descending; hide Sizes;
  }

  lemma SmallSize(bins: seq<seq<int>>, frees: map<int, nat>, nb: nat, k: nat)
    requires Binned(bins, frees) && MINSIZE <= nb < MIN_LARGE_SIZE && nb % 8 == 0 && |bins| == NBINS
    requires k < |bins[nb / 8]|
    ensures bins[nb / 8][k] in frees && frees[bins[nb / 8][k]] == nb
  {
    var x := bins[nb / 8][k];
    InBin(bins, frees, nb / 8, x);
    SizeOf(frees, x);
    SmallBinExact(frees[x], nb);
  }

  lemma SizeOf(frees: map<int, nat>, x: int)
    requires Sizes(frees) && x in frees
    ensures MINSIZE <= frees[x] && frees[x] % 8 == 0 && 2 <= BinIndex(frees[x]) < NBINS
  {
    hide BinIndex;
  }

  lemma EmptyCore(a: Arena, bins: seq<seq<int>>, fast: seq<seq<int>>, binmap: seq<bv32>, start: int)
    requires start > 0 && start % 8 == 0 && a == Arena(map[start := Head(0, true)], map[], {start}, start, start, start)
    requires |bins| == NBINS && AllEmpty(bins) && |fast| == NFASTBINS && AllEmpty(fast) && binmap == [0, 0, 0, 0]
    ensures Core(a, bins, fast, binmap) && Used(a) == map[] && Frees(a) == map[]
  {
    hide BinIndex; hide Marked;
    assert ChunkOk(a, start);
    assert forall p, q :: p in a.starts && q in a.starts ==> Apart(a, p, q);
  }

  /** The block obtained for a request holds it: the requested bytes lie in its user memory. */
  lemma HoldsRequest(before: map<int, nat>, after: map<int, nat>, mem: int, bytes: uint32, x: int)
    requires !OutOfRange(bytes) && Grants(before, after, mem - 2 * SIZE_SZ, RequestSize(bytes))
    requires mem <= x < mem + bytes
    ensures UserByte(mem - 2 * SIZE_SZ, after[mem - 2 * SIZE_SZ], x)
  {
    hide And;
  }

  /** Where a block came from. */
  datatype How =
    | Refused      // the request is too large to be represented
    | FromFast     // a fast chunk of exactly this size
    | Remainder    // split off the last remainder, for locality
    | Fit          // a best fit among the free chunks
    | FromTop      // split off top
    | OutOfMemory

  predicate Request(nb: uint32) { MINSIZE <= nb && nb % 8 == 0 && nb + MINSIZE < WORD }

  /** What the system gives: whole pages that extend top, or nothing. */
  predicate Granted(more: nat) { more == 0 || (more % 8 == 0 && more >= MINSIZE) }

  /** What decides how a request is served: the tags, the lists, the last remainder and the flag that
      there may be fast chunks. */
  datatype Snapshot = Snapshot(a: Arena, bins: seq<seq<int>>, fast: seq<seq<int>>, last: int, fastchunks: bool)

  function SizeAt(a: Arena, p: int): nat { if p in a.head then a.head[p].sz else 0 }

  /** The fast list of this size is not empty. */
  ghost predicate FastHit(s: Snapshot, nb: nat) {
    MINSIZE <= nb <= MAX_FAST && nb / 8 - 2 < |s.fast| && s.fast[nb / 8 - 2] != []
  }

  ghost function FastTop(s: Snapshot, nb: nat): int
    requires FastHit(s, nb)
  {
    s.fast[nb / 8 - 2][0]
  }

  /** The chunk u[0] is the last remainder and large enough to be split for a small request. */
  ghost predicate Splittable(a: Arena, u: seq<int>, last: int, nb: nat) {
    u != [] && nb < MIN_LARGE_SIZE && u[0] == last && SizeAt(a, last) > nb + MINSIZE
  }

  /** When a small request is cut off the last remainder instead of a best fit: there is no chunk
      of its size in its bin or among the older unsorted ones, and the newest unsorted chunk is
      the last remainder and large enough. */
  ghost predicate Shortcut(s: Snapshot, nb: nat) {
    && nb < MIN_LARGE_SIZE && |s.bins| == NBINS && s.bins[nb / 8] == [] && Splittable(s.a, s.bins[1], s.last, nb)
    && forall i :: 1 <= i < |s.bins[1]| ==> SizeAt(s.a, s.bins[1][i]) != nb
  }

  /** The unsorted chunks from place n on were neither of the size wanted nor splittable. */
  ghost predicate Passed(a: Arena, u: seq<int>, last: int, nb: nat, n: nat) {
    && (forall i :: n <= i < |u| ==> SizeAt(a, u[i]) != nb)
    && (n == 0 ==> !Splittable(a, u, last, nb))
  }

  /** The oldest unsorted chunk is neither of the size wanted nor, when it is alone, splittable. */
  ghost predicate PassedOne(s: Snapshot, nb: nat) {
    && |s.bins| == NBINS && s.bins[1] != [] && SizeAt(s.a, s.bins[1][|s.bins[1]| - 1]) != nb
    && (|s.bins[1]| == 1 ==> !Splittable(s.a, s.bins[1], s.last, nb))
  }

  /** Top, extended by what the system gives, has room for the request and the rest of itself. */
  ghost predicate TopRoom(a: Arena, nb: nat, more: nat) { SizeAt(a, a.top) + more >= nb + MINSIZE }

  /** The state `at` is one after `malloc_consolidate`: exactly the blocks of the program are in use,
      the fast lists are empty, every free chunk is on its list, and memory is what it was. */
  ghost predicate Consolidated(before: map<int, nat>, was: Snapshot, at: Snapshot) {
    && Used(at.a) == before && AllEmpty(at.fast) && Binned(at.bins, Frees(at.a))
    && at.a.base == was.a.base && at.a.end == was.a.end && at.last == was.last
  }

  /** Neither the lists nor top can serve a small request, but there may be fast chunks. */
  ghost predicate Retries(was: Snapshot, nb: nat) {
    was.fastchunks && !FastHit(was, nb) && NoFit(Frees(was.a), nb) && !TopRoom(was.a, nb, 0) && !Shortcut(was, nb)
  }

  /** The state in which the search among the free chunks began: for large requests the consolidated
      one; for small ones that before the call, unless they had to be tried again.  Then the unsorted
      list, empty after the first search, has got the gaps of the fast chunks. */
  ghost predicate SearchedIn(before: map<int, nat>, was: Snapshot, at: Snapshot, nb: nat) {
    if nb >= MIN_LARGE_SIZE then Consolidated(before, was, at)
    else if Retries(was, nb) then
      && Consolidated(before, was, at) && |at.bins| == NBINS
      && Trail(Used(was.a), was.a.base, was.a.end, [], Flat(was.fast), at.bins[1])
    else at == was
  }

  /** The system was asked for memory. */
  ghost predicate AskedSystem(how: How, at: Snapshot, nb: nat) {
    how.OutOfMemory? || (how.FromTop? && !TopRoom(at.a, nb, 0))
  }

  /** How a request of nb bytes was served, where `was` is the state before the call and `at` the
      one in which the search among the free chunks began: a fast chunk if there is one, the last
      remainder if the shortcut applies, otherwise a best fit, and top only when nothing fits.  The
      system is asked only when no fast chunk is left. */
  ghost predicate Served(before: map<int, nat>, after: map<int, nat>, was: Snapshot, mem: int, how: How,
                         at: Snapshot, nb: nat, more: nat) {
    var p := mem - 2 * SIZE_SZ;
    && !how.Refused? && (mem == 0 <==> how.OutOfMemory?)
    && (mem == 0 ==> after == before)
    && (mem != 0 ==> Grants(before, after, p, nb))
    && (how.FromFast? <==> FastHit(was, nb))
    && (how.FromFast? ==> p == FastTop(was, nb))
    && (how.Remainder? <==> !FastHit(was, nb) && Shortcut(at, nb))
    && (how.Remainder? ==> p == at.last)
    && (how.Fit? ==> BestFit(Frees(at.a), p, nb))
    && (how.FromTop? || how.OutOfMemory? ==> NoFit(Frees(at.a), nb))
    && (how.FromTop? ==> p == at.a.top && TopRoom(at.a, nb, more))
    && (how.OutOfMemory? ==> !TopRoom(at.a, nb, more))
    && Tags(at.a) && SearchedIn(before, was, at, nb)
    && (AskedSystem(how, at, nb) ==> Consolidated(before, was, at))
  }

  /** What the caller can rely on without knowing how the request was served: with no fast chunk of
      the size and no shortcut it is a best fit if anything fits, and top, if it has room, otherwise. */
  lemma BestFitRule(before: map<int, nat>, after: map<int, nat>, was: Snapshot, mem: int, how: How,
                    at: Snapshot, nb: nat, more: nat)
    requires Served(before, after, was, mem, how, at, nb, more) && !FastHit(was, nb) && !Shortcut(at, nb)
    ensures !NoFit(Frees(at.a), nb) ==> mem != 0 && BestFit(Frees(at.a), mem - 2 * SIZE_SZ, nb)
    ensures NoFit(Frees(at.a), nb) ==> (mem != 0 <==> TopRoom(at.a, nb, more))
    ensures NoFit(Frees(at.a), nb) && mem != 0 ==> mem - 2 * SIZE_SZ == at.a.top
  {
    hide Frees; hide Used; hide Tags; hide Grants; hide TopRoom; hide Shortcut; hide FastHit;
    if how.Fit? {
      var frees, p := Frees(at.a), mem - 2 * SIZE_SZ;
      assert p in frees && frees[p] >= nb;
    }
  }

  /** A large request gets the beginning of a smallest gap between the blocks of the program that is
      large enough; without such a gap, the memory behind the last block, if there is room. */
  lemma LargeBestGap(before: map<int, nat>, after: map<int, nat>, was: Snapshot, mem: int, how: How,
                     at: Snapshot, nb: nat, more: nat)
    requires Served(before, after, was, mem, how, at, nb, more) && nb >= MIN_LARGE_SIZE
    ensures var p, base := mem - 2 * SIZE_SZ, was.a.base;
      if exists q, sz :: Gap(before, base, q, sz) && sz >= nb then
        && mem != 0 && p in Frees(at.a) && Gap(before, base, p, Frees(at.a)[p]) && Frees(at.a)[p] >= nb
        && forall q, sz :: Gap(before, base, q, sz) && sz >= nb ==> Frees(at.a)[p] <= sz
      else
        mem != 0 ==> Tail(before, base, p)
  {
    hide Tags; hide Used; hide Frees; hide Gap; hide Tail; hide Grants; hide TopRoom; hide Binned; hide AllEmpty;
    var base := was.a.base;
    forall q, sz ensures q in Frees(at.a) && Frees(at.a)[q] == sz <==> Gap(before, base, q, sz) {
      FreesAreGaps(at.a, q, sz);
    }
    TopIsTail(at.a, at.a.top);
  }

  /** The state in which the search begins is determined, as far as the search depends on it, by the
      state before the call and the blocks of the program. */
  lemma SearchedUnique(before: map<int, nat>, was: Snapshot, at: Snapshot, at': Snapshot, nb: nat)
    requires SearchedIn(before, was, at, nb) && SearchedIn(before, was, at', nb) && nb >= MINSIZE
    requires Tags(was.a) && Tags(at.a) && Tags(at'.a)
    ensures Frees(at.a) == Frees(at'.a) && at.a.top == at'.a.top && SizeAt(at.a, at.a.top) == SizeAt(at'.a, at'.a.top)
    ensures Shortcut(at, nb) <==> Shortcut(at', nb)
  {
    hide Tags; hide Used; hide Frees; hide Binned; hide AllEmpty; hide Trail; hide Flat; hide Shortcut; hide FastHit;
    hide NoFit; hide SizeAt; hide TopRoom;
    if at != was || at' != was || nb >= MIN_LARGE_SIZE {
      SameLayout(at.a, at'.a);
      if nb < MIN_LARGE_SIZE {
        forall x | x in Used(was.a) ensures was.a.base <= x {
          UsedFacts(was.a, x);
        }
        TrailUnique(Used(was.a), was.a.base, was.a.end, [], Flat(was.fast), at.bins[1], at'.bins[1]);
        SameShortcut(at, at', nb);
      } else {
        LargeNoShortcut(at, nb);
        LargeNoShortcut(at', nb);
      }
    }
  }

  lemma LargeNoShortcut(s: Snapshot, nb: nat)
    requires nb >= MIN_LARGE_SIZE
    ensures !Shortcut(s, nb)
  {
  }

  /** The used chunks and the ends of memory determine the free chunks and top. */
  lemma SameLayout(a: Arena, b: Arena)
    requires Tags(a) && Tags(b) && Used(a) == Used(b) && a.base == b.base && a.end == b.end
    ensures Frees(a) == Frees(b) && a.top == b.top && SizeAt(a, a.top) == SizeAt(b, b.top)
  {
    hide Tags; hide Used; hide Frees; hide Gap; hide Tail;
    var fa, fb := Frees(a), Frees(b);
    forall p ensures (p in fa <==> p in fb) && (p in fa ==> fa[p] == fb[p]) {
      if p in fa {
        FreesAreGaps(a, p, fa[p]);
        FreesAreGaps(b, p, fa[p]);
      }
      if p in fb {
        FreesAreGaps(a, p, fb[p]);
        FreesAreGaps(b, p, fb[p]);
      }
    }
    assert fa == fb;
    TopIsTail(a, a.top);
    TopIsTail(b, a.top);
    TopIn(a);
    TopIn(b);
    Chunk(a, a.top);
    Chunk(b, b.top);
  }

  lemma SameShortcut(s: Snapshot, t: Snapshot, nb: nat)
    requires Frees(s.a) == Frees(t.a) && Binned(s.bins, Frees(s.a)) && Binned(t.bins, Frees(t.a)) && s.last == t.last
    requires |s.bins| == |t.bins| == NBINS && s.bins[1] == t.bins[1] && nb >= MINSIZE
    ensures Shortcut(s, nb) <==> Shortcut(t, nb)
  {
    hide Binned; hide Frees;
    var u := s.bins[1];
    forall i | 0 <= i < |u| ensures SizeAt(s.a, u[i]) == SizeAt(t.a, u[i]) {
      ListMember(s.bins, Frees(s.a), 1, i);
      FreeFacts(s.a, u[i]);
      FreeFacts(t.a, u[i]);
    }
    if nb < MIN_LARGE_SIZE {
      if s.bins[nb / 8] == [] {
        SameEmpty(s.bins, t.bins, Frees(s.a), nb / 8);
      } else if t.bins[nb / 8] == [] {
        SameEmpty(t.bins, s.bins, Frees(s.a), nb / 8);
      }
    }
  }

  lemma SameEmpty(bins: seq<seq<int>>, bins': seq<seq<int>>, frees: map<int, nat>, i: nat)
    requires Binned(bins, frees) && Binned(bins', frees) && 2 <= i < NBINS == |bins| == |bins'| && bins[1] == bins'[1]
    requires bins[i] == []
    ensures bins'[i] == []
  {
    hide Binned; hide BinIndex;
    if bins'[i] != [] {
      var x := bins'[i][0];
      NotUnsorted(bins', frees, i, x);
      InOwnBin(bins, frees, x);
    }
  }

  lemma InOwnBin(bins: seq<seq<int>>, frees: map<int, nat>, x: int)
    requires Binned(bins, frees) && |bins| == NBINS && x in frees && x !in bins[1]
    ensures BinIndex(frees[x]) < NBINS && x in bins[BinIndex(frees[x])]
  {
    hide BinIndex; hide Descending; hide Lists;
  }

  /** A request served after a consolidation. */
  lemma ServedLater(before: map<int, nat>, after: map<int, nat>, was: Snapshot, mid: Snapshot, mem: int, how: How,
                    at: Snapshot, nb: nat, more: nat)
    requires Served(before, after, mid, mem, how, at, nb, more) && Consolidated(before, was, mid)
    requires SearchedIn(before, was, mid, nb) && !FastHit(was, nb) && !FastHit(mid, nb) && !mid.fastchunks
    ensures Served(before, after, was, mem, how, at, nb, more)
  {
    hide Frees; hide Used; hide Tags; hide NoFit; hide BestFit; hide Grants; hide TopRoom; hide Shortcut;
    hide Binned; hide FastHit; hide AllEmpty; hide Trail; hide Flat;
  }

  lemma LargeSearched(before: map<int, nat>, was: Snapshot, at: Snapshot, nb: nat)
    requires nb >= MIN_LARGE_SIZE && Consolidated(before, was, at)
    ensures SearchedIn(before, was, at, nb)
  {
  }

  /** A small request that something serves at once is not tried again. */
  lemma ServedAtOnce(before: map<int, nat>, was: Snapshot, nb: nat, p: int)
    requires FastHit(was, nb) || Shortcut(was, nb) || BestFit(Frees(was.a), p, nb) || TopRoom(was.a, nb, 0)
    requires nb >= MIN_LARGE_SIZE ==> Consolidated(before, was, was)
    ensures SearchedIn(before, was, was, nb)
  {
    hide Frees; hide Used; hide Tags; hide Shortcut; hide FastHit; hide TopRoom; hide Consolidated; hide Trail;
    if BestFit(Frees(was.a), p, nb) {
      var frees := Frees(was.a);
      assert p in frees && frees[p] >= nb;
    }
  }

  lemma NoFastHit(s: Snapshot, nb: nat)
    requires AllEmpty(s.fast) || nb >= MIN_LARGE_SIZE
    ensures !FastHit(s, nb)
  {
  }

  /** The chunk in which x lies has this size. */
  ghost predicate ChunkAround(a: Arena, x: int, size: nat) {
    exists q :: q in a.starts && InChunk(a, q, x) && a.head[q].sz == size
  }

  lemma AroundAt(a: Arena, q: int, x: int)
    requires q in a.starts && q in a.head && q <= x < q + a.head[q].sz
    ensures ChunkAround(a, x, a.head[q].sz)
  {
    assert InChunk(a, q, x);
  }

  lemma AroundOnce(a: Arena, x: int, m: nat, n: nat)
    requires Tags(a) && ChunkAround(a, x, m) && ChunkAround(a, x, n)
    ensures m == n
  {
    hide Tags;
    var p :| p in a.starts && InChunk(a, p, x) && a.head[p].sz == m;
    var q :| q in a.starts && InChunk(a, q, x) && a.head[q].sz == n;
    Ordered(a, p, q);
    Ordered(a, q, p);
  }

  /** The used chunk p has been freed: it is part of a free chunk or of top. */
  ghost predicate Freed(was: Snapshot, mid: Snapshot, p: int) {
    && Tags(mid.a) && Used(mid.a) == Used(was.a) - {p} && mid.a.base == was.a.base && mid.a.end == was.a.end
    && |was.bins| == |mid.bins| == NBINS && Binned(mid.bins, Frees(mid.a))
    && Moves(Used(was.a), was.a.base, was.a.end, was.bins[1], p, mid.bins[1])
    && mid.fast == was.fast && mid.last == was.last && mid.fastchunks == was.fastchunks
  }

  /** The chunk that p has become part of is large enough for a consolidation. */
  ghost predicate Large(a: Arena, p: int) {
    exists size: nat :: ChunkAround(a, p, size) && size >= CONSOLIDATION_THRESHOLD
  }

  lemma TrailStart(used: map<int, nat>, base: int, end: int, u: seq<int>, ps: seq<int>)
    ensures Trail(used, base, end, u, [], u) && Less(used, []) == used && [] + ps == ps
  {
  }

  /** Used chunks are on no list of free ones. */
  lemma UnlistedUsed(bins: seq<seq<int>>, a: Arena, p: int)
    requires Binned(bins, Frees(a)) && IsUsed(a, p)
    ensures |bins| == NBINS && Remove(bins[1], p) == bins[1] && p !in bins[1]
  {
    hide BinIndex; hide Descending; hide Sizes;
    assert p !in Frees(a);
  }

  lemma ListsFree(bins: seq<seq<int>>, frees: map<int, nat>)
    requires Binned(bins, frees)
    ensures |bins| == NBINS && forall i :: 0 <= i < |bins[1]| ==> bins[1][i] in frees
  {
    hide Binned;
    BinnedSize(bins, frees);
    forall i | 0 <= i < |bins[1]| ensures bins[1][i] in frees {
      ListMember(bins, frees, 1, i);
    }
  }

  lemma FrontOnce(bins: seq<seq<int>>, frees: map<int, nat>, q: int, w: seq<int>)
    requires Binned(bins, frees) && |bins| == NBINS && bins[1] == [q] + w
    ensures forall i :: 0 <= i < |w| ==> w[i] in frees && w[i] != q
  {
    hide BinIndex; hide Descending; hide Sizes;
    assert NoDup(bins[1]);
    forall i | 0 <= i < |w| ensures w[i] in frees && w[i] != q {
      assert w[i] == bins[1][i + 1] && bins[1][0] == q;
    }
  }

  lemma TopUnused(a: Arena)
    ensures a.top !in Used(a)
  {
  }

  class Heap {
    var head: map<int, Head>
    var foot: map<int, int>
    var top: int
    var bins: seq<seq<int>>
    var fast: seq<seq<int>>
    var binmap: seq<bv32>
    var lastRemainder: int
    var anychunks: bool
    var fastchunks: bool
    ghost var starts: set<int>
    ghost var base: int
    ghost var end: int

    ghost function A(): Arena
      reads this
    {
      Arena(head, foot, starts, base, top, end)
    }

    ghost predicate Sound()
      reads this
    {
      Core(A(), bins, fast, binmap)
    }

    ghost predicate Valid()
      reads this
    {
      Sound() && Flags(bins, fast, anychunks, fastchunks)
    }

    ghost function Now(): Snapshot
      reads this
    {
      Snapshot(A(), bins, fast, lastRemainder, fastchunks)
    }

    /** The blocks that belong to the program, with their chunk sizes. */
    ghost function Blocks(): map<int, nat>
      reads this
    {
      Live(Used(A()), fast)
    }

    /** Before the first request: no memory yet, every list empty. */
    constructor (start: int)
      requires start > 0 && start % 8 == 0
      ensures Valid() && Blocks() == map[] && top == base == end == start
    {
      head, foot := map[start := Head(0, true)], map[];
      top, lastRemainder := start, 0;
      bins, fast := seq(NBINS, i => []), seq(NFASTBINS, i => []);
      binmap := [0, 0, 0, 0];
      anychunks, fastchunks := false, false;
      starts, base, end := {start}, start, start;
      new;
      EmptyCore(A(), bins, fast, binmap, start);
      NoFast(Used(A()), fast);
    }

    /** User memory of two blocks of the program never overlaps, and none of it is a size field. */
    lemma BlocksDisjoint(p: int, q: int, x: int)
      requires Valid() && p in Blocks() && q in Blocks() && p != q && UserByte(p, Blocks()[p], x)
      ensures !UserByte(q, Blocks()[q], x)
      ensures forall r :: r in starts ==> !SizeByte(r, x)
    {
      hide Tags; hide Binned; hide Covers; hide FastOk; hide InFast; hide Used;
      UsedBytes(A(), p, x);
    }

    // ----- freeing -----

    /** `unlink` */
    method Unlink(p: int, ghost frees: map<int, nat>)
      requires Binned(bins, frees) && p in frees && p in head && head[p].sz == frees[p] && Covers(binmap, Full(bins))
      modifies `bins
      ensures Binned(bins, frees - {p}) && Covers(binmap, Full(bins)) && |bins| == |old(bins)| == NBINS
      ensures bins[1] == Remove(old(bins[1]), p)
      ensures forall i :: 0 <= i < |bins| == |old(bins)| && old(bins[i]) == [] ==> bins[i] == []
    {
      var i := if p in bins[1] then 1 else BinIndex(head[p].sz);
      UnlinkBinned(bins, frees, i, p);
      MallocBins.ListsSize(bins, frees);
      UnlinkCovers(binmap, bins, i, p);
      bins := bins[i := Remove(bins[i], p)];
    }

    /** The consolidation shared by `fREe` and `malloc_consolidate`: the used chunk p joins its free
        neighbours and becomes an unsorted chunk or part of top. */
    method FreeChunk(p: int) returns (size: nat)
      requires Tags(A()) && Binned(bins, Frees(A())) && Covers(binmap, Full(bins)) && TopOk(A()) && IsUsed(A(), p)
      modifies `head, `foot, `top, `bins, `starts
      ensures Tags(A()) && Binned(bins, Frees(A())) && Covers(binmap, Full(bins)) && TopOk(A())
      ensures Used(A()) == old(Used(A())) - {p} && |bins| == |old(bins)| == NBINS
      ensures Moves(old(Used(A())), base, end, old(bins[1]), p, bins[1]) && ChunkAround(A(), p, size)
    {
      hide Tags; hide Binned; hide Covers; hide Frees; hide Used; hide IsFree; hide Moves; hide Remove;
      hide ChunkAround;
      ghost var a := A();
      BinnedSize(bins, Frees(a));
      ghost var u, blocks := bins[1], Used(a);
      ChunkFacts(a, p);
      UnlistedUsed(bins, a, p);
      size := head[p].sz;
      var next := p + size;
      var q := p;
      if !head[p].pinuse {
        MergeBackTags(a, p);
        Previous(a, p);
        var prevsize := foot[p];
        size := size + prevsize;
        q := p - prevsize;
        Unlink(q, Frees(a));
        a := MergeBack(a, p);
      }
      assert bins[1] == Remove(u, q);
      ChunkFacts(a, q);
      if next != top {
        size := JoinNext(q, size, next, a);
        FrontOnce(bins, Frees(A()), q, Remove(Remove(u, q), next));
        MovedFront(A(), blocks, u, p, q, next, Remove(Remove(u, q), next));
        FreeFacts(A(), q);
        AroundAt(A(), q, p);
      } else {
        size := JoinTop(q, size, a);
        ListsFree(bins, Frees(A()));
        MovedTop(A(), blocks, u, p, Remove(u, q));
        TopIn(A());
        AroundAt(A(), q, p);
      }
    }

    /** The tags in memory are those of a, except that the size of chunk q is not written yet. */
    ghost predicate Unwritten(a: Arena, q: int, size: nat)
      reads this
    {
      && Tags(a) && Binned(bins, Frees(a)) && Covers(binmap, Full(bins)) && TopOk(a) && Releasable(a, q)
      && foot == a.foot && base == a.base && top == a.top && end == a.end && a.head[q] == Head(size, true)
      && head[q := Head(size, true)] == a.head
    }

    method JoinNext(q: int, total: nat, next: int, ghost a: Arena) returns (size: nat)
      requires Unwritten(a, q, total) && next == q + total && next != top
      modifies `head, `foot, `bins, `starts
      ensures Tags(A()) && Binned(bins, Frees(A())) && Covers(binmap, Full(bins)) && TopOk(A())
      ensures Used(A()) == Used(a) - {q} && |bins| == |old(bins)| == NBINS
      ensures bins[1] == [q] + Remove(old(bins[1]), next) && q in Frees(A()) && Frees(A())[q] == size >= total
      ensures next < q + Frees(A())[q] || next !in old(bins[1])
    {
      hide Tags; hide Binned; hide Covers; hide Frees; hide Used; hide IsFree; hide TopOk; hide Remove; hide BinIndex;
      hide Full;
      ghost var b, frees := a, Frees(a);
      size := total;
      ChunkFacts(a, q);
      ChunkFacts(a, next);
      InuseBit(a, next);
      InuseBit(a, q);
      JoinTopOk(a, q);
      var nextsize := head[next].sz;
      var nextinuse := head[next + nextsize].pinuse;
      head := head[next := Head(nextsize, false)];
      if !nextinuse {
        MergeNextTags(a, q);
        Unlink(next, frees);
        frees := frees - {next};
        size := size + nextsize;
        b := MergeNext(a, q);
      } else {
        UnlistedUsed(bins, a, next);
        ReleaseTags(a, q);
        b := MallocTags.Release(a, q);
      }
      PushUnsorted(q, size, frees);
      Write(q, size, b);
    }

    /** The tags of the merged chunk are written. */
    method Write(q: int, size: nat, ghost b: Arena)
      requires Tags(b) && b.base == base && b.top == top && b.end == end && TopOk(b)
      requires forall x :: x in b.starts && x in b.head && x != q ==> x in head && head[x] == b.head[x]
      requires q in b.head && b.head[q] == Head(size, true) && b.foot == foot[q + size := size]
      modifies `head, `foot, `starts
      ensures Tags(A()) && Frees(A()) == Frees(b) && Used(A()) == Used(b) && TopOk(A())
    {
      hide Tags; hide Frees; hide Used;
      head := head[q := Head(size, true)];
      foot := foot[q + size := size];
      starts := b.starts;
      TopIn(b);
      SameTags(b, A());
    }

    method PushUnsorted(q: int, size: nat, ghost frees: map<int, nat>)
      requires Binned(bins, frees) && Covers(binmap, Full(bins)) && q !in frees && MINSIZE <= size && size % 8 == 0
      modifies `bins
      ensures Binned(bins, frees[q := size]) && Covers(binmap, Full(bins))
      ensures |bins| == |old(bins)| == NBINS && bins[1] == [q] + old(bins[1])
    {
      hide Binned; hide Covers;
      BinnedSize(bins, frees);
      PushBinned(bins, frees, q, size);
      CoversLess(binmap, bins, bins[1 := [q] + bins[1]]);
      bins := bins[1 := [q] + bins[1]];
    }

    method JoinTop(q: int, total: nat, ghost a: Arena) returns (size: nat)
      requires Unwritten(a, q, total) && q + total == top
      modifies `head, `top, `starts
      ensures Tags(A()) && Binned(bins, Frees(A())) && Covers(binmap, Full(bins)) && TopOk(A())
      ensures Used(A()) == Used(a) - {q} && top == q && top < end && top in head && head[top].sz == size >= total
    {
      hide Tags; hide Binned; hide Covers; hide Frees; hide Used; hide IsFree;
      ChunkFacts(a, q);
      Chunk(a, a.top);
      MergeTopTags(a, q);
      size := total + head[top].sz;
      head := head[q := Head(size, true)];
      top := q;
      starts := MergeTop(a, q).starts;
      SameTags(MergeTop(a, q), A());
    }

    /** One turn of `malloc_consolidate`: the first chunk of a fast list is freed. */
    method FreeFast(i: nat)
      requires Sound() && i < NFASTBINS && fast[i] != []
      modifies `head, `foot, `top, `bins, `starts, `fast
      ensures Sound() && Blocks() == old(Blocks()) && fast == old(fast)[i := old(fast[i])[1..]]
      ensures Used(A()) == old(Used(A())) - {old(fast[i][0])} && |bins| == |old(bins)| == NBINS
      ensures Moves(old(Used(A())), base, end, old(bins[1]), old(fast[i][0]), bins[1])
    {
      hide Tags; hide Binned; hide Covers; hide Frees; hide FastOk; hide Live; hide InFast; hide Moves;
      ghost var used := Used(A());
      FastSize();
      FastPop(fast, used, i);
      var p := fast[i][0];
      fast := fast[i := fast[i][1..]];
      var size := FreeChunk(p);
      FastLess(fast, used, p);
      assert Live(used, old(fast))[p := used[p]] - {p} == Live(used, old(fast));
    }

    lemma FastSize()
      requires Sound()
      ensures |fast| == NFASTBINS && forall i :: 8 <= i < NFASTBINS ==> fast[i] == []
    {
      hide Tags; hide Binned; hide Covers; hide FastOk;
      FastTail(fast, Used(A()));
    }

    /** `malloc_consolidate`: all fast chunks become ordinary free chunks. */
    method Consolidate()
      requires Valid()
      modifies `head, `foot, `top, `bins, `starts, `fast, `fastchunks
      ensures Valid() && Blocks() == old(Blocks()) && AllEmpty(fast) && !fastchunks
      ensures Used(A()) == Blocks() && |bins| == |old(bins)| == NBINS
      ensures Trail(old(Used(A())), base, end, old(bins[1]), Flat(old(fast)), bins[1])
    {
      hide Core; hide Moves; hide Trail; hide Flat; hide Less; hide Used;
      FastSize();
      SoundSize();
      ghost var any, ps, used, u := fastchunks, [], Used(A()), bins[1];
      TrailStart(used, base, end, u, Flat(fast));
      fastchunks := false;
      var i := 0;
      while i <= 7
        invariant Sound() && Blocks() == old(Blocks()) && |fast| == NFASTBINS && 0 <= i <= 8 && !fastchunks
        invariant (!anychunks ==> AllEmpty(bins)) && (!any ==> AllEmpty(fast)) && (any ==> anychunks)
        invariant forall j :: 0 <= j < i || 8 <= j < NFASTBINS ==> fast[j] == []
        invariant Freeing(used, u, ps, old(fast))
      {
        while fast[i] != []
          invariant Sound() && Blocks() == old(Blocks()) && |fast| == NFASTBINS && !fastchunks
          invariant (!anychunks ==> AllEmpty(bins)) && (!any ==> AllEmpty(fast)) && (any ==> anychunks)
          invariant forall j :: 0 <= j < i || 8 <= j < NFASTBINS ==> fast[j] == []
          invariant Freeing(used, u, ps, old(fast))
          decreases |fast[i]|
        {
          ghost var w, p := bins[1], fast[i][0];
          FlatNext(fast, i);
          FreeFast(i);
          TrailNext(used, base, end, u, ps, w, p, bins[1]);
          LessMore(used, ps, p);
          ps := ps + [p];
        }
        i := i + 1;
      }
      NoFast(Used(A()), fast);
      FlatEmpty(fast);
      assert ps + [] == ps;
    }

    /** The fast chunks ps have been freed, in the order of their lists. */
    ghost predicate Freeing(used: map<int, nat>, u: seq<int>, ps: seq<int>, fast0: seq<seq<int>>)
      reads this
    {
      && |bins| == NBINS && Used(A()) == Less(used, ps) && Flat(fast0) == ps + Flat(fast)
      && Trail(used, base, end, u, ps, bins[1])
    }

    /** `fREe` of a block the program owns; `mem` 0 has no effect.  A small block goes to the front of
        the fast list of its size; a larger one is coalesced, and if what it has become part of is
        large, the fast chunks are consolidated.  `mid` is the state after the coalescing. */
    method Free(mem: int) returns (ghost mid: Snapshot)
      requires Valid() && (mem == 0 || mem - 2 * SIZE_SZ in Blocks())
      modifies this
      ensures Valid() && Blocks() == if mem == 0 then old(Blocks()) else old(Blocks()) - {mem - 2 * SIZE_SZ}
      ensures base == old(base) && end == old(end) && lastRemainder == old(lastRemainder)
      ensures mem == 0 ==> Now() == old(Now())
      ensures mem != 0 ==>
        var p, i := mem - 2 * SIZE_SZ, old(SizeAt(A(), mem - 2 * SIZE_SZ)) / 8 - 2;
        if 0 <= i && 8 * (i + 2) <= MAX_FAST
        then A() == old(A()) && bins == old(bins) && fastchunks
          && i < |old(fast)| && fast == old(fast)[i := [p] + old(fast)[i]]
        else Freed(old(Now()), mid, p) && Settled(mid, p)
    {
      hide Core; hide Live; hide Freed; hide Large; hide Tags; hide Used; hide Frees; hide Settled;
      mid := Now();
      if mem == 0 { return; }
      var p := mem - 2 * SIZE_SZ;
      OwnedFacts(p);
      var size := head[p].sz;
      if size <= MAX_FAST {
        fastchunks, anychunks := true, true;
        FreeToFast(p, size / 8 - 2);
      } else {
        anychunks := true;
        size := FreeOwned(p);
        mid := Now();
        if size >= CONSOLIDATION_THRESHOLD && fastchunks {
          Consolidate();
        }
        SettledNow(mid, p, size);
      }
    }

    /** After the coalescing: the fast chunks are consolidated if and only if the chunk is large and
        there may be some. */
    ghost predicate Settled(mid: Snapshot, p: int)
      reads this
    {
      if Large(mid.a, p) && mid.fastchunks then
        && Used(A()) == Blocks() && AllEmpty(fast) && !fastchunks && |bins| == |mid.bins| == NBINS
        && Trail(Used(mid.a), base, end, mid.bins[1], Flat(mid.fast), bins[1])
      else Now() == mid
    }

    lemma SettledNow(mid: Snapshot, p: int, size: nat)
      requires Tags(mid.a) && ChunkAround(mid.a, p, size)
      requires
        if size >= CONSOLIDATION_THRESHOLD && mid.fastchunks then
          && Used(A()) == Blocks() && AllEmpty(fast) && !fastchunks && |bins| == |mid.bins| == NBINS
          && Trail(Used(mid.a), base, end, mid.bins[1], Flat(mid.fast), bins[1])
        else Now() == mid
      ensures Settled(mid, p)
    {
      hide Tags; hide Used; hide ChunkAround; hide Trail; hide Flat; hide AllEmpty;
      if n: nat :| ChunkAround(mid.a, p, n) && n >= CONSOLIDATION_THRESHOLD {
        AroundOnce(mid.a, p, n, size);
      }
    }

    lemma OwnedFacts(p: int)
      requires Sound() && p in Blocks()
      ensures p in head && p in Used(A()) && Used(A())[p] == head[p].sz && IsUsed(A(), p) && !InFast(fast, p)
      ensures MINSIZE <= head[p].sz && head[p].sz % 8 == 0 && Blocks()[p] == head[p].sz
    {
      hide Tags; hide Binned; hide Covers; hide FastOk; hide InFast;
      UsedFacts(A(), p);
      ChunkFacts(A(), p);
    }

    method FreeToFast(p: int, i: nat)
      requires Sound() && p in Blocks() && p in head && head[p].sz == 8 * (i + 2) && head[p].sz <= MAX_FAST
      modifies `fast
      ensures Sound() && Blocks() == old(Blocks()) - {p}
      ensures i < |old(fast)| && fast == old(fast)[i := [p] + old(fast)[i]]
    {
      hide Tags; hide Binned; hide Covers; hide FastOk; hide Live; hide InFast; hide Used; hide Frees;
      OwnedFacts(p);
      FastSize();
      FastPush(fast, Used(A()), p, i);
      fast := fast[i := [p] + fast[i]];
    }

    method FreeOwned(p: int) returns (size: nat)
      requires Sound() && p in Blocks()
      modifies `head, `foot, `top, `bins, `starts
      ensures Sound() && Blocks() == old(Blocks()) - {p} && Tags(A())
      ensures Freed(old(Now()), Now(), p) && ChunkAround(A(), p, size)
    {
      hide Tags; hide Binned; hide Covers; hide FastOk; hide Live; hide InFast; hide Used; hide Frees; hide Moves;
      hide ChunkAround;
      OwnedFacts(p);
      ghost var used := Used(A());
      size := FreeChunk(p);
      FastLess(fast, used, p);
    }

    // ----- allocating -----

    /** The unsorted list is overwritten by a single chunk.  It is empty at that point, so no chunk
        is lost. */
    method ResetUnsorted(r: int, size: nat, ghost frees: map<int, nat>)
      requires Binned(bins, frees) && Covers(binmap, Full(bins)) && r !in frees && MINSIZE <= size && size % 8 == 0
      requires |bins| == NBINS && bins[1] == []
      modifies `bins
      ensures Binned(bins, frees[r := size]) && Covers(binmap, Full(bins)) && |bins| == NBINS && bins[1] == [r]
    {
      hide Binned; hide Covers;
      PushBinned(bins, frees, r, size);
      CoversLess(binmap, bins, bins[1 := [r]]);
      assert [r] + bins[1] == [r];
      bins := bins[1 := [r]];
    }

    /** Everything is in order except that the free chunk p is on no list. */
    ghost predicate Detached(p: int)
      reads this
    {
      && Tags(A()) && p in starts && IsFree(A(), p) && Binned(bins, Frees(A()) - {p})
      && FastOk(fast, Used(A())) && Covers(binmap, Full(bins)) && TopOk(A())
    }

    /** The whole chunk is handed out. */
    method Exhaust(p: int)
      requires Detached(p)
      modifies `head
      ensures Sound() && p !in old(Blocks()) && Blocks() == old(Blocks())[p := old(head[p].sz)] && p > 0 && p % 8 == 0
    {
      hide Tags; hide Binned; hide Covers; hide FastOk; hide Live; hide InFast; hide Used; hide Frees;
      ghost var a := A();
      TakeTags(a, p);
      ChunkFacts(a, p);
      InuseBit(a, p);
      NotUsed(a, p);
      FastMore(fast, Used(a), p, head[p].sz);
      var n := p + head[p].sz;
      head := head[n := head[n].(pinuse := true)];
      TakeTop(a, p);
    }

    /** The lower part is handed out, the rest becomes the only unsorted chunk. */
    method SplitOff(p: int, nb: nat)
      requires Detached(p) && Splits(A(), p, nb) && bins[1] == []
      modifies `head, `foot, `starts, `bins
      ensures Sound() && p !in old(Blocks()) && Blocks() == old(Blocks())[p := nb] && p > 0 && p % 8 == 0
      ensures |bins| == NBINS && bins[1] == [p + nb]
    {
      hide Tags; hide Binned; hide Covers; hide FastOk; hide Live; hide InFast; hide Used; hide Frees;
      ghost var a := A();
      SplitTags(a, p, nb);
      ChunkFacts(a, p);
      InuseBit(a, p);
      NotUsed(a, p);
      FastMore(fast, Used(a), p, nb);
      var remainderSize := head[p].sz - nb;
      var remainder := p + nb;
      NotFree(a, remainder);
      BinnedSize(bins, Frees(a) - {p});
      ResetUnsorted(remainder, remainderSize, Frees(a) - {p});
      head := head[p := Head(nb, true)][remainder := Head(remainderSize, true)];
      foot := foot[remainder + remainderSize := remainderSize];
      starts := starts + {remainder};
      SplitTopKept(a, p, nb);
    }

    /** The place of a chunk of the given size in a large bin. */
    method Place(q: seq<int>, size: nat, ghost frees: map<int, nat>) returns (at: nat)
      requires Descending(q, frees) && forall i :: 0 <= i < |q| ==> q[i] in head && head[q[i]].sz == frees[q[i]]
      ensures at <= |q|
      ensures forall i :: 0 <= i < at ==> frees[q[i]] >= size
      ensures forall i :: at <= i < |q| ==> frees[q[i]] <= size
    {
      at := 0;
      if q == [] { return; }
      if size <= head[q[|q| - 1]].sz { return |q|; }
      while size < head[q[at]].sz
        invariant at < |q|
        invariant forall i :: 0 <= i < at ==> frees[q[i]] >= size
        decreases |q| - at
      {
        at := at + 1;
      }
    }

    /** The sizes in the tags of listed chunks. */
    lemma ListedSizes(i: nat)
      requires Sound() && i < NBINS
      ensures |bins| == NBINS
      ensures forall k :: 0 <= k < |bins[i]| ==>
        var x := bins[i][k];
          x in head && x in starts && IsFree(A(), x) && x in Frees(A()) && head[x].sz == Frees(A())[x]
    {
      hide Tags; hide Covers; hide FastOk; hide Binned; hide IsFree; hide Frees; hide Used;
      BinnedSize(bins, Frees(A()));
      forall k | 0 <= k < |bins[i]|
        ensures var x := bins[i][k];
          x in head && x in starts && IsFree(A(), x) && x in Frees(A()) && head[x].sz == Frees(A())[x]
      {
        ListMember(bins, Frees(A()), i, k);
        FreeFacts(A(), bins[i][k]);
      }
    }

    /** The oldest unsorted chunk x is placed in its bin, at the front of a small bin, from which chunks
        are taken at the back; nothing else changes. */
    method FileLast() returns (ghost at: nat)
      requires Sound() && |bins| == NBINS && bins[1] != []
      modifies `bins, `binmap
      ensures Sound() && |bins| == NBINS
      ensures var x, i := old(bins[1][|bins[1]| - 1]), BinIndex(SizeAt(A(), old(bins[1][|bins[1]| - 1])));
        && x in head && 1 < i < NBINS && at <= |old(bins)[i]| && bins == Filed(old(bins), i, x, at)
        && (head[x].sz < MIN_LARGE_SIZE ==> at == 0)
    {
      hide Tags; hide Covers; hide FastOk; hide Lists; hide Sizes; hide Frees; hide Used; hide Descending;
      ghost var frees := Frees(A());
      var victim := bins[1][|bins[1]| - 1];
      ListedSizes(1);
      LastUnsorted(bins, frees);
      var size := head[victim].sz;
      var i := BinIndex(size);
      var place := 0;
      if size >= MIN_LARGE_SIZE {
        LargebinBelow(size);
        ListedSizes(i);
        LargeDescending(bins, frees, i);
        place := Place(bins[i], size, frees);
      }
      FileBinned(bins, frees, victim, place);
      FileCovers(binmap, bins, i, victim, place);
      CoversSize(binmap, Full(bins));
      binmap := Mark(binmap, i);
      bins := Filed(bins, i, victim, place);
      at := place;
    }

    /** What is left of a chunk of the given size is the only unsorted chunk and, for a small request,
        the last remainder; if it is too small to be a chunk, the last remainder is what it was. */
    ghost predicate LeftOver(size: nat, p: int, nb: nat, last: int)
      reads this
    {
      && lastRemainder == (if size >= nb + MINSIZE && nb < MIN_LARGE_SIZE then p + nb else last)
      && (size >= nb + MINSIZE ==> |bins| == NBINS && bins[1] == [p + nb])
    }

    /** A chunk that fits is handed out, whole when the rest would be too small to be a chunk. */
    method Grant(p: int, nb: nat)
      requires Detached(p) && p in head && nb <= head[p].sz && |bins| == NBINS && bins[1] == []
      requires MINSIZE <= nb && nb % 8 == 0
      modifies `head, `foot, `starts, `bins, `lastRemainder
      ensures Sound() && Grants(old(Blocks()), Blocks(), p, nb)
      ensures LeftOver(SizeAt(old(A()), p), p, nb, old(lastRemainder))
    {
      hide Tags; hide Covers; hide FastOk; hide Frees; hide Used; hide BinIndex; hide Binned; hide Live; hide IsFree;
      var remainderSize := head[p].sz - nb;
      if remainderSize < MINSIZE {
        Exhaust(p);
      } else {
        if nb < MIN_LARGE_SIZE {
          lastRemainder := p + nb;
        }
        SplitOff(p, nb);
      }
    }

    /** A fast chunk of the right size, or 0. */
    method TakeFast(nb: nat) returns (p: int)
      requires Sound() && MINSIZE <= nb <= MAX_FAST && nb % 8 == 0
      modifies `fast
      ensures Sound() && (p == 0 ==> fast == old(fast)) && (p != 0 ==> Grants(old(Blocks()), Blocks(), p, nb))
      ensures p != 0 <==> FastHit(old(Now()), nb)
      ensures p != 0 ==> p == FastTop(old(Now()), nb) && fast == old(fast)[nb / 8 - 2 := old(fast[nb / 8 - 2])[1..]]
      ensures |fast| == |old(fast)| && forall i :: 0 <= i < |fast| && old(fast[i]) == [] ==> fast[i] == []
    {
      hide Tags; hide Covers; hide FastOk; hide Frees; hide Used; hide Binned; hide Live; hide InFast;
      FastSize();
      var i := nb / 8 - 2;
      if fast[i] == [] { return 0; }
      FastPop(fast, Used(A()), i);
      p := fast[i][0];
      fast := fast[i := fast[i][1..]];
      UsedPositive(p);
    }

    lemma UsedPositive(p: int)
      requires Tags(A()) && TopOk(A()) && p in Used(A())
      ensures p > 0 && p % 8 == 0
    {
      hide Tags;
      UsedFacts(A(), p);
      ChunkFacts(A(), p);
    }

    /** A small request is served from the bin of its size, or 0. */
    method TakeSmall(nb: nat) returns (p: int)
      requires Sound() && MINSIZE <= nb < MIN_LARGE_SIZE && nb % 8 == 0
      modifies `head, `bins
      ensures Sound() && |bins| == NBINS
      ensures p == 0 ==> A() == old(A()) && bins == old(bins) && bins[nb / 8] == []
      ensures p != 0 ==> Grants(old(Blocks()), Blocks(), p, nb) && BestFit(old(Frees(A())), p, nb)
      ensures p != 0 ==> |old(bins)| == NBINS && old(bins[nb / 8]) != [] && SizeAt(old(A()), p) == nb
      ensures p != 0 ==> p == old(bins[nb / 8][|bins[nb / 8]| - 1])
    {
      hide Tags; hide Covers; hide FastOk; hide Frees; hide Used; hide Binned; hide Live;
      ghost var frees := Frees(A());
      BinnedSize(bins, frees);
      var idx := nb / 8;
      if bins[idx] == [] { return 0; }
      var k := |bins[idx]| - 1;
      ListedSizes(idx);
      SmallSize(bins, frees, nb, k);
      p := bins[idx][k];
      ExactBest(frees, p, nb);
      UnlinkExact(idx, k, frees);
      Exhaust(p);
    }

    method UnlinkExact(i: nat, k: nat, ghost frees: map<int, nat>)
      requires Sound() && frees == Frees(A()) && 2 <= i < NBINS == |bins| && k < |bins[i]| && bins[i][k] in frees
      requires i == BinIndex(frees[bins[i][k]])
      modifies `bins
      ensures Detached(old(bins[i][k])) && |bins| == NBINS && bins[1] == old(bins[1])
    {
      hide Tags; hide Covers; hide FastOk; hide Frees; hide Used; hide BinIndex; hide Lists; hide Sizes;
      var p := bins[i][k];
      ListedSizes(i);
      NotUnsorted(bins, frees, i, p);
      UnlinkBinned(bins, frees, i, p);
      UnlinkCovers(binmap, bins, i, p);
      ListNoDup(bins, frees, i);
      RemoveAt(bins[i], p, k);
      bins := bins[i := bins[i][..k] + bins[i][k + 1..]];
    }

    /** The last unsorted chunk leaves its list. */
    method UnlinkLast() returns (p: int)
      requires Sound() && |bins| == NBINS && bins[1] != []
      modifies `bins
      ensures p == old(bins[1][|bins[1]| - 1]) && Detached(p) && |bins| == NBINS
      ensures bins == old(bins)[1 := old(bins[1])[..|old(bins[1])| - 1]]
    {
      hide Tags; hide Covers; hide FastOk; hide Frees; hide Used; hide BinIndex; hide Lists; hide Sizes;
      var k := |bins[1]| - 1;
      p := bins[1][k];
      ListedSizes(1);
      UnlinkBinned(bins, Frees(A()), 1, p);
      UnlinkCovers(binmap, bins, 1, p);
      ListNoDup(bins, Frees(A()), 1);
      RemoveAt(bins[1], p, k);
      assert bins[1][k + 1..] == [] && bins[1][..k] + [] == bins[1][..k];
      bins := bins[1 := bins[1][..k]];
    }

    /** The oldest unsorted chunk is looked at: an exact fit is taken, a small request may split the
        last remainder when it is alone, any other chunk goes to its bin. */
    method SortOne(nb: nat) returns (p: int, how: How)
      requires Sound() && MINSIZE <= nb && nb % 8 == 0 && |bins| == NBINS && bins[1] != []
      requires nb < MIN_LARGE_SIZE ==> bins[nb / 8] == []
      modifies `head, `foot, `starts, `bins, `binmap, `lastRemainder
      ensures Sound() && |bins| == NBINS
      ensures p == 0 ==> A() == old(A()) && lastRemainder == old(lastRemainder) && PassedOne(old(Now()), nb)
      ensures p == 0 ==> bins[1] == old(bins[1])[..|old(bins[1])| - 1] && (nb < MIN_LARGE_SIZE ==> bins[nb / 8] == [])
      ensures p != 0 ==> Grants(old(Blocks()), Blocks(), p, nb) && p == old(bins[1][|bins[1]| - 1])
      ensures p != 0 ==>
        if how.Remainder? then |old(bins[1])| == 1 && Splittable(old(A()), old(bins[1]), old(lastRemainder), nb)
        else how.Fit? && SizeAt(old(A()), p) == nb && BestFit(old(Frees(A())), p, nb)
      ensures p != 0 ==> LeftOver(SizeAt(old(A()), p), p, nb, old(lastRemainder))
    {
      hide Core; hide Live; hide Frees; hide Used; hide Detached; hide BestFit; hide LargebinIndex;
      how := Fit;
      var victim := bins[1][|bins[1]| - 1];
      ListedSizes(1);
      var size := head[victim].sz;
      if nb < MIN_LARGE_SIZE && |bins[1]| == 1 && victim == lastRemainder && size > nb + MINSIZE {
        how := Remainder;
        p := SplitRemainder(nb);
        return;
      }
      if size == nb {
        ExactBest(Frees(A()), victim, nb);
        p := UnlinkLast();
        Exhaust(p);
        SoundSize();
        return;
      }
      SizeMultiple(victim);
      if size >= MIN_LARGE_SIZE {
        LargebinBelow(size);
      }
      ghost var at := FileLast();
      p := 0;
    }

    /** Every unsorted chunk gets one chance to be used before it is binned. */
    method DrainUnsorted(nb: nat) returns (p: int, how: How)
      requires Sound() && MINSIZE <= nb && nb % 8 == 0 && |bins| == NBINS
      requires (nb < MIN_LARGE_SIZE ==> bins[nb / 8] == [])
      modifies `head, `foot, `starts, `bins, `binmap, `lastRemainder
      ensures Sound() && |bins| == NBINS
      ensures p == 0 ==> A() == old(A()) && lastRemainder == old(lastRemainder) && !Shortcut(old(Now()), nb)
      ensures p == 0 ==> bins[1] == [] && (nb < MIN_LARGE_SIZE ==> bins[nb / 8] == [])
      ensures p != 0 ==> Grants(old(Blocks()), Blocks(), p, nb) && (how.Remainder? <==> Shortcut(old(Now()), nb))
      ensures p != 0 ==>
        if how.Remainder? then p == old(lastRemainder) else how.Fit? && BestFit(old(Frees(A())), p, nb)
      ensures p != 0 ==> LeftOver(SizeAt(old(A()), p), p, nb, old(lastRemainder))
    {
      hide Core; hide Live; hide Frees; hide Used; hide BestFit; hide Grants; hide SizeAt;
      p, how := 0, Fit;
      ghost var u := bins[1];
      assert u[..|u|] == u;
      while bins[1] != []
        invariant Sound() && A() == old(A()) && fast == old(fast) && |bins| == NBINS && p == 0
        invariant |bins[1]| <= |u| && bins[1] == u[..|bins[1]|] && lastRemainder == old(lastRemainder)
        invariant nb < MIN_LARGE_SIZE ==> bins[nb / 8] == []
        invariant Passed(old(A()), u, old(lastRemainder), nb, |bins[1]|)
        decreases |bins[1]|
      {
        p, how := SortOne(nb);
        if p != 0 { return; }
      }
    }

    method SplitRemainder(nb: nat) returns (p: int)
      requires Sound() && |bins| == NBINS && |bins[1]| == 1 && bins[1][0] in head && head[bins[1][0]].sz > nb + MINSIZE
      requires MINSIZE <= nb && nb % 8 == 0
      modifies `head, `foot, `starts, `bins, `lastRemainder
      ensures Sound() && Grants(old(Blocks()), Blocks(), p, nb) && |bins| == NBINS && p == old(bins[1][0])
      ensures lastRemainder == p + nb && bins[1] == [p + nb]
    {
      hide Core; hide Live; hide Frees; hide Used;
      p := UnlinkLast();
      lastRemainder := p + nb;
      SplitOff(p, nb);
      SoundSize();
    }

    lemma SoundSize()
      requires Sound()
      ensures |bins| == NBINS && |binmap| == BINMAPSIZE + 1
    {
      hide Tags; hide Binned; hide Covers;
      BinnedSize(bins, Frees(A()));
      CoversSize(binmap, Full(bins));
    }

    lemma SizeMultiple(p: int)
      requires Sound() && p in starts && p in head
      ensures head[p].sz % 8 == 0
    {
      hide Tags; hide Binned; hide Covers;
      ChunkFacts(A(), p);
    }

    /** A large request scans its own bin from the smallest chunk up. */
    method ScanLarge(nb: nat) returns (p: int)
      requires Sound() && MIN_LARGE_SIZE <= nb && nb % 8 == 0 && |bins| == NBINS && bins[1] == []
      modifies `head, `foot, `starts, `bins, `lastRemainder
      ensures Sound()
      ensures p == 0 ==> A() == old(A()) && lastRemainder == old(lastRemainder) && bins == old(bins)
      ensures p == 0 ==> NoneBelow(bins, Frees(A()), nb, BinIndex(nb) + 1)
      ensures p != 0 ==> Grants(old(Blocks()), Blocks(), p, nb) && BestFit(old(Frees(A())), p, nb)
      ensures p != 0 ==> LeftOver(SizeAt(old(A()), p), p, nb, old(lastRemainder))
    {
      hide Core; hide Live; hide Frees; hide Used; hide NoneBelow; hide BestFit; hide BinIndex; hide Grants;
      var idx := BinIndex(nb);
      LargeIndex(nb);
      ListedSizes(idx);
      var k := FindFit(bins[idx], nb);
      if k < |bins[idx]| {
        p := TakeAt(idx, k, nb);
      } else {
        SearchedNone(nb, idx);
        p := 0;
      }
    }

    lemma SearchedNone(nb: nat, idx: nat)
      requires Sound() && |bins| == NBINS && bins[1] == [] && idx == BinIndex(nb) < NBINS
      requires forall j :: 0 <= j < |bins[idx]| ==> bins[idx][j] in head && head[bins[idx][j]].sz < nb
      ensures NoneBelow(bins, Frees(A()), nb, idx + 1)
    {
      hide Tags; hide Covers; hide Binned; hide NoneBelow; hide BinIndex; hide Frees; hide Used;
      ListedSizes(idx);
      ScanNone(bins, Frees(A()), nb);
    }

    /** The last place of a list whose chunk is large enough, or its length. */
    method FindFit(q: seq<int>, nb: nat) returns (k: nat)
      requires forall j :: 0 <= j < |q| ==> q[j] in head
      ensures k <= |q| && (k < |q| ==> head[q[k]].sz >= nb)
      ensures forall j :: 0 <= j < |q| && (k == |q| || k < j) ==> head[q[j]].sz < nb
    {
      k := |q|;
      while k > 0
        invariant 0 <= k <= |q|
        invariant forall j :: k <= j < |q| ==> head[q[j]].sz < nb
      {
        k := k - 1;
        if head[q[k]].sz >= nb { return; }
      }
      k := |q|;
    }

    method TakeAt(idx: nat, k: nat, nb: nat) returns (p: int)
      requires Sound() && MIN_LARGE_SIZE <= nb && nb % 8 == 0 && bins != [] && idx == BinIndex(nb)
      requires NSMALLBINS <= idx < NBINS == |bins|
      requires bins[1] == [] && k < |bins[idx]| && bins[idx][k] in head && nb <= head[bins[idx][k]].sz
      requires forall j :: k < j < |bins[idx]| ==> bins[idx][j] in head && head[bins[idx][j]].sz < nb
      modifies `head, `foot, `starts, `bins, `lastRemainder
      ensures Sound() && p != 0 && Grants(old(Blocks()), Blocks(), p, nb) && BestFit(old(Frees(A())), p, nb)
      ensures LeftOver(SizeAt(old(A()), p), p, nb, old(lastRemainder))
    {
      hide Tags; hide Covers; hide FastOk; hide Live; hide Frees; hide Used; hide Binned; hide BinIndex; hide BestFit;
      ghost var frees := Frees(A());
      ListedSizes(idx);
      ScanBest(bins, frees, nb, idx, k);
      p := bins[idx][k];
      NotUnsorted(bins, frees, idx, p);
      UnlinkExact(idx, k, frees);
      Grant(p, nb);
    }

    /** The walk through the bitmap: the first non-empty bin above the request's own. */
    method TakeHigher(nb: nat) returns (p: int)
      requires Sound() && MINSIZE <= nb && nb % 8 == 0 && |bins| == NBINS && bins[1] == []
      requires NoneBelow(bins, Frees(A()), nb, BinIndex(nb) + 1)
      modifies `head, `foot, `starts, `bins, `binmap, `lastRemainder
      ensures Sound()
      ensures p == 0 ==> A() == old(A()) && lastRemainder == old(lastRemainder) && NoFit(Frees(A()), nb)
      ensures p == 0 ==> bins == old(bins)
      ensures p != 0 ==> Grants(old(Blocks()), Blocks(), p, nb) && BestFit(old(Frees(A())), p, nb)
      ensures p != 0 ==> LeftOver(SizeAt(old(A()), p), p, nb, old(lastRemainder))
    {
      hide Tags; hide Covers; hide FastOk; hide Live; hide Frees; hide Used; hide Binned; hide NoneBelow;
      hide BestFit; hide BinIndex;
      ghost var frees := Frees(A());
      SizeIndex(nb);
      var start := BinIndex(nb) + 1;
      var full := Full(bins);
      var bin: nat;
      bin, binmap := NextBin(binmap, full, start);
      WalkedEmpty(bins, frees, nb, start, bin);
      if bin == NBINS { return 0; }
      HigherBinBest(bins, frees, nb, bin);
      p := TakeLast(bin, nb);
    }

    method TakeLast(bin: nat, nb: nat) returns (p: int)
      requires Sound() && MINSIZE <= nb && nb % 8 == 0 && 2 <= bin < NBINS == |bins| && bins[1] == [] && bins[bin] != []
      requires BestFit(Frees(A()), bins[bin][|bins[bin]| - 1], nb)
      modifies `head, `foot, `starts, `bins, `lastRemainder
      ensures Sound() && p == old(bins[bin][|bins[bin]| - 1]) && Grants(old(Blocks()), Blocks(), p, nb)
      ensures LeftOver(SizeAt(old(A()), p), p, nb, old(lastRemainder))
    {
      hide Tags; hide Covers; hide FastOk; hide Live; hide Frees; hide Used; hide Binned; hide BinIndex;
      ListedSizes(bin);
      p := bins[bin][|bins[bin]| - 1];
      NotUnsorted(bins, Frees(A()), bin, p);
      UnlinkExact(bin, |bins[bin]| - 1, Frees(A()));
      Grant(p, nb);
    }

    /** The lower part of top is handed out. */
    method SplitOffTop(nb: nat) returns (p: int)
      requires Sound() && MINSIZE <= nb && nb % 8 == 0 && top in head && head[top].sz >= nb + MINSIZE
      modifies `head, `top, `starts
      ensures Sound() && Grants(old(Blocks()), Blocks(), p, nb) && p == old(top)
    {
      hide Tags; hide Covers; hide FastOk; hide Live; hide Frees; hide Used; hide Binned; hide InFast; hide IsFree;
      ghost var a := A();
      SplitTopTags(a, nb);
      TopIn(a);
      ChunkFacts(a, top);
      TopUnused(a);
      FastMore(fast, Used(a), top, nb);
      var remainderSize := head[top].sz - nb;
      p := top;
      top := p + nb;
      head := head[p := Head(nb, true)][top := Head(remainderSize, true)];
      starts := starts + {top};
    }

    method GrowTop(more: nat)
      requires Sound() && top in head && more % 8 == 0 && more >= MINSIZE
      modifies `head, `end
      ensures Sound() && Blocks() == old(Blocks()) && Frees(A()) == old(Frees(A()))
      ensures top in head && head[top].sz == old(head[top].sz) + more && end == old(end) + more
    {
      hide Tags; hide Covers; hide FastOk; hide Live; hide Frees; hide Used; hide Binned;
      GrowTags(A(), more);
      head := head[top := Head(head[top].sz + more, true)];
      end := end + more;
    }

    lemma TopThere()
      requires Sound()
      ensures top in head && Tags(A())
    {
      hide Tags; hide Binned; hide Covers; hide FastOk;
    }

    /** With no fast chunks the heap is consolidated. */
    lemma NowConsolidated(was: Snapshot)
      requires Sound() && AllEmpty(fast) && base == was.a.base && end == was.a.end && lastRemainder == was.last
      ensures Consolidated(Blocks(), was, Now())
    {
      hide Tags; hide Binned; hide Covers; hide FastOk; hide AllEmpty;
      NoFast(Used(A()), fast);
    }

    /** What the call leaves behind.  Memory begins where it began, and ends where it ended or, if the
        system was asked, where it put the new end.  A fast chunk is taken off the front of its list;
        the fast lists are otherwise those of the search.  The rest of a chunk that was cut is recorded. */
    ghost predicate Leaves(was: Snapshot, mem: int, how: How, at: Snapshot, nb: nat, more: nat)
      reads this
    {
      var p := mem - 2 * SIZE_SZ;
      && base == was.a.base && end == was.a.end + (if AskedSystem(how, at, nb) then more else 0)
      && (if how.FromFast? then FastHit(was, nb) && fast == was.fast[nb / 8 - 2 := was.fast[nb / 8 - 2][1..]]
          else fast == at.fast)
      && (if how.Fit? || how.Remainder? then LeftOver(SizeAt(at.a, p), p, nb, was.last) else lastRemainder == was.last)
    }

    /** Since `was`, the search has changed nothing but the lists.  If there may be fast chunks, they
        are those of `was`, and every other free chunk is in its bin. */
    ghost predicate Awaits(was: Snapshot, nb: nat)
      reads this
    {
      && was.a == A() && was.last == lastRemainder && was.fastchunks == fastchunks && was.fast == fast
      && !FastHit(was, nb) && !Shortcut(was, nb)
      && if fastchunks then nb < MIN_LARGE_SIZE && |bins| == NBINS && bins[1] == []
         else Consolidated(Blocks(), was, was)
    }

    /** The request is served from top, or by the system. */
    method UseTop(nb: uint32, more: nat, ghost was: Snapshot) returns (mem: int, ghost how: How, ghost at: Snapshot)
      requires Valid() && Request(nb) && Granted(more) && NoFit(Frees(A()), nb) && Awaits(was, nb)
      modifies this
      ensures Valid() && Served(old(Blocks()), Blocks(), was, mem, how, at, nb, more)
      ensures Leaves(was, mem, how, at, nb, more)
      decreases fastchunks, 1
    {
      hide Core; hide Live; hide Frees; hide Used; hide Tags; hide NoFit; hide Shortcut; hide FastHit;
      hide Consolidated; hide SearchedIn;
      TopThere();
      if head[top].sz >= nb + MINSIZE {
        ServedAtOnce(Blocks(), was, nb, 0);
        var p := SplitOffTop(nb);
        return p + 2 * SIZE_SZ, FromTop, was;
      }
      mem, how, at := SysMalloc(nb, more, was);
    }

    /** `sYSMALLOc`: consolidate and start again if there are fast chunks, otherwise extend top. */
    method SysMalloc(nb: uint32, more: nat, ghost was: Snapshot) returns (mem: int, ghost how: How, ghost at: Snapshot)
      requires Valid() && Request(nb) && Granted(more) && NoFit(Frees(A()), nb) && Awaits(was, nb)
      requires !TopRoom(was.a, nb, 0)
      modifies this
      ensures Valid() && Served(old(Blocks()), Blocks(), was, mem, how, at, nb, more)
      ensures Leaves(was, mem, how, at, nb, more)
      decreases fastchunks, 0
    {
      hide Core; hide Live; hide Frees; hide Used; hide Tags; hide NoFit; hide Shortcut; hide FastHit; hide Binned;
      hide AllEmpty; hide Trail; hide Flat;
      TopThere();
      if fastchunks {
        Consolidate();
        RetrySize(nb);
        ghost var mid, before := Now(), Blocks();
        NowConsolidated(was);
        NoFastHit(mid, nb);
        mem, how, at := Malloc(nb - ALIGN_MASK, more);
        ServedLater(before, Blocks(), was, mid, mem, how, at, nb, more);
        return;
      }
      if more > 0 {
        GrowTop(more);
        if head[top].sz >= nb + MINSIZE {
          var p := SplitOffTop(nb);
          return p + 2 * SIZE_SZ, FromTop, was;
        }
      }
      return 0, OutOfMemory, was;
    }

    /** `mALLOc`.  A request that can be represented fails exactly when the blocks of the program and
        what the system gives leave no room for it. */
    method Malloc(bytes: uint32, more: nat) returns (mem: int, ghost how: How, ghost at: Snapshot)
      requires Valid() && Granted(more)
      modifies this
      ensures Valid()
      ensures OutOfRange(bytes) ==> mem == 0 && how.Refused? && Now() == old(Now())
      ensures !OutOfRange(bytes) ==>
        var nb := RequestSize(bytes);
        && Served(old(Blocks()), Blocks(), old(Now()), mem, how, at, nb, more)
        && Leaves(old(Now()), mem, how, at, nb, more)
        && (mem != 0 <==> HasRoom(old(Blocks()), old(base), old(end), nb, more))
      decreases fastchunks, 3
    {
      hide Valid; hide Blocks; hide RequestSize; hide Served; hide HasRoom;
      at := Now();
      if OutOfRange(bytes) { return 0, Refused, at; }
      var nb := RequestSize(bytes);
      ghost var was, before := Now(), Blocks();
      mem, how, at := Allocate(nb, more);
      RoomRule(before, was, mem, how, at, nb, more);
    }

    /** Whatever the way it was served, the request succeeded exactly when there was room. */
    lemma RoomRule(before: map<int, nat>, was: Snapshot, mem: int, how: How, at: Snapshot, nb: nat, more: nat)
      requires Valid() && Served(before, Blocks(), was, mem, how, at, nb, more) && Leaves(was, mem, how, at, nb, more)
      requires nb > 0
      ensures mem != 0 <==> HasRoom(before, was.a.base, was.a.end, nb, more)
    {
      hide Tags; hide Used; hide Frees; hide Binned; hide FastOk; hide Covers; hide Shortcut; hide FastHit;
      hide HasRoom; hide AllEmpty; hide NoFit; hide BestFit; hide Live;
      if mem == 0 {
        TopIn(at.a);
        ChunkFacts(at.a, at.a.top);
        RoomIff(at.a, nb, more);
      } else {
        GrantWasRoom(before, mem - 2 * SIZE_SZ, was.a.base, was.a.end, nb, more);
      }
    }

    lemma GrantWasRoom(before: map<int, nat>, p: int, base0: int, end0: int, nb: nat, more: nat)
      requires Sound() && Grants(before, Blocks(), p, nb) && base == base0 && end <= end0 + more && nb > 0
      ensures HasRoom(before, base0, end0, nb, more)
    {
      hide Core; hide HasRoom; hide Live;
      assert Blocks() - {p} == before;
      BlockIsRoom(p, end0, nb, more);
    }

    /** A block is room for what it is large enough for, once it is given back. */
    lemma BlockIsRoom(p: int, end0: int, nb: nat, more: nat)
      requires Sound() && p in Blocks() && 0 < nb <= Blocks()[p] && end <= end0 + more
      ensures HasRoom(Blocks() - {p}, base, end0, nb, more) && p > 0
    {
      hide Tags; hide Used; hide Binned; hide FastOk; hide Covers; hide HasRoom; hide InFast;
      var a, rest := A(), Blocks() - {p};
      OwnedFacts(p);
      ChunkFacts(a, p);
      TopIn(a);
      Chunk(a, a.top);
      Ordered(a, p, a.top);
      forall u | u in rest ensures u + rest[u] <= p || p + nb <= u {
        assert u in Blocks() && Blocks()[u] == rest[u];
        UsedApart(a, u, p);
      }
      WasRoom(rest, base, end0, p, nb, more);
    }

    /** The rest of `mALLOc`, when the request has been padded. */
    method Allocate(nb: uint32, more: nat) returns (mem: int, ghost how: How, ghost at: Snapshot)
      requires Valid() && Granted(more) && Request(nb)
      modifies this
      ensures Valid() && Served(old(Blocks()), Blocks(), old(Now()), mem, how, at, nb, more)
      ensures Leaves(old(Now()), mem, how, at, nb, more)
      decreases fastchunks, 2
    {
      hide Core; hide Live; hide Frees; hide Used; hide Tags; hide NoFit; hide NoneBelow; hide SizeAt;
      hide Consolidated; hide SearchedIn; hide BestFit; hide TopRoom; hide Trail; hide Flat;
      at := Now();
      ghost var was, before := Now(), Blocks();
      TopThere();
      SoundSize();
      if !fastchunks {
        NowConsolidated(Now());
      }
      if !anychunks {
        EmptyNoFit(nb);
        mem, how, at := UseTop(nb, more, was);
        return;
      }
      if nb <= MAX_FAST {
        var p := TakeFast(nb);
        if p != 0 {
          ServedAtOnce(before, was, nb, p);
          return p + 2 * SIZE_SZ, FromFast, at;
        }
      }
      if nb < MIN_LARGE_SIZE {
        var p := TakeSmall(nb);
        if p != 0 {
          ServedAtOnce(before, was, nb, p);
          return p + 2 * SIZE_SZ, Fit, at;
        }
        mem, how, at := Search(nb, more);
      } else {
        if fastchunks {
          Consolidate();
          SoundSize();
          NowConsolidated(was);
        }
        ghost var mid := Now();
        NoFastHit(mid, nb);
        NoFastHit(was, nb);
        LargeSearched(before, was, mid, nb);
        mem, how, at := Search(nb, more);
        ServedLater(before, Blocks(), was, mid, mem, how, at, nb, more);
      }
    }

    /** The part of `mALLOc` after the quick checks. */
    method Search(nb: uint32, more: nat) returns (mem: int, ghost how: How, ghost at: Snapshot)
      requires Valid() && anychunks && Request(nb) && Granted(more) && |bins| == NBINS && !FastHit(Now(), nb)
      requires if nb < MIN_LARGE_SIZE then bins[nb / 8] == [] else !fastchunks
      modifies this
      ensures Valid() && Served(old(Blocks()), Blocks(), old(Now()), mem, how, at, nb, more)
      ensures Leaves(old(Now()), mem, how, at, nb, more)
      decreases fastchunks, 2, 0
    {
      hide Core; hide Live; hide Frees; hide Used; hide Tags; hide NoFit; hide NoneBelow; hide BinIndex; hide Shortcut;
      hide FastHit; hide Consolidated; hide AllEmpty; hide SearchedIn;
      at := Now();
      ghost var before := Blocks();
      TopThere();
      if !fastchunks {
        NowConsolidated(Now());
      }
      var p, found := DrainUnsorted(nb);
      how := found;
      if p != 0 {
        ServedAtOnce(before, at, nb, p);
        return p + 2 * SIZE_SZ, how, at;
      }
      if nb >= MIN_LARGE_SIZE {
        p := ScanLarge(nb);
        if p != 0 {
          ServedAtOnce(before, at, nb, p);
          return p + 2 * SIZE_SZ, Fit, at;
        }
      } else {
        SmallSearch(nb);
      }
      SoundSize();
      p := TakeHigher(nb);
      if p != 0 {
        ServedAtOnce(before, at, nb, p);
        return p + 2 * SIZE_SZ, Fit, at;
      }
      mem, how, at := UseTop(nb, more, at);
    }

    lemma SmallSearch(nb: nat)
      requires Sound() && |bins| == NBINS && bins[1] == [] && MINSIZE <= nb < MIN_LARGE_SIZE && nb % 8 == 0
      requires bins[nb / 8] == []
      ensures NoneBelow(bins, Frees(A()), nb, BinIndex(nb) + 1)
    {
      hide Tags; hide Covers; hide Binned; hide NoneBelow; hide BinIndex;
      SmallNone(bins, Frees(A()), nb);
    }

    lemma EmptyNoFit(nb: nat)
      requires Sound() && AllEmpty(bins)
      ensures NoFit(Frees(A()), nb)
    {
      hide Tags; hide Covers; hide Binned; hide Frees; hide Used;
      EmptyFrees(bins, Frees(A()));
    }
  }
}
