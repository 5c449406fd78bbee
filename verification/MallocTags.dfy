/**
  The boundary tags of the allocator (shared/malloc.c.h): the `size` field of every chunk with its
  PREV_INUSE bit, the `prev_size` footers, and what splitting and merging does to them.

  `starts` is the set of addresses where a chunk begins; `top` is the chunk that borders the end
  of memory.  Sizes are multiples of 8, so the flag bit of a size field is kept beside the size.
*/
module MallocTags {
  import opened MallocIndex

  datatype Head = Head(sz: nat, pinuse: bool)

  datatype Arena = Arena(head: map<int, Head>, foot: map<int, int>, starts: set<int>, base: int, top: int, end: int)

  /** Chunk p is free: the PREV_INUSE bit of the chunk that follows is clear. */
  predicate IsFree(a: Arena, p: int) {
    p != a.top && p in a.head && p + a.head[p].sz in a.head && !a.head[p + a.head[p].sz].pinuse
  }

  /** The local checks on one chunk. */
  predicate ChunkOk(a: Arena, p: int) {
    && p in a.head && a.base <= p <= a.top && p % 8 == 0 && a.head[p].sz % 8 == 0
    && (p == a.base ==> a.head[p].pinuse)
    && (p == a.top ==> a.head[p].pinuse && p + a.head[p].sz == a.end)
    && (p != a.top ==>
          var n := p + a.head[p].sz;
          && MINSIZE <= a.head[p].sz && n in a.starts && n in a.head
          && (!a.head[n].pinuse ==> a.head[p].pinuse && n != a.top && n in a.foot && a.foot[n] == a.head[p].sz))
    && (!a.head[p].pinuse ==>
          && p in a.foot && p - a.foot[p] in a.starts && p - a.foot[p] in a.head
          && a.foot[p] > 0 && a.head[p - a.foot[p]].sz == a.foot[p])
  }

  predicate Apart(a: Arena, p: int, q: int) {
    p in a.head && p < q ==> p + a.head[p].sz <= q
  }

  /** Chunks tile [base, end), in-use bits and footers agree with the neighbours, no free chunk
      touches another free chunk or top. */
  ghost predicate Tags(a: Arena) {
    && a.base in a.starts && a.top in a.starts
    && (forall p {:trigger ChunkOk(a, p)} :: p in a.starts ==> ChunkOk(a, p))
    && (forall p, q {:trigger Apart(a, p, q)} :: p in a.starts && q in a.starts ==> Apart(a, p, q))
  }

  ghost function Frees(a: Arena): map<int, nat> {
    map p | p in a.starts && IsFree(a, p) :: a.head[p].sz
  }

  ghost function Used(a: Arena): map<int, nat> {
    map p | p in a.starts && p != a.top && p in a.head && !IsFree(a, p) :: a.head[p].sz
  }

  /** Distinct chunks end at different places. */
  lemma NextDistinct(a: Arena, p: int, q: int)
    requires Tags(a) && p in a.starts && q in a.starts && p != q && p != a.top && q != a.top
    ensures p in a.head && q in a.head && p + a.head[p].sz != q + a.head[q].sz
  {
    assert ChunkOk(a, p) && ChunkOk(a, q);
    assert Apart(a, p, q) && Apart(a, q, p);
  }

  /** Chunk x is the same in a and b. */
  predicate Same(a: Arena, b: Arena, x: int) {
    && x in a.head && x in b.head && a.head[x].sz == b.head[x].sz
    && (IsFree(a, x) <==> IsFree(b, x)) && (x == a.top <==> x == b.top)
  }

  // ----- allocation -----

  /** The whole of the free chunk p becomes used. */
  function Take(a: Arena, p: int): Arena
    requires IsFree(a, p)
  {
    var n := p + a.head[p].sz;
    a.(head := a.head[n := a.head[n].(pinuse := true)])
  }

  lemma TakeChunk(a: Arena, p: int, x: int)
    requires Tags(a) && p in a.starts && IsFree(a, p) && x in a.starts
    ensures ChunkOk(Take(a, p), x) && (x != p ==> Same(a, Take(a, p), x))
  {
    hide Tags;
    Chunk(a, p);
    Chunk(a, x);
    if x != p && x != a.top {
      NextDistinct(a, p, x);
    }
  }

  lemma TakeApart(a: Arena, p: int, x: int, y: int)
    requires Tags(a) && IsFree(a, p) && x in a.starts && y in a.starts
    ensures Apart(Take(a, p), x, y)
  {
    hide Tags;
    Ordered(a, x, y);
  }

  lemma Chunk(a: Arena, x: int)
    requires Tags(a) && x in a.starts
    ensures ChunkOk(a, x)
  {
    hide ChunkOk; hide Apart;
  }

  lemma Ordered(a: Arena, x: int, y: int)
    requires Tags(a) && x in a.starts && y in a.starts
    ensures x in a.head && (x < y ==> x + a.head[x].sz <= y)
  {
    Chunk(a, x);
    assert Apart(a, x, y);
  }

  lemma TakeTags(a: Arena, p: int)
    requires Tags(a) && p in a.starts && IsFree(a, p)
    ensures Tags(Take(a, p))
    ensures Frees(Take(a, p)) == Frees(a) - {p} && Used(Take(a, p)) == Used(a)[p := a.head[p].sz]
  {
    hide ChunkOk; hide Apart;
    ChunkFacts(a, p);
    var b := Take(a, p);
    forall x | x in b.starts ensures ChunkOk(b, x) && (x != p ==> Same(a, b, x)) {
      TakeChunk(a, p, x);
    }
    forall x, y | x in b.starts && y in b.starts ensures Apart(b, x, y) {
      TakeApart(a, p, x, y);
    }
    assert b.head[p] == a.head[p] && !IsFree(b, p);
  }

  /** The free chunk p is split: its lower nb bytes become used, the rest stays free. */
  function Split(a: Arena, p: int, nb: nat): Arena
    requires IsFree(a, p) && nb <= a.head[p].sz
  {
    var rest := a.head[p].sz - nb;
    a.(head := a.head[p := Head(nb, true)][p + nb := Head(rest, true)],
       foot := a.foot[p + nb + rest := rest], starts := a.starts + {p + nb})
  }

  predicate Splits(a: Arena, p: int, nb: nat) {
    IsFree(a, p) && nb % 8 == 0 && MINSIZE <= nb && nb + MINSIZE <= a.head[p].sz
  }

  lemma SplitNew(a: Arena, p: int, nb: nat)
    requires Tags(a) && p in a.starts && Splits(a, p, nb)
    ensures p + nb !in a.starts
  {
    if p + nb in a.starts {
      Ordered(a, p, p + nb);
    }
  }

  lemma SplitChunk(a: Arena, p: int, nb: nat, x: int)
    requires Tags(a) && p in a.starts && Splits(a, p, nb) && x in a.starts + {p + nb}
    ensures ChunkOk(Split(a, p, nb), x) && (x != p && x != p + nb ==> Same(a, Split(a, p, nb), x))
  {
    hide Tags;
    SplitNew(a, p, nb);
    Chunk(a, p);
    Chunk(a, p + a.head[p].sz);
    if x != p + nb {
      Chunk(a, x);
      if x != p && x != a.top {
        NextDistinct(a, p, x);
        Ordered(a, x, p);
        Ordered(a, p, x);
      }
    }
  }

  lemma SplitApart(a: Arena, p: int, nb: nat, x: int, y: int)
    requires Tags(a) && p in a.starts && Splits(a, p, nb) && x in a.starts + {p + nb} && y in a.starts + {p + nb}
    ensures Apart(Split(a, p, nb), x, y)
  {
    hide Tags;
    SplitNew(a, p, nb);
    if x != p + nb {
      Ordered(a, x, p);
      Ordered(a, p, x);
      if y != p + nb {
        Ordered(a, x, y);
      }
    }
    if y != p + nb {
      Ordered(a, p, y);
    }
  }

  lemma SplitTags(a: Arena, p: int, nb: nat)
    requires Tags(a) && p in a.starts && Splits(a, p, nb)
    ensures Tags(Split(a, p, nb)) && p + nb !in a.starts
    ensures Frees(Split(a, p, nb)) == (Frees(a) - {p})[p + nb := a.head[p].sz - nb]
    ensures Used(Split(a, p, nb)) == Used(a)[p := nb]
  {
    hide ChunkOk; hide Apart; hide Frees; hide Used; hide Same;
    SplitNew(a, p, nb);
    ChunkFacts(a, p);
    var b := Split(a, p, nb);
    forall x | x in b.starts ensures ChunkOk(b, x) && (x != p && x != p + nb ==> Same(a, b, x)) {
      SplitChunk(a, p, nb, x);
    }
    forall x, y | x in b.starts && y in b.starts ensures Apart(b, x, y) {
      SplitApart(a, p, nb, x, y);
    }
    SplitMaps(a, p, nb);
  }

  /** Which chunks are free and used after a split. */
  lemma SplitMaps(a: Arena, p: int, nb: nat)
    requires Splits(a, p, nb) && p in a.starts && p + nb !in a.starts && a.top in a.starts
    requires var b := Split(a, p, nb); forall x :: x in a.starts && x != p ==> Same(a, b, x)
    ensures Frees(Split(a, p, nb)) == (Frees(a) - {p})[p + nb := a.head[p].sz - nb]
    ensures Used(Split(a, p, nb)) == Used(a)[p := nb]
  {
    var b := Split(a, p, nb);
    assert !IsFree(b, p) && IsFree(b, p + nb);
  }

  lemma ChunkFacts(a: Arena, p: int)
    requires Tags(a) && p in a.starts
    ensures p in a.head && a.base <= p <= a.top && p % 8 == 0 && a.head[p].sz % 8 == 0
    ensures p != a.top ==>
      p < a.top && p + a.head[p].sz in a.starts && p + a.head[p].sz in a.head && MINSIZE <= a.head[p].sz
  {
    Chunk(a, p);
  }

  /** The lower nb bytes of top become used. */
  function SplitTop(a: Arena, nb: nat): Arena
    requires a.top in a.head && nb <= a.head[a.top].sz
  {
    var rest := a.head[a.top].sz - nb;
    a.(head := a.head[a.top := Head(nb, true)][a.top + nb := Head(rest, true)],
       starts := a.starts + {a.top + nb}, top := a.top + nb)
  }

  lemma SplitTopChunk(a: Arena, nb: nat, x: int)
    requires Tags(a) && a.top in a.head && nb % 8 == 0 && MINSIZE <= nb <= a.head[a.top].sz
    requires x in a.starts + {a.top + nb}
    ensures ChunkOk(SplitTop(a, nb), x) && (x != a.top && x != a.top + nb ==> Same(a, SplitTop(a, nb), x))
    ensures x in a.starts ==> x <= a.top
  {
    hide Tags;
    TopIn(a);
    Chunk(a, a.top);
    if x in a.starts {
      Chunk(a, x);
      Ordered(a, x, a.top);
    }
  }

  lemma TopIn(a: Arena)
    requires Tags(a)
    ensures a.top in a.starts && a.base in a.starts
  {
  }

  lemma SplitTopApart(a: Arena, nb: nat, x: int, y: int)
    requires Tags(a) && a.top in a.head && nb % 8 == 0 && MINSIZE <= nb <= a.head[a.top].sz
    requires x in a.starts + {a.top + nb} && y in a.starts + {a.top + nb}
    ensures Apart(SplitTop(a, nb), x, y)
  {
    hide Tags;
    TopIn(a);
    if x in a.starts {
      ChunkFacts(a, x);
      Ordered(a, x, a.top);
      if y in a.starts {
        Ordered(a, x, y);
        ChunkFacts(a, y);
      }
    } else if y in a.starts {
      ChunkFacts(a, y);
    }
  }

  lemma SplitTopTags(a: Arena, nb: nat)
    requires Tags(a) && a.top in a.head && nb % 8 == 0 && MINSIZE <= nb <= a.head[a.top].sz
    ensures Tags(SplitTop(a, nb))
    ensures Frees(SplitTop(a, nb)) == Frees(a) && Used(SplitTop(a, nb)) == Used(a)[a.top := nb]
  {
    hide ChunkOk; hide Apart;
    var b := SplitTop(a, nb);
    forall x | x in b.starts
      ensures ChunkOk(b, x) && (x != a.top && x != a.top + nb ==> Same(a, b, x)) && (x in a.starts ==> x <= a.top)
    {
      SplitTopChunk(a, nb, x);
    }
    forall x, y | x in b.starts && y in b.starts ensures Apart(b, x, y) {
      SplitTopApart(a, nb, x, y);
    }
    ChunkFacts(a, a.top);
    ChunkFacts(b, a.base);
  }

  /** Memory obtained from the system extends top. */
  function Grow(a: Arena, more: nat): Arena
    requires a.top in a.head
  {
    a.(head := a.head[a.top := Head(a.head[a.top].sz + more, true)], end := a.end + more)
  }

  lemma GrowChunk(a: Arena, more: nat, x: int)
    requires Tags(a) && a.top in a.head && more % 8 == 0 && x in a.starts
    ensures ChunkOk(Grow(a, more), x) && (x != a.top ==> Same(a, Grow(a, more), x))
  {
    hide Tags;
    TopIn(a);
    Chunk(a, a.top);
    Chunk(a, x);
  }

  lemma GrowTags(a: Arena, more: nat)
    requires Tags(a) && a.top in a.head && more % 8 == 0
    ensures Tags(Grow(a, more)) && Frees(Grow(a, more)) == Frees(a) && Used(Grow(a, more)) == Used(a)
  {
    hide ChunkOk;
    var b := Grow(a, more);
    forall x | x in b.starts ensures ChunkOk(b, x) && (x != a.top ==> Same(a, b, x)) {
      GrowChunk(a, more, x);
    }
    forall x, y | x in b.starts && y in b.starts ensures Apart(b, x, y) {
      Ordered(a, x, y);
      ChunkFacts(a, y);
    }
  }

  // ----- release -----

  predicate IsUsed(a: Arena, p: int) { p in a.starts && p != a.top && !IsFree(a, p) }

  /** The used chunk p joins the free chunk before it, which the footer of p locates. */
  function MergeBack(a: Arena, p: int): Arena
    requires p in a.head && p in a.foot && p - a.foot[p] in a.head
  {
    var q := p - a.foot[p];
    a.(head := a.head[q := Head(a.head[q].sz + a.head[p].sz, true)], starts := a.starts - {p})
  }

  /** A clear PREV_INUSE bit leads to the free chunk before. */
  lemma Previous(a: Arena, p: int)
    requires Tags(a) && p in a.starts && p in a.head && !a.head[p].pinuse
    ensures p in a.foot && p - a.foot[p] in a.starts && p - a.foot[p] in a.head && IsFree(a, p - a.foot[p])
    ensures var q := p - a.foot[p]; q < p <= a.top && a.head[q].pinuse && q + a.head[q].sz == p
  {
    Chunk(a, p);
    Chunk(a, p - a.foot[p]);
  }

  lemma MergeBackChunk(a: Arena, p: int, x: int)
    requires Tags(a) && IsUsed(a, p) && p in a.head && !a.head[p].pinuse && x in a.starts && x != p
    ensures p in a.foot && p - a.foot[p] in a.head
    ensures ChunkOk(MergeBack(a, p), x) && (x != p - a.foot[p] ==> Same(a, MergeBack(a, p), x))
  {
    hide Tags;
    Previous(a, p);
    var q := p - a.foot[p];
    Chunk(a, p);
    Chunk(a, q);
    Chunk(a, x);
    if x != a.top && x != q {
      NextDistinct(a, q, x);
      Ordered(a, x, q);
      Ordered(a, q, x);
    }
    if !a.head[x].pinuse {
      Previous(a, x);
    }
  }

  lemma MergeBackApart(a: Arena, p: int, x: int, y: int)
    requires Tags(a) && IsUsed(a, p) && p in a.head && !a.head[p].pinuse
    requires x in a.starts && y in a.starts && x != p && y != p
    ensures p in a.foot && p - a.foot[p] in a.head && Apart(MergeBack(a, p), x, y)
  {
    hide Tags;
    Previous(a, p);
    Ordered(a, x, y);
    Ordered(a, p, y);
  }

  lemma MergeBackTags(a: Arena, p: int)
    requires Tags(a) && IsUsed(a, p) && p in a.head && !a.head[p].pinuse
    ensures p in a.foot && p - a.foot[p] in a.head
    ensures var q := p - a.foot[p]; var b := MergeBack(a, p);
      && Tags(b) && IsUsed(b, q) && b.head[q].pinuse && q in Frees(a) && q !in Used(a) && Frees(a)[q] == a.foot[p]
      && Frees(b) == Frees(a) - {q} && Used(b) == (Used(a) - {p})[q := a.foot[p] + a.head[p].sz]
  {
    hide ChunkOk; hide Apart;
    Previous(a, p);
    var q := p - a.foot[p];
    var b := MergeBack(a, p);
    ChunkFacts(a, p);
    TopIn(a);
    BasePinuse(a);
    forall x | x in b.starts ensures ChunkOk(b, x) && (x != q ==> Same(a, b, x)) {
      MergeBackChunk(a, p, x);
    }
    forall x, y | x in b.starts && y in b.starts ensures Apart(b, x, y) {
      MergeBackApart(a, p, x, y);
    }
    assert !IsFree(b, q);
  }

  lemma BasePinuse(a: Arena)
    requires Tags(a)
    ensures a.base in a.head && a.head[a.base].pinuse && a.top in a.head && a.head[a.top].pinuse
  {
    hide Apart;
    assert ChunkOk(a, a.base) && ChunkOk(a, a.top);
  }

  /** What the PREV_INUSE bit of the next chunk says about p. */
  lemma InuseBit(a: Arena, p: int)
    requires Tags(a) && p in a.starts && p != a.top
    ensures p in a.head && p + a.head[p].sz in a.head && (IsFree(a, p) <==> !a.head[p + a.head[p].sz].pinuse)
    ensures p in Frees(a) <==> IsFree(a, p)
    ensures IsFree(a, p) ==> Frees(a)[p] == a.head[p].sz
  {
    Chunk(a, p);
  }

  lemma FreeFacts(a: Arena, p: int)
    requires p in Frees(a)
    ensures p in a.starts && p in a.head && p != a.top && IsFree(a, p) && Frees(a)[p] == a.head[p].sz
  {
  }

  lemma NotUsed(a: Arena, p: int)
    requires IsFree(a, p)
    ensures p !in Used(a)
  {
  }

  lemma NotFree(a: Arena, p: int)
    requires p !in a.starts
    ensures p !in Frees(a) && p !in Used(a)
  {
  }

  /** The used chunk p becomes free; the chunk after it is used. */
  function Release(a: Arena, p: int): Arena
    requires p in a.head && p + a.head[p].sz in a.head
  {
    var n := p + a.head[p].sz;
    a.(head := a.head[n := a.head[n].(pinuse := false)], foot := a.foot[n := a.head[p].sz])
  }

  predicate Releasable(a: Arena, p: int) {
    IsUsed(a, p) && p in a.head && a.head[p].pinuse && p + a.head[p].sz in a.head
  }

  lemma ReleaseChunk(a: Arena, p: int, x: int)
    requires Tags(a) && Releasable(a, p) && IsUsed(a, p + a.head[p].sz) && x in a.starts
    ensures ChunkOk(Release(a, p), x) && (x != p ==> Same(a, Release(a, p), x))
  {
    hide Tags;
    Chunk(a, p);
    Chunk(a, p + a.head[p].sz);
    Chunk(a, x);
    if x != p && x != a.top {
      NextDistinct(a, p, x);
    }
    Ordered(a, p, x);
    BasePinuse(a);
  }

  lemma ReleaseTags(a: Arena, p: int)
    requires Tags(a) && Releasable(a, p) && IsUsed(a, p + a.head[p].sz)
    ensures Tags(Release(a, p))
    ensures Frees(Release(a, p)) == Frees(a)[p := a.head[p].sz] && Used(Release(a, p)) == Used(a) - {p}
  {
    hide ChunkOk; hide Apart;
    var b := Release(a, p);
    ChunkFacts(a, p);
    forall x | x in b.starts ensures ChunkOk(b, x) && (x != p ==> Same(a, b, x)) {
      ReleaseChunk(a, p, x);
    }
    forall x, y | x in b.starts && y in b.starts ensures Apart(b, x, y) {
      ReleaseApart(a, p, x, y);
    }
    assert b.head[p] == a.head[p] && IsFree(b, p);
  }

  lemma ReleaseApart(a: Arena, p: int, x: int, y: int)
    requires Tags(a) && Releasable(a, p) && x in a.starts && y in a.starts
    ensures Apart(Release(a, p), x, y)
  {
    hide Tags;
    Ordered(a, x, y);
  }

  /** The used chunk p becomes free together with the free chunk after it. */
  function MergeNext(a: Arena, p: int): Arena
    requires p in a.head && p + a.head[p].sz in a.head
  {
    var n := p + a.head[p].sz;
    var total := a.head[p].sz + a.head[n].sz;
    a.(head := a.head[p := Head(total, true)], foot := a.foot[p + total := total], starts := a.starts - {n})
  }

  lemma MergeNextChunk(a: Arena, p: int, x: int)
    requires Tags(a) && Releasable(a, p) && IsFree(a, p + a.head[p].sz) && x in a.starts && x != p + a.head[p].sz
    ensures ChunkOk(MergeNext(a, p), x) && (x != p ==> Same(a, MergeNext(a, p), x))
  {
    hide Tags;
    var n := p + a.head[p].sz;
    Chunk(a, p);
    Chunk(a, n);
    Chunk(a, n + a.head[n].sz);
    Chunk(a, x);
    if x != p && x != a.top {
      NextDistinct(a, p, x);
      NextDistinct(a, n, x);
    }
    Ordered(a, n, x);
    Ordered(a, p, x);
    Ordered(a, x, p);
    if !a.head[x].pinuse {
      Previous(a, x);
    }
  }

  lemma MergeNextApart(a: Arena, p: int, x: int, y: int)
    requires Tags(a) && Releasable(a, p) && IsFree(a, p + a.head[p].sz) && x in a.starts && y in a.starts
    requires x != p + a.head[p].sz && y != p + a.head[p].sz
    ensures Apart(MergeNext(a, p), x, y)
  {
    hide Tags;
    ChunkFacts(a, p);
    Ordered(a, x, y);
    Ordered(a, p, y);
    Ordered(a, p + a.head[p].sz, y);
  }

  lemma MergeNextTags(a: Arena, p: int)
    requires Tags(a) && Releasable(a, p) && IsFree(a, p + a.head[p].sz)
    ensures var n := p + a.head[p].sz; var b := MergeNext(a, p);
      && Tags(b) && n in Frees(a) && Frees(a)[n] == a.head[n].sz
      && Frees(b) == (Frees(a) - {n})[p := a.head[p].sz + a.head[n].sz] && Used(b) == Used(a) - {p}
  {
    hide ChunkOk; hide Apart;
    var n := p + a.head[p].sz;
    var b := MergeNext(a, p);
    ChunkFacts(a, p);
    ChunkFacts(a, n);
    TopIn(a);
    forall x | x in b.starts ensures ChunkOk(b, x) && (x != p ==> Same(a, b, x)) {
      MergeNextChunk(a, p, x);
    }
    forall x, y | x in b.starts && y in b.starts ensures Apart(b, x, y) {
      MergeNextApart(a, p, x, y);
    }
    Ordered(a, p, n + a.head[n].sz);
    assert IsFree(b, p);
  }

  /** The used chunk p borders top and becomes part of it. */
  function MergeTop(a: Arena, p: int): Arena
    requires p in a.head && a.top in a.head
  {
    a.(head := a.head[p := Head(a.head[p].sz + a.head[a.top].sz, true)], starts := a.starts - {a.top}, top := p)
  }

  lemma MergeTopChunk(a: Arena, p: int, x: int)
    requires Tags(a) && Releasable(a, p) && p + a.head[p].sz == a.top && x in a.starts && x != a.top
    ensures a.top in a.head && ChunkOk(MergeTop(a, p), x) && (x != p ==> Same(a, MergeTop(a, p), x))
  {
    hide Tags;
    TopIn(a);
    Chunk(a, p);
    Chunk(a, a.top);
    Chunk(a, x);
    if x != p {
      NextDistinct(a, p, x);
    }
    Ordered(a, p, x);
    Ordered(a, x, p);
    if !a.head[x].pinuse {
      Previous(a, x);
    }
  }

  lemma MergeTopTags(a: Arena, p: int)
    requires Tags(a) && Releasable(a, p) && p + a.head[p].sz == a.top
    ensures Tags(MergeTop(a, p)) && Frees(MergeTop(a, p)) == Frees(a) && Used(MergeTop(a, p)) == Used(a) - {p}
  {
    hide ChunkOk; hide Apart;
    var b := MergeTop(a, p);
    ChunkFacts(a, p);
    TopIn(a);
    forall x | x in b.starts ensures ChunkOk(b, x) && (x != p ==> Same(a, b, x)) {
      MergeTopChunk(a, p, x);
    }
    forall x, y | x in b.starts && y in b.starts ensures Apart(b, x, y) {
      MergeTopApart(a, p, x, y);
    }
    ChunkFacts(a, a.base);
  }

  lemma MergeTopApart(a: Arena, p: int, x: int, y: int)
    requires Tags(a) && Releasable(a, p) && p + a.head[p].sz == a.top && x in a.starts && y in a.starts
    requires x != a.top && y != a.top
    ensures Apart(MergeTop(a, p), x, y)
  {
    hide Tags;
    Ordered(a, x, y);
    Ordered(a, p, y);
    ChunkFacts(a, y);
  }

  /** Only the tags of chunks matter: memory inside a chunk is not looked at. */
  lemma SameTags(a: Arena, b: Arena)
    requires Tags(a) && b.starts == a.starts && b.base == a.base && b.top == a.top && b.end == a.end
    requires forall x :: x in a.starts && x in a.head ==> x in b.head && b.head[x] == a.head[x]
    requires forall x :: x in a.starts && x in a.foot ==> x in b.foot && b.foot[x] == a.foot[x]
    ensures Tags(b) && Frees(b) == Frees(a) && Used(b) == Used(a)
  {
    hide Apart; hide ChunkOk;
    forall x | x in b.starts ensures ChunkOk(b, x) && Same(a, b, x) {
      SameChunk(a, b, x);
    }
    forall x, y | x in b.starts && y in b.starts ensures Apart(b, x, y) {
      ChunkFacts(a, x);
      SameApart(a, b, x, y);
    }
  }

  lemma SameChunk(a: Arena, b: Arena, x: int)
    requires Tags(a) && b.starts == a.starts && b.base == a.base && b.top == a.top && b.end == a.end && x in a.starts
    requires forall x :: x in a.starts && x in a.head ==> x in b.head && b.head[x] == a.head[x]
    requires forall x :: x in a.starts && x in a.foot ==> x in b.foot && b.foot[x] == a.foot[x]
    ensures ChunkOk(b, x) && Same(a, b, x)
  {
    hide Tags;
    Chunk(a, x);
    if x != a.top {
      Chunk(a, x + a.head[x].sz);
    }
    if !a.head[x].pinuse {
      Previous(a, x);
    }
  }

  lemma SameApart(a: Arena, b: Arena, x: int, y: int)
    requires Tags(a) && x in a.starts && y in a.starts && x in a.head && x in b.head && b.head[x] == a.head[x]
    ensures Apart(b, x, y)
  {
    hide Tags;
    Ordered(a, x, y);
  }

  // ----- what the tags mean -----

  predicate InChunk(a: Arena, p: int, x: int) { p in a.head && p <= x < p + a.head[p].sz }

  /** Chunks tile the arena: every address of [base, end) lies in exactly one chunk. */
  lemma Tiling(a: Arena, x: int)
    requires Tags(a) && a.base <= x < a.end
    ensures exists p :: p in a.starts && InChunk(a, p, x)
    ensures forall p, q :: p in a.starts && q in a.starts && InChunk(a, p, x) && InChunk(a, q, x) ==> p == q
  {
    hide Tags; hide ChunkOk;
    TopIn(a);
    var p := FindChunk(a, a.base, x);
    forall p, q | p in a.starts && q in a.starts && InChunk(a, p, x) && InChunk(a, q, x) ensures p == q {
      Ordered(a, p, q);
      Ordered(a, q, p);
    }
  }

  lemma {:induction false} FindChunk(a: Arena, from: int, x: int) returns (p: int)
    requires Tags(a) && from in a.starts && from <= x < a.end
    ensures p in a.starts && InChunk(a, p, x)
    decreases a.end - from
  {
    hide Tags;
    Chunk(a, from);
    if x < from + a.head[from].sz {
      p := from;
    } else {
      p := FindChunk(a, from + a.head[from].sz, x);
    }
  }

  /** The memory handed to the caller for a used chunk: from after its size field up to the size
      field of the next chunk. */
  predicate UserByte(p: int, sz: int, x: int) { p + 2 * SIZE_SZ <= x < p + sz + SIZE_SZ }

  predicate SizeByte(p: int, x: int) { p + SIZE_SZ <= x < p + 2 * SIZE_SZ }

  /** User memory of used chunks is disjoint, inside the arena, and holds no size field of any
      chunk and no footer that is in use. */
  lemma UsedBytes(a: Arena, p: int, x: int)
    requires Tags(a) && p in Used(a) && UserByte(p, Used(a)[p], x)
    ensures a.base <= x < a.top + SIZE_SZ
    ensures forall q :: q in Used(a) && q != p ==> !UserByte(q, Used(a)[q], x)
    ensures forall q :: q in a.starts ==> !SizeByte(q, x)
    ensures forall q :: q in a.starts && q in a.head && !a.head[q].pinuse ==> !(q <= x < q + SIZE_SZ)
  {
    hide Tags; hide ChunkOk; hide IsFree;
    UsedFacts(a, p);
    forall q | q in Used(a) && q != p ensures !UserByte(q, Used(a)[q], x) {
      UsedFacts(a, q);
      Ordered(a, p, q);
      Ordered(a, q, p);
    }
    forall q | q in a.starts ensures !SizeByte(q, x) {
      Ordered(a, p, q);
      Ordered(a, q, p);
    }
    forall q | q in a.starts && q in a.head && !a.head[q].pinuse ensures !(q <= x < q + SIZE_SZ) {
      Ordered(a, p, q);
      Ordered(a, q, p);
      ChunkFacts(a, q);
      Ordered(a, p + a.head[p].sz, q);
      ChunkFacts(a, p + a.head[p].sz);
    }
  }

  lemma UsedFacts(a: Arena, p: int)
    requires Tags(a) && p in Used(a)
    ensures p in a.starts && p in a.head && Used(a)[p] == a.head[p].sz && MINSIZE <= a.head[p].sz
    ensures var n := p + a.head[p].sz; n in a.starts && n in a.head && a.head[n].pinuse && a.base <= p < n <= a.top
  {
    Chunk(a, p);
    Chunk(a, p + a.head[p].sz);
  }
}
