/**
  What boundary tags come to when no fast chunk is left: the free chunks are the gaps between the
  blocks of the program, and top is what lies behind the last one.  So whether a request can be
  served depends on the blocks and the two ends of memory alone.
*/
module MallocGaps {
  import opened MallocIndex
  import opened MallocTags
  import opened MallocBins

  predicate EndsAt(blocks: map<int, nat>, u: int, p: int) { u in blocks && u + blocks[u] == p }

  /** p is where memory begins or where a block ends. */
  ghost predicate Edge(blocks: map<int, nat>, base: int, p: int) {
    p == base || exists u :: EndsAt(blocks, u, p)
  }

  /** The sz bytes from p on lie between two blocks, or between the base and the first one. */
  ghost predicate Gap(blocks: map<int, nat>, base: int, p: int, sz: int) {
    && sz > 0 && Edge(blocks, base, p) && p + sz in blocks
    && forall u :: u in blocks ==> u + blocks[u] <= p || p + sz <= u
  }

  /** p is where the last block ends, or the base if there is none. */
  ghost predicate Tail(blocks: map<int, nat>, base: int, p: int) {
    Edge(blocks, base, p) && forall u :: u in blocks ==> u + blocks[u] <= p
  }

  /** A request for nb bytes fits into a gap, or behind the last block together with the smallest
      chunk, if the system adds `more` bytes. */
  ghost predicate HasRoom(blocks: map<int, nat>, base: int, end: int, nb: nat, more: nat) {
    || (exists p, sz :: Gap(blocks, base, p, sz) && sz >= nb)
    || (exists p :: Tail(blocks, base, p) && end + more - p >= nb + MINSIZE)
  }

  lemma EdgeAt(blocks: map<int, nat>, base: int, u: int)
    requires u in blocks
    ensures Edge(blocks, base, u + blocks[u])
  {
    assert EndsAt(blocks, u, u + blocks[u]);
  }

  lemma EdgeMore(less: map<int, nat>, more: map<int, nat>, base: int, p: int)
    requires Edge(less, base, p) && forall u :: u in less ==> u in more && more[u] == less[u]
    ensures Edge(more, base, p)
  {
    if p != base {
      var u :| EndsAt(less, u, p);
      EdgeAt(more, base, u);
    }
  }

  lemma EdgeBase(blocks: map<int, nat>, base: int)
    ensures Edge(blocks, base, base)
  {
  }

  // ----- free chunks are gaps -----

  /** Behind which block a chunk begins whose predecessor is in use. */
  lemma UsedBefore(a: Arena, p: int)
    requires Tags(a) && p in a.starts && p in a.head && a.head[p].pinuse
    ensures Edge(Used(a), a.base, p)
  {
    hide Tags;
    ChunkFacts(a, p);
    TopIn(a);
    Chunk(a, a.top);
    if p != a.base {
      var q := FindChunk(a, a.base, p - 1);
      Ordered(a, q, p);
      assert q + a.head[q].sz == p;
      InUsed(a, q);
      EdgeAt(Used(a), a.base, q);
    }
  }

  lemma InUsed(a: Arena, q: int)
    requires IsUsed(a, q) && q in a.head
    ensures q in Used(a) && Used(a)[q] == a.head[q].sz
  {
  }

  lemma EdgeStarts(a: Arena, p: int)
    requires Tags(a) && Edge(Used(a), a.base, p)
    ensures p in a.starts
  {
    if p != a.base {
      var u :| EndsAt(Used(a), u, p);
      UsedFacts(a, u);
      ChunkFacts(a, u);
    }
  }

  /** A free chunk lies between two used ones. */
  lemma FreeBetween(a: Arena, p: int)
    requires Tags(a) && p in a.starts && IsFree(a, p)
    ensures Edge(Used(a), a.base, p) && p + a.head[p].sz in Used(a) && a.head[p].sz >= MINSIZE
  {
    hide Tags; hide Used; hide Edge;
    Chunk(a, p);
    UsedBefore(a, p);
    var n := p + a.head[p].sz;
    Chunk(a, n);
    InUsed(a, n);
  }

  lemma UsedApart(a: Arena, u: int, p: int)
    requires Tags(a) && u in Used(a) && p in a.starts
    ensures p in a.head && Used(a)[u] > 0 && (u < p ==> u + Used(a)[u] <= p) && (p < u ==> p + a.head[p].sz <= u)
  {
    hide Tags;
    UsedFacts(a, u);
    ChunkFacts(a, u);
    Ordered(a, u, p);
    Ordered(a, p, u);
  }

  /** The free chunks are exactly the gaps between the used ones. */
  lemma FreesAreGaps(a: Arena, p: int, sz: int)
    requires Tags(a)
    ensures p in Frees(a) && Frees(a)[p] == sz <==> Gap(Used(a), a.base, p, sz)
  {
    hide Tags; hide Used; hide Edge;
    if p in Frees(a) && Frees(a)[p] == sz {
      FreeBetween(a, p);
      forall u | u in Used(a) ensures u + Used(a)[u] <= p || p + sz <= u {
        UsedApart(a, u, p);
        NotUsed(a, p);
      }
    }
    if Gap(Used(a), a.base, p, sz) {
      GapIsFree(a, p, sz);
    }
  }

  lemma GapIsFree(a: Arena, p: int, sz: int)
    requires Tags(a) && Gap(Used(a), a.base, p, sz)
    ensures p in Frees(a) && Frees(a)[p] == sz
  {
    hide Tags; hide Used; hide Edge;
    EdgeStarts(a, p);
    UsedFacts(a, p + sz);
    ChunkFacts(a, p);
    ChunkFacts(a, p + sz);
    if p in Used(a) {
      UsedApart(a, p, p);
    }
    if !IsFree(a, p) {
      InUsed(a, p);
    }
    FreeBetween(a, p);
    Ordered(a, p, p + sz);
    UsedApart(a, p + a.head[p].sz, p);
  }

  /** Top begins where the last used chunk ends. */
  lemma TopIsTail(a: Arena, p: int)
    requires Tags(a)
    ensures p == a.top <==> Tail(Used(a), a.base, p)
  {
    hide Tags; hide Used; hide Edge;
    TopIn(a);
    Chunk(a, a.top);
    if p == a.top {
      UsedBefore(a, p);
      forall u | u in Used(a) ensures u + Used(a)[u] <= p {
        UsedFacts(a, u);
        ChunkFacts(a, u);
        UsedApart(a, u, p);
      }
    }
    if Tail(Used(a), a.base, p) {
      TailIsTop(a, p);
    }
  }

  lemma TailIsTop(a: Arena, p: int)
    requires Tags(a) && Tail(Used(a), a.base, p)
    ensures p == a.top
  {
    hide Tags; hide Used; hide Edge;
    EdgeStarts(a, p);
    ChunkFacts(a, p);
    if p in Used(a) {
      UsedApart(a, p, p);
    } else if p != a.top {
      if !IsFree(a, p) {
        InUsed(a, p);
      }
      FreeBetween(a, p);
      assert false;
    }
  }

  /** With no fast chunks: a request can be served from the free chunks or from top exactly when the
      blocks leave room for it. */
  lemma RoomIff(a: Arena, nb: nat, more: nat)
    requires Tags(a) && a.top in a.head
    ensures HasRoom(Used(a), a.base, a.end, nb, more) <==>
      !NoFit(Frees(a), nb) || a.head[a.top].sz + more >= nb + MINSIZE
  {
    hide Tags; hide Used; hide Frees; hide Gap; hide Tail;
    TopIn(a);
    Chunk(a, a.top);
    TopIsTail(a, a.top);
    if p, sz :| Gap(Used(a), a.base, p, sz) && sz >= nb {
      FreesAreGaps(a, p, sz);
    } else if p :| Tail(Used(a), a.base, p) && a.end + more - p >= nb + MINSIZE {
      TopIsTail(a, p);
    }
    if x :| x in Frees(a) && Frees(a)[x] >= nb {
      FreesAreGaps(a, x, Frees(a)[x]);
    }
  }

  // ----- a block that was handed out was room -----

  lemma Rest(m: map<int, nat>, v: int)
    requires v in m
    ensures var r := m - {v};
      |r| < |m| && (forall u :: u in m <==> u == v || u in r) && (forall u :: u in r ==> r[u] == m[u]) && v !in r
  {
    var r := m - {v};
    assert r.Keys == m.Keys - {v};
  }

  /** The blocks leave [p, n) alone: where the room around it begins. */
  lemma {:induction false} RoomFrom(blocks: map<int, nat>, base: int, p: int, n: int) returns (e: int)
    requires base <= p < n && forall u :: u in blocks ==> u + blocks[u] <= p || n <= u
    ensures Edge(blocks, base, e) && e <= p && forall u :: u in blocks ==> u + blocks[u] <= e || n <= u
    decreases |blocks|
  {
    hide Edge;
    if forall u :: u !in blocks {
      EdgeBase(blocks, base);
      return base;
    }
    var v :| v in blocks;
    var rest := blocks - {v};
    Rest(blocks, v);
    e := RoomFrom(rest, base, p, n);
    if v + blocks[v] <= p && e < v + blocks[v] {
      e := v + blocks[v];
      EdgeAt(blocks, base, v);
    } else {
      EdgeMore(rest, blocks, base, e);
    }
  }

  /** The first block from n on, if there is one. */
  lemma {:induction false} RoomTo(blocks: map<int, nat>, n: int) returns (b: int)
    requires exists u :: u in blocks && n <= u
    ensures b in blocks && n <= b && forall u :: u in blocks ==> u < n || b <= u
    decreases |blocks|
  {
    var v :| v in blocks && n <= v;
    var rest := blocks - {v};
    Rest(blocks, v);
    if exists u :: u in rest && n <= u {
      b := RoomTo(rest, n);
      if v < b { b := v; }
    } else {
      b := v;
    }
  }

  lemma WasRoom(blocks: map<int, nat>, base: int, end: int, p: int, nb: nat, more: nat)
    requires base <= p && nb > 0 && p + nb + MINSIZE <= end + more
    requires forall u :: u in blocks ==> u + blocks[u] <= p || p + nb <= u
    ensures HasRoom(blocks, base, end, nb, more)
  {
    hide Edge;
    var e := RoomFrom(blocks, base, p, p + nb);
    if exists u :: u in blocks && p + nb <= u {
      var b := RoomTo(blocks, p + nb);
      assert Gap(blocks, base, e, b - e);
    } else {
      assert Tail(blocks, base, e);
    }
  }
}
