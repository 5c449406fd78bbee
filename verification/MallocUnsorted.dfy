/**
  The order of the unsorted list through `malloc_consolidate` (shared/malloc.c.h).  Each fast chunk
  that is freed brings the gap in which it lies to the front of the list; the memory behind the last
  block is no chunk of the list.  So the list afterwards depends on the blocks, the fast lists and
  the list before alone.
*/
module MallocUnsorted {
  import opened OrderedQueue
  import opened MallocTags
  import opened MallocGaps

  /** The members outside [lo, hi), in their order. */
  function Outside(u: seq<int>, lo: int, hi: int): seq<int> {
    if u == [] then []
    else if lo <= u[0] < hi then Outside(u[1..], lo, hi)
    else [u[0]] + Outside(u[1..], lo, hi)
  }

  lemma {:induction false} OutsideRemoved(u: seq<int>, x: int, lo: int, hi: int)
    requires lo <= x < hi || x !in u
    ensures Outside(Remove(u, x), lo, hi) == Outside(u, lo, hi)
  {
    if u != [] && u[0] != x {
      OutsideRemoved(u[1..], x, lo, hi);
    }
  }

  lemma {:induction false} OutsideAll(u: seq<int>, lo: int, hi: int)
    requires forall i :: 0 <= i < |u| ==> !(lo <= u[i] < hi)
    ensures Outside(u, lo, hi) == u
  {
    if u != [] {
      OutsideAll(u[1..], lo, hi);
    }
  }

  /** The gap in which p lies once it is no block any more, and the list u with this gap in front. */
  ghost predicate ToFront(rest: map<int, nat>, base: int, u: seq<int>, p: int, q: int, sz: int, u': seq<int>) {
    Gap(rest, base, q, sz) && q <= p < q + sz && u' == [q] + Outside(u, q, q + sz)
  }

  /** The same when p lies behind the last block, where memory ends at `end`. */
  ghost predicate ToTop(rest: map<int, nat>, base: int, end: int, u: seq<int>, p: int, q: int, u': seq<int>) {
    Tail(rest, base, q) && q <= p && u' == Outside(u, q, end)
  }

  /** What freeing the block p makes of the unsorted list. */
  ghost predicate Moves(blocks: map<int, nat>, base: int, end: int, u: seq<int>, p: int, u': seq<int>) {
    || (exists q, sz :: ToFront(blocks - {p}, base, u, p, q, sz, u'))
    || (exists q :: ToTop(blocks - {p}, base, end, u, p, q, u'))
  }

  ghost function Less(blocks: map<int, nat>, ps: seq<int>): map<int, nat> {
    map x | x in blocks && x !in ps :: blocks[x]
  }

  /** What freeing the blocks ps, one after the other, makes of the unsorted list u. */
  ghost predicate Trail(blocks: map<int, nat>, base: int, end: int, u: seq<int>, ps: seq<int>, u': seq<int>) {
    if ps == [] then u' == u
    else
      var front := ps[..|ps| - 1];
      exists w :: Trail(blocks, base, end, u, front, w) && Moves(Less(blocks, front), base, end, w, ps[|ps| - 1], u')
  }

  lemma LessMore(blocks: map<int, nat>, ps: seq<int>, p: int)
    ensures Less(blocks, ps + [p]) == Less(blocks, ps) - {p}
  {
  }

  lemma TrailNext(blocks: map<int, nat>, base: int, end: int, u: seq<int>, ps: seq<int>, w: seq<int>, p: int,
                  u': seq<int>)
    requires Trail(blocks, base, end, u, ps, w) && Moves(Less(blocks, ps), base, end, w, p, u')
    ensures Trail(blocks, base, end, u, ps + [p], u')
  {
    hide Moves; hide Less;
    var more := ps + [p];
    assert more[..|more| - 1] == ps && more[|more| - 1] == p;
  }

  /** A chunk in the middle of memory was freed: it is part of the free chunk q now. */
  lemma MovedFront(a: Arena, blocks: map<int, nat>, u: seq<int>, p: int, q: int, next: int, w: seq<int>)
    requires Tags(a) && Used(a) == blocks - {p} && q in Frees(a) && q <= p < q + Frees(a)[q]
    requires w == Remove(Remove(u, q), next) && (q <= next < q + Frees(a)[q] || next !in Remove(u, q))
    requires forall i :: 0 <= i < |w| ==> w[i] in Frees(a) && w[i] != q
    ensures Moves(blocks, a.base, a.end, u, p, [q] + w)
  {
    hide Tags; hide Used; hide Gap; hide Remove; hide Outside;
    var sz := Frees(a)[q];
    FreesAreGaps(a, q, sz);
    forall i | 0 <= i < |w| ensures !(q <= w[i] < q + sz) {
      FreeFacts(a, q);
      FreeFacts(a, w[i]);
      Ordered(a, q, w[i]);
    }
    OutsideAll(w, q, q + sz);
    OutsideRemoved(Remove(u, q), next, q, q + sz);
    OutsideRemoved(u, q, q, q + sz);
    assert ToFront(blocks - {p}, a.base, u, p, q, sz, [q] + w);
  }

  /** A chunk was freed that is part of top now. */
  lemma MovedTop(a: Arena, blocks: map<int, nat>, u: seq<int>, p: int, w: seq<int>)
    requires Tags(a) && Used(a) == blocks - {p} && a.top <= p && w == Remove(u, a.top) && a.top < a.end
    requires forall i :: 0 <= i < |w| ==> w[i] in Frees(a)
    ensures Moves(blocks, a.base, a.end, u, p, w)
  {
    hide Tags; hide Used; hide Tail; hide Remove; hide Outside;
    var q := a.top;
    TopIsTail(a, q);
    forall i | 0 <= i < |w| ensures !(q <= w[i] < a.end) {
      FreeFacts(a, w[i]);
      ChunkFacts(a, w[i]);
    }
    OutsideAll(w, q, a.end);
    OutsideRemoved(u, q, q, a.end);
    assert ToTop(blocks - {p}, a.base, a.end, u, p, q, w);
  }

  // ----- the list is determined -----

  lemma GapUnique(rest: map<int, nat>, base: int, p: int, q: int, sz: int, q': int, sz': int)
    requires Gap(rest, base, q, sz) && Gap(rest, base, q', sz') && q <= p < q + sz && q' <= p < q' + sz'
    requires forall x :: x in rest ==> base <= x
    ensures q == q' && sz == sz'
  {
    EdgeBound(rest, base, p, q, sz, q');
    EdgeBound(rest, base, p, q', sz', q);
  }

  /** An edge at or before p does not lie behind the beginning of the gap. */
  lemma EdgeBound(rest: map<int, nat>, base: int, p: int, q: int, sz: int, e: int)
    requires Gap(rest, base, q, sz) && q <= p < q + sz && Edge(rest, base, e) && e <= p
    requires forall x :: x in rest ==> base <= x
    ensures e <= q
  {
    EdgeFrom(rest, base, q);
    if e != base {
      var x :| EndsAt(rest, x, e);
    }
  }

  lemma EdgeFrom(rest: map<int, nat>, base: int, e: int)
    requires Edge(rest, base, e) && forall x :: x in rest ==> base <= x
    ensures base <= e
  {
    if e != base {
      var x :| EndsAt(rest, x, e);
    }
  }

  lemma TailUnique(rest: map<int, nat>, base: int, q: int, q': int)
    requires Tail(rest, base, q) && Tail(rest, base, q') && forall x :: x in rest ==> base <= x
    ensures q == q'
  {
    EdgeFrom(rest, base, q);
    EdgeFrom(rest, base, q');
    if q != base {
      var x :| EndsAt(rest, x, q);
    }
    if q' != base {
      var x :| EndsAt(rest, x, q');
    }
  }

  lemma MovesUnique(blocks: map<int, nat>, base: int, end: int, u: seq<int>, p: int, v: seq<int>, w: seq<int>)
    requires Moves(blocks, base, end, u, p, v) && Moves(blocks, base, end, u, p, w)
    requires forall x :: x in blocks ==> base <= x
    ensures v == w
  {
    hide Outside; hide Edge;
    var rest := blocks - {p};
    if q, sz :| ToFront(rest, base, u, p, q, sz, v) {
      if q', sz' :| ToFront(rest, base, u, p, q', sz', w) {
        GapUnique(rest, base, p, q, sz, q', sz');
      }
    } else {
      var q :| ToTop(rest, base, end, u, p, q, v);
      if q', sz' :| ToFront(rest, base, u, p, q', sz', w) {
        assert false;
      } else {
        var q' :| ToTop(rest, base, end, u, p, q', w);
        TailUnique(rest, base, q, q');
      }
    }
  }

  /** Whatever the tags look like: the unsorted list after freeing the same blocks is the same. */
  lemma {:induction false} TrailUnique(blocks: map<int, nat>, base: int, end: int, u: seq<int>, ps: seq<int>,
                                       v: seq<int>, w: seq<int>)
    requires Trail(blocks, base, end, u, ps, v) && Trail(blocks, base, end, u, ps, w)
    requires forall x :: x in blocks ==> base <= x
    ensures v == w
    decreases |ps|
  {
    hide Moves;
    if ps != [] {
      var front, p := ps[..|ps| - 1], ps[|ps| - 1];
      var v1 :| Trail(blocks, base, end, u, front, v1) && Moves(Less(blocks, front), base, end, v1, p, v);
      var w1 :| Trail(blocks, base, end, u, front, w1) && Moves(Less(blocks, front), base, end, w1, p, w);
      TrailUnique(blocks, base, end, u, front, v1, w1);
      MovesUnique(Less(blocks, front), base, end, v1, p, v, w);
    }
  }

  // ----- the order in which fast chunks are freed -----

  /** The fast lists one after the other. */
  function Flat(fast: seq<seq<int>>): seq<int> {
    if fast == [] then [] else fast[0] + Flat(fast[1..])
  }

  lemma {:induction false} FlatNext(fast: seq<seq<int>>, i: nat)
    requires i < |fast| && fast[i] != [] && forall j :: 0 <= j < i ==> fast[j] == []
    ensures Flat(fast) == [fast[i][0]] + Flat(fast[i := fast[i][1..]])
  {
    var less := fast[i := fast[i][1..]];
    if i == 0 {
      assert less[1..] == fast[1..];
    } else {
      FlatNext(fast[1..], i - 1);
      assert less[1..] == fast[1..][i - 1 := fast[1..][i - 1][1..]];
    }
  }

  lemma {:induction false} FlatEmpty(fast: seq<seq<int>>)
    requires forall i :: 0 <= i < |fast| ==> fast[i] == []
    ensures Flat(fast) == []
  {
    if fast != [] {
      FlatEmpty(fast[1..]);
    }
  }
}
