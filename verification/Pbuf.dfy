/**
  The operations on packet buffers (kernel/lwip/src/core/pbuf.c), which walk chains and change
  counts, lengths and links in place.  The free list of the pool is kept as a sequence.
*/
module Pbuf {
  import opened PbufModel
  import OrderedQueue

  const PBUF_POOL_SIZE := 16
  const PBUF_POOL_BUFSIZE := 128

  /** Free pool buffers and pool buffers in use make up the pool. */
  ghost predicate PoolOk(m: Mem, pool: seq<int>, all: set<int>) {
    && OrderedQueue.NoDup(pool) && 0 !in all
    && (forall x :: x in pool ==> x in all && x !in m)
    && (forall x :: x in m && m[x].kind == POOL ==> x in all)
    && (forall x :: x in all ==> x in pool || (x in m && m[x].kind == POOL))
  }

  ghost predicate Sound(m: Mem, pool: seq<int>, all: set<int>, h: map<int, nat>, d: int, extra: int) {
    && Acyclic(m) && Exact(m, h, d, extra) && Positive(m) && PoolOk(m, pool, all)
    && (forall x :: x in h && h[x] > 0 ==> x in m)
  }

  /** The number of buffers at the head of a chain that only the chain refers to. */
  ghost function Prefix(m: Mem, s: seq<int>): (k: nat)
    ensures k <= |s|
  {
    if s == [] || s[0] !in m || m[s[0]].ref != 1 then 0 else 1 + Prefix(m, s[1..])
  }

  /** What `pbuf_free` leaves of the table: the prefix is gone and the next count is one less. */
  ghost function Freed(m: Mem, s: seq<int>): Mem {
    var k := Prefix(m, s);
    var rest := m - (set x | x in s[..k]);
    if k < |s| && s[k] in rest && rest[s[k]].ref > 0 then rest[s[k] := rest[s[k]].(ref := rest[s[k]].ref - 1)] else rest
  }

  lemma {:induction false} PrefixIs(m: Mem, s: seq<int>, k: nat)
    requires k <= |s| && (forall j :: 0 <= j < k ==> s[j] in m && m[s[j]].ref == 1)
    requires k == |s| || s[k] !in m || m[s[k]].ref != 1
    ensures Prefix(m, s) == k
    decreases k
  {
    if k > 0 {
      assert forall j :: 0 <= j < k - 1 ==> s[1..][j] == s[j + 1];
      PrefixIs(m, s[1..], k - 1);
    }
  }

  lemma HeldIn(m: Mem, pool: seq<int>, all: set<int>, h: map<int, nat>, p: int)
    requires Sound(m, pool, all, h, 0, 0) && Held(h, p) > 0
    ensures p in m && p in h && p != 0
  {
  }

  lemma SoundFacts(m: Mem, pool: seq<int>, all: set<int>, h: map<int, nat>, d: int, extra: int)
    requires Sound(m, pool, all, h, d, extra)
    ensures Acyclic(m) && 0 !in m && Positive(m)
  {
  }

  /** A holder that is about to give up its reference. */
  lemma Owing(m: Mem, pool: seq<int>, all: set<int>, h: map<int, nat>, p: int)
    requires Sound(m, pool, all, h, 0, 0) && p in h && h[p] > 0 && p in m
    ensures Sound(m, pool, all, h[p := h[p] - 1], p, 1)
  {
  }

  // ----- one buffer is deallocated -----

  lemma DropSound(m: Mem, pool: seq<int>, all: set<int>, h: map<int, nat>, p: int)
    requires Sound(m, pool, all, h, p, 1) && p in m && m[p].ref == 1
    ensures var pool' := if m[p].kind == POOL then [p] + pool else pool;
      Sound(m - {p}, pool', all, h, m[p].next, 1)
    ensures m[p].next == 0 || m[p].next in m - {p}
  {
    Unreferenced(m, h, p);
    AcyclicDrop(m, p);
    NextIn(m, p);
    ExactDrop(m, h, p);
  }

  lemma NextIn(m: Mem, p: int)
    requires Acyclic(m) && p in m
    ensures m[p].next == 0 || m[p].next in m
    ensures m[p].next != p
  {
    var s := ChainOf(m, p);
    ChainAt(m, p, s, 0);
    if |s| > 1 {
      ChainAt(m, p, s, 1);
      ChainNoDup(m, p, s, 0, 1);
    }
  }

  lemma SettleSound(m: Mem, pool: seq<int>, all: set<int>, h: map<int, nat>, p: int)
    requires Sound(m, pool, all, h, p, 1) && (p != 0 ==> p in m && m[p].ref > 1)
    ensures var m' := if p == 0 then m else m[p := m[p].(ref := m[p].ref - 1)]; Sound(m', pool, all, h, 0, 0)
  {
    if p != 0 {
      ExactSettle(m, h, p);
      var m' := m[p := m[p].(ref := m[p].ref - 1)];
      SameNext(m, m');
    }
  }

  /** Chains do not depend on counts and lengths. */
  lemma SameNext(m: Mem, m': Mem)
    requires Acyclic(m) && m'.Keys == m.Keys && forall x :: x in m ==> m'[x].next == m[x].next
    ensures Acyclic(m')
    ensures forall p, s :: Chain(m, p, s) ==> Chain(m', p, s)
  {
    forall p, s | Chain(m, p, s) ensures Chain(m', p, s) {
      ChainMembers(m, p, s);
      ChainFrame(m, m', p, s);
    }
    forall p | p in m' ensures exists s :: Chain(m', p, s) {
      var s := ChainOf(m, p);
    }
  }

  /** The table without the first i buffers of s. */
  ghost function Gone(m: Mem, s: seq<int>, i: nat): Mem
    requires i <= |s|
  {
    m - (set x | x in s[..i])
  }

  lemma NoneGone(m: Mem, s: seq<int>)
    ensures Gone(m, s, 0) == m
  {
  }

  lemma GoneNext(m: Mem, p: int, s: seq<int>, i: nat)
    requires Chain(m, p, s) && i < |s|
    ensures s[i] in m && Gone(m, s, i + 1) == Gone(m, s, i) - {s[i]}
    ensures s[i] in Gone(m, s, i) ==>
      Gone(m, s, i)[s[i]].next == (if i + 1 < |s| then s[i + 1] else 0) && Gone(m, s, i)[s[i]] == m[s[i]]
  {
    ChainAt(m, p, s, i);
    assert s[..i + 1] == s[..i] + [s[i]];
  }

  lemma FreedIs(m: Mem, s: seq<int>, i: nat)
    requires i <= |s| && (forall j :: 0 <= j < i ==> s[j] in m && m[s[j]].ref == 1)
    requires i < |s| ==> s[i] in Gone(m, s, i) && Gone(m, s, i)[s[i]].ref != 1
    ensures Prefix(m, s) == i
    ensures var rest := Gone(m, s, i);
      Freed(m, s) ==
        if i < |s| && rest[s[i]].ref > 0 then rest[s[i] := rest[s[i]].(ref := rest[s[i]].ref - 1)] else rest
  {
    PrefixIs(m, s, i);
  }

  /** The buffer at which `pbuf_free` stops loses one reference. */
  lemma LeaveOne(m: Mem, pool: seq<int>, all: set<int>, h: map<int, nat>, q: int)
    requires Sound(m, pool, all, h, q, 1) && (q != 0 ==> q in m && m[q].ref != 1)
    ensures q != 0 ==> m[q].ref > 1
    ensures var m' := if q == 0 then m else m[q := m[q].(ref := m[q].ref - 1)];
      Sound(m', pool, all, h, 0, 0) && (Lawful(m) ==> Lawful(m'))
  {
    hide Sound; hide Lawful;
    SoundFacts(m, pool, all, h, q, 1);
    SettleSound(m, pool, all, h, q);
    if q != 0 {
      LawfulFrame(m, m[q := m[q].(ref := m[q].ref - 1)]);
    }
  }

  // ----- links are moved to and from outside holders -----

  ghost function Plus(h: map<int, nat>, p: int): map<int, nat> { h[p := Held(h, p) + 1] }

  ghost function Minus(h: map<int, nat>, p: int): map<int, nat>
    requires Held(h, p) > 0
  {
    h[p := Held(h, p) - 1]
  }

  /** The pool does not depend on links, counts and lengths. */
  lemma PoolSame(m: Mem, m': Mem, pool: seq<int>, all: set<int>)
    requires PoolOk(m, pool, all) && m'.Keys == m.Keys && forall x :: x in m ==> m'[x].kind == m[x].kind
    ensures PoolOk(m', pool, all)
  {
    hide OrderedQueue.NoDup;
  }

  /** The counts after p changed its link and its count, and the holders changed accordingly. */
  lemma ExactSet(m: Mem, h: map<int, nat>, h': map<int, nat>, p: int, b: Pbuf)
    requires Exact(m, h, 0, 0) && p in m
    requires forall x :: x in m ==>
      Held(h', x) + (if b.next == x then 1 else 0) - (if m[p].next == x then 1 else 0)
      == Held(h, x) + (if x == p then b.ref - m[p].ref else 0)
    ensures Exact(m[p := b], h', 0, 0)
  {
    var m' := m[p := b];
    forall x | x in m' ensures m'[x].ref == Held(h', x) + |LinksTo(m', x)| {
      LinksSet(m, p, b, x);
    }
  }

  /** The link from p becomes a reference held from outside. */
  lemma CutSound(m: Mem, pool: seq<int>, all: set<int>, h: map<int, nat>, p: int)
    requires Sound(m, pool, all, h, 0, 0) && p in m && m[p].next != 0
    ensures m[p].next in m && Sound(m[p := m[p].(next := 0)], pool, all, Plus(h, m[p].next), 0, 0)
  {
    hide Acyclic; hide Exact; hide PoolOk; hide Chain;
    NextIn(m, p);
    ZeroOutside(m);
    AcyclicCut(m, p);
    var b := m[p].(next := 0);
    PoolSame(m, m[p := b], pool, all);
    ExactSet(m, h, Plus(h, m[p].next), p, b);
  }

  lemma ZeroOutside(m: Mem)
    requires Acyclic(m)
    ensures 0 !in m
  {
  }

  /** A reference to t held from outside becomes the link from p. */
  lemma LinkSound(m: Mem, pool: seq<int>, all: set<int>, h: map<int, nat>, p: int, t: int)
    requires Sound(m, pool, all, h, 0, 0) && p in m && m[p].next == 0 && t in m && Held(h, t) > 0 && p !in ChainOf(m, t)
    ensures Sound(m[p := m[p].(next := t)], pool, all, Minus(h, t), 0, 0)
  {
    hide Acyclic; hide Exact; hide PoolOk; hide Chain;
    ZeroOutside(m);
    AcyclicLink(m, p, t);
    var b := m[p].(next := t);
    PoolSame(m, m[p := b], pool, all);
    ExactSet(m, h, Minus(h, t), p, b);
  }

  /** Lengths and data do not matter for the counts. */
  lemma FieldSound(m: Mem, m': Mem, pool: seq<int>, all: set<int>, h: map<int, nat>)
    requires Sound(m, pool, all, h, 0, 0) && m'.Keys == m.Keys
    requires forall x :: x in m ==> m'[x].next == m[x].next && m'[x].ref == m[x].ref && m'[x].kind == m[x].kind
    ensures Sound(m', pool, all, h, 0, 0)
  {
    hide Acyclic; hide PoolOk; hide Chain;
    SameNext(m, m');
    PoolSame(m, m', pool, all);
    forall x ensures LinksTo(m', x) == LinksTo(m, x) {
    }
  }

  /** `pbuf_ref` */
  lemma RefSound(m: Mem, pool: seq<int>, all: set<int>, h: map<int, nat>, p: int)
    requires Sound(m, pool, all, h, 0, 0) && p in m
    ensures Sound(m[p := m[p].(ref := m[p].ref + 1)], pool, all, Plus(h, p), 0, 0)
  {
    hide Acyclic; hide Exact; hide PoolOk; hide Chain;
    var b := m[p].(ref := m[p].ref + 1);
    SameNext(m, m[p := b]);
    PoolSame(m, m[p := b], pool, all);
    ExactSet(m, h, Plus(h, p), p, b);
  }

  /** A new buffer with one holder. */
  lemma AddSound(m: Mem, pool: seq<int>, pool': seq<int>, all: set<int>, h: map<int, nat>, p: int, b: Pbuf)
    requires Sound(m, pool, all, h, 0, 0) && p != 0 && p !in m && b.ref == 1 && b.next == 0
    requires if b.kind == POOL then pool == [p] + pool' else p !in all && pool' == pool
    ensures Sound(m[p := b], pool', all, Plus(h, p), 0, 0)
  {
    AcyclicAdd(m, p, b);
    NoLinks(m, p);
    forall x ensures |LinksTo(m[p := b], x)| == |LinksTo(m, x)| + (if b.next == x then 1 else 0) {
      LinksAdd(m, p, b, x);
    }
    if b.kind == POOL {
      assert forall x :: x in pool <==> x == p || x in pool';
      forall i, j | 0 <= i < j < |pool'| ensures pool'[i] != pool'[j] {
        assert pool[i + 1] == pool'[i] && pool[j + 1] == pool'[j];
      }
      assert p !in pool' by {
        forall i | 0 <= i < |pool'| ensures pool'[i] != p {
          assert pool[0] == p && pool[i + 1] == pool'[i];
        }
      }
    }
  }

  lemma NoLinks(m: Mem, p: int)
    requires Acyclic(m) && p != 0 && p !in m
    ensures LinksTo(m, p) == {}
  {
    forall x | x in m ensures m[x].next != p {
      NextIn(m, x);
    }
  }

  // ----- lengths -----

  /** The totals of the buffers of s grow by d, in 16 bits. */
  ghost function Raised(m: Mem, s: seq<int>, d: int): Mem {
    map x | x in m :: if x in s then m[x].(totLen := (m[x].totLen + d) % U16) else m[x]
  }

  /** What `pbuf_cat` makes of the table: s is the chain of the head. */
  ghost function Catted(m: Mem, s: seq<int>, t: int): Mem
    requires t in m
  {
    var r := Raised(m, s, m[t].totLen);
    if s == [] || s[|s| - 1] !in m then r
    else r[s[|s| - 1] := r[s[|s| - 1]].(next := t)]
  }

  lemma CattedIs(m: Mem, s: seq<int>, t: int)
    requires t in m && s != [] && s[|s| - 1] in m
    ensures var r := Raised(m, s, m[t].totLen);
      s[|s| - 1] in r && Catted(m, s, t) == r[s[|s| - 1] := r[s[|s| - 1]].(next := t)]
  {
  }

  /** What `pbuf_dechain` makes of the table, before the tail is freed. */
  ghost function Split(m: Mem, p: int): Mem
    requires p in m && m[p].next in m
  {
    var q := m[p].next;
    var m1 := m[q := m[q].(totLen := (m[p].totLen - m[p].len) % U16)];
    m1[p := m1[p].(next := 0, totLen := m1[p].len)]
  }

  function Referenced(m: Mem, p: int): Mem
    requires p in m
  {
    m[p := m[p].(ref := m[p].ref + 1)]
  }

  /** Chaining t onto a single buffer and taking it off again changes nothing: both lengths and the
      count of t are as before. */
  lemma ChainThenDechain(m: Mem, p: int, t: int, u: seq<int>)
    requires Positive(m) && 0 !in m && p in m && m[p].next == 0 && t in m && t != p && Chain(m, t, u)
    requires LawAt(m, p) && LawAt(m, t) && p !in u
    ensures Catted(m, [p], t).Keys == m.Keys
    ensures var c := Referenced(Catted(m, [p], t), t);
      && c[p].next == t && Freed(Split(c, p), u) == m
  {
    hide Chain; hide Freed;
    ChainNonZero(m, t, u);
    CattedSingle(m, p, t);
    RejoinedSplit(m, p, t);
    UndoneRef(m, t, u);
  }

  lemma CattedIn(m: Mem, s: seq<int>, t: int)
    requires t in m
    ensures t in Catted(m, s, t)
  {
  }

  /** Counts matter neither to chains nor to lengths. */
  lemma ChainReferenced(m: Mem, p: int, s: seq<int>, t: int)
    requires Chain(m, p, s) && t in m
    ensures Chain(Referenced(m, t), p, s) && (Lawful(m) ==> Lawful(Referenced(m, t)))
    ensures LawfulChain(m, s) ==> LawfulChain(Referenced(m, t), s)
  {
    hide Chain; hide Lawful;
    ChainMembers(m, p, s);
    ChainFrame(m, Referenced(m, t), p, s);
    LawfulFrame(m, Referenced(m, t));
    forall i | LawfulChain(m, s) && 0 <= i < |s| ensures s[i] in m && LawAt(Referenced(m, t), s[i]) {
      assert LawAt(m, s[i]);
    }
  }

  lemma CattedSingle(m: Mem, p: int, t: int)
    requires p in m && t in m && t != p && m[p].totLen < U16
    ensures Catted(m, [p], t) == m[p := m[p].(totLen := (m[p].totLen + m[t].totLen) % U16, next := t)]
  {
    assert forall x :: x in [p] <==> x == p;
  }

  lemma RejoinedSplit(m: Mem, p: int, t: int)
    requires 0 !in m && p in m && m[p].next == 0 && t in m && t != p && LawAt(m, p) && LawAt(m, t)
    ensures var c := Referenced(m[p := m[p].(totLen := (m[p].totLen + m[t].totLen) % U16, next := t)], t);
      Split(c, p) == Referenced(m, t)
  {
    ModBack(m[p].len, m[t].totLen);
  }

  lemma UndoneRef(m: Mem, t: int, u: seq<int>)
    requires Positive(m) && t in m && u != [] && u[0] == t
    ensures Freed(Referenced(m, t), u) == m
  {
    var d := Referenced(m, t);
    assert Prefix(d, u) == 0;
    assert d - (set x | x in u[..0]) == d;
  }

  lemma ModBack(a: int, b: int)
    requires 0 <= b < U16
    ensures ((a + b) % U16 - a) % U16 == b
  {
  }

  lemma LastAt(m: Mem, p: int, s: seq<int>, i: nat)
    requires Chain(m, p, s) && i < |s| && s[i] in m && m[s[i]].next == 0
    ensures i == |s| - 1
  {
    ChainAt(m, p, s, i);
    ChainNonZero(m, p, s);
  }

  lemma RaisedKeys(m: Mem, s: seq<int>, d: int)
    ensures Raised(m, s, d).Keys == m.Keys
    ensures forall x :: x in m ==> Raised(m, s, d)[x] == m[x].(totLen := Raised(m, s, d)[x].totLen)
    ensures Raised(m, [], d) == m
  {
  }

  lemma ModAdd(a: int, b: int, d: int)
    ensures ((a + b) % U16 + d) % U16 == (a + (b + d) % U16) % U16
  {
  }

  lemma RaiseOne(m: Mem, p: int, s: seq<int>, i: nat, d: int, t: int)
    requires Chain(m, p, s) && i < |s| && t in m && t !in s
    ensures s[i] in m
    ensures var a := Raised(m, s[..i], d);
      && a[s[i]] == m[s[i]] && a[t] == m[t]
      && Raised(m, s[..i + 1], d) == a[s[i] := a[s[i]].(totLen := (a[s[i]].totLen + d) % U16)]
  {
    ChainAt(m, p, s, i);
    assert s[..i + 1] == s[..i] + [s[i]];
    forall j | 0 <= j < i ensures s[j] != s[i] {
      ChainNoDup(m, p, s, j, i);
    }
  }

  lemma CatSound(m: Mem, r: Mem, pool: seq<int>, all: set<int>, h: map<int, nat>, p: int, t: int, s: seq<int>,
                 u: seq<int>)
    requires Sound(m, pool, all, h, 0, 0) && Chain(m, p, s) && Chain(m, t, u) && s != [] && u != []
    requires r == Raised(m, s, if t in m then m[t].totLen else 0) && Held(h, t) > 0 && forall x :: x in s ==> x !in u
    ensures var last := s[|s| - 1]; last in r && r[last].next == 0
    ensures var last := s[|s| - 1]; var m' := r[last := r[last].(next := t)];
      && Sound(m', pool, all, Minus(h, t), 0, 0) && Chain(m', p, s + u)
      && (Lawful(m) && Unshared(m, s) ==> Lawful(m'))
      && (LawfulChain(m, s) && LawfulChain(m, u) ==> LawfulChain(m', s + u))
  {
    hide Acyclic; hide Chain; hide Exact; hide PoolOk; hide Positive; hide Lawful; hide Unshared; hide LawfulChain;
    var last, d := s[|s| - 1], if t in m then m[t].totLen else 0;
    ChainAt(m, p, s, |s| - 1);
    ChainAt(m, t, u, 0);
    RaisedKeys(m, s, d);
    FieldSound(m, r, pool, all, h);
    SameNext(m, r);
    ChainUnique(r, t, u, ChainOf(r, t));
    assert last in s;
    LinkSound(r, pool, all, h, last, t);
    CatChain(r, p, s, t, u);
    ChainNonZero(m, t, u);
    assert t in u;
    if Lawful(m) && Unshared(m, s) {
      CatLawful(m, p, s, t, last);
    }
    if LawfulChain(m, s) && LawfulChain(m, u) {
      CatLawfulChain(m, p, s, t, u, last);
    }
  }

  /** The end of one chain is linked to another. */
  lemma CatChain(m: Mem, p: int, s: seq<int>, t: int, u: seq<int>)
    requires Chain(m, p, s) && Chain(m, t, u) && s != [] && forall x :: x in s ==> x !in u
    ensures var last := s[|s| - 1]; last in m && Chain(m[last := m[last].(next := t)], p, s + u)
  {
    hide Chain;
    var last := s[|s| - 1];
    ChainMembers(m, p, s);
    ChainMembers(m, t, u);
    assert last in s;
    var m' := m[last := m[last].(next := t)];
    ChainFrame(m, m', t, u);
    ChainJoin(m, m', p, s, t, u);
  }

  lemma CatLawful(m: Mem, p: int, s: seq<int>, t: int, last: int)
    requires Lawful(m) && Unshared(m, s) && Chain(m, p, s) && s != [] && last == s[|s| - 1] && t in m && t !in s
    requires last in m && m[last].next == 0
    requires 0 !in m
    ensures var r := Raised(m, s, m[t].totLen); Lawful(r[last := r[last].(next := t)])
  {
    hide Chain; hide Lawful; hide Raised;
    RaisedKeys(m, s, m[t].totLen);
    var r := Raised(m, s, m[t].totLen);
    assert r.Keys == m.Keys;
    var m' := r[last := r[last].(next := t)];
    forall x | x in m' ensures LawAt(m', x) {
      LawFrom(m, x);
      LawFrom(m, last);
      CatLawAt(m, p, s, t, last, x);
    }
    LawEverywhere(m');
  }

  /** The joined chain obeys the law when both chains did, whoever else refers to their buffers. */
  lemma CatLawfulChain(m: Mem, p: int, s: seq<int>, t: int, u: seq<int>, last: int)
    requires Chain(m, p, s) && Chain(m, t, u) && s != [] && last == s[|s| - 1] && t in m && t !in s
    requires last in m && m[last].next == 0 && 0 !in m && LawfulChain(m, s) && LawfulChain(m, u)
    requires forall x :: x in s ==> x !in u
    ensures last in Raised(m, s, m[t].totLen)
    ensures var r := Raised(m, s, m[t].totLen); LawfulChain(r[last := r[last].(next := t)], s + u)
  {
    hide Chain; hide Raised; hide LawfulChain; hide LawAt;
    RaisedKeys(m, s, m[t].totLen);
    var r := Raised(m, s, m[t].totLen);
    assert r.Keys == m.Keys;
    var m' := r[last := r[last].(next := t)];
    ChainNonZero(m, p, s);
    LawfulLen(m, s, |s| - 1);
    forall i | 0 <= i < |s + u| ensures (s + u)[i] in m' && LawAt(m', (s + u)[i]) {
      var x := (s + u)[i];
      if i < |s| {
        LawfulLen(m, s, i);
        assert x in s;
      } else {
        LawfulLen(m, u, i - |s|);
        assert x in u;
        InChain(m, t, u, x);
      }
      CatLawAt(m, p, s, t, last, x);
    }
    LawOnChain(m', s + u);
  }

  lemma LawEverywhere(m: Mem)
    requires forall x :: x in m ==> LawAt(m, x)
    ensures Lawful(m)
  {
  }

  lemma InChain(m: Mem, p: int, s: seq<int>, x: int)
    requires Chain(m, p, s) && x in s
    ensures x in m && (m[x].next == 0 || m[x].next in s)
  {
    var i :| 0 <= i < |s| && s[i] == x;
    ChainAt(m, p, s, i);
  }

  lemma CatLawAt(m: Mem, p: int, s: seq<int>, t: int, last: int, x: int)
    requires Chain(m, p, s) && s != [] && last == s[|s| - 1] && t in m && t !in s
    requires last in m && m[last].next == 0 && LawAt(m, last)
    requires 0 !in m && x in m && LawAt(m, x) && (x in s || m[x].next !in s)
    ensures last in Raised(m, s, m[t].totLen)
    ensures var r := Raised(m, s, m[t].totLen); LawAt(r[last := r[last].(next := t)], x)
  {
    hide Chain; hide LawAt;
    assert last in s;
    var d := m[t].totLen;
    var r := Raised(m, s, d);
    var m' := r[last := r[last].(next := t)];
    if x == last {
      LastRaised(m, m', last, t);
    } else if x in s {
      InChain(m, p, s, x);
      if m[x].next == 0 {
        LastOf(m, p, s, x);
      } else {
        InChain(m, p, s, m[x].next);
        LawRaised(m, m', x, d);
      }
    } else {
      LawSame(m, m', x);
    }
  }

  lemma LastRaised(m: Mem, m': Mem, last: int, t: int)
    requires last in m && last in m' && t in m && t in m' && 0 !in m && m[last].next == 0 && LawAt(m, last)
    requires m'[t].totLen == m[t].totLen
    requires m'[last] == m[last].(totLen := (m[last].totLen + m[t].totLen) % U16, next := t)
    ensures LawAt(m', last)
  {
  }

  lemma LawfulFrame(m: Mem, m': Mem)
    requires m'.Keys == m.Keys
    requires forall x :: x in m ==>
      m'[x].len == m[x].len && m'[x].totLen == m[x].totLen && m'[x].next == m[x].next && m'[x].data == m[x].data
    ensures Lawful(m) ==> Lawful(m')
  {
    if Lawful(m) {
      forall x | x in m' ensures LawAt(m', x) {
        assert LawAt(m, x);
      }
    }
  }

  lemma DropLawful(m: Mem, pool: seq<int>, all: set<int>, h: map<int, nat>, p: int)
    requires Sound(m, pool, all, h, p, 1) && p in m && m[p].ref == 1
    ensures Lawful(m) ==> Lawful(m - {p})
  {
    Unreferenced(m, h, p);
    if Lawful(m) {
      forall x | x in m - {p} ensures LawAt(m - {p}, x) {
        assert LawAt(m, x);
      }
    }
  }

  lemma SplitLawful(m: Mem, p: int)
    requires Lawful(m) && p in m && m[p].next in m && m[p].next != p && 0 !in m && forall x :: x in m ==> m[x].next != p
    ensures Lawful(Split(m, p))
  {
    var q := m[p].next;
    var d := Split(m, p);
    assert LawAt(m, p);
    ModBack(m[p].len, m[q].totLen);
    forall x | x in d ensures LawAt(d, x) {
      assert LawAt(m, x);
    }
  }

  /** Both parts of a chain that obeyed the law obey it after the cut. */
  lemma SplitLawfulChain(m: Mem, p: int, u: seq<int>)
    requires p in m && m[p].next in m && 0 !in m && Chain(m, p, [p] + u) && LawfulChain(m, [p] + u)
    ensures var d := Split(m, p); Chain(d, p, [p]) && Chain(d, m[p].next, u) && LawAt(d, p) && LawfulChain(d, u)
  {
    var s, q := [p] + u, m[p].next;
    assert s[1..] == u && Chain(m, q, u);
    hide Chain; hide LawfulChain;
    ChainNonZero(m, q, u);
    LawfulLen(m, s, 0);
    LawfulLen(m, s, 1);
    ChainNoDup(m, p, s, 0, 1);
    SplitIs(m, p);
    var d := Split(m, p);
    forall i | 0 <= i < |u| ensures u[i] in d && u[i] != p && d[u[i]] == m[u[i]] && LawAt(d, u[i]) {
      LawfulLen(m, s, i + 1);
      ChainNoDup(m, p, s, 0, i + 1);
      ChainAt(m, q, u, i);
      if i + 1 < |u| {
        ChainNoDup(m, p, s, 0, i + 2);
      }
      LawSame(m, d, u[i]);
    }
    LawOnChain(d, u);
    ChainFrame(m, d, q, u);
    AloneChain(d, p);
    LastLaw(d, p);
  }

  lemma AloneChain(m: Mem, p: int)
    requires p in m && p != 0 && m[p].next == 0
    ensures Chain(m, p, [p])
  {
  }

  /** The total of the second buffer is already what `pbuf_dechain` writes there. */
  lemma SplitIs(m: Mem, p: int)
    requires p in m && m[p].next in m && LawAt(m, p) && LawAt(m, m[p].next) && m[p].next != p
    ensures Split(m, p) == m[p := m[p].(next := 0, totLen := m[p].len)]
  {
    ModBack(m[p].len, m[m[p].next].totLen);
  }

  /** If the buffer after p survives, its chain is what it was and obeys the law. */
  ghost predicate TailLawful(m0: Mem, m: Mem, p: int)
    requires Acyclic(m0) && p in m0
  {
    ChainNonZero(m0, p, ChainOf(m0, p));
    var q, u := m0[p].next, ChainOf(m0, p)[1..];
    q in m ==> Chain(m, q, u) && LawfulChain(m, u)
  }

  lemma DechainLawful(m: Mem, p: int)
    requires Acyclic(m) && 0 !in m && p in m && m[p].next in m && LawfulChain(m, ChainOf(m, p)) && Acyclic(Split(m, p))
    requires m[p].next in Split(m, p)
    ensures var d := Split(m, p); var f := Freed(d, ChainOf(d, m[p].next));
      Chain(f, p, [p]) && LawfulChain(f, [p]) && TailLawful(m, f, p)
  {
    hide Acyclic; hide Freed; hide LawAt;
    var q, s, d := m[p].next, ChainOf(m, p), Split(m, p);
    var u := s[1..];
    ChainNonZero(m, p, s);
    assert s == [p] + u;
    SplitLawfulChain(m, p, u);
    ChainUnique(d, q, u, ChainOf(d, q));
    assert p !in u by {
      if p in u {
        var i :| 0 <= i < |u| && u[i] == p;
        ChainNoDup(m, p, s, 0, i + 1);
      }
    }
    FreedLawfulChain(d, p, q, u);
  }

  /** What `pbuf_free` leaves of a chain whose head survives obeys the law as before. */
  lemma FreedLawfulChain(m: Mem, p: int, q: int, u: seq<int>)
    requires Chain(m, q, u) && q in m && q != 0 && p in m && p !in u && m[p].next == 0 && 0 !in m && LawAt(m, p)
    requires LawfulChain(m, u)
    ensures var f := Freed(m, u); p in f && LawAt(f, p) && Chain(f, p, [p]) && 0 !in f
    ensures var f := Freed(m, u); q in f ==> Chain(f, q, u) && LawfulChain(f, u)
  {
    hide LawAt; hide LawfulChain;
    var f := Freed(m, u);
    ChainNonZero(m, q, u);
    FreedOthers(m, u);
    LawSame(m, f, p);
    assert Chain(f, p, [p]);
    if q in f {
      SurvivorKept(m, q, u);
      ChainMembers(m, q, u);
      ChainFrame(m, f, q, u);
      forall i | 0 <= i < |u| ensures u[i] in f && LawAt(f, u[i]) {
        LawfulLen(m, u, i);
        LawCounted(m, f, q, u[i]);
      }
      LawOnChain(f, u);
    }
  }

  lemma SurvivorKept(m: Mem, q: int, u: seq<int>)
    requires u != [] && u[0] == q && q in m && q in Freed(m, u)
    ensures Freed(m, u) == m[q := m[q].(ref := Freed(m, u)[q].ref)]
  {
    assert Prefix(m, u) == 0;
    assert m - (set x | x in u[..0]) == m;
  }

  lemma LawCounted(m: Mem, f: Mem, q: int, x: int)
    requires q in m && q in f && f == m[q := m[q].(ref := f[q].ref)] && x in m && LawAt(m, x)
    ensures LawAt(f, x)
  {
  }

  // ----- pbuf_realloc -----

  /** A last buffer of the given length; memory obtained for it is given back. */
  function Last(b: PbufModel.Pbuf, len: nat): PbufModel.Pbuf
    requires len <= |b.data|
  {
    b.(len := len, totLen := len, next := 0, data := if b.kind == RAM && len != b.len then b.data[..len] else b.data)
  }

  lemma QNotAfter(m: Mem, q: int, u: seq<int>)
    requires Acyclic(m) && q in m && m[q].next != 0 && Chain(m, m[q].next, u)
    ensures q !in u && u != []
  {
    assert ([q] + u)[1..] == u;
    assert Chain(m, q, [q] + u);
    if q in u {
      var j :| 0 <= j < |u| && u[j] == q;
      ChainNoDup(m, q, [q] + u, 0, j + 1);
    }
  }

  lemma CutChain(m: Mem, m': Mem, q: int, n: int, u: seq<int>)
    requires Chain(m, n, u) && q !in u && m'.Keys == m.Keys && forall x :: x in m && x != q ==> m'[x] == m[x]
    ensures Chain(m', n, u)
  {
    ChainMembers(m, n, u);
    ChainFrame(m, m', n, u);
  }

  lemma FreedOthers(m: Mem, u: seq<int>)
    ensures forall x :: x in m && x !in u ==> x in Freed(m, u) && Freed(m, u)[x] == m[x]
  {
    var k := Prefix(m, u);
    assert forall x :: x in u[..k] ==> x in u;
    assert k < |u| ==> u[k] in u;
  }

  lemma WalkStart(m: Mem, s: seq<int>)
    ensures Sized(m, []) && Bytes(m, []) == []
  {
  }

  lemma BytesSplit(m: Mem, s: seq<int>, i: nat)
    requires Sized(m, s) && i < |s|
    ensures Sized(m, s[..i]) && Sized(m, s[..i + 1]) && Sized(m, s[i + 1..]) && s[i] in m
    ensures m[s[i]].len <= |m[s[i]].data|
    ensures Bytes(m, s[..i + 1]) == Bytes(m, s[..i]) + m[s[i]].data[..m[s[i]].len]
    ensures Bytes(m, s) == Bytes(m, s[..i + 1]) + Bytes(m, s[i + 1..])
  {
    assert s == s[..i + 1] + s[i + 1..] && s[..i + 1] == s[..i] + [s[i]];
    BytesJoin(m, s[..i + 1], s[i + 1..]);
    BytesJoin(m, s[..i], [s[i]]);
  }

  /** The walk of `pbuf_realloc` does not run off the end of the chain. */
  lemma WalkStep(m: Mem, p: int, s: seq<int>, i: nat, rem: nat, newLen: nat)
    requires LawfulChain(m, s) && Chain(m, p, s) && 0 !in m && p in m && i < |s| && newLen < m[p].totLen
    requires Sized(m, s[..i]) && rem + |Bytes(m, s[..i])| == newLen && s[i] in m && rem > m[s[i]].len
    ensures i + 1 < |s| && Sized(m, s[..i + 1]) && |Bytes(m, s[..i + 1])| == |Bytes(m, s[..i])| + m[s[i]].len
  {
    TotalLength(m, p, s);
    BytesSplit(m, s, i);
    WholeBytes(m, s, i);
  }

  lemma WholeBytes(m: Mem, s: seq<int>, i: nat)
    requires Sized(m, s) && i < |s| && Sized(m, s[..i + 1])
    ensures i + 1 == |s| ==> Bytes(m, s[..i + 1]) == Bytes(m, s)
  {
    if i + 1 == |s| {
      assert s[..i + 1] == s;
    }
  }

  /** Which buffers of a chain are among its first i. */
  lemma InPrefix(m: Mem, p: int, s: seq<int>, i: nat, j: nat)
    requires Chain(m, p, s) && i <= |s| && j < |s|
    ensures s[j] in s[..i] <==> j < i
    ensures s[j] in m
  {
    ChainAt(m, p, s, j);
    if j < i {
      assert s[..i][j] == s[j];
    } else {
      forall k | 0 <= k < i ensures s[k] != s[j] {
        ChainNoDup(m, p, s, k, j);
      }
    }
  }

  lemma RaiseNext(m: Mem, p: int, s: seq<int>, i: nat, d: int)
    requires Chain(m, p, s) && i + 1 < |s|
    ensures s[i] in m && s[i + 1] in m
    ensures var a := Raised(m, s[..i], d);
      && s[i] in a && s[i + 1] in Raised(m, s[..i + 1], d) && a[s[i]] == m[s[i]]
      && Raised(m, s[..i + 1], d) == a[s[i] := a[s[i]].(totLen := (a[s[i]].totLen + d) % U16)]
      && Raised(m, s[..i + 1], d)[s[i + 1]] == m[s[i + 1]]
  {
    hide Chain;
    InPrefix(m, p, s, i, i);
    InPrefix(m, p, s, i + 1, i + 1);
    assert s[..i + 1] == s[..i] + [s[i]];
  }

  lemma LawfulLen(m: Mem, s: seq<int>, i: nat)
    requires LawfulChain(m, s) && i < |s|
    ensures s[i] in m && LawAt(m, s[i]) && m[s[i]].len <= |m[s[i]].data| && m[s[i]].len < U16
  {
  }

  /** The chain that is left. */
  ghost predicate ShrunkTo(m: Mem, m': Mem, p: int, newLen: nat) {
    && Acyclic(m) && Acyclic(m') && p in m && p in m'
    && var s := ChainOf(m, p); var t := ChainOf(m', p);
       && t <= s && Sized(m, s) && Sized(m', t) && newLen <= |Bytes(m, s)| && Bytes(m', t) == Bytes(m, s)[..newLen]
       && LawfulChain(m', t)
  }

  /** After the walk: chains are as before. */
  lemma ShortChain(m: Mem, m1: Mem, p: int, s: seq<int>, i: nat)
    requires Acyclic(m) && Acyclic(m1) && Chain(m, p, s) && i < |s| && m1.Keys == m.Keys
    requires forall x :: x in m ==> m1[x].next == m[x].next
    ensures Chain(m1, p, s) && s[i] in m1 && (m1[s[i]].next == 0 || m1[s[i]].next in m1)
    ensures ChainOf(m1, m1[s[i]].next) == s[i + 1..]
  {
    SameNext(m, m1);
    ChainAt(m1, p, s, i);
    NextIn(m1, s[i]);
    ChainAt(m1, p, s, i + 1);
    ChainUnique(m1, m1[s[i]].next, s[i + 1..], ChainOf(m1, m1[s[i]].next));
  }

  /** The total of the new last buffer is what the walk would have made it. */
  lemma RemainingTotal(m: Mem, p: int, s: seq<int>, i: nat, rem: nat, newLen: nat)
    requires LawfulChain(m, s) && Chain(m, p, s) && 0 !in m && p in m && i < |s| && newLen < m[p].totLen && newLen < U16
    requires Sized(m, s[..i]) && rem + |Bytes(m, s[..i])| == newLen && s[i] in m
    ensures (m[s[i]].totLen + (newLen - m[p].totLen)) % U16 == rem
  {
    TotalLength(m, p, s);
    ChainAt(m, p, s, i);
    LawfulTail(m, s, i);
    TotalLength(m, s[i], s[i..]);
    assert s == s[..i] + s[i..];
    BytesJoin(m, s[..i], s[i..]);
    ModSub(|Bytes(m, s)|, |Bytes(m, s[i..])|, newLen);
  }

  lemma ModSub(whole: nat, rest: nat, n: nat)
    requires rest <= whole && whole - rest <= n < U16
    ensures (rest % U16 + (n - whole % U16)) % U16 == n - (whole - rest)
  {
  }

  lemma ShortLawful(m: Mem, p: int, s: seq<int>, i: nat, rem: nat, newLen: nat)
    requires LawfulChain(m, s) && Chain(m, p, s) && 0 !in m && p in m && i < |s| && newLen < m[p].totLen && newLen < U16
    requires Sized(m, s[..i]) && rem + |Bytes(m, s[..i])| == newLen && s[i] in m && rem <= m[s[i]].len
    ensures var r := Raised(m, s[..i], newLen - m[p].totLen);
      && s[i] in r && rem <= |r[s[i]].data| && (Lawful(m) && Unshared(m, s) ==> Lawful(r[s[i] := Last(r[s[i]], rem)]))
  {
    hide Lawful; hide Chain; hide Bytes; hide Sized;
    var d := newLen - m[p].totLen;
    var r := Raised(m, s[..i], d);
    RaisedKeys(m, s[..i], d);
    LawfulLen(m, s, i);
    RemainingTotal(m, p, s, i, rem, newLen);
    var m' := r[s[i] := Last(r[s[i]], rem)];
    if Lawful(m) && Unshared(m, s) {
      forall x | x in m' ensures LawAt(m', x) {
        ShortLawAt(m, p, s, i, rem, d, x);
      }
      LawEverywhere(m');
    }
  }

  lemma LawRaised(m: Mem, m': Mem, x: int, d: int)
    requires x in m && LawAt(m, x) && x in m' && m'[x] == m[x].(totLen := (m[x].totLen + d) % U16)
    requires var n := m[x].next; n in m && n in m' && m'[n].totLen == (m[n].totLen + d) % U16
    ensures LawAt(m', x)
  {
    ModAdd(m[x].len, m[m[x].next].totLen, d);
  }

  lemma LawSame(m: Mem, m': Mem, x: int)
    requires x in m && LawAt(m, x) && x in m' && m'[x] == m[x] && Rest(m', m[x].next) == Rest(m, m[x].next)
    ensures LawAt(m', x)
  {
  }

  lemma ShortLawAt(m: Mem, p: int, s: seq<int>, i: nat, rem: nat, d: int, x: int)
    requires Lawful(m) && Chain(m, p, s) && 0 !in m && i < |s| && s[i] in m && rem <= m[s[i]].len && x in m
    requires Unshared(m, s)
    requires (m[s[i]].totLen + d) % U16 == rem
    ensures var r := Raised(m, s[..i], d); s[i] in r && rem <= |r[s[i]].data| && LawAt(r[s[i] := Last(r[s[i]], rem)], x)
  {
    hide Chain; hide LawAt;
    LawFrom(m, x);
    LawFrom(m, s[i]);
    LawLength(m, s[i]);
    InPrefix(m, p, s, i, i);
    var r := Raised(m, s[..i], d);
    var m' := r[s[i] := Last(r[s[i]], rem)];
    if x == s[i] {
      LastLaw(m', x);
    } else if x in s[..i] {
      var j :| 0 <= j < i && s[j] == x;
      ChainAt(m, p, s, j);
      InPrefix(m, p, s, i, j + 1);
      LawRaised(m, m', x, d);
    } else {
      Untouched(m, p, s, i, x);
      LawSame(m, m', x);
    }
  }

  lemma LawLength(m: Mem, x: int)
    requires x in m && LawAt(m, x)
    ensures m[x].len <= |m[x].data| && m[x].len < U16
  {
  }

  lemma LawFrom(m: Mem, x: int)
    requires Lawful(m) && x in m
    ensures LawAt(m, x)
  {
  }

  lemma LastLaw(m: Mem, x: int)
    requires x in m && 0 !in m && m[x].next == 0 && m[x].totLen == m[x].len < U16 && m[x].len <= |m[x].data|
    ensures LawAt(m, x)
  {
  }

  /** Buffers outside the first i + 1 do not link into them. */
  lemma Untouched(m: Mem, p: int, s: seq<int>, i: nat, x: int)
    requires Chain(m, p, s) && Unshared(m, s) && i < |s| && x in m && x != s[i] && x !in s[..i]
    ensures m[x].next !in s[..i] && m[x].next != s[i]
  {
    if x in s {
      var j :| 0 <= j < |s| && s[j] == x;
      InPrefix(m, p, s, i, j);
      ChainAt(m, p, s, j);
      if j + 1 < |s| {
        InPrefix(m, p, s, i, j + 1);
        SameSlot(m, p, s, i, j);
      } else {
        ChainNonZero(m, p, s);
      }
    } else {
      assert forall k :: k in s[..i] ==> k in s;
      assert s[i] in s;
    }
  }

  lemma SameSlot(m: Mem, p: int, s: seq<int>, i: nat, j: nat)
    requires Chain(m, p, s) && i < |s| && j < |s|
    ensures s[i] == s[j] ==> i == j
    ensures j + 1 < |s| && s[i] == s[j + 1] ==> i == j + 1
  {
    if i < j { ChainNoDup(m, p, s, i, j); }
    if j < i { ChainNoDup(m, p, s, j, i); }
    if j + 1 < |s| && i < j + 1 { ChainNoDup(m, p, s, i, j + 1); }
    if j + 1 < |s| && j + 1 < i { ChainNoDup(m, p, s, j + 1, i); }
  }

  lemma ShrunkResult(m: Mem, m1: Mem, m': Mem, p: int, s: seq<int>, i: nat, rem: nat, newLen: nat)
    requires Acyclic(m) && Acyclic(m1) && Acyclic(m') && p in m && s == ChainOf(m, p) && i < |s|
    requires LawfulChain(m, s) && newLen < m[p].totLen && newLen < U16
    requires m1 == Raised(m, s[..i], newLen - m[p].totLen) && m1.Keys == m.Keys && Sized(m, s[..i]) && s[i] in m
    requires rem + |Bytes(m, s[..i])| == newLen && rem <= m[s[i]].len <= |m1[s[i]].data| && m1[s[i]] == m[s[i]]
    requires s[i] in m' && m'[s[i]] == Last(m1[s[i]], rem)
    requires forall x :: x in m1 && x != s[i] && x !in s[i + 1..] ==> x in m' && m'[x] == m1[x]
    ensures ShrunkTo(m, m', p, newLen)
  {
    LastNext(m1[s[i]], rem);
    hide LawfulChain; hide Chain; hide Acyclic; hide Bytes; hide Sized; hide Raised; hide Last; hide ShrunkTo;
    ZeroOutside(m);
    ZeroOutside(m');
    FrontKept(m, m1, m', p, s, i);
    RaisedKeys(m, s[..i], newLen - m[p].totLen);
    FrontChain(m, m', p, s, i);
    CutBytes(m, m', p, s, i, rem, newLen);
    CutLaw(m, m', p, s, i, rem, newLen);
    ShrunkIs(m, m', p, newLen, s, s[..i + 1]);
  }

  lemma CutBytes(m: Mem, m': Mem, p: int, s: seq<int>, i: nat, rem: nat, newLen: nat)
    requires LawfulChain(m, s) && Chain(m, p, s) && 0 !in m && i < |s| && s[i] in m && Sized(m, s[..i])
    requires rem + |Bytes(m, s[..i])| == newLen && rem <= m[s[i]].len <= |m[s[i]].data|
    requires forall j :: 0 <= j < i ==>
      s[j] in m && s[j] in m' && m'[s[j]].len == m[s[j]].len && m'[s[j]].data == m[s[j]].data
    requires s[i] in m' && m'[s[i]] == Last(m[s[i]], rem)
    ensures Sized(m, s) && Sized(m', s[..i + 1]) && newLen <= |Bytes(m, s)|
    ensures Bytes(m', s[..i + 1]) == Bytes(m, s)[..newLen]
  {
    hide LawfulChain; hide Chain; hide Bytes; hide Sized; hide Last;
    TotalLength(m, p, s);
    BytesSplit(m, s, i);
    ShrunkBytes(m, m', s, i, rem, newLen);
  }

  lemma CutLaw(m: Mem, m': Mem, p: int, s: seq<int>, i: nat, rem: nat, newLen: nat)
    requires LawfulChain(m, s) && Chain(m, p, s) && 0 !in m && 0 !in m' && p in m && i < |s| && s[i] in m && s[i] in m'
    requires newLen < m[p].totLen && newLen < U16 && Sized(m, s[..i])
    requires rem + |Bytes(m, s[..i])| == newLen && rem <= m[s[i]].len <= |m[s[i]].data|
    requires m'[s[i]] == Last(m[s[i]], rem)
    requires var r := Raised(m, s[..i], newLen - m[p].totLen);
      forall j :: 0 <= j < i ==> s[j] in m && s[j] in m' && s[j] in r && m'[s[j]] == r[s[j]]
    ensures LawfulChain(m', s[..i + 1])
  {
    LastNext(m[s[i]], rem);
    hide LawfulChain; hide Chain; hide Bytes; hide Sized; hide Last;
    RemainingTotal(m, p, s, i, rem, newLen);
    ShrunkLaw(m, m', p, s, i, newLen - m[p].totLen);
  }

  lemma ShrunkIs(m: Mem, m': Mem, p: int, newLen: nat, s: seq<int>, t: seq<int>)
    requires Acyclic(m) && Acyclic(m') && p in m && p in m' && s == ChainOf(m, p) && t == ChainOf(m', p) && t <= s
    requires Sized(m, s) && Sized(m', t) && newLen <= |Bytes(m, s)| && Bytes(m', t) == Bytes(m, s)[..newLen]
    requires LawfulChain(m', t)
    ensures ShrunkTo(m, m', p, newLen)
  {
    hide Acyclic; hide Bytes; hide Sized; hide LawfulChain;
  }

  lemma LastNext(b: PbufModel.Pbuf, len: nat)
    requires len <= |b.data|
    ensures Last(b, len).next == 0 && Last(b, len).len == len
  {
  }

  lemma FrontChain(m: Mem, m': Mem, p: int, s: seq<int>, i: nat)
    requires Acyclic(m') && Chain(m, p, s) && p in m && i < |s| && s[i] in m' && m'[s[i]].next == 0
    requires forall j :: 0 <= j < i ==> s[j] in m && s[j] in m' && m'[s[j]].next == m[s[j]].next
    ensures p in m' && ChainOf(m', p) == s[..i + 1]
  {
    hide Chain; hide Acyclic;
    ChainNonZero(m, p, s);
    ChainCut(m, m', p, s, i);
    ChainNonZero(m', p, s[..i + 1]);
    ChainUnique(m', p, s[..i + 1], ChainOf(m', p));
  }

  lemma FrontKept(m: Mem, m1: Mem, m': Mem, p: int, s: seq<int>, i: nat)
    requires Chain(m, p, s) && i < |s| && m1.Keys == m.Keys
    requires forall x :: x in m1 && x != s[i] && x !in s[i + 1..] ==> x in m' && m'[x] == m1[x]
    ensures forall j :: 0 <= j < i ==> s[j] in m && s[j] in m' && m'[s[j]] == m1[s[j]]
  {
    hide Chain;
    ChainNonZero(m, p, s);
    forall j | 0 <= j < i ensures s[j] in m' && m'[s[j]] == m1[s[j]] {
      ChainNoDup(m, p, s, j, i);
      forall k | i + 1 <= k < |s| ensures s[k] != s[j] {
        ChainNoDup(m, p, s, j, k);
      }
    }
  }

  lemma ShrunkBytes(m: Mem, m': Mem, s: seq<int>, i: nat, rem: nat, newLen: nat)
    requires Sized(m, s) && i < |s| && Sized(m, s[..i]) && rem + |Bytes(m, s[..i])| == newLen && s[i] in m
    requires rem <= m[s[i]].len <= |m[s[i]].data|
    requires forall j :: 0 <= j < i ==>
      s[j] in m && s[j] in m' && m'[s[j]].len == m[s[j]].len && m'[s[j]].data == m[s[j]].data
    requires s[i] in m' && m'[s[i]] == Last(m[s[i]], rem)
    requires Bytes(m, s[..i]) <= Bytes(m, s)
    ensures Sized(m', s[..i + 1]) && newLen <= |Bytes(m, s)| && Bytes(m', s[..i + 1]) == Bytes(m, s)[..newLen]
  {
    hide Bytes;
    BytesSplit(m, s, i);
    BytesFrame(m, m', s[..i]);
    assert s[..i + 1] == s[..i] + [s[i]];
    LastBytes(m', s[i]);
    BytesJoin(m', s[..i], [s[i]]);
    assert Bytes(m, s)[..newLen] == Bytes(m, s[..i]) + m[s[i]].data[..m[s[i]].len][..rem];
  }

  /** The chain that is left obeys the law, whoever else refers to its buffers. */
  lemma ShrunkLaw(m: Mem, m': Mem, p: int, s: seq<int>, i: nat, d: int)
    requires LawfulChain(m, s) && Chain(m, p, s) && i < |s| && 0 !in m' && s[i] in m && s[i] in m'
    requires var r := Raised(m, s[..i], d); forall j :: 0 <= j < i ==>
      s[j] in m && s[j] in m' && s[j] in r && m'[s[j]] == r[s[j]]
    requires var rem := m'[s[i]].len;
      rem <= m[s[i]].len && m'[s[i]] == Last(m[s[i]], rem) && (m[s[i]].totLen + d) % U16 == rem
    ensures LawfulChain(m', s[..i + 1])
  {
    hide Chain; hide LawAt; hide LawfulChain;
    forall j | 0 <= j < i + 1 ensures s[j] in m' && LawAt(m', s[j]) {
      LawfulLen(m, s, j);
      if j == i {
        LastLaw(m', s[i]);
      } else {
        ChainAt(m, p, s, j);
        RaisedAt(m, p, s, i, d, j);
        RaisedAt(m, p, s, i, d, j + 1);
        LawRaised(m, m', s[j], d);
      }
    }
    LawOnChain(m', s[..i + 1]);
  }

  lemma LawOnChain(m: Mem, s: seq<int>)
    requires forall i :: 0 <= i < |s| ==> s[i] in m && LawAt(m, s[i])
    ensures LawfulChain(m, s)
  {
    hide LawAt;
  }

  /** The totals of the first i buffers of a chain have grown. */
  lemma RaisedAt(m: Mem, p: int, s: seq<int>, i: nat, d: int, j: nat)
    requires Chain(m, p, s) && i <= |s| && j < |s|
    ensures s[j] in m && s[j] in Raised(m, s[..i], d)
    ensures j < i ==> Raised(m, s[..i], d)[s[j]] == m[s[j]].(totLen := (m[s[j]].totLen + d) % U16)
  {
    hide Chain;
    InPrefix(m, p, s, i, j);
  }

  lemma LastBytes(m: Mem, x: int)
    requires x in m && m[x].len <= |m[x].data|
    ensures Sized(m, [x]) && Bytes(m, [x]) == m[x].data[..m[x].len]
  {
    assert Bytes(m, []) == [];
  }

  // ----- pbuf_alloc -----

  datatype Layer = TRANSPORT | IP | LINK | RAW

  /** The room for headers: 20 bytes for the transport header, 20 for IP, none for the link. */
  function Offset(layer: Layer): nat {
    match layer
    case TRANSPORT => 40
    case IP => 20
    case LINK => 0
    case RAW => 0
  }

  function Min(a: nat, b: nat): nat { if a < b then a else b }

  /** The number of further pool buffers for n bytes. */
  function Further(n: nat): nat { (n + PBUF_POOL_BUFSIZE - 1) / PBUF_POOL_BUFSIZE }

  /** The number of pool buffers a request takes. */
  function Needed(layer: Layer, length: nat): nat {
    1 + Further(length - Min(length, PBUF_POOL_BUFSIZE - Offset(layer)))
  }

  lemma HeldSame(m: Mem, pool: seq<int>, all: set<int>, h: map<int, nat>, h': map<int, nat>)
    requires Sound(m, pool, all, h, 0, 0) && forall x :: Held(h', x) == Held(h, x)
    ensures Sound(m, pool, all, h', 0, 0)
  {
    forall x | x in h' && h'[x] > 0 ensures x in m {
      assert Held(h, x) > 0;
    }
  }

  /** A pool buffer is linked to the end of a chain. */
  lemma AppendSound(m: Mem, pool: seq<int>, all: set<int>, h: map<int, nat>, r: int, q: int, pool': seq<int>,
                    b: PbufModel.Pbuf)
    requires Sound(m, pool, all, h, 0, 0) && pool == [q] + pool' && b.ref == 1 && b.next == 0 && b.kind == POOL
    requires r in m && m[r].next == 0
    ensures q !in m && q != 0
    ensures var m1 := m[q := b]; Sound(m1[r := m1[r].(next := q)], pool', all, h, 0, 0)
  {
    hide Acyclic; hide Exact;
    assert q in pool;
    var m1 := m[q := b];
    AddSound(m, pool, pool', all, h, q, b);
    SoundFacts(m1, pool', all, Plus(h, q), 0, 0);
    SingleChain(m1, q);
    LinkSound(m1, pool', all, Plus(h, q), r, q);
    HeldSame(m1[r := m1[r].(next := q)], pool', all, Minus(Plus(h, q), q), h);
  }

  lemma SingleChain(m: Mem, q: int)
    requires Acyclic(m) && q in m && m[q].next == 0
    ensures ChainOf(m, q) == [q]
  {
    assert Chain(m, q, [q]);
    ChainUnique(m, q, [q], ChainOf(m, q));
  }

  lemma AppendChain(m: Mem, p: int, s: seq<int>, r: int, q: int, b: PbufModel.Pbuf)
    requires Chain(m, p, s) && s != [] && r == s[|s| - 1] && r in m && q !in m && q != 0 && b.next == 0
    ensures var m1 := m[q := b]; Chain(m1[r := m1[r].(next := q)], p, s + [q])
  {
    var m1 := m[q := b];
    var m' := m1[r := m1[r].(next := q)];
    ChainMembers(m, p, s);
    assert q != r;
    assert Chain(m', q, [q]);
    ChainJoin(m, m', p, s, q, [q]);
  }

  /** What has been built so far: new buffers with one reference each, the last of which still
      lacks `rem` bytes. */
  ghost predicate Building(m0: Mem, m: Mem, p: int, s: seq<int>, r: int, rem: nat, length: nat) {
    && Chain(m, p, s) && s != [] && s[|s| - 1] == r && r in m && m[r].next == 0
    && m[r].totLen == m[r].len + rem && m[r].len + rem < U16
    && (forall x :: x in m <==> x in m0 || x in s)
    && (forall x :: x in m0 ==> x in m && m[x] == m0[x] && x !in s)
    && (forall x :: x in s ==> x in m && m[x].ref == 1 && m[x].kind == POOL && m[x].len <= |m[x].data|)
    && (forall x :: x in s && x != r ==> LawAt(m, x))
    && p in m && m[p].totLen == length && Sized(m, s) && |Bytes(m, s)| + rem == length
  }

  /** The first buffer leaves h bytes free for headers, and all but the last are full. */
  ghost predicate Filled(m: Mem, s: seq<int>, rem: nat, h: nat) {
    && (forall i :: 0 <= i < |s| ==>
          s[i] in m && |m[s[i]].data| == (if i == 0 then PBUF_POOL_BUFSIZE - h else PBUF_POOL_BUFSIZE))
    && (forall i :: 0 <= i < |s| && (i < |s| - 1 || rem > 0) ==> s[i] in m && m[s[i]].len == |m[s[i]].data|)
  }

  lemma FilledStep(m: Mem, s: seq<int>, rem: nat, h: nat, r: int, q: int, b: PbufModel.Pbuf)
    requires Filled(m, s, rem, h) && rem > 0 && q !in m && r in m && s != []
    requires |b.data| == PBUF_POOL_BUFSIZE && b.len == Min(rem, PBUF_POOL_BUFSIZE)
    ensures var m1 := m[q := b]; Filled(m1[r := m1[r].(next := q)], s + [q], rem - b.len, h)
  {
    var m1 := m[q := b];
    var m' := m1[r := m1[r].(next := q)];
    var s' := s + [q];
    forall i | 0 <= i < |s'|
      ensures s'[i] in m' && |m'[s'[i]].data| == (if i == 0 then PBUF_POOL_BUFSIZE - h else PBUF_POOL_BUFSIZE)
      ensures i < |s'| - 1 || rem - b.len > 0 ==> m'[s'[i]].len == |m'[s'[i]].data|
    {
      if i < |s| {
        assert s'[i] == s[i] && s[i] in m && s[i] != q;
      }
    }
  }

  lemma BuildStart(m0: Mem, p: int, b: PbufModel.Pbuf, rem: nat, length: nat)
    requires Acyclic(m0) && p != 0 && p !in m0 && b.next == 0 && b.ref == 1 && b.kind == POOL && b.len <= |b.data|
    requires b.totLen == length == b.len + rem && length < U16
    ensures Building(m0, m0[p := b], p, [p], p, rem, length)
  {
    var m := m0[p := b];
    assert Chain(m, p, [p]);
    LastBytes(m, p);
  }

  lemma BuildStep(m0: Mem, m: Mem, p: int, s: seq<int>, r: int, rem: nat, length: nat, q: int, b: PbufModel.Pbuf)
    requires Building(m0, m, p, s, r, rem, length) && Acyclic(m) && Acyclic(m0) && q !in m && q != 0 && b.next == 0
    requires b.ref == 1 && b.kind == POOL
    requires b.len <= |b.data| && b.len <= rem && b.totLen == rem
    ensures var m1 := m[q := b]; Building(m0, m1[r := m1[r].(next := q)], p, s + [q], q, rem - b.len, length)
  {
    hide Chain; hide Acyclic; hide Lawful; hide Bytes;
    var m1 := m[q := b];
    var m' := m1[r := m1[r].(next := q)];
    AppendChain(m, p, s, r, q, b);
    ChainMembers(m, p, s);
    assert r in s;
    BytesFrame(m, m', s);
    LastBytes(m', q);
    BytesJoin(m', s, [q]);
    forall x | x in s ensures x in m && LawAt(m', x) {
      BuildLaw(m, r, rem, q, b, x);
    }
  }

  lemma BuildLaw(m: Mem, r: int, rem: nat, q: int, b: PbufModel.Pbuf, x: int)
    requires Acyclic(m) && r in m && m[r].next == 0 && m[r].totLen == m[r].len + rem < U16 && m[r].len <= |m[r].data|
    requires q !in m && q != 0 && b.totLen == rem && x in m && (x != r ==> LawAt(m, x))
    ensures var m1 := m[q := b]; LawAt(m1[r := m1[r].(next := q)], x)
  {
    hide Acyclic;
    NextIn(m, x);
  }

  lemma BuildEnd(m0: Mem, m: Mem, p: int, s: seq<int>, r: int, length: nat)
    requires Building(m0, m, p, s, r, 0, length) && 0 !in m && Acyclic(m0)
    ensures LawfulChain(m, s) && (Lawful(m0) ==> Lawful(m))
  {
    hide Acyclic; hide Chain; hide Lawful; hide Bytes;
    assert r in s;
    assert LawAt(m, r);
    if Lawful(m0) {
      forall x | x in m ensures LawAt(m, x) {
        if x in m0 {
          LawFrom(m0, x);
          NextIn(m0, x);
          LawSame(m0, m, x);
        }
      }
      LawEverywhere(m);
    }
  }

  /** Freeing what has been built gives the old table back. */
  lemma BuildUndo(m0: Mem, m: Mem, p: int, s: seq<int>, r: int, rem: nat, length: nat)
    requires Building(m0, m, p, s, r, rem, length)
    ensures Freed(m, s) == m0
  {
    hide Chain; hide Lawful; hide Bytes; hide LawAt;
    forall j | 0 <= j < |s| ensures s[j] in m && m[s[j]].ref == 1 {
      BuiltMember(m0, m, p, s, r, rem, length, s[j]);
    }
    PrefixIs(m, s, |s|);
    assert s[..|s|] == s;
    var gone := set x | x in s;
    forall x ensures (x in m - gone <==> x in m0) && (x in m0 ==> (m - gone)[x] == m0[x]) {
      BuiltKeys(m0, m, p, s, r, rem, length, x);
    }
    assert m - gone == m0;
  }

  lemma BuiltKeys(m0: Mem, m: Mem, p: int, s: seq<int>, r: int, rem: nat, length: nat, x: int)
    requires Building(m0, m, p, s, r, rem, length)
    ensures x in m0 <==> x in m && x !in s
    ensures x in m0 ==> m[x] == m0[x]
  {
    hide Chain; hide Lawful; hide Bytes; hide LawAt;
  }

  lemma BuiltMember(m0: Mem, m: Mem, p: int, s: seq<int>, r: int, rem: nat, length: nat, x: int)
    requires Building(m0, m, p, s, r, rem, length) && x in s
    ensures x in m && m[x].ref == 1
  {
  }

  lemma PoolTop(m: Mem, pool: seq<int>, all: set<int>, h: map<int, nat>)
    requires Sound(m, pool, all, h, 0, 0) && pool != []
    ensures pool[0] != 0 && pool[0] !in m && pool == [pool[0]] + pool[1..]
  {
    assert pool[0] in pool;
  }

  lemma BuiltChain(m0: Mem, m: Mem, p: int, s: seq<int>, r: int, rem: nat, length: nat)
    requires Building(m0, m, p, s, r, rem, length) && Acyclic(m)
    ensures p in m && ChainOf(m, p) == s
  {
    ChainUnique(m, p, s, ChainOf(m, p));
  }

  // ----- conservation of the pool -----

  ghost function PoolUsed(m: Mem): set<int> { set x | x in m && m[x].kind == POOL }

  ghost function Elements(q: seq<int>): set<int> { set x | x in q }

  lemma {:induction false} ElementCount(q: seq<int>)
    requires OrderedQueue.NoDup(q)
    ensures |Elements(q)| == |q|
  {
    if q != [] {
      var r := q[1..];
      assert OrderedQueue.NoDup(r) by {
        forall i, j | 0 <= i < j < |r| ensures r[i] != r[j] {
          assert q[i + 1] == r[i] && q[j + 1] == r[j];
        }
      }
      ElementCount(r);
      assert q[0] !in Elements(r) by {
        forall i | 0 <= i < |r| ensures r[i] != q[0] {
          assert q[i + 1] == r[i];
        }
      }
      assert Elements(q) == {q[0]} + Elements(r) by {
        assert q == [q[0]] + r;
      }
    } else {
      assert Elements(q) == {};
    }
  }

  /** Free pool buffers and pool buffers in use always add up to the whole pool. */
  lemma PoolConserved(m: Mem, pool: seq<int>, all: set<int>)
    requires PoolOk(m, pool, all)
    ensures |pool| + |PoolUsed(m)| == |all|
  {
    ElementCount(pool);
    forall x ensures x in all <==> x in Elements(pool) + PoolUsed(m) {
      assert x in pool <==> x in Elements(pool);
      assert x in PoolUsed(m) <==> x in m && m[x].kind == POOL;
    }
    assert all == Elements(pool) + PoolUsed(m);
    DisjointUnion(Elements(pool), PoolUsed(m));
  }

  lemma DisjointUnion<T>(s: set<T>, t: set<T>)
    requires s !! t
    ensures |s + t| == |s| + |t|
  {
  }

  /** Replacing a buffer that is not from the pool leaves as many pool buffers free. */
  lemma SameUsed(m: Mem, m': Mem, pool: seq<int>, pool': seq<int>, all: set<int>, h: map<int, nat>,
                 h': map<int, nat>, p: int)
    requires Sound(m, pool, all, h, 0, 0) && Sound(m', pool', all, h', 0, 0) && p in m && m[p].kind != POOL
    requires (forall x :: x in m' ==> x in m && m'[x].kind == m[x].kind) && forall x :: x in m && x != p ==> x in m'
    ensures |pool| == |pool'|
  {
    hide Acyclic; hide Exact; hide Positive;
    forall x ensures x in PoolUsed(m) <==> x in PoolUsed(m') {
      assert x in m' ==> x in m && m'[x].kind == m[x].kind;
    }
    assert PoolUsed(m) == PoolUsed(m');
    PoolConserved(m, pool, all);
    PoolConserved(m', pool', all);
  }

  lemma SamePool(m: Mem, pool: seq<int>, pool': seq<int>, all: set<int>, h: map<int, nat>, h': map<int, nat>)
    requires Sound(m, pool, all, h, 0, 0) && Sound(m, pool', all, h', 0, 0)
    ensures |pool| == |pool'|
  {
    PoolConserved(m, pool, all);
    PoolConserved(m, pool', all);
  }

  // ----- pbuf_take -----

  /** A fresh buffer into which len bytes can be copied. */
  predicate Copyable(b: PbufModel.Pbuf, len: nat) {
    b.next == 0 && b.ref == 1 && b.kind != REF && len <= |b.data| && b.len == len && b.totLen == len
  }

  lemma AddLawful(m: Mem, p: int, b: PbufModel.Pbuf)
    requires Acyclic(m) && p != 0 && p !in m && b.next == 0 && b.len == b.totLen < U16 && b.len <= |b.data|
    ensures Lawful(m) ==> Lawful(m[p := b])
  {
    ZeroOutside(m);
    var m' := m[p := b];
    if Lawful(m) {
      forall x | x in m' ensures LawAt(m', x) {
        if x in m {
          NextIn(m, x);
          LawFrom(m, x);
        }
      }
    }
  }

  lemma BuiltSingle(m0: Mem, m: Mem, p: int, s: seq<int>, r: int, len: nat)
    requires Building(m0, m, p, s, r, 0, len) && |s| == 1 && Acyclic(m)
    ensures p in m && m == m0[p := m[p]] && p !in m0 && Copyable(m[p], len) && m[p].kind == POOL
  {
    hide Chain; hide Lawful; hide LawAt;
    ChainNonZero(m, p, s);
    assert s == [p];
    assert p in s;
    LastBytes(m, p);
    forall x ensures (x in m <==> x in m0 || x == p) && (x in m0 ==> m[x] == m0[x]) {
      BuiltKeys(m0, m, p, s, r, 0, len, x);
    }
  }

  /** q with the bytes, lengths and successor of p. */
  function Copied(q: PbufModel.Pbuf, p: PbufModel.Pbuf): (r: PbufModel.Pbuf)
    requires p.len <= |p.data| && p.len <= |q.data|
    ensures r.kind == q.kind && r.ref == q.ref && r.len == p.len && r.totLen == p.totLen
  {
    q.(next := p.next, len := p.len, totLen := p.totLen, data := p.data[..p.len] + q.data[p.len..])
  }

  lemma FreshUnlinked(m: Mem, pool: seq<int>, all: set<int>, h: map<int, nat>, q: int)
    requires Sound(m, pool, all, h, 0, 0) && q in m && m[q].ref == 1 && Held(h, q) == 1
    ensures forall x :: x in m ==> m[x].next != q
  {
    forall x | x in m ensures m[x].next != q {
      assert m[x].next == q ==> x in LinksTo(m, q);
    }
  }

  /** The links of p and to p move to q. */
  ghost function Relinked(m: Mem, prev: int, p: int, q: int): Mem
    requires p in m && q in m && (prev != 0 ==> prev in m)
  {
    var m1 := m[q := m[q].(next := m[p].next)][p := m[p].(next := 0)];
    if prev == 0 then m1 else m1[prev := m[prev].(next := q)]
  }

  lemma RelinkSound(m: Mem, pool: seq<int>, all: set<int>, h: map<int, nat>, prev: int, p: int, q: int)
    requires Sound(m, pool, all, h, 0, 0) && p in m && q in m && q != p && m[q].next == 0 && Held(h, q) > 0
    requires forall x :: x in m ==> m[x].next != q
    requires prev != 0 ==> prev in m && m[prev].next == p && prev != q
    ensures var h' := if prev == 0 then h else Plus(Minus(h, q), p); Sound(Relinked(m, prev, p, q), pool, all, h', 0, 0)
  {
    hide Exact; hide PoolOk; hide Positive; hide Chain;
    SoundFacts(m, pool, all, h, 0, 0);
    MoveNext(m, pool, all, h, p, q);
    var m1 := m[q := m[q].(next := m[p].next)][p := m[p].(next := 0)];
    if prev != 0 {
      NextIn(m, prev);
      AfterPrev(m, m1, prev, p, q);
      CutSound(m1, pool, all, h, prev);
      var m2 := m1[prev := m1[prev].(next := 0)];
      SoundFacts(m2, pool, all, Plus(h, p), 0, 0);
      AfterCut(m, m2, prev, p, q);
      LinkSound(m2, pool, all, Plus(h, p), prev, q);
      var m3 := m2[prev := m2[prev].(next := q)];
      assert m3 == Relinked(m, prev, p, q);
      HeldSame(m3, pool, all, Minus(Plus(h, p), q), Plus(Minus(h, q), p));
    }
  }

  /** The successor of p becomes the successor of q. */
  lemma MoveNext(m: Mem, pool: seq<int>, all: set<int>, h: map<int, nat>, p: int, q: int)
    requires Sound(m, pool, all, h, 0, 0) && p in m && q in m && q != p && m[q].next == 0
    requires forall x :: x in m ==> m[x].next != q
    ensures Sound(m[q := m[q].(next := m[p].next)][p := m[p].(next := 0)], pool, all, h, 0, 0)
  {
    hide Exact; hide PoolOk; hide Positive; hide Chain;
    var n := m[p].next;
    var m' := m[q := m[q].(next := n)][p := m[p].(next := 0)];
    if n == 0 {
      assert m' == m;
    } else {
      CutSound(m, pool, all, h, p);
      var m1 := m[p := m[p].(next := 0)];
      SoundFacts(m1, pool, all, Plus(h, n), 0, 0);
      NotReached(m1, n, q);
      LinkSound(m1, pool, all, Plus(h, n), q, n);
      assert m1[q := m1[q].(next := n)] == m';
      HeldSame(m', pool, all, Minus(Plus(h, n), n), h);
    }
  }

  lemma NotReached(m: Mem, n: int, q: int)
    requires Acyclic(m) && n in m && n != q && forall x :: x in m ==> m[x].next != q
    ensures q !in ChainOf(m, n)
  {
    if q in ChainOf(m, n) {
      var y := ChainLinked(m, n, ChainOf(m, n), q);
    }
  }

  lemma AfterPrev(m: Mem, m1: Mem, prev: int, p: int, q: int)
    requires p in m && q in m && prev in m && prev != p && prev != q && m[prev].next == p
    requires m1 == m[q := m[q].(next := m[p].next)][p := m[p].(next := 0)]
    ensures prev in m1 && m1[prev] == m[prev]
  {
  }

  /** With the link from prev cut, prev is not on the chain of q. */
  lemma AfterCut(m: Mem, m2: Mem, prev: int, p: int, q: int)
    requires Acyclic(m) && Acyclic(m2) && p in m && q in m && prev in m && q != p && prev != q && prev != p
    requires m[prev].next == p
    requires forall x :: x in m ==> m[x].next != q
    requires m2 == m[q := m[q].(next := m[p].next)][p := m[p].(next := 0)][prev := m[prev].(next := 0)]
    ensures prev !in ChainOf(m2, q)
  {
    hide Acyclic;
    var n := m[p].next;
    NextIn(m, p);
    var u := ChainOf(m, n);
    AvoidsAll(m, prev, p, q, u);
    ChainMembers(m, n, u);
    ChainFrame(m, m2, n, u);
    assert ([q] + u)[1..] == u;
    ZeroOutside(m);
    assert Chain(m2, q, [q] + u);
    ChainUnique(m2, q, [q] + u, ChainOf(m2, q));
  }

  /** The chain after p contains neither p nor its predecessor nor an unlinked buffer. */
  lemma AvoidsAll(m: Mem, prev: int, p: int, q: int, u: seq<int>)
    requires Acyclic(m) && p in m && prev in m && m[prev].next == p && Chain(m, m[p].next, u)
    requires forall x :: x in m ==> m[x].next != q
    ensures p !in u && prev !in u && q !in u
  {
    ZeroOutside(m);
    assert ([p] + u)[1..] == u && ([prev, p] + u)[1..] == [p] + u;
    assert Chain(m, p, [p] + u);
    assert Chain(m, prev, [prev, p] + u);
    var w := [prev, p] + u;
    forall j | 0 <= j < |u| ensures u[j] != p && u[j] != prev && u[j] != q {
      ChainNoDup(m, prev, w, 0, j + 2);
      ChainNoDup(m, prev, w, 1, j + 2);
      ChainAt(m, prev, w, j + 1);
      assert w[j + 2] == u[j];
    }
  }

  lemma RelinkedFacts(m: Mem, prev: int, p: int, q: int)
    requires p in m && q in m && q != p && (prev != 0 ==> prev in m && prev != q && prev != p)
    requires m[p].len <= |m[p].data| && m[p].len <= |m[q].data|
    ensures var m2 := Relinked(m, prev, p, q)[q := Copied(m[q], m[p])];
      && m2.Keys == m.Keys && m2[p] == m[p].(next := 0) && m2[q] == Copied(m[q], m[p]) && (prev != 0 ==>
         m2[prev] == m[prev].(next := q))
      && (forall x :: x in m && x != p && x != q && x != prev ==> m2[x] == m[x])
  {
  }

  lemma FreedSingle(m: Mem, p: int)
    requires p in m && m[p].ref > 0
    ensures Freed(m, [p]) == if m[p].ref == 1 then m - {p} else m[p := m[p].(ref := m[p].ref - 1)]
  {
    var k := Prefix(m, [p]);
    assert [p][1..] == [];
    if k == 1 {
      assert (set x | x in [p][..1]) == {p};
    } else {
      assert m - (set x | x in [p][..0]) == m;
    }
  }

  lemma ReplaceHeld(h0: map<int, nat>, h2: map<int, nat>, h: map<int, nat>, prev: int, p: int, q: int)
    requires p != q && p in h2 && h2[p] > 0 && h == h2[p := h2[p] - 1] && Held(h0, q) > 0
    requires (prev == 0 ==> Held(h0, p) > 0)
    requires h2 == if prev == 0 then h0 else Plus(Minus(h0, q), p)
    ensures prev == 0 ==> forall x :: Held(h, x) == Held(Minus(h0, p), x)
    ensures prev != 0 ==> forall x :: Held(h, x) == Held(Minus(h0, q), x)
  {
  }

  lemma ReplaceLawful(m0: Mem, m2: Mem, m: Mem, pool: seq<int>, all: set<int>, h: map<int, nat>, prev: int,
                      p: int, q: int)
    requires Sound(m0, pool, all, h, 0, 0) && p in m0 && q in m0 && p != q && m0[p].len <= |m0[p].data|
    requires m0[p].len <= |m0[q].data|
    requires if prev == 0 then Held(h, p) > 0 else prev in m0 && m0[prev].next == p && prev != q
    requires forall x :: x in m0 ==> m0[x].next != q
    requires m2 == Relinked(m0, prev, p, q)[q := Copied(m0[q], m0[p])]
    requires m == (if m0[p].ref == 1 then m2 - {p} else m2[p := m2[p].(ref := m2[p].ref - 1)])
    ensures Lawful(m0) && m0[p].ref == 1 ==> Lawful(m)
  {
    hide Sound; hide Lawful; hide LawAt; hide Acyclic;
    if Lawful(m0) && m0[p].ref == 1 {
      OnlyPrev(m0, pool, all, h, prev, p);
      SoundFacts(m0, pool, all, h, 0, 0);
      if prev != 0 {
        NextIn(m0, prev);
      }
      RelinkedFacts(m0, prev, p, q);
      NextIn(m0, p);
      forall x | x in m ensures LawAt(m, x) {
        NextIn(m0, x);
        ReplaceLawAt(m0, m, prev, p, q, x);
      }
      LawEverywhere(m);
    }
  }

  lemma ReplaceLawAt(m0: Mem, m: Mem, prev: int, p: int, q: int, x: int)
    requires Lawful(m0) && 0 !in m0 && p in m0 && q in m0 && p != q && x in m0 && x != p && x in m && q in m && p !in m
    requires m0[p].len <= |m0[p].data| && m0[p].len <= |m0[q].data| && m[q] == Copied(m0[q], m0[p])
    requires prev != 0 ==>
      prev in m0 && prev in m && prev != q && prev != p && m0[prev].next == p && m[prev] == m0[prev].(next := q)
    requires forall y :: y in m0 && y != p && y != q && y != prev ==> y in m && m[y] == m0[y]
    requires m0[p].next != q && m0[p].next != p && (forall y :: y in m ==> y in m0)
    requires m0[x].next != q && (m0[x].next == p ==> x == prev)
    ensures LawAt(m, x)
  {
    LawFrom(m0, x);
    LawFrom(m0, p);
    hide Lawful; hide Copied;
    if x == q {
      CopiedLaw(m0, m, p, q);
    } else if x != prev {
      LawSame(m0, m, x);
    }
  }

  lemma CopiedLaw(m0: Mem, m: Mem, p: int, q: int)
    requires p in m0 && q in m0 && LawAt(m0, p) && m0[p].len <= |m0[q].data| && q in m && m[q] == Copied(m0[q], m0[p])
    requires Rest(m, m0[p].next) == Rest(m0, m0[p].next)
    ensures LawAt(m, q)
  {
  }

  lemma OnlyPrev(m: Mem, pool: seq<int>, all: set<int>, h: map<int, nat>, prev: int, p: int)
    requires Sound(m, pool, all, h, 0, 0) && p in m && m[p].ref == 1
    requires if prev == 0 then Held(h, p) > 0 else prev in m && m[prev].next == p
    ensures forall x :: x in m && m[x].next == p ==> x == prev && prev != 0
  {
    var l := LinksTo(m, p);
    assert prev == 0 ==> |l| == 0;
    assert prev != 0 ==> prev in l && |l - {prev}| == 0;
    forall x | x in m && m[x].next == p ensures x == prev && prev != 0 {
      assert x in l;
      assert x != prev ==> x in l - {prev};
    }
  }

  /** The j-th buffer of c leads to the next. */
  ghost predicate Leads(m: Mem, c: seq<int>, j: nat)
    requires j < |c|
  {
    c[j] != 0 && c[j] in m && m[c[j]].next == (if j + 1 < |c| then c[j + 1] else 0)
  }

  /** A sequence in which every buffer leads to the next is a chain. */
  lemma {:induction false} ChainBuild(m: Mem, c: seq<int>)
    requires c != [] && forall j: nat :: j < |c| ==> Leads(m, c, j)
    ensures Chain(m, c[0], c)
  {
    var d := c[1..];
    assert Leads(m, c, 0);
    if d != [] {
      forall j: nat | j < |d| ensures Leads(m, d, j) {
        assert Leads(m, c, j + 1);
      }
      ChainBuild(m, d);
    }
    assert Chain(m, m[c[0]].next, d);
  }

  lemma NewHeld(m0: Mem, h0: map<int, nat>, h1: map<int, nat>, q: int, pool: seq<int>, all: set<int>)
    requires Sound(m0, pool, all, h0, 0, 0) && q !in m0 && forall x :: Held(h1, x) == Held(Plus(h0, q), x)
    ensures Held(h1, q) == 1
  {
    assert q in h0 ==> h0[q] == 0;
  }

  lemma NewPlace(m: Mem, pool: seq<int>, all: set<int>, h: map<int, nat>, m0: Mem, q: int, at: int)
    requires Sound(m, pool, all, h, 0, 0) && q in m && m == m0[q := m[q]] && (m[q].kind == POOL || q == at)
    ensures q in all || q == at
    ensures forall x :: x in m ==> x in m0 || x == q
  {
  }

  lemma SizedAt(m: Mem, c: seq<int>, i: nat)
    requires Sized(m, c) && i < |c|
    ensures c[i] in m && m[c[i]].len <= |m[c[i]].data|
  {
  }

  lemma BeforeInChain(m: Mem, head: int, c: seq<int>, i: nat, q: int)
    requires Chain(m, head, c) && i < |c| && q !in m
    ensures c[0] == head && c[i] in m && c[i] != 0 && c[i] != q
    ensures i > 0 ==> c[i - 1] in m && c[i - 1] != 0 && m[c[i - 1]].next == c[i] && c[i - 1] != q && c[i - 1] != c[i]
  {
    ChainNonZero(m, head, c);
    if i > 0 {
      ChainAt(m, head, c, i - 1);
      ChainNoDup(m, head, c, i - 1, i);
    }
  }

  lemma TakenHeld(h0: map<int, nat>, h1: map<int, nat>, h: map<int, nat>, i: nat, head: int, p: int, q: int)
    requires (forall x :: Held(h1, x) == Held(Plus(h0, q), x))
    requires (i == 0 ==> head == p && Held(h1, p) > 0 && forall x :: Held(h, x) == Held(Minus(h1, p), x))
    requires i != 0 ==> Held(h1, q) > 0 && forall x :: Held(h, x) == Held(Minus(h1, q), x)
    requires p != q
    ensures var head' := if i == 0 then q else head;
      forall x :: Held(h, x) == Held(h0, x) - (if x == head then 1 else 0) + (if x == head' then 1 else 0)
  {
    var head' := if i == 0 then q else head;
    forall x ensures Held(h, x) == Held(h0, x) - (if x == head then 1 else 0) + (if x == head' then 1 else 0) {
      assert Held(h1, x) == Held(h0, x) + (if x == q then 1 else 0);
    }
  }

  /** m is m1 with the i-th buffer of the chain replaced by q. */
  ghost predicate Swapped(m0: Mem, m1: Mem, m: Mem, c: seq<int>, i: nat, q: int) {
    && i < |c| && q !in m0 && q in m1 && m1 == m0[q := m1[q]] && c[i] in m0
    && m0[c[i]].len <= |m0[c[i]].data| && m0[c[i]].len <= |m1[q].data|
    && q in m && m[q] == Copied(m1[q], m0[c[i]])
    && (i > 0 ==> c[i - 1] in m0 && c[i - 1] in m && m[c[i - 1]] == m0[c[i - 1]].(next := q))
    && (forall x :: x in m0 && x != c[i] && (i > 0 ==> x != c[i - 1]) ==> x in m && m[x] == m0[x])
  }

  lemma TakenChain(m0: Mem, m1: Mem, m: Mem, head: int, c: seq<int>, i: nat, q: int)
    requires Chain(m0, head, c) && Swapped(m0, m1, m, c, i, q) && q != 0
    ensures Chain(m, if i == 0 then q else head, c[i := q])
  {
    hide Chain;
    ChainNonZero(m0, head, c);
    BeforeInChain(m0, head, c, i, q);
    var d := c[i := q];
    forall j: nat | j < |d| ensures Leads(m, d, j) {
      ChainAt(m0, head, c, j);
      SameSlot(m0, head, c, i, j);
      if i > 0 {
        SameSlot(m0, head, c, i - 1, j);
      }
    }
    ChainBuild(m, d);
  }

  lemma TakenBytes(m0: Mem, m1: Mem, m: Mem, head: int, c: seq<int>, i: nat, q: int)
    requires Chain(m0, head, c) && Swapped(m0, m1, m, c, i, q) && Sized(m0, c)
    ensures Sized(m, c[i := q]) && Bytes(m, c[i := q]) == Bytes(m0, c)
  {
    hide Chain; hide Bytes;
    var d := c[i := q];
    forall j | 0 <= j < |c| && j != i
      ensures c[j] in m0 && c[j] in m && m[c[j]].len == m0[c[j]].len && m[c[j]].data == m0[c[j]].data
    {
      SameSlot(m0, head, c, i, j);
    }
    assert forall j :: 0 <= j < |d| ==> d[j] in m && m[d[j]].len <= |m[d[j]].data|;
    BytesSplit(m0, c, i);
    BytesSplit(m, d, i);
    assert d[..i] == c[..i] && d[i + 1..] == c[i + 1..];
    BytesFrame(m0, m, c[..i]);
    BytesFrame(m0, m, c[i + 1..]);
  }

  /** The first i buffers have been dealt with; the bytes of the chain are those of s. */
  ghost predicate Taking(m0: Mem, m: Mem, head: int, s: seq<int>, c: seq<int>, i: nat) {
    && Sized(m0, s) && Sized(m, c) && Chain(m, head, c) && |c| == |s| && i <= |s| && Bytes(m, c) == Bytes(m0, s)
    && (forall j :: 0 <= j < i ==> c[j] in m && m[c[j]].kind != REF && s[j] in m0 && SameLength(m[c[j]], m0[s[j]]))
    && (forall j :: i <= j < |s| ==>
         c[j] == s[j] && s[j] in m && s[j] in m0 && m[s[j]] == m0[s[j]].(next := m[s[j]].next))
  }

  /** The result of `pbuf_take`: as many buffers, the same bytes, no reference to foreign memory. */
  ghost predicate TakenTo(m0: Mem, m: Mem, s: seq<int>, c: seq<int>) {
    && Sized(m0, s) && Sized(m, c) && |c| == |s| && Bytes(m, c) == Bytes(m0, s)
    && forall j :: 0 <= j < |c| ==> c[j] in m && m[c[j]].kind != REF && s[j] in m0 && SameLength(m[c[j]], m0[s[j]])
  }

  predicate SameLength(a: PbufModel.Pbuf, b: PbufModel.Pbuf) { a.len == b.len && a.totLen == b.totLen }

  /** Lengths fit their 16-bit fields and their memory. */
  ghost predicate Narrow(m: Mem, s: seq<int>) {
    forall i :: 0 <= i < |s| ==> s[i] in m && m[s[i]].len <= |m[s[i]].data| && m[s[i]].len < U16
  }

  lemma NarrowSized(m: Mem, s: seq<int>)
    requires Narrow(m, s)
    ensures Sized(m, s)
  {
  }

  lemma NarrowAt(m: Mem, s: seq<int>, i: nat)
    requires Narrow(m, s) && i < |s|
    ensures s[i] in m && m[s[i]].len <= |m[s[i]].data| && m[s[i]].len < U16
  {
  }

  /** How many buffers of a chain refer to foreign memory that fits into a pool buffer. */
  ghost function SmallRefs(m: Mem, s: seq<int>): nat {
    if s == [] then 0
    else
      var n, x := SmallRefs(m, s[..|s| - 1]), s[|s| - 1];
      if x in m && m[x].kind == REF && m[x].len <= PBUF_POOL_BUFSIZE then n + 1 else n
  }

  /** What is left of a pool of n buffers after k were asked for. */
  function Left(n: nat, k: nat): nat { if k < n then n - k else 0 }

  /** No copy can be made of the j-th buffer: neither the pool, from which the buffers before it were
      served first, nor the heap has room. */
  ghost predicate FailsAt(m: Mem, s: seq<int>, ram: seq<int>, free: nat, j: nat)
    requires j < |s| <= |ram|
  {
    && s[j] in m && m[s[j]].kind == REF && ram[j] == 0
    && (m[s[j]].len > PBUF_POOL_BUFSIZE || SmallRefs(m, s[..j]) >= free)
  }

  ghost predicate TakeFails(m: Mem, s: seq<int>, ram: seq<int>, free: nat)
    requires |s| <= |ram|
  {
    exists j :: 0 <= j < |s| && FailsAt(m, s, ram, free, j)
  }

  lemma NoRefs(m: Mem, s: seq<int>)
    ensures SmallRefs(m, s[..0]) == 0
  {
  }

  lemma RefsNext(m: Mem, s: seq<int>, i: nat)
    requires i < |s| && s[i] in m
    ensures SmallRefs(m, s[..i + 1])
         == SmallRefs(m, s[..i]) + if m[s[i]].kind == REF && m[s[i]].len <= PBUF_POOL_BUFSIZE then 1 else 0
  {
    assert s[..i + 1][..i] == s[..i];
  }

  /** A chain with the lengths and totals of a lawful one is lawful. */
  lemma TakenLaw(m0: Mem, m: Mem, p: int, head: int, s: seq<int>, c: seq<int>)
    requires LawfulChain(m0, s) && Chain(m0, p, s) && Chain(m, head, c) && TakenTo(m0, m, s, c) && 0 !in m && 0 !in m0
    ensures LawfulChain(m, c)
  {
    hide Chain; hide Bytes; hide Sized;
    forall j | 0 <= j < |c| ensures c[j] in m && LawAt(m, c[j]) {
      ChainAt(m, head, c, j);
      ChainAt(m0, p, s, j);
      LawfulLen(m0, s, j);
      SizedAt(m, c, j);
    }
  }

  lemma TakingHead(m0: Mem, m: Mem, head: int, s: seq<int>, c: seq<int>, i: nat)
    requires Taking(m0, m, head, s, c, i) && s != [] && 0 !in m
    ensures head != 0
  {
    hide Bytes;
    ChainNonZero(m, head, c);
  }

  /** A reference to a has been exchanged for one to b. */
  ghost predicate Handed(h0: map<int, nat>, h: map<int, nat>, a: int, b: int) {
    forall x :: Held(h, x) == Held(h0, x) - (if x == a then 1 else 0) + (if x == b then 1 else 0)
  }

  lemma HandedIs(h0: map<int, nat>, h: map<int, nat>, a: int, b: int)
    requires forall x :: Held(h, x) == Held(h0, x) - (if x == a then 1 else 0) + (if x == b then 1 else 0)
    ensures Handed(h0, h, a, b)
  {
  }

  lemma HandedHead(h0: map<int, nat>, h: map<int, nat>, a: int, b: int)
    requires Handed(h0, h, a, b) && Held(h0, a) > 0
    ensures Held(h, b) > 0
    ensures forall x :: Held(h, x) == Held(h0, x) - (if x == a then 1 else 0) + (if x == b then 1 else 0)
  {
  }

  lemma HandedOn(h0: map<int, nat>, h1: map<int, nat>, h: map<int, nat>, a: int, b: int, c: int)
    requires Handed(h0, h1, a, b) && Handed(h1, h, b, c)
    ensures Handed(h0, h, a, c)
  {
    forall x ensures Held(h, x) == Held(h0, x) - (if x == a then 1 else 0) + (if x == c then 1 else 0) {
      assert Held(h1, x) == Held(h0, x) - (if x == a then 1 else 0) + (if x == b then 1 else 0);
    }
  }

  lemma HandedSame(h0: map<int, nat>, h1: map<int, nat>, h: map<int, nat>, a: int, b: int)
    requires Handed(h0, h1, a, b) && forall x :: Held(h, x) == Held(h1, x)
    ensures Handed(h0, h, a, b)
  {
  }

  /** The reference to b is given up. */
  lemma HandedBack(h0: map<int, nat>, h1: map<int, nat>, h: map<int, nat>, a: int, b: int)
    requires Handed(h0, h1, a, b) && b in h1 && h1[b] > 0 && h == h1[b := h1[b] - 1]
    ensures forall x :: Held(h, x) == Held(h0, x) - (if x == a then 1 else 0)
  {
    forall x ensures Held(h, x) == Held(h0, x) - (if x == a then 1 else 0) {
      assert Held(h, x) == Held(h1, x) - (if x == b then 1 else 0);
    }
  }

  /** Every buffer of the chain has one reference. */
  ghost predicate AllOnce(m: Mem, s: seq<int>) { forall i :: 0 <= i < |s| ==> s[i] in m && m[s[i]].ref == 1 }

  lemma OnceAt(m: Mem, s: seq<int>, i: nat)
    requires i < |s|
    ensures AllOnce(m, s) ==> s[i] in m && m[s[i]].ref == 1
  {
  }

  lemma TakingStart(m: Mem, p: int, s: seq<int>)
    requires Chain(m, p, s) && Sized(m, s)
    ensures Taking(m, m, p, s, s, 0)
  {
    hide Chain; hide Bytes;
  }

  lemma TakingAt(m0: Mem, m: Mem, head: int, s: seq<int>, c: seq<int>, i: nat)
    requires Taking(m0, m, head, s, c, i) && i < |s|
    ensures c[i] == s[i] && s[i] in m && s[i] in m0 && m[s[i]] == m0[s[i]].(next := m[s[i]].next) && Sized(m, c)
    ensures Chain(m, head, c)
  {
    hide Chain; hide Bytes;
  }

  lemma TakingStep(m0: Mem, m1: Mem, m: Mem, head: int, head': int, s: seq<int>, c: seq<int>, i: nat, q: int)
    requires Taking(m0, m1, head, s, c, i) && i < |s| && Sized(m, c[i := q]) && Chain(m, head', c[i := q])
    requires Bytes(m, c[i := q]) == Bytes(m1, c)
    requires q in m && m[q].kind != REF && forall x :: x in m1 && x != c[i] ==>
      x in m && m[x] == m1[x].(next := m[x].next)
    requires c[i] in m1 && SameLength(m[q], m1[c[i]])
    ensures Taking(m0, m, head', s, c[i := q], i + 1)
  {
    hide Bytes;
    var d := c[i := q];
    forall j | 0 <= j < |c| && j != i ensures c[j] in m1 && c[j] != c[i] {
      ChainAt(m1, head, c, j);
      SameSlot(m1, head, c, i, j);
    }
  }

  lemma TakingSkip(m0: Mem, m: Mem, head: int, s: seq<int>, c: seq<int>, i: nat)
    requires Taking(m0, m, head, s, c, i) && i < |s| && c[i] in m && m[c[i]].kind != REF
    ensures Taking(m0, m, head, s, c, i + 1)
  {
    hide Chain; hide Bytes;
  }

  lemma TakingNext(m0: Mem, m: Mem, head: int, s: seq<int>, c: seq<int>, i: nat)
    requires Taking(m0, m, head, s, c, i + 1) && i < |s|
    ensures c[i] in m && m[c[i]].next == (if i + 1 < |s| then c[i + 1] else 0)
  {
    hide Bytes;
    ChainAt(m, head, c, i);
  }

  lemma TakingDone(m0: Mem, m: Mem, head: int, s: seq<int>, c: seq<int>)
    requires Taking(m0, m, head, s, c, |s|) && Acyclic(m) && head != 0
    ensures head in m && TakenTo(m0, m, s, ChainOf(m, head))
  {
    hide Bytes;
    ChainNonZero(m, head, c);
    ChainUnique(m, head, c, ChainOf(m, head));
  }

  class Pbufs {
    var mem: Mem
    var pool: seq<int>
    ghost const all: set<int>
    ghost var holders: map<int, nat>   // how many pointers from outside refer to each buffer

    ghost predicate Valid()
      reads this
    {
      Sound(mem, pool, all, holders, 0, 0)
    }

    /** `pbuf_init`: all buffers of the pool are free. */
    constructor (addresses: seq<int>)
      requires OrderedQueue.NoDup(addresses) && |addresses| == PBUF_POOL_SIZE && 0 !in addresses
      ensures Valid() && mem == map[] && holders == map[] && |pool| == PBUF_POOL_SIZE && |all| == PBUF_POOL_SIZE
    {
      mem, pool, holders := map[], addresses, map[];
      all := Elements(addresses);
      new;
      ElementCount(addresses);
    }

    /** `pbuf_free`: the caller gives up its reference to p. */
    method Free(p: int) returns (count: nat)
      requires Valid() && (p != 0 ==> Held(holders, p) > 0)
      modifies this
      ensures Valid()
      ensures p == 0 ==> count == 0 && mem == old(mem)
      ensures p != 0 ==> p in old(mem) && mem == Freed(old(mem), ChainOf(old(mem), p))
      ensures p != 0 ==> count == Prefix(old(mem), ChainOf(old(mem), p)) % 256
      ensures p != 0 ==> holders == old(holders)[p := old(holders)[p] - 1]
      ensures Lawful(old(mem)) ==> Lawful(mem)
    {
      hide Sound; hide Chain; hide Acyclic; hide Exact; hide Lawful; hide Freed; hide Prefix; hide Positive;
      if p == 0 { return 0; }
      HeldIn(mem, pool, all, holders, p);
      SoundFacts(mem, pool, all, holders, 0, 0);
      ghost var m0, s := mem, ChainOf(mem, p);
      ChainNonZero(mem, p, s);
      Owing(mem, pool, all, holders, p);
      holders := holders[p := holders[p] - 1];
      count := 0;
      var q := p;
      ghost var i := 0;
      NoneGone(m0, s);
      while q != 0 && mem[q].ref == 1
        invariant 0 <= i <= |s| && q == (if i < |s| then s[i] else 0)
        invariant Sound(mem, pool, all, holders, q, 1) && (q == 0 || q in mem)
        invariant mem == Gone(m0, s, i) && count == i % 256
        invariant forall j :: 0 <= j < i ==> s[j] in m0 && m0[s[j]].ref == 1
        invariant holders == old(holders)[p := old(holders)[p] - 1] && (Lawful(m0) ==> Lawful(mem))
        decreases |s| - i
      {
        GoneNext(m0, p, s, i);
        q := Deallocate(q);
        count := (count + 1) % 256;
        i := i + 1;
      }
      FreedIs(m0, s, i);
      LeaveOne(mem, pool, all, holders, q);
      if q != 0 {
        mem := mem[q := mem[q].(ref := mem[q].ref - 1)];
      }
    }

    /** One buffer without references is given back to where it came from. */
    method Deallocate(q: int) returns (next: int)
      requires Sound(mem, pool, all, holders, q, 1) && q in mem && mem[q].ref == 1
      modifies `mem, `pool
      ensures next == old(mem)[q].next && mem == old(mem) - {q} && (next == 0 || next in mem)
      ensures Sound(mem, pool, all, holders, next, 1) && (Lawful(old(mem)) ==> Lawful(mem))
    {
      hide Sound; hide Lawful;
      DropSound(mem, pool, all, holders, q);
      DropLawful(mem, pool, all, holders, q);
      next := mem[q].next;
      if mem[q].kind == POOL {
        pool := [q] + pool;
      }
      mem := mem - {q};
    }

    /** `pbuf_cat`: the chain of t is appended to the chain of h, which takes over the caller's
        reference to t. */
    method Cat(h: int, t: int)
      requires Valid() && (h != 0 ==> h in mem) && (t != 0 ==> Held(holders, t) > 0)
      requires h != 0 && t != 0 ==> t in mem && forall x :: x in ChainOf(mem, h) ==> x !in ChainOf(mem, t)
      modifies this
      ensures Valid()
      ensures h == 0 || t == 0 ==> mem == old(mem) && holders == old(holders)
      ensures h != 0 && t != 0 ==>
        Chain(mem, h, ChainOf(old(mem), h) + ChainOf(old(mem), t)) && holders == Minus(old(holders), t)
      ensures h != 0 && t != 0 ==> mem == Catted(old(mem), ChainOf(old(mem), h), t) && pool == old(pool)
      ensures h != 0 && t != 0 && LawfulChain(old(mem), ChainOf(old(mem), h))
        && LawfulChain(old(mem), ChainOf(old(mem), t))
        ==> LawfulChain(mem, ChainOf(old(mem), h) + ChainOf(old(mem), t))
      ensures h != 0 && t != 0 && Lawful(old(mem)) && Unshared(old(mem), ChainOf(old(mem), h)) ==> Lawful(mem)
      ensures forall x :: x in old(mem) ==>
        x in mem && mem[x].ref == old(mem)[x].ref && mem[x].len == old(mem)[x].len && mem[x].data == old(mem)[x].data
    {
      hide Sound; hide Chain; hide Acyclic; hide Raised; hide Lawful; hide Unshared; hide Catted; hide LawfulChain;
      if h == 0 || t == 0 { return; }
      SoundFacts(mem, pool, all, holders, 0, 0);
      ghost var m0, s, u := mem, ChainOf(mem, h), ChainOf(mem, t);
      ChainNonZero(m0, h, s);
      ChainNonZero(m0, t, u);
      RaisedKeys(m0, s, m0[t].totLen);
      var p := RaiseTotals(h, t, s);
      CatSound(m0, mem, pool, all, holders, h, t, s, u);
      CattedIs(m0, s, t);
      holders := Minus(holders, t);
      mem := mem[p := mem[p].(next := t)];
    }

    /** The loop of `pbuf_cat`: the totals of the head chain grow; its last buffer is returned. */
    method RaiseTotals(h: int, t: int, ghost s: seq<int>) returns (p: int)
      requires h != 0 && Chain(mem, h, s) && t in mem && t !in s
      modifies `mem
      ensures mem == Raised(old(mem), s, old(mem)[t].totLen) && s != [] && p == s[|s| - 1] && p in mem
    {
      hide Chain; hide Raised;
      ghost var m0, d := mem, mem[t].totLen;
      p := h;
      ghost var i := 0;
      ChainNonZero(m0, h, s);
      RaisedKeys(m0, s[..0], d);
      assert s[..0] == [];
      while mem[p].next != 0
        invariant 0 <= i < |s| && p == s[i] && mem.Keys == m0.Keys && p in mem && mem == Raised(m0, s[..i], d)
        decreases |s| - i
      {
        ChainAt(m0, h, s, i);
        RaisedKeys(m0, s[..i], d);
        RaisedKeys(m0, s[..i + 1], d);
        RaiseOne(m0, h, s, i, d, t);
        mem := mem[p := mem[p].(totLen := (mem[p].totLen + mem[t].totLen) % U16)];
        p := mem[p].next;
        i := i + 1;
      }
      RaiseOne(m0, h, s, i, d, t);
      RaisedKeys(m0, s[..i], d);
      LastAt(m0, h, s, i);
      assert s[..i + 1] == s;
      mem := mem[p := mem[p].(totLen := (mem[p].totLen + mem[t].totLen) % U16)];
    }

    /** `pbuf_ref` */
    method Ref(p: int)
      requires Valid() && (p != 0 ==> p in mem)
      modifies this
      ensures Valid()
      ensures if p == 0 then mem == old(mem) && holders == old(holders)
              else p in old(mem) && mem == Referenced(old(mem), p) && holders == Plus(old(holders), p)
    {
      if p != 0 {
        RefSound(mem, pool, all, holders, p);
        mem := mem[p := mem[p].(ref := mem[p].ref + 1)];
        holders := Plus(holders, p);
      }
    }

    /** `pbuf_chain`: like `pbuf_cat`, but the caller keeps its reference to t. */
    method ChainOnto(h: int, t: int)
      requires Valid() && h in mem && Held(holders, t) > 0 && t in mem
      requires forall x :: x in ChainOf(mem, h) ==> x !in ChainOf(mem, t)
      modifies this
      ensures Valid() && Chain(mem, h, ChainOf(old(mem), h) + ChainOf(old(mem), t)) && holders == old(holders)
      ensures var s := ChainOf(old(mem), h);
        t in Catted(old(mem), s, t) && mem == Referenced(Catted(old(mem), s, t), t)
      ensures LawfulChain(old(mem), ChainOf(old(mem), h)) && LawfulChain(old(mem), ChainOf(old(mem), t))
        ==> LawfulChain(mem, ChainOf(old(mem), h) + ChainOf(old(mem), t))
      ensures Lawful(old(mem)) && Unshared(old(mem), ChainOf(old(mem), h)) ==> Lawful(mem)
    {
      hide Sound; hide Exact; hide Lawful; hide Chain; hide Acyclic; hide Catted; hide Unshared; hide LawfulChain;
      SoundFacts(mem, pool, all, holders, 0, 0);
      ghost var m0, s, u := mem, ChainOf(mem, h), ChainOf(mem, t);
      assert t != 0 && h != 0;
      Cat(h, t);
      ghost var m1 := mem;
      CattedIn(m0, s, t);
      Ref(t);
      ChainReferenced(m1, h, s + u, t);
    }

    /** `pbuf_dechain`: the first buffer is separated from the rest, whose count drops. */
    method Dechain(p: int) returns (r: int)
      requires Valid() && p in mem
      modifies this
      ensures Valid() && forall x :: Held(holders, x) == Held(old(holders), x)
      ensures old(mem)[p].next == 0 ==> mem == old(mem) && r == 0
      ensures old(mem)[p].next != 0 ==>
        var q := old(mem)[p].next;
        && q in old(mem) && Acyclic(Split(old(mem), p)) && q in Split(old(mem), p)
        && mem == Freed(Split(old(mem), p), ChainOf(Split(old(mem), p), q))
        && r == if Prefix(Split(old(mem), p), ChainOf(Split(old(mem), p), q)) % 256 > 0 then 0 else q
      ensures LawfulChain(old(mem), ChainOf(old(mem), p)) && old(mem)[p].next != 0 ==>
        Chain(mem, p, [p]) && LawfulChain(mem, [p]) && TailLawful(old(mem), mem, p)
      ensures Lawful(old(mem)) && (forall x :: x in old(mem) ==> old(mem)[x].next != p) ==> Lawful(mem)
    {
      hide Sound; hide Lawful; hide Chain; hide Acyclic; hide Split; hide Freed; hide Prefix; hide LawfulChain;
      hide LawAt;
      SoundFacts(mem, pool, all, holders, 0, 0);
      NextIn(mem, p);
      var q := mem[p].next;
      var tailGone := 1;
      if q != 0 {
        ghost var m0, h0 := mem, holders;
        if Lawful(m0) && forall x :: x in m0 ==> m0[x].next != p {
          SplitLawful(m0, p);
        }
        Separate(p, q);
        SoundFacts(mem, pool, all, holders, 0, 0);
        HeldIn(mem, pool, all, holders, q);
        tailGone := Free(q);
        if LawfulChain(m0, ChainOf(m0, p)) {
          DechainLawful(m0, p);
        }
      }
      return if tailGone > 0 then 0 else q;
    }

    /** The link from p to q is cut; the reference it stood for is now the caller's. */
    method Separate(p: int, q: int)
      requires Valid() && p in mem && q in mem && q != 0 && mem[p].next == q
      modifies `mem, `holders
      ensures Valid() && mem == Split(old(mem), p) && holders == Plus(old(holders), q)
    {
      hide Sound;
      SoundFacts(mem, pool, all, holders, 0, 0);
      NextIn(mem, p);
      ghost var m0 := mem;
      mem := mem[q := mem[q].(totLen := (mem[p].totLen - mem[p].len) % U16)];
      FieldSound(m0, mem, pool, all, holders);
      CutSound(mem, pool, all, holders, p);
      mem := mem[p := mem[p].(next := 0)];
      ghost var m1 := mem;
      mem := mem[p := mem[p].(totLen := mem[p].len)];
      holders := Plus(holders, q);
      FieldSound(m1, mem, pool, all, holders);
    }

    /** The end of `pbuf_realloc`: q becomes the last buffer, of the given length. */
    method Shorten(q: int, len: nat)
      requires Valid() && q in mem && len <= mem[q].len && mem[q].len <= |mem[q].data|
      modifies this
      ensures Valid() && forall x :: Held(holders, x) == Held(old(holders), x)
      ensures q in mem && mem[q] == Last(old(mem)[q], len)
      ensures old(mem)[q].next == 0 || old(mem)[q].next in old(mem)
      ensures forall x :: x in old(mem) && x != q && x !in ChainOf(old(mem), old(mem)[q].next) ==>
        x in mem && mem[x] == old(mem)[x]
      ensures Lawful(old(mem)[q := Last(old(mem)[q], len)]) ==> Lawful(mem)
    {
      hide Exact; hide Lawful; hide Chain; hide PoolOk; hide Positive; hide Acyclic;
      var next := mem[q].next;
      ghost var m0 := mem;
      SoundFacts(mem, pool, all, holders, 0, 0);
      NextIn(mem, q);
      mem := mem[q := Last(mem[q], len).(next := next)];
      FieldSound(m0, mem, pool, all, holders);
      if next != 0 {
        CutSound(mem, pool, all, holders, q);
        mem := mem[q := mem[q].(next := 0)];
        assert mem == m0[q := Last(m0[q], len)];
        ghost var u := ChainOf(m0, next);
        QNotAfter(m0, q, u);
        CutChain(m0, mem, q, next, u);
        holders := Plus(holders, next);
        SoundFacts(mem, pool, all, holders, 0, 0);
        ghost var m1 := mem;
        ChainUnique(m1, next, u, ChainOf(m1, next));
        var count := Free(next);
        FreedOthers(m1, u);
      }
    }

    /** `pbuf_realloc`: the chain is cut to its first newLen bytes. */
    method Realloc(p: int, newLen: nat)
      requires Valid() && p in mem && LawfulChain(mem, ChainOf(mem, p)) && newLen < U16
      modifies this
      ensures Valid() && forall x :: Held(holders, x) == Held(old(holders), x)
      ensures newLen >= old(mem)[p].totLen ==> mem == old(mem)
      ensures newLen < old(mem)[p].totLen ==> ShrunkTo(old(mem), mem, p, newLen)
      ensures Lawful(old(mem)) && Unshared(old(mem), ChainOf(old(mem), p)) ==> Lawful(mem)
    {
      hide Sound; hide Lawful; hide LawfulChain; hide Chain; hide Acyclic; hide Raised; hide Unshared; hide Bytes;
      hide Sized; hide ShrunkTo;
      if newLen >= mem[p].totLen { return; }
      SoundFacts(mem, pool, all, holders, 0, 0);
      var grow := newLen - mem[p].totLen;
      ghost var m0, s := mem, ChainOf(mem, p);
      ghost var i := 0;
      var rem: nat, q := newLen, p;
      ChainNonZero(m0, p, s);
      TotalLength(m0, p, s);
      RaisedKeys(m0, s[..0], grow);
      assert s[..0] == [];
      WalkStart(m0, s);
      while rem > mem[q].len
        invariant 0 <= i < |s| && q == s[i] && mem.Keys == m0.Keys && q in mem && holders == old(holders)
        invariant pool == old(pool)
        invariant mem == Raised(m0, s[..i], grow) && mem[q] == m0[q]
        invariant Sized(m0, s[..i]) && rem + |Bytes(m0, s[..i])| == newLen
        decreases |s| - i
      {
        WalkStep(m0, p, s, i, rem, newLen);
        ChainAt(m0, p, s, i);
        RaisedKeys(m0, s[..i + 1], grow);
        RaiseNext(m0, p, s, i, grow);
        rem := rem - mem[q].len;
        mem := mem[q := mem[q].(totLen := (mem[q].totLen + grow) % U16)];
        q := mem[q].next;
        i := i + 1;
      }
      RaisedKeys(m0, s[..i], grow);
      FieldSound(m0, mem, pool, all, holders);
      LawfulLen(m0, s, i);
      ghost var m1 := mem;
      SoundFacts(mem, pool, all, holders, 0, 0);
      ShortChain(m0, m1, p, s, i);
      ShortLawful(m0, p, s, i, rem, newLen);
      Shorten(q, rem);
      SoundFacts(mem, pool, all, holders, 0, 0);
      ShrunkResult(m0, m1, mem, p, s, i, rem, newLen);
    }

    /** `pbuf_alloc` of pool buffers: a chain of exactly as many as needed, or nothing at all when
        the pool runs out halfway. `junk` is what the buffers happen to hold. */
    method AllocPool(layer: Layer, length: nat, junk: nat -> int) returns (p: int)
      requires Valid() && length < U16
      modifies this
      ensures Valid()
      ensures p == 0 <==> Needed(layer, length) > |old(pool)|
      ensures p == 0 ==>
        mem == old(mem) && |pool| == |old(pool)| && forall x :: Held(holders, x) == Held(old(holders), x)
      ensures p != 0 ==> p in mem && holders == Plus(old(holders), p) && |pool| == |old(pool)| - Needed(layer, length)
      ensures p != 0 ==> exists r :: Building(old(mem), mem, p, ChainOf(mem, p), r, 0, length)
      ensures p != 0 ==> |ChainOf(mem, p)| == Needed(layer, length)
      ensures p != 0 ==> LawfulChain(mem, ChainOf(mem, p))
      ensures p != 0 ==> Filled(mem, ChainOf(mem, p), 0, if layer.TRANSPORT? then 40 else if layer.IP? then 20 else 0)
      ensures Lawful(old(mem)) ==> Lawful(mem)
    {
      hide Sound; hide Building; hide Acyclic; hide Lawful; hide Chain; hide LawfulChain;
      ghost var m0, pool0 := mem, pool;
      SoundFacts(mem, pool, all, holders, 0, 0);
      if pool == [] { return 0; }
      p := pool[0];
      PoolTop(mem, pool, all, holders);
      var len := Min(length, PBUF_POOL_BUFSIZE - Offset(layer));
      var b := PbufModel.Pbuf(0, len, length, 1, POOL, seq(PBUF_POOL_BUFSIZE - Offset(layer), junk));
      AddSound(mem, pool, pool[1..], all, holders, p, b);
      BuildStart(mem, p, b, length - len, length);
      pool := pool[1..];
      mem := mem[p := b];
      holders := Plus(holders, p);
      var r, rem: nat := p, length - len;
      ghost var s := [p];
      while rem > 0
        invariant Valid() && Building(m0, mem, p, s, r, rem, length) && holders == Plus(old(holders), p)
        invariant 0 < |s| <= |pool0| && pool == pool0[|s|..] && |s| + Further(rem) == Needed(layer, length)
        invariant Filled(mem, s, rem, Offset(layer))
        decreases rem
      {
        SoundFacts(mem, pool, all, holders, 0, 0);
        if pool == [] {
          UndoAlloc(m0, p, s, r, rem, length);
          SamePool(m0, pool0, pool, all, old(holders), holders);
          return 0;
        }
        r, rem, s := Extend(m0, p, s, r, rem, length, junk, Offset(layer));
      }
      SoundFacts(mem, pool, all, holders, 0, 0);
      BuildEnd(m0, mem, p, s, r, length);
      BuiltChain(m0, mem, p, s, r, rem, length);
    }

    /** One more pool buffer. */
    method Extend(ghost m0: Mem, ghost p: int, ghost s: seq<int>, r: int, rem: nat, ghost length: nat, junk: nat -> int,
                  ghost h: nat)
      returns (q: int, rem': nat, ghost s': seq<int>)
      requires Valid() && Acyclic(m0) && Building(m0, mem, p, s, r, rem, length) && pool != [] && rem > 0
      modifies this
      ensures Valid() && holders == old(holders) && pool == old(pool)[1..]
      ensures Building(m0, mem, p, s', q, rem', length) && |s'| == |s| + 1 && rem' < rem
      ensures Further(rem') == Further(rem) - 1 && (Filled(old(mem), s, rem, h) ==> Filled(mem, s', rem', h))
    {
      hide Sound; hide Acyclic; hide Lawful; hide Chain; hide Bytes; hide Sized;
      SoundFacts(mem, pool, all, holders, 0, 0);
      q := pool[0];
      var len := Min(rem, PBUF_POOL_BUFSIZE);
      var b := PbufModel.Pbuf(0, len, rem, 1, POOL, seq(PBUF_POOL_BUFSIZE, junk));
      assert pool == [q] + pool[1..];
      AppendSound(mem, pool, all, holders, r, q, pool[1..], b);
      BuildStep(m0, mem, p, s, r, rem, length, q, b);
      if Filled(mem, s, rem, h) {
        FilledStep(mem, s, rem, h, r, q, b);
      }
      pool := pool[1..];
      mem := mem[q := b];
      mem := mem[r := mem[r].(next := q)];
      rem' := rem - len;
      s' := s + [q];
    }

    /** The chain built so far is freed. */
    method UndoAlloc(ghost m0: Mem, p: int, ghost s: seq<int>, ghost r: int, ghost rem: nat, ghost length: nat)
      requires Valid() && Building(m0, mem, p, s, r, rem, length) && Held(holders, p) > 0
      modifies this
      ensures Valid() && mem == m0 && p in old(holders) && holders == old(holders)[p := old(holders)[p] - 1]
    {
      hide Sound; hide Acyclic; hide Lawful; hide Chain; hide Bytes; hide Sized;
      SoundFacts(mem, pool, all, holders, 0, 0);
      HeldIn(mem, pool, all, holders, p);
      BuildUndo(m0, mem, p, s, r, rem, length);
      ChainUnique(mem, p, s, ChainOf(mem, p));
      var count := Free(p);
    }

    /** `pbuf_alloc` of one buffer of another kind; `at` is what `mem_malloc` or `memp_malloc`
        returned, 0 when there is no memory. */
    method AllocOne(kind: Kind, at: int, length: nat, data: seq<int>) returns (p: int)
      requires Valid() && kind != POOL && length <= |data| && length < U16 && (at != 0 ==> at !in mem && at !in all)
      modifies this
      ensures Valid() && p == at
      ensures p == 0 ==> mem == old(mem) && holders == old(holders)
      ensures p != 0 ==>
        mem == old(mem)[p := PbufModel.Pbuf(0, length, length, 1, kind, data)] && holders == Plus(old(holders), p)
      ensures pool == old(pool) && (Lawful(old(mem)) ==> Lawful(mem))
    {
      hide Sound; hide Lawful; hide Acyclic;
      p := at;
      if at == 0 { return; }
      var b := PbufModel.Pbuf(0, length, length, 1, kind, data);
      SoundFacts(mem, pool, all, holders, 0, 0);
      AddSound(mem, pool, pool, all, holders, p, b);
      AddLawful(mem, p, b);
      mem := mem[p := b];
      holders := Plus(holders, p);
    }

    /** A buffer for a copy of len bytes: from the pool if it fits there, otherwise from the heap. */
    method AllocCopy(len: nat, at: int, junk: nat -> int) returns (q: int)
      requires Valid() && len < U16 && (at != 0 ==> at !in mem && at !in all)
      modifies this
      ensures Valid()
      ensures q == 0 ==> mem == old(mem) && forall x :: Held(holders, x) == Held(old(holders), x)
      ensures q != 0 ==> q in mem && mem == old(mem)[q := mem[q]] && q !in old(mem) && Copyable(mem[q], len)
      ensures q != 0 ==>
        (mem[q].kind == POOL || q == at) && forall x :: Held(holders, x) == Held(Plus(old(holders), q), x)
      ensures q == 0 <==> at == 0 && (len > PBUF_POOL_BUFSIZE || |old(pool)| == 0)
      ensures |pool| == if len <= PBUF_POOL_BUFSIZE then Left(|old(pool)|, 1) else |old(pool)|
      ensures Lawful(old(mem)) ==> Lawful(mem)
    {
      hide Sound; hide Lawful; hide Acyclic; hide Building; hide Chain;
      q := 0;
      if len <= PBUF_POOL_BUFSIZE {
        q := AllocPool(RAW, len, junk);
        if q != 0 {
          SoundFacts(mem, pool, all, holders, 0, 0);
          ghost var r :| Building(old(mem), mem, q, ChainOf(mem, q), r, 0, len);
          BuiltSingle(old(mem), mem, q, ChainOf(mem, q), r, len);
        }
      }
      if q == 0 {
        ghost var h := holders;
        q := AllocOne(RAM, at, len, seq(len, junk));
        if q != 0 {
          forall x ensures Held(holders, x) == Held(Plus(old(holders), q), x) {
            assert Held(h, x) == Held(old(holders), x);
          }
        }
      }
    }

    /** The middle of `pbuf_take`: q takes the place of p after prev, with a copy of its bytes, and p
        loses the reference that led to it. */
    method Replace(prev: int, p: int, q: int)
      requires Valid() && p in mem && q in mem && q != p && mem[p].len <= |mem[p].data|
      requires Copyable(mem[q], mem[p].len) && Held(holders, q) == 1
      requires if prev == 0 then Held(holders, p) > 0 else prev in mem && mem[prev].next == p && prev != q && prev != p
      modifies this
      ensures Valid()
      ensures prev == 0 ==> forall x :: Held(holders, x) == Held(Minus(old(holders), p), x)
      ensures prev != 0 ==> forall x :: Held(holders, x) == Held(Minus(old(holders), q), x)
      ensures q in mem && mem[q] == Copied(old(mem)[q], old(mem)[p])
      ensures prev != 0 ==> prev in mem && mem[prev] == old(mem)[prev].(next := q)
      ensures forall x :: x in old(mem) && x != p && x != q && x != prev ==> x in mem && mem[x] == old(mem)[x]
      ensures forall x :: x in mem ==> x in old(mem)
      ensures p in mem <==> old(mem)[p].ref > 1
      ensures p in mem ==> mem[p].kind == old(mem)[p].kind
      ensures Lawful(old(mem)) && old(mem)[p].ref == 1 ==> Lawful(mem)
    {
      hide Sound; hide Lawful; hide Acyclic; hide Chain; hide Minus; hide Exact; hide Prefix; hide Freed;
      hide Relinked; hide Copied;
      ghost var m0, h0, pool0 := mem, holders, pool;
      SoundFacts(mem, pool, all, holders, 0, 0);
      FreshUnlinked(m0, pool, all, holders, q);
      Relink(prev, p, q);
      SoundFacts(mem, pool, all, holders, 0, 0);
      ghost var m2, h2 := mem, holders;
      RelinkedFacts(m0, prev, p, q);
      SingleChain(m2, p);
      FreedSingle(m2, p);
      var count := Free(p);
      ReplaceHeld(h0, h2, holders, prev, p, q);
      ReplaceLawful(m0, m2, mem, pool0, all, h0, prev, p, q);
    }

    method Relink(prev: int, p: int, q: int)
      requires Valid() && p in mem && q in mem && q != p && mem[p].len <= |mem[p].data|
      requires Copyable(mem[q], mem[p].len) && Held(holders, q) == 1
      requires if prev == 0 then Held(holders, p) > 0 else prev in mem && mem[prev].next == p && prev != q && prev != p
      requires forall x :: x in mem ==> mem[x].next != q
      modifies this
      ensures Valid() && pool == old(pool) && holders ==
        if prev == 0 then old(holders) else Plus(Minus(old(holders), q), p)
      ensures mem == Relinked(old(mem), prev, p, q)[q := Copied(old(mem)[q], old(mem)[p])]
    {
      hide Sound; hide Lawful; hide Acyclic; hide Chain; hide Minus; hide Exact;
      RelinkSound(mem, pool, all, holders, prev, p, q);
      var next := mem[p].next;
      mem := mem[q := mem[q].(next := next)];
      mem := mem[p := mem[p].(next := 0)];
      if prev != 0 {
        mem := mem[prev := mem[prev].(next := q)];
        holders := Plus(Minus(holders, q), p);
      }
      ghost var m1 := mem;
      var len := mem[p].len;
      mem := mem[q := mem[q].(totLen := mem[p].totLen, len := len, data := mem[p].data[..len] + mem[q].data[len..])];
      FieldSound(m1, mem, pool, all, holders);
    }

    /** One buffer of `pbuf_take`: the i-th of chain c is replaced if it refers to foreign memory. */
    method TakeStep(head: int, prev: int, p: int, at: int, junk: nat -> int, ghost c: seq<int>, ghost i: nat)
      returns (q: int, head': int)
      requires Valid() && Chain(mem, head, c) && Sized(mem, c) && i < |c| && p == c[i]
      requires prev == (if i == 0 then 0 else c[i - 1])
      requires p in mem && mem[p].kind == REF && mem[p].len < U16 && Held(holders, head) > 0
      requires (at != 0 ==> at !in mem && at !in all)
      modifies this
      ensures Valid()
      ensures q == 0 ==> mem == old(mem) && head' == head && forall x :: Held(holders, x) == Held(old(holders), x)
      ensures q != 0 ==>
        head' == (if i == 0 then q else head) && Chain(mem, head', c[i := q]) && q in mem && mem[q].kind != REF
      ensures q != 0 ==> Sized(mem, c[i := q]) && Bytes(mem, c[i := q]) == Bytes(old(mem), c)
      ensures q != 0 ==> forall x ::
        Held(holders, x) == Held(old(holders), x) - (if x == head then 1 else 0) + (if x == head' then 1 else 0)
      ensures q != 0 ==> forall x :: x in old(mem) && x != p ==> x in mem && mem[x] == old(mem)[x].(next := mem[x].next)
      ensures q != 0 ==> (q in all || q == at) && forall x :: x in mem ==> x in old(mem) || x == q
      ensures q != 0 ==> SameLength(mem[q], old(mem)[p])
      ensures q == 0 <==> at == 0 && (old(mem)[p].len > PBUF_POOL_BUFSIZE || |old(pool)| == 0)
      ensures q != 0 ==> |pool| == if old(mem)[p].len <= PBUF_POOL_BUFSIZE then Left(|old(pool)|, 1) else |old(pool)|
      ensures q != 0 && Lawful(old(mem)) && old(mem)[p].ref == 1 ==> Lawful(mem)
    {
      hide Sound; hide Lawful; hide Acyclic; hide Chain; hide Minus; hide Exact; hide Bytes; hide Sized; hide Copied;
      ghost var m0, h0 := mem, holders;
      SoundFacts(mem, pool, all, holders, 0, 0);
      head' := head;
      q := AllocCopy(mem[p].len, at, junk);
      if q == 0 { return; }
      ghost var m1, h1 := mem, holders;
      NewHeld(m0, h0, h1, q, old(pool), all);
      NewPlace(mem, pool, all, holders, m0, q, at);
      SizedAt(m0, c, i);
      BeforeInChain(m0, head, c, i, q);
      ghost var pool1 := pool;
      Replace(prev, p, q);
      SameUsed(m1, mem, pool1, pool, all, h1, holders, p);
      if prev == 0 {
        head' := q;
      }
      TakenHeld(h0, h1, holders, i, head, p, q);
      TakenChain(m0, m1, mem, head, c, i, q);
      TakenBytes(m0, m1, mem, head, c, i, q);
    }

    /** One turn of the loop of `pbuf_take`: the i-th buffer is copied if it has to be. */
    method TakeNext(head: int, prev: int, p: int, at: int, junk: nat -> int,
                    ghost m0: Mem, ghost s: seq<int>, ghost c: seq<int>, ghost i: nat)
      returns (ok: bool, q: int, head': int, ghost c': seq<int>)
      requires Valid() && Taking(m0, mem, head, s, c, i) && Narrow(m0, s) && i < |s| == |c| && s[i] in m0 && p == c[i]
      requires prev == (if i == 0 then 0 else c[i - 1]) && Held(holders, head) > 0
      requires (at != 0 ==> at !in mem && at !in all)
      modifies this
      ensures Valid()
      ensures !ok <==> m0[s[i]].kind == REF && at == 0 && (m0[s[i]].len > PBUF_POOL_BUFSIZE || |old(pool)| == 0)
      ensures !ok ==> head' == head && forall x :: Held(holders, x) == Held(old(holders), x)
      ensures ok ==> Taking(m0, mem, head', s, c', i + 1) && |c'| == |s| && q == c'[i] && head' != 0 && q in mem
      ensures ok ==> mem[q].next == (if i + 1 < |s| then c'[i + 1] else 0) && Handed(old(holders), holders, head, head')
      ensures ok ==>
        |pool| == Left(|old(pool)|, if m0[s[i]].kind == REF && m0[s[i]].len <= PBUF_POOL_BUFSIZE then 1 else 0)
      ensures ok ==> forall x :: x in mem ==> x in old(mem) || x in all || x == at
      ensures ok && Lawful(old(mem)) && m0[s[i]].ref == 1 ==> Lawful(mem)
    {
      hide Sound; hide Lawful; hide Acyclic; hide Chain; hide Exact; hide Bytes; hide Sized; hide Taking; hide Narrow;
      SoundFacts(mem, pool, all, holders, 0, 0);
      TakingAt(m0, mem, head, s, c, i);
      NarrowAt(m0, s, i);
      ok, q, head', c' := true, p, head, c;
      if mem[p].kind == REF {
        ghost var m1, h1 := mem, holders;
        q, head' := TakeStep(head, prev, p, at, junk, c, i);
        if q == 0 {
          ok := false;
          return;
        }
        TakingStep(m0, m1, mem, head, head', s, c, i, q);
        c' := c[i := q];
        HandedIs(h1, holders, head, head');
        SoundFacts(mem, pool, all, holders, 0, 0);
      } else {
        TakingSkip(m0, mem, head, s, c, i);
        HandedIs(holders, holders, head, head);
      }
      TakingNext(m0, mem, head', s, c', i);
      TakingHead(m0, mem, head', s, c', i + 1);
    }

    /** `pbuf_take`: every buffer that refers to foreign memory is replaced by a copy.  `ram[i]` is
        what the heap returns if a buffer is asked for at the i-th place of the chain. */
    method Take(p0: int, ram: seq<int>, junk: nat -> int) returns (head: int)
      requires Valid() && Held(holders, p0) > 0 && p0 in mem && Narrow(mem, ChainOf(mem, p0))
      requires |ram| >= |ChainOf(mem, p0)|
      requires forall i :: 0 <= i < |ram| && ram[i] != 0 ==> ram[i] !in mem && ram[i] !in all
      requires forall i, j :: 0 <= i < j < |ram| && ram[i] != 0 ==> ram[i] != ram[j]
      modifies this
      ensures Valid()
      ensures forall x ::
        Held(holders, x) == Held(old(holders), x) - (if x == p0 then 1 else 0) + (if x == head != 0 then 1 else 0)
      ensures head != 0 ==> head in mem && TakenTo(old(mem), mem, ChainOf(old(mem), p0), ChainOf(mem, head))
      ensures head == 0 <==> TakeFails(old(mem), ChainOf(old(mem), p0), ram, |old(pool)|)
      ensures head != 0 && LawfulChain(old(mem), ChainOf(old(mem), p0)) ==> LawfulChain(mem, ChainOf(mem, head))
      ensures head != 0 && Lawful(old(mem)) && AllOnce(old(mem), ChainOf(old(mem), p0)) ==> Lawful(mem)
    {
      hide Sound; hide Lawful; hide LawfulChain; hide Acyclic; hide Chain; hide Exact; hide Bytes; hide Sized;
      hide SmallRefs;
      hide Taking; hide TakenTo; hide Narrow; hide AllOnce; hide Handed;
      SoundFacts(mem, pool, all, holders, 0, 0);
      ghost var m0, s := mem, ChainOf(mem, p0);
      ChainNonZero(m0, p0, s);
      NarrowSized(m0, s);
      NoRefs(m0, s);
      TakingStart(m0, p0, s);
      HandedIs(holders, holders, p0, p0);
      var prev, p, i := 0, p0, 0;
      head := p0;
      ghost var c := s;
      while p != 0
        invariant 0 <= i <= |s| == |c| && p == (if i < |s| then c[i] else 0) && prev == (if i == 0 then 0 else c[i - 1])
        invariant Valid() && head != 0 && Taking(m0, mem, head, s, c, i) && Handed(old(holders), holders, p0, head)
        invariant forall j :: i <= j < |ram| && ram[j] != 0 ==> ram[j] !in mem && ram[j] !in all
        invariant Lawful(m0) && AllOnce(m0, s) ==> Lawful(mem)
        invariant |pool| == Left(|old(pool)|, SmallRefs(m0, s[..i]))
        invariant forall j :: 0 <= j < i ==> !FailsAt(m0, s, ram, |old(pool)|, j)
        decreases |s| - i
      {
        OnceAt(m0, s, i);
        RefsNext(m0, s, i);
        HandedHead(old(holders), holders, p0, head);
        ghost var h1 := holders;
        var ok, q, head';
        ghost var c';
        ok, q, head', c' := TakeNext(head, prev, p, ram[i], junk, m0, s, c, i);
        if !ok {
          assert FailsAt(m0, s, ram, |old(pool)|, i);
          HandedSame(old(holders), h1, holders, p0, head);
          HandedHead(old(holders), holders, p0, head);
          ghost var h2 := holders;
          var count := Free(head);
          HandedBack(old(holders), h2, holders, p0, head);
          return 0;
        }
        HandedOn(old(holders), h1, holders, p0, head, head');
        head, prev, c := head', q, c';
        p := mem[q].next;
        i := i + 1;
      }
      SoundFacts(mem, pool, all, holders, 0, 0);
      if i < |s| {
        TakingAt(m0, mem, head, s, c, i);
      }
      TakingDone(m0, mem, head, s, c);
      HandedHead(old(holders), holders, p0, head);
      if LawfulChain(m0, s) {
        TakenLaw(m0, mem, p0, head, s, ChainOf(mem, head));
      }
    }
  }
}
