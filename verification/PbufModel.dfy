/**
  Reference-counted packet buffers (kernel/lwip/src/core/pbuf.c): chains, reference counts and
  the length law, as facts about a table of buffers.  Address 0 is NULL.
*/
module PbufModel {
  datatype Kind = POOL | RAM | ROM | REF

  /** `data` are the bytes from the payload pointer to the end of the buffer. */
  datatype Pbuf = Pbuf(next: int, len: nat, totLen: nat, ref: nat, kind: Kind, data: seq<int>)

  type Mem = map<int, Pbuf>

  const U16 := 0x1_0000

  // ----- chains -----

  /** s lists the buffers from p on, along the next pointers. */
  ghost predicate Chain(m: Mem, p: int, s: seq<int>)
    decreases |s|
  {
    if s == [] then p == 0 else p != 0 && p == s[0] && p in m && Chain(m, m[p].next, s[1..])
  }

  /** Every next pointer leads to a buffer, and no chain is circular. */
  ghost predicate Acyclic(m: Mem) {
    0 !in m && forall p :: p in m ==> exists s :: Chain(m, p, s)
  }

  ghost function ChainOf(m: Mem, p: int): (s: seq<int>)
    requires Acyclic(m) && (p == 0 || p in m)
    ensures Chain(m, p, s)
  {
    if p == 0 then [] else var s :| Chain(m, p, s); s
  }

  lemma {:induction false} ChainUnique(m: Mem, p: int, s: seq<int>, t: seq<int>)
    requires Chain(m, p, s) && Chain(m, p, t)
    ensures s == t
    decreases |s|
  {
    if s != [] && t != [] {
      ChainUnique(m, m[p].next, s[1..], t[1..]);
      assert s == [s[0]] + s[1..] && t == [t[0]] + t[1..];
    }
  }

  lemma {:induction false} ChainAt(m: Mem, p: int, s: seq<int>, i: nat)
    requires Chain(m, p, s) && i <= |s|
    ensures Chain(m, if i < |s| then s[i] else 0, s[i..])
    ensures i < |s| ==> s[i] in m && s[i] != 0 && m[s[i]].next == (if i + 1 < |s| then s[i + 1] else 0)
    decreases i
  {
    if i > 0 {
      ChainAt(m, m[p].next, s[1..], i - 1);
      assert s[1..][i - 1..] == s[i..];
      assert i < |s| ==> s[1..][i - 1] == s[i];
      assert i + 1 < |s| ==> s[1..][i] == s[i + 1];
    } else if s != [] {
      assert s[1..] != [] ==> s[1..][0] == s[1];
      assert s[0..] == s;
    }
  }

  /** A chain visits no buffer twice. */
  lemma ChainNoDup(m: Mem, p: int, s: seq<int>, i: nat, j: nat)
    requires Chain(m, p, s) && i < j < |s|
    ensures s[i] != s[j]
  {
    ChainAt(m, p, s, i);
    ChainAt(m, p, s, j);
    if s[i] == s[j] {
      ChainUnique(m, s[i], s[i..], s[j..]);
    }
  }

  lemma ChainNonZero(m: Mem, p: int, s: seq<int>)
    requires Chain(m, p, s)
    ensures forall j :: 0 <= j < |s| ==> s[j] != 0 && s[j] in m
    ensures p != 0 ==> s != [] && s[0] == p
  {
    forall j | 0 <= j < |s| ensures s[j] != 0 && s[j] in m {
      ChainAt(m, p, s, j);
    }
  }

  /** A chain depends only on the next pointers of its members. */
  lemma {:induction false} ChainFrame(m: Mem, m': Mem, p: int, s: seq<int>)
    requires Chain(m, p, s)
    requires forall x :: x in s ==> x in m && x in m' && m'[x].next == m[x].next
    ensures Chain(m', p, s)
    decreases |s|
  {
    if s != [] {
      assert forall x :: x in s[1..] ==> x in s;
      ChainFrame(m, m', m[p].next, s[1..]);
    }
  }

  lemma {:induction false} ChainMembers(m: Mem, p: int, s: seq<int>)
    requires Chain(m, p, s)
    ensures forall x :: x in s ==> x in m && x != 0
    decreases |s|
  {
    if s != [] {
      ChainMembers(m, m[p].next, s[1..]);
      assert forall x :: x in s ==> x == s[0] || x in s[1..];
    }
  }

  /** Whatever is in a chain after its head is linked to. */
  lemma ChainLinked(m: Mem, p: int, s: seq<int>, x: int) returns (y: int)
    requires Chain(m, p, s) && x in s && x != p
    ensures y in m && y in s && m[y].next == x
  {
    var i :| 0 <= i < |s| && s[i] == x;
    assert i > 0;
    ChainAt(m, p, s, i - 1);
    y := s[i - 1];
  }

  /** A piece of a chain followed by another chain. */
  lemma {:induction false} ChainJoin(m: Mem, m': Mem, p: int, s: seq<int>, t: int, u: seq<int>)
    requires Chain(m, p, s) && s != [] && Chain(m', t, u)
    requires var last := s[|s| - 1]; last in m' && m'[last].next == t
    requires forall x :: x in s && x != s[|s| - 1] ==> x in m && x in m' && m'[x].next == m[x].next
    ensures Chain(m', p, s + u)
    decreases |s|
  {
    var last := s[|s| - 1];
    if |s| == 1 {
      assert (s + u)[1..] == u;
    } else {
      var r := s[1..];
      assert r[|r| - 1] == last;
      assert forall x :: x in r ==> x in s;
      ChainJoin(m, m', m[p].next, r, t, u);
      assert (s + u)[1..] == r + u;
      ChainNoDup(m, p, s, 0, |s| - 1);
    }
  }

  /** The part of a chain up to one of its members, when that member is cut off from the rest. */
  lemma {:induction false} ChainCut(m: Mem, m': Mem, p: int, s: seq<int>, i: nat)
    requires Chain(m, p, s) && i < |s| && s[i] in m' && m'[s[i]].next == 0
    requires forall j :: 0 <= j < i ==> s[j] in m && s[j] in m' && m'[s[j]].next == m[s[j]].next
    ensures Chain(m', p, s[..i + 1])
    decreases i
  {
    if i == 0 {
      assert s[..1] == [s[0]];
    } else {
      assert forall j :: 0 <= j < i - 1 ==> s[1..][j] == s[j + 1];
      ChainCut(m, m', m[p].next, s[1..], i - 1);
      assert s[..i + 1][1..] == s[1..][..i];
    }
  }

  // ----- the effect of the pointer operations on chains -----

  lemma AcyclicDrop(m: Mem, p: int)
    requires Acyclic(m) && p in m && forall x :: x in m ==> m[x].next != p
    ensures Acyclic(m - {p})
  {
    forall x | x in m - {p} ensures exists s :: Chain(m - {p}, x, s) {
      var s := ChainOf(m, x);
      ChainMembers(m, x, s);
      if p in s {
        var y := ChainLinked(m, x, s, p);
      }
      ChainFrame(m, m - {p}, x, s);
    }
  }

  lemma AcyclicAdd(m: Mem, p: int, b: Pbuf)
    requires Acyclic(m) && p != 0 && p !in m && (b.next == 0 || b.next in m)
    ensures Acyclic(m[p := b])
  {
    var m' := m[p := b];
    forall x | x in m' ensures exists s :: Chain(m', x, s) {
      var s := ChainOf(m, if x == p then b.next else x);
      ChainMembers(m, if x == p then b.next else x, s);
      ChainFrame(m, m', if x == p then b.next else x, s);
      if x == p {
        assert ([p] + s)[1..] == s;
        assert Chain(m', x, [p] + s);
      }
    }
  }

  lemma AcyclicCut(m: Mem, p: int)
    requires Acyclic(m) && p in m
    ensures Acyclic(m[p := m[p].(next := 0)])
  {
    var m' := m[p := m[p].(next := 0)];
    forall x | x in m' ensures exists s :: Chain(m', x, s) {
      var s := ChainOf(m, x);
      ChainMembers(m, x, s);
      if p in s {
        var i :| 0 <= i < |s| && s[i] == p;
        forall j | 0 <= j < i ensures s[j] in m && s[j] in m' && m'[s[j]].next == m[s[j]].next {
          ChainNoDup(m, x, s, j, i);
          assert s[j] in s;
        }
        ChainCut(m, m', x, s, i);
      } else {
        ChainFrame(m, m', x, s);
      }
    }
  }

  /** The end of a chain is linked to a buffer from which that end cannot be reached. */
  lemma AcyclicLink(m: Mem, p: int, t: int)
    requires Acyclic(m) && p in m && m[p].next == 0 && t in m && p !in ChainOf(m, t)
    ensures Acyclic(m[p := m[p].(next := t)])
  {
    var m' := m[p := m[p].(next := t)];
    var u := ChainOf(m, t);
    ChainMembers(m, t, u);
    ChainFrame(m, m', t, u);
    forall x | x in m' ensures exists s :: Chain(m', x, s) {
      var s := ChainOf(m, x);
      ChainMembers(m, x, s);
      if p in s {
        LastOf(m, x, s, p);
        ChainJoin(m, m', x, s, t, u);
      } else {
        ChainFrame(m, m', x, s);
      }
    }
  }

  lemma LastOf(m: Mem, p: int, s: seq<int>, x: int)
    requires Chain(m, p, s) && x in s && x in m && m[x].next == 0
    ensures s != [] && s[|s| - 1] == x
  {
    var i :| 0 <= i < |s| && s[i] == x;
    ChainAt(m, p, s, i);
    ChainNonZero(m, p, s);
  }

  // ----- reference counts -----

  ghost function LinksTo(m: Mem, p: int): set<int> { set q | q in m && m[q].next == p }

  function Held(h: map<int, nat>, p: int): nat { if p in h then h[p] else 0 }

  /** Every count is the number of outside holders plus the number of links; buffer d has `extra`
      references that are about to be given up. */
  ghost predicate Exact(m: Mem, h: map<int, nat>, d: int, extra: int) {
    forall p :: p in m ==> m[p].ref == Held(h, p) + |LinksTo(m, p)| + (if p == d then extra else 0)
  }

  ghost predicate Positive(m: Mem) { forall p :: p in m ==> m[p].ref > 0 }

  lemma LinksDrop(m: Mem, p: int, x: int)
    requires p in m
    ensures LinksTo(m - {p}, x) == LinksTo(m, x) - {p}
    ensures |LinksTo(m - {p}, x)| == |LinksTo(m, x)| - (if m[p].next == x then 1 else 0)
  {
  }

  lemma LinksSet(m: Mem, p: int, b: Pbuf, x: int)
    requires p in m
    ensures |LinksTo(m[p := b], x)|
         == |LinksTo(m, x)| - (if m[p].next == x then 1 else 0) + (if b.next == x then 1 else 0)
  {
    assert LinksTo(m[p := b], x) == LinksTo(m, x) - {p} + (if b.next == x then {p} else {});
  }

  lemma LinksAdd(m: Mem, p: int, b: Pbuf, x: int)
    requires p !in m
    ensures |LinksTo(m[p := b], x)| == |LinksTo(m, x)| + (if b.next == x then 1 else 0)
  {
    assert LinksTo(m[p := b], x) == LinksTo(m, x) + (if b.next == x then {p} else {});
  }

  /** A count of one that is about to be given up: nobody holds the buffer or links to it. */
  lemma Unreferenced(m: Mem, h: map<int, nat>, p: int)
    requires Exact(m, h, p, 1) && p in m && m[p].ref == 1
    ensures Held(h, p) == 0 && forall x :: x in m ==> m[x].next != p
  {
    forall x | x in m ensures m[x].next != p {
      assert m[x].next == p ==> x in LinksTo(m, p);
    }
  }

  lemma ExactDrop(m: Mem, h: map<int, nat>, p: int)
    requires Exact(m, h, p, 1) && p in m && m[p].ref == 1 && m[p].next != p
    ensures Exact(m - {p}, h, m[p].next, 1)
  {
    forall x | x in m - {p} ensures
      (m - {p})[x].ref == Held(h, x) + |LinksTo(m - {p}, x)| + (if x == m[p].next then 1 else 0)
    {
      LinksDrop(m, p, x);
    }
  }

  lemma ExactSettle(m: Mem, h: map<int, nat>, p: int)
    requires Exact(m, h, p, 1) && p in m && m[p].ref > 0
    ensures Exact(m[p := m[p].(ref := m[p].ref - 1)], h, 0, 0)
  {
    var m' := m[p := m[p].(ref := m[p].ref - 1)];
    forall x ensures |LinksTo(m', x)| == |LinksTo(m, x)| {
      LinksSet(m, p, m'[p], x);
    }
  }

  // ----- the length law and the contents -----

  function Rest(m: Mem, n: int): nat { if n in m then m[n].totLen else 0 }

  /** `tot_len` is `len` plus the total of the next buffer, in 16 bits. */
  ghost predicate Lawful(m: Mem) {
    forall p :: p in m ==>
      m[p].len <= |m[p].data| && m[p].len < U16 && m[p].totLen == (m[p].len + Rest(m, m[p].next)) % U16
  }

  /** No buffer outside s links into s. */
  ghost predicate Unshared(m: Mem, s: seq<int>) {
    forall x :: x in m && m[x].next in s ==> x in s
  }

  ghost predicate Sized(m: Mem, s: seq<int>) {
    forall i :: 0 <= i < |s| ==> s[i] in m && m[s[i]].len <= |m[s[i]].data|
  }

  /** The bytes of a chain. */
  ghost function Bytes(m: Mem, s: seq<int>): seq<int>
    requires Sized(m, s)
  {
    if s == [] then [] else m[s[0]].data[..m[s[0]].len] + Bytes(m, s[1..])
  }

  lemma {:induction false} BytesJoin(m: Mem, s: seq<int>, t: seq<int>)
    requires Sized(m, s) && Sized(m, t)
    ensures Sized(m, s + t) && Bytes(m, s + t) == Bytes(m, s) + Bytes(m, t)
  {
    if s == [] {
      assert s + t == t;
    } else {
      SizedTail(m, s);
      BytesJoin(m, s[1..], t);
      SizedJoin(m, s, t);
      assert (s + t)[1..] == s[1..] + t;
    }
  }

  lemma SizedTail(m: Mem, s: seq<int>)
    requires Sized(m, s) && s != []
    ensures Sized(m, s[1..])
  {
  }

  lemma SizedJoin(m: Mem, s: seq<int>, t: seq<int>)
    requires Sized(m, s) && Sized(m, t)
    ensures Sized(m, s + t)
  {
  }

  lemma {:induction false} BytesFrame(m: Mem, m': Mem, s: seq<int>)
    requires Sized(m, s)
    requires forall i :: 0 <= i < |s| ==> s[i] in m' && m[s[i]].len == m'[s[i]].len && m[s[i]].data == m'[s[i]].data
    ensures Sized(m', s) && Bytes(m', s) == Bytes(m, s)
  {
    if s != [] {
      BytesFrame(m, m', s[1..]);
    }
  }

  ghost predicate LawAt(m: Mem, x: int)
    requires x in m
  {
    m[x].len <= |m[x].data| && m[x].len < U16 && m[x].totLen == (m[x].len + Rest(m, m[x].next)) % U16
  }

  /** The law holds at every buffer of a chain, whatever the rest of the table looks like. */
  ghost predicate LawfulChain(m: Mem, s: seq<int>) {
    forall i :: 0 <= i < |s| ==> s[i] in m && LawAt(m, s[i])
  }

  lemma LawfulSized(m: Mem, s: seq<int>)
    requires LawfulChain(m, s)
    ensures Sized(m, s)
  {
  }

  lemma LawfulTail(m: Mem, s: seq<int>, i: nat)
    requires LawfulChain(m, s) && i <= |s|
    ensures LawfulChain(m, s[i..])
  {
  }

  /** The length of a chain's contents is the total of its head, in 16 bits. */
  lemma {:induction false} TotalLength(m: Mem, p: int, s: seq<int>)
    requires LawfulChain(m, s) && Chain(m, p, s) && 0 !in m
    ensures Sized(m, s) && |Bytes(m, s)| % U16 == Rest(m, p)
    decreases |s|
  {
    LawfulSized(m, s);
    if s != [] {
      LawfulTail(m, s, 1);
      TotalLength(m, m[p].next, s[1..]);
      TotalStep(m, p, s);
    }
  }

  lemma TotalStep(m: Mem, p: int, s: seq<int>)
    requires LawfulChain(m, s) && s != [] && s[0] == p && p in m && Sized(m, s) && Sized(m, s[1..])
    requires |Bytes(m, s[1..])| % U16 == Rest(m, m[p].next)
    ensures |Bytes(m, s)| % U16 == Rest(m, p)
  {
    assert LawAt(m, s[0]);
    assert |Bytes(m, s)| == m[p].len + |Bytes(m, s[1..])|;
    hide Bytes; hide LawfulChain; hide Sized;
    ModCarry(m[p].len, |Bytes(m, s[1..])|);
  }

  lemma ModCarry(a: nat, b: nat)
    ensures (a + b) % U16 == (a + b % U16) % U16
  {
  }
}
