/**
  The heap of lwIP (kernel/lwip/src/core/mem.c): blocks of one array, linked both ways by offsets.
  A block is its header, of 6 bytes, and the memory up to the next block.  Memory handed out is
  named by its offset in the array; 0, which is never handed out, stands for NULL.
*/
module LwipHeap {
  const MEM_SIZE := 1600
  const HEADER := 6     // SIZEOF_STRUCT_MEM, with MEM_ALIGNMENT 1
  const MIN_SIZE := 12
  const WORD := 0x1_0000_0000

  datatype Block = Block(next: int, prev: int, used: bool)

  type Blocks = map<int, Block>

  // ----- the invariant -----

  /** The links of block p agree with its neighbours, and it is at least one header wide. */
  predicate Linked(b: Blocks, starts: set<int>, p: int) {
    && p in b && 0 <= p && p + HEADER <= b[p].next <= MEM_SIZE && b[p].next in b
    && (b[p].next == MEM_SIZE || (b[p].next in starts && b[b[p].next].prev == p))
    && (p == 0 ==> b[p].prev == 0)
    && (p != 0 ==> b[p].prev in starts && b[p].prev in b && b[b[p].prev].next == p)
  }

  predicate Apart(b: Blocks, p: int, q: int) { p in b && p < q ==> b[p].next <= q }

  /** The blocks tile [0, MEM_SIZE); the end marker counts as used. */
  ghost predicate Tiled(b: Blocks, starts: set<int>) {
    && 0 in starts && MEM_SIZE !in starts && MEM_SIZE in b && b[MEM_SIZE].used && b[MEM_SIZE].next == MEM_SIZE
    && (forall p {:trigger Linked(b, starts, p)} :: p in starts ==> Linked(b, starts, p))
    && (forall p, q {:trigger Apart(b, p, q)} :: p in starts && q in starts ==> Apart(b, p, q))
  }

  predicate Free(b: Blocks, p: int) { p in b && !b[p].used }

  predicate Touches(b: Blocks, p: int) { Free(b, p) && Free(b, b[p].next) }

  /** No two adjacent blocks are free, except that block x may touch the one after it and y the one
      before it. */
  ghost predicate Separate(b: Blocks, starts: set<int>, x: int, y: int) {
    forall p {:trigger Touches(b, p)} :: p in starts && Touches(b, p) ==> p == x || b[p].next == y
  }

  ghost predicate Inv(b: Blocks, starts: set<int>, lfree: int) {
    Tiled(b, starts) && Separate(b, starts, -1, -1) && lfree in starts && Free(b, lfree)
  }

  /** lfree is the lowest free block. */
  ghost predicate Lowest(b: Blocks, starts: set<int>, lfree: int) {
    forall p :: p in starts && Free(b, p) ==> lfree <= p
  }

  /** The memory in use, by block, with its size. */
  ghost function Live(b: Blocks, starts: set<int>): map<int, int> {
    map p | p in starts && p in b && b[p].used :: b[p].next - p - HEADER
  }

  lemma LinkAt(b: Blocks, starts: set<int>, p: int)
    requires Tiled(b, starts) && p in starts
    ensures Linked(b, starts, p) && p < MEM_SIZE
  {
    hide Apart;
  }

  lemma Ordered(b: Blocks, starts: set<int>, p: int, q: int)
    requires Tiled(b, starts) && p in starts && q in starts
    ensures p in b && (p < q ==> b[p].next <= q)
  {
    assert Linked(b, starts, p);
    assert Apart(b, p, q);
  }

  lemma NextDistinct(b: Blocks, starts: set<int>, p: int, q: int)
    requires Tiled(b, starts) && p in starts && q in starts && p != q
    ensures p in b && q in b && b[p].next != b[q].next
  {
    hide Tiled;
    LinkAt(b, starts, p);
    LinkAt(b, starts, q);
    Ordered(b, starts, p, q);
    Ordered(b, starts, q, p);
  }

  // ----- splitting -----

  /** Block p ends at q, where a free block begins. */
  function Split(b: Blocks, p: int, q: int): Blocks
    requires p in b && b[p].next in b
  {
    var n := b[p].next;
    var b1 := b[q := Block(n, p, false)][p := b[p].(next := q)];
    if n != MEM_SIZE then b1[n := b[n].(prev := q)] else b1
  }

  predicate Inside(b: Blocks, p: int, q: int) { p in b && p + HEADER <= q && q + HEADER <= b[p].next }

  lemma SplitNew(b: Blocks, starts: set<int>, p: int, q: int)
    requires Tiled(b, starts) && p in starts && Inside(b, p, q)
    ensures q !in starts && q < MEM_SIZE
  {
    hide Tiled;
    LinkAt(b, starts, p);
    if q in starts {
      Ordered(b, starts, p, q);
    }
  }

  lemma SplitLinked(b: Blocks, starts: set<int>, p: int, q: int, x: int)
    requires Tiled(b, starts) && p in starts && Inside(b, p, q) && x in starts + {q}
    ensures b[p].next in b && Linked(Split(b, p, q), starts + {q}, x)
  {
    hide Tiled;
    SplitNew(b, starts, p, q);
    LinkAt(b, starts, p);
    if x != q {
      LinkAt(b, starts, x);
      if x != 0 {
        LinkAt(b, starts, b[x].prev);
      }
      if x != p {
        NextDistinct(b, starts, p, x);
        Ordered(b, starts, p, x);
        Ordered(b, starts, x, p);
      }
    }
  }

  lemma SplitApart(b: Blocks, starts: set<int>, p: int, q: int, x: int, y: int)
    requires Tiled(b, starts) && p in starts && Inside(b, p, q) && x in starts + {q} && y in starts + {q}
    ensures b[p].next in b && Apart(Split(b, p, q), x, y)
  {
    hide Tiled;
    SplitNew(b, starts, p, q);
    LinkAt(b, starts, p);
    if x != q {
      Ordered(b, starts, x, p);
      Ordered(b, starts, p, x);
      if y != q {
        Ordered(b, starts, x, y);
      }
    }
    if y != q {
      Ordered(b, starts, p, y);
    }
  }

  lemma SplitTiled(b: Blocks, starts: set<int>, p: int, q: int)
    requires Tiled(b, starts) && p in starts && Inside(b, p, q)
    ensures q !in starts && b[p].next in b && Tiled(Split(b, p, q), starts + {q})
  {
    SplitNew(b, starts, p, q);
    LinkAt(b, starts, p);
    var b', s' := Split(b, p, q), starts + {q};
    hide Linked; hide Apart;
    forall x | x in s' ensures Linked(b', s', x) {
      SplitLinked(b, starts, p, q, x);
    }
    forall x, y | x in s' && y in s' ensures Apart(b', x, y) {
      SplitApart(b, starts, p, q, x, y);
    }
  }

  // ----- joining -----

  /** Block p takes over the block after it. */
  function Join(b: Blocks, p: int): Blocks
    requires p in b && b[p].next in b && b[b[p].next].next in b
  {
    var n := b[p].next;
    var m := b[n].next;
    var b1 := b[p := b[p].(next := m)];
    b1[m := b1[m].(prev := p)]
  }

  lemma JoinLinked(b: Blocks, starts: set<int>, p: int, x: int)
    requires Tiled(b, starts) && p in starts && p in b && b[p].next in starts && x in starts && x != b[p].next
    ensures b[p].next in b && b[b[p].next].next in b && Linked(Join(b, p), starts - {b[p].next}, x)
  {
    hide Tiled;
    var n := b[p].next;
    LinkAt(b, starts, p);
    LinkAt(b, starts, n);
    LinkAt(b, starts, x);
    if x != 0 {
      LinkAt(b, starts, b[x].prev);
    }
    if x != p {
      NextDistinct(b, starts, p, x);
      NextDistinct(b, starts, n, x);
    }
    Ordered(b, starts, n, x);
    Ordered(b, starts, p, x);
  }

  lemma JoinApart(b: Blocks, starts: set<int>, p: int, x: int, y: int)
    requires Tiled(b, starts) && p in starts && p in b && b[p].next in starts && x in starts && y in starts
    requires x != b[p].next && y != b[p].next
    ensures b[p].next in b && b[b[p].next].next in b && Apart(Join(b, p), x, y)
  {
    hide Tiled;
    var n := b[p].next;
    LinkAt(b, starts, p);
    LinkAt(b, starts, n);
    Ordered(b, starts, x, y);
    Ordered(b, starts, p, y);
    Ordered(b, starts, n, y);
  }

  lemma EndStays(b: Blocks, starts: set<int>, p: int)
    requires Tiled(b, starts) && p in starts && p in b && b[p].next in starts
    ensures b[p].next in b && b[b[p].next].next in b && b[p].next != 0
    ensures MEM_SIZE in Join(b, p) && Join(b, p)[MEM_SIZE].used && Join(b, p)[MEM_SIZE].next == MEM_SIZE
  {
    LinkAt(b, starts, p);
    LinkAt(b, starts, b[p].next);
  }

  lemma JoinTiled(b: Blocks, starts: set<int>, p: int)
    requires Tiled(b, starts) && p in starts && p in b && b[p].next in starts
    ensures b[p].next in b && b[b[p].next].next in b && Tiled(Join(b, p), starts - {b[p].next})
  {
    EndStays(b, starts, p);
    hide Linked; hide Apart;
    var b', s' := Join(b, p), starts - {b[p].next};
    forall x | x in s' ensures Linked(b', s', x) {
      JoinLinked(b, starts, p, x);
    }
    forall x, y | x in s' && y in s' ensures Apart(b', x, y) {
      JoinApart(b, starts, p, x, y);
    }
  }

  // ----- marking -----

  function Marked(b: Blocks, p: int, used: bool): Blocks
    requires p in b
  {
    b[p := b[p].(used := used)]
  }

  lemma MarkTiled(b: Blocks, starts: set<int>, p: int, used: bool)
    requires Tiled(b, starts) && p in starts && p in b
    ensures Tiled(Marked(b, p, used), starts)
  {
    var b' := Marked(b, p, used);
    forall x | x in starts ensures Linked(b', starts, x) {
      MarkLinked(b, starts, p, used, x);
    }
    forall x, y | x in starts && y in starts ensures Apart(b', x, y) {
      assert Linked(b, starts, x);
      assert Apart(b, x, y);
    }
  }

  lemma MarkLinked(b: Blocks, starts: set<int>, p: int, used: bool, x: int)
    requires Tiled(b, starts) && p in starts && p in b && x in starts
    ensures Linked(Marked(b, p, used), starts, x)
  {
    hide Tiled;
    LinkAt(b, starts, x);
  }

  // ----- what the operations do to free and used blocks -----

  /** A free block with room for `size` bytes and the header of what is left. */
  predicate Fits(b: Blocks, p: int, size: nat) { Free(b, p) && b[p].next - p - HEADER >= size + HEADER }

  lemma TakeSeparate(b: Blocks, starts: set<int>, p: int, q: int)
    requires Tiled(b, starts) && Separate(b, starts, -1, -1) && p in starts && Inside(b, p, q) && Free(b, p)
    requires b[p].next in b
    ensures p in Split(b, p, q) && Separate(Marked(Split(b, p, q), p, true), starts + {q}, -1, -1)
  {
    LinkAt(b, starts, p);
    SplitNew(b, starts, p, q);
    var b' := Marked(Split(b, p, q), p, true);
    forall x | x in starts + {q} ensures !Touches(b', x) {
      if x != q && x != p {
        LinkAt(b, starts, x);
        NextDistinct(b, starts, p, x);
      }
      assert !Touches(b, p);
      assert x in starts ==> !Touches(b, x);
    }
  }

  lemma TakeLive(b: Blocks, starts: set<int>, p: int, q: int)
    requires Tiled(b, starts) && p in starts && Inside(b, p, q) && b[p].next in b
    ensures p in Split(b, p, q)
    ensures Live(Marked(Split(b, p, q), p, true), starts + {q}) == Live(b, starts)[p := q - p - HEADER]
  {
    SplitNew(b, starts, p, q);
    LinkAt(b, starts, p);
    hide Tiled;
    var b' := Marked(Split(b, p, q), p, true);
    forall x | x in starts
      ensures x in b && x in b' && (x != p ==> b'[x].used == b[x].used && b'[x].next == b[x].next)
    {
      LinkAt(b, starts, x);
    }
  }

  lemma ForwardJoin(b: Blocks, starts: set<int>, p: int)
    requires Tiled(b, starts) && Separate(b, starts, p, p) && p in starts && Free(b, p) && b[p].next in starts
    requires Free(b, b[p].next)
    ensures b[b[p].next].next in b && Separate(Join(b, p), starts - {b[p].next}, -1, p)
    ensures Live(Join(b, p), starts - {b[p].next}) == Live(b, starts)
    ensures forall x :: x in starts && x != b[p].next ==> (Free(Join(b, p), x) <==> Free(b, x))
  {
    var n := b[p].next;
    LinkAt(b, starts, p);
    LinkAt(b, starts, n);
    JoinFree(b, starts, p);
    var b', s' := Join(b, p), starts - {n};
    forall x | x in s' ensures Touches(b', x) ==> b'[x].next == p {
      LinkAt(b, starts, x);
      if x != p {
        NextDistinct(b, starts, p, x);
        assert Touches(b', x) ==> Touches(b, x);
      } else {
        assert Touches(b', x) ==> Touches(b, n);
      }
    }
  }

  /** Joining two free blocks changes nothing else. */
  lemma JoinFree(b: Blocks, starts: set<int>, p: int)
    requires Tiled(b, starts) && p in starts && Free(b, p) && b[p].next in starts && Free(b, b[p].next)
    ensures b[b[p].next].next in b && Live(Join(b, p), starts - {b[p].next}) == Live(b, starts)
    ensures forall x :: x in b ==> x in Join(b, p) && (Free(Join(b, p), x) <==> Free(b, x))
    ensures forall x :: x in b && x != p ==> Join(b, p)[x].next == b[x].next
  {
    LinkAt(b, starts, p);
    LinkAt(b, starts, b[p].next);
  }

  lemma NoForward(b: Blocks, starts: set<int>, p: int)
    requires Separate(b, starts, p, p) && p in b && !Free(b, b[p].next)
    ensures Separate(b, starts, -1, p)
  {
  }

  lemma BackwardJoin(b: Blocks, starts: set<int>, p: int, m: int)
    requires Tiled(b, starts) && Separate(b, starts, -1, m) && p in starts && Free(b, p) && m in starts
    requires Free(b, m) && b[p].next == m
    ensures b[m].next in b && Separate(Join(b, p), starts - {m}, -1, -1)
    ensures Live(Join(b, p), starts - {m}) == Live(b, starts)
  {
    LinkAt(b, starts, p);
    LinkAt(b, starts, m);
    JoinFree(b, starts, p);
    var b', s' := Join(b, p), starts - {m};
    forall x | x in s' ensures !Touches(b', x) {
      LinkAt(b, starts, x);
      if x != p {
        NextDistinct(b, starts, p, x);
        assert Touches(b', x) ==> Touches(b, x);
      } else {
        assert Touches(b', x) ==> Touches(b, m);
      }
    }
  }

  lemma NoBackward(b: Blocks, starts: set<int>, m: int)
    requires Tiled(b, starts) && Separate(b, starts, -1, m) && m in starts && m in b && (m == 0 || !Free(b, b[m].prev))
    ensures Separate(b, starts, -1, -1)
  {
    LinkAt(b, starts, m);
    forall x | x in starts ensures !Touches(b, x) {
      LinkAt(b, starts, x);
    }
  }

  /** The state after the free block p has been cut to `size` and handed out. */
  ghost predicate Carved(b: Blocks, s: set<int>, lfree: int, p: int, size: nat, b': Blocks, s': set<int>, lfree': int) {
    var q := p + HEADER + size;
    && p in b && b[p].next in b && p in Split(b, p, q)
    && b' == Marked(Split(b, p, q), p, true) && s' == s + {q} && lfree' == if p == lfree then q else lfree
  }

  /** `mem_realloc` cuts a block only when what is left is more than a minimal block. */
  predicate Worthwhile(live: map<int, int>, rmem: int, newsize: nat) {
    && newsize <= MEM_SIZE && rmem < MEM_SIZE && rmem - HEADER in live
    && newsize + HEADER + MIN_SIZE < live[rmem - HEADER]
  }

  /** The state after the tail of block p has been freed, when the block after it is in use. */
  ghost predicate Cut(b: Blocks, s: set<int>, lfree: int, p: int, size: nat, b': Blocks, s': set<int>, lfree': int) {
    var q := p + HEADER + size;
    && p in b && b[p].next in b
    && (!Free(b, b[p].next) ==> b' == Split(b, p, q) && s' == s + {q} && lfree' == lfree)
  }

  class Heap {
    var ram: Blocks
    var lfree: int
    ghost var starts: set<int>

    ghost predicate Valid()
      reads this
    {
      Inv(ram, starts, lfree)
    }

    /** `mem_init` */
    constructor ()
      ensures Valid() && Live(ram, starts) == map[] && Lowest(ram, starts, lfree)
      ensures ram == map[0 := Block(MEM_SIZE, 0, false), MEM_SIZE := Block(MEM_SIZE, MEM_SIZE, true)]
      ensures lfree == 0 && starts == {0}
    {
      ram := map[0 := Block(MEM_SIZE, 0, false), MEM_SIZE := Block(MEM_SIZE, MEM_SIZE, true)];
      lfree := 0;
      starts := {0};
      new;
      assert Linked(ram, starts, 0);
      assert Apart(ram, 0, 0);
      assert !Touches(ram, 0);
    }

    /** `plug_holes`: the free block joins its free neighbours. */
    method PlugHoles(mem: int)
      requires Tiled(ram, starts) && mem in starts && Free(ram, mem) && Separate(ram, starts, mem, mem)
      requires lfree in starts && Free(ram, lfree)
      modifies this
      ensures Valid() && Live(ram, starts) == old(Live(ram, starts))
      ensures old(Lowest(ram, starts, lfree)) ==> Lowest(ram, starts, lfree)
      ensures forall x :: x in starts && Free(ram, x) ==> x in old(starts) && Free(old(ram), x)
      ensures old(ram[mem].prev in ram && ram[ram[mem].prev].used) ==>
        mem in starts && Free(ram, mem) && lfree == if old(lfree) == old(ram[mem].next) then mem else old(lfree)
      ensures old(ram[mem].prev in ram && ram[ram[mem].prev].used) && !Free(old(ram), old(ram[mem].next)) ==>
        ram == old(ram) && starts == old(starts) && lfree == old(lfree)
    {
      hide Tiled; hide Separate; hide Live;
      LinkAt(ram, starts, mem);
      var nmem := ram[mem].next;
      EndUsed(ram, starts);
      if mem != nmem && !ram[nmem].used && nmem != MEM_SIZE {
        LinkAt(ram, starts, nmem);
        ForwardJoin(ram, starts, mem);
        JoinFree(ram, starts, mem);
        JoinTiled(ram, starts, mem);
        if lfree == nmem {
          lfree := mem;
        }
        ghost var joined := Join(ram, mem);
        ram := ram[mem := ram[mem].(next := ram[nmem].next)];
        ram := ram[ram[nmem].next := ram[ram[nmem].next].(prev := mem)];
        assert ram == joined;
        starts := starts - {nmem};
      } else {
        NoForward(ram, starts, mem);
      }
      Backward(mem);
    }

    method Backward(mem: int)
      requires Tiled(ram, starts) && mem in starts && Free(ram, mem) && Separate(ram, starts, -1, mem)
      requires lfree in starts && Free(ram, lfree)
      modifies this
      ensures Valid() && Live(ram, starts) == old(Live(ram, starts))
      ensures old(Lowest(ram, starts, lfree)) ==> Lowest(ram, starts, lfree)
      ensures forall x :: x in starts && Free(ram, x) ==> x in old(starts) && Free(old(ram), x)
      ensures old(ram[mem].prev in ram && ram[ram[mem].prev].used) ==>
        ram == old(ram) && starts == old(starts) && lfree == old(lfree)
    {
      hide Tiled; hide Separate; hide Live;
      LinkAt(ram, starts, mem);
      var pmem := ram[mem].prev;
      if pmem != mem && !ram[pmem].used {
        LinkAt(ram, starts, pmem);
        BackwardJoin(ram, starts, pmem, mem);
        JoinFree(ram, starts, pmem);
        JoinTiled(ram, starts, pmem);
        if lfree == mem {
          lfree := pmem;
        }
        ghost var joined := Join(ram, pmem);
        ram := ram[pmem := ram[pmem].(next := ram[mem].next)];
        ram := ram[ram[mem].next := ram[ram[mem].next].(prev := pmem)];
        assert ram == joined;
        starts := starts - {mem};
      } else {
        NoBackward(ram, starts, mem);
      }
    }

    lemma EndUsed(b: Blocks, s: set<int>)
      requires Tiled(b, s)
      ensures MEM_SIZE in b && b[MEM_SIZE].used
    {
    }

    /** `lmem_free` of a block in use; a pointer outside the array is refused. */
    method FreeBlock(rmem: int)
      requires Valid() && (rmem == 0 || rmem >= MEM_SIZE || rmem - HEADER in Live(ram, starts))
      modifies this
      ensures Valid()
      ensures Live(ram, starts) ==
        if 0 < rmem < MEM_SIZE then old(Live(ram, starts)) - {rmem - HEADER} else old(Live(ram, starts))
      ensures old(Lowest(ram, starts, lfree)) ==> Lowest(ram, starts, lfree)
    {
      if rmem == 0 || rmem < 0 || rmem >= MEM_SIZE { return; }
      var mem := rmem - HEADER;
      LinkAt(ram, starts, mem);
      MarkTiled(ram, starts, mem, false);
      FreeSeparate(ram, starts, mem);
      FreeLive(ram, starts, mem);
      ram := ram[mem := ram[mem].(used := false)];
      if mem < lfree {
        lfree := mem;
      }
      PlugHoles(mem);
    }

    /** `mem_malloc`: the first free block from lfree on that is large enough. */
    method Malloc(size: nat) returns (r: int)
      requires Valid()
      modifies this
      ensures Valid() && (old(Lowest(ram, starts, lfree)) ==> Lowest(ram, starts, lfree))
      ensures r != 0 ==> 0 < size <= MEM_SIZE && old(lfree) <= r - HEADER && r - HEADER in old(starts)
      ensures r != 0 ==> Fits(old(ram), r - HEADER, size)
      ensures r != 0 ==> Live(ram, starts) == old(Live(ram, starts))[r - HEADER := size]
      ensures r != 0 ==> Carved(old(ram), old(starts), old(lfree), r - HEADER, size, ram, starts, lfree)
      ensures r != 0 ==> forall p :: p in old(starts) && old(lfree) <= p < r - HEADER ==> !Fits(old(ram), p, size)
      ensures r == 0 ==> ram == old(ram) && starts == old(starts) && lfree == old(lfree)
      ensures r == 0 && 0 < size <= MEM_SIZE ==> forall p :: p in starts && lfree <= p ==> !Fits(ram, p, size)
      ensures old(Lowest(ram, starts, lfree)) && 0 < size <= MEM_SIZE ==>
        (r == 0 <==> forall p :: p in old(starts) ==> !Fits(old(ram), p, size))
    {
      hide Tiled; hide Separate; hide Live;
      r := 0;
      if size == 0 || size > MEM_SIZE { return; }
      var ptr := lfree;
      LinkAt(ram, starts, lfree);
      while ptr < MEM_SIZE
        invariant Valid() && ram == old(ram) && starts == old(starts) && lfree == old(lfree)
        invariant (ptr == MEM_SIZE || ptr in starts) && lfree <= ptr <= MEM_SIZE
        invariant forall p :: p in starts && lfree <= p < ptr ==> !Fits(ram, p, size)
        decreases MEM_SIZE - ptr
      {
        LinkAt(ram, starts, ptr);
        if !ram[ptr].used && (ram[ptr].next - (ptr + HEADER)) % WORD >= size + HEADER {
          Carve(ptr, size);
          return ptr + HEADER;
        }
        forall p | p in starts && lfree <= p < ram[ptr].next ensures !Fits(ram, p, size) {
          Ordered(ram, starts, ptr, p);
        }
        ptr := ram[ptr].next;
      }
      forall p | p in starts ensures p < MEM_SIZE {
        LinkAt(ram, starts, p);
      }
    }

    /** The block at ptr is cut to size, the rest becomes a free block. */
    method Carve(ptr: int, size: nat)
      requires Valid() && ptr in starts && lfree <= ptr && Fits(ram, ptr, size)
      modifies this
      ensures Valid() && Live(ram, starts) == old(Live(ram, starts))[ptr := size]
      ensures old(Lowest(ram, starts, lfree)) ==> Lowest(ram, starts, lfree)
      ensures Carved(old(ram), old(starts), old(lfree), ptr, size, ram, starts, lfree)
    {
      hide Tiled; hide Separate; hide Live;
      var ptr2 := ptr + HEADER + size;
      LinkAt(ram, starts, ptr);
      SplitTiled(ram, starts, ptr, ptr2);
      TakeSeparate(ram, starts, ptr, ptr2);
      TakeLive(ram, starts, ptr, ptr2);
      MarkTiled(Split(ram, ptr, ptr2), starts + {ptr2}, ptr, true);
      if Lowest(ram, starts, lfree) {
        LowestAfter(ram, starts, lfree, ptr, ptr2);
      }
      ghost var done := Marked(Split(ram, ptr, ptr2), ptr, true);
      var next := ram[ptr].next;
      ram := ram[ptr2 := Block(next, ptr, false)][ptr := ram[ptr].(next := ptr2)];
      if next != MEM_SIZE {
        ram := ram[next := ram[next].(prev := ptr2)];
      }
      ram := ram[ptr := ram[ptr].(used := true)];
      assert ram == done;
      starts := starts + {ptr2};
      if ptr == lfree {
        while ram[lfree].used && lfree != MEM_SIZE
          invariant ram == done && starts == old(starts) + {ptr2} && (lfree == ptr || lfree == ptr2)
          decreases ptr2 - lfree
        {
          lfree := ram[lfree].next;
        }
      }
    }

    /** `mem_realloc`, which can only shrink: the tail of the block is freed when it is worth it. */
    method Realloc(rmem: int, newsize: nat) returns (r: int)
      requires Valid() && (rmem >= MEM_SIZE || rmem - HEADER in Live(ram, starts))
      modifies this
      ensures Valid() && r == (if newsize > MEM_SIZE then 0 else rmem)
      ensures if Worthwhile(old(Live(ram, starts)), rmem, newsize)
              then Live(ram, starts) == old(Live(ram, starts))[rmem - HEADER := newsize]
              else Live(ram, starts) == old(Live(ram, starts))
      ensures old(Lowest(ram, starts, lfree)) ==>
        (Lowest(ram, starts, lfree) <==>
          || !Worthwhile(old(Live(ram, starts)), rmem, newsize)
          || old(lfree) < rmem || old(lfree) == old(ram[rmem - HEADER].next))
      ensures Worthwhile(old(Live(ram, starts)), rmem, newsize) ==>
        Cut(old(ram), old(starts), old(lfree), rmem - HEADER, newsize, ram, starts, lfree)
    {
      if newsize > MEM_SIZE { return 0; }
      r := rmem;
      if rmem < MEM_SIZE {
        LinkAt(ram, starts, rmem - HEADER);
      }
      if rmem < 0 || rmem >= MEM_SIZE { return; }
      var ptr := rmem - HEADER;
      var size := (ram[ptr].next - ptr - HEADER) % 0x1_0000;
      if newsize + HEADER + MIN_SIZE < size {
        Ordered(ram, starts, ptr, lfree);
        CutTail(ptr, newsize);
      }
    }

    method CutTail(ptr: int, newsize: nat)
      requires Valid() && ptr in starts && ptr in ram && ram[ptr].used
      requires ptr + HEADER + newsize + HEADER <= ram[ptr].next
      modifies this
      ensures Valid() && Live(ram, starts) == old(Live(ram, starts))[ptr := newsize]
      ensures old(Lowest(ram, starts, lfree)) ==>
        (Lowest(ram, starts, lfree) <==> old(lfree) < ptr || old(lfree) == old(ram[ptr].next))
      ensures Cut(old(ram), old(starts), old(lfree), ptr, newsize, ram, starts, lfree)
    {
      hide Tiled; hide Separate; hide Live;
      var ptr2 := ptr + HEADER + newsize;
      LinkAt(ram, starts, ptr);
      if Lowest(ram, starts, lfree) {
        CutLowest(ram, starts, lfree, ptr, ptr2);
      }
      SplitTiled(ram, starts, ptr, ptr2);
      CutSeparate(ram, starts, ptr, ptr2);
      TakeLive(ram, starts, ptr, ptr2);
      ghost var done := Split(ram, ptr, ptr2);
      assert Marked(done, ptr, true) == done;
      var next := ram[ptr].next;
      ram := ram[ptr2 := Block(next, ptr, false)][ptr := ram[ptr].(next := ptr2)];
      if next != MEM_SIZE {
        ram := ram[next := ram[next].(prev := ptr2)];
      }
      assert ram == done;
      starts := starts + {ptr2};
      PlugHoles(ptr2);
    }
  }

  /** What cutting a used block does to the lowest free block, before its neighbour is joined. */
  lemma CutLowest(b: Blocks, starts: set<int>, lfree: int, p: int, q: int)
    requires Tiled(b, starts) && p in starts && Inside(b, p, q) && b[p].used && b[p].next in b && lfree in starts
    requires Free(b, lfree) && Lowest(b, starts, lfree)
    ensures lfree < p || b[p].next <= lfree
    ensures lfree < p ==> Lowest(Split(b, p, q), starts + {q}, lfree)
    ensures Lowest(Split(b, p, q), starts + {q}, if lfree < p then lfree else q)
  {
    SplitNew(b, starts, p, q);
    LinkAt(b, starts, p);
    Ordered(b, starts, p, lfree);
    hide Tiled;
    var b' := Split(b, p, q);
    forall x | x in starts + {q} && Free(b', x) ensures (if lfree < p then lfree else q) <= x {
      if x != q {
        LinkAt(b, starts, x);
        Ordered(b, starts, p, x);
      }
    }
  }

  const END := Block(MEM_SIZE, MEM_SIZE, true)
  const ONE: Blocks := map[0 := Block(106, 0, true), 106 := Block(MEM_SIZE, 0, false), MEM_SIZE := END]
  const TWO: Blocks := map[0 := Block(106, 0, true), 106 := Block(1588, 0, true), 1588 := Block(MEM_SIZE, 106, false),
                           MEM_SIZE := END]
  const SHRUNK: Blocks := map[0 := Block(16, 0, true), 16 := Block(106, 0, false), 106 := Block(1588, 16, true),
                              1588 := Block(MEM_SIZE, 106, false), MEM_SIZE := END]

  lemma ServeFirst(b: Blocks, s: set<int>, lfree: int)
    requires Carved(map[0 := Block(MEM_SIZE, 0, false), MEM_SIZE := END], {0}, 0, 0, 100, b, s, lfree)
    ensures b == ONE && s == {0, 106} && lfree == 106
  {
  }

  lemma ServeSecond(b: Blocks, s: set<int>, lfree: int)
    requires Carved(ONE, {0, 106}, 106, 106, 1476, b, s, lfree)
    ensures b == TWO && s == {0, 106, 1588} && lfree == 1588 && Live(b, s) == map[0 := 100, 106 := 1476]
  {
  }

  lemma ShrinkFirst(b: Blocks, s: set<int>, lfree: int)
    requires Cut(TWO, {0, 106, 1588}, 1588, 0, 10, b, s, lfree)
    ensures b == SHRUNK && s == {0, 16, 106, 1588} && lfree == 1588
  {
  }

  /** Room that `mem_realloc` leaves and `mem_malloc` does not find: after the first of two blocks
      is cut, the free block at 16 has room for 50 bytes, but the search starts at 1588. */
  method ReallocHidesRoom() returns (h: Heap, r: int)
    ensures fresh(h) && h.Valid() && r == 0
    ensures 16 in h.starts && Fits(h.ram, 16, 50)
  {
    hide Inv; hide Lowest; hide Live; hide Carved; hide Cut;
    h := new Heap();
    assert Fits(h.ram, 0, 100);
    var first := h.Malloc(100);
    assert first - HEADER in {0};
    ServeFirst(h.ram, h.starts, h.lfree);
    assert Fits(h.ram, 106, 1476) && !Fits(h.ram, 0, 1476);
    var second := h.Malloc(1476);
    assert second - HEADER in {0, 106};
    ServeSecond(h.ram, h.starts, h.lfree);
    var cut := h.Realloc(first, 10);
    ShrinkFirst(h.ram, h.starts, h.lfree);
    assert !Fits(h.ram, 1588, 50) && Fits(h.ram, 16, 50);
    r := h.Malloc(50);
    assert r != 0 ==> r - HEADER in {0, 16, 106, 1588};
  }

  lemma CutSeparate(b: Blocks, starts: set<int>, p: int, q: int)
    requires Tiled(b, starts) && Separate(b, starts, -1, -1) && p in starts && Inside(b, p, q) && b[p].used
    requires b[p].next in b
    ensures Separate(Split(b, p, q), starts + {q}, q, q)
  {
    LinkAt(b, starts, p);
    SplitNew(b, starts, p, q);
    var b' := Split(b, p, q);
    forall x | x in starts + {q} ensures Touches(b', x) ==> x == q || b'[x].next == q {
      if x != q && x != p {
        LinkAt(b, starts, x);
        NextDistinct(b, starts, p, x);
      }
      assert x in starts ==> !Touches(b, x);
    }
  }

  /** The lowest free block after p has been taken. */
  lemma LowestAfter(b: Blocks, starts: set<int>, lfree: int, p: int, q: int)
    requires Tiled(b, starts) && p in starts && Inside(b, p, q) && b[p].next in b && lfree in starts && lfree <= p
    requires Lowest(b, starts, lfree)
    ensures p in Split(b, p, q)
    ensures Lowest(Marked(Split(b, p, q), p, true), starts + {q}, if p == lfree then q else lfree)
  {
    SplitNew(b, starts, p, q);
    LinkAt(b, starts, p);
    hide Tiled;
    var b' := Marked(Split(b, p, q), p, true);
    forall x | x in starts + {q} && Free(b', x) ensures (if p == lfree then q else lfree) <= x {
      if x != q {
        LinkAt(b, starts, x);
        Ordered(b, starts, p, x);
      }
    }
  }

  lemma FreeSeparate(b: Blocks, starts: set<int>, p: int)
    requires Tiled(b, starts) && Separate(b, starts, -1, -1) && p in starts && p in b && b[p].used
    ensures Separate(Marked(b, p, false), starts, p, p)
  {
    var b' := Marked(b, p, false);
    forall x | x in starts && Touches(b', x) ensures x == p || b'[x].next == p {
      LinkAt(b, starts, x);
      assert !Touches(b, x);
    }
  }

  lemma FreeLive(b: Blocks, starts: set<int>, p: int)
    requires p in starts && p in b
    ensures Live(Marked(b, p, false), starts) == Live(b, starts) - {p}
  {
  }
}
