/**
  The guarded interface of the allocator (end of shared/malloc.c.h): every zone is surrounded by
  four guard words, checked when it is freed.
*/
module MallocGuard {
  import opened MallocIndex
  import opened MallocTags
  import opened MallocBins
  import opened MallocGaps
  import opened Malloc

  const BEFORE_MARK := 0xa51234ab
  const AFTER_MARK := 0xdeadfedc

  datatype Bug = NoBug | BeforeCorrupted | WrongLength | AfterCorrupted | WrongAddress

  /** The number of words of a zone of the given length, guards included, in 32-bit arithmetic. */
  function Words(length: uint32): uint32 { (length + 3) % WORD / 4 + 4 }

  function ByteSize(length: uint32): uint32 { Words(length) * 4 % WORD }

  /** `mem_alloc` refuses a length exactly when its size with guards is not a 32-bit number. */
  lemma RefusedLength(length: uint32)
    ensures ByteSize(length) <= length <==> length > WORD - 20
    ensures length <= WORD - 20 ==> ByteSize(length) == 4 * Words(length) && 4 * Words(length) >= length + 16
  {
  }

  /** The allocator can represent the size with guards exactly up to this length. */
  lemma LongestZone(length: uint32)
    requires length <= WORD - 20
    ensures OutOfRange(ByteSize(length)) <==> length > WORD - 52
  {
    RefusedLength(length);
  }

  /** The heap has room for a zone of this length and its guards. */
  ghost predicate ZoneFits(blocks: map<int, nat>, base: int, end: int, length: uint32, more: nat) {
    0 < length <= WORD - 52 &&
    (LongestZone(length); HasRoom(blocks, base, end, RequestSize(ByteSize(length)), more))
  }

  // ----- the guard words -----

  function Read(words: map<int, uint32>, a: int): uint32 { if a in words then words[a] else 0 }

  /** The four guard words of the zone at address z. */
  ghost predicate Intact(words: map<int, uint32>, z: int, length: uint32) {
    var p, l := z - 8, Words(length);
    && Read(words, p) == length && Read(words, p + 4) == BEFORE_MARK
    && Read(words, p + 4 * (l - 2)) == AFTER_MARK && Read(words, p + 4 * (l - 1)) == p % WORD
  }

  /** The checks of `mem_free`, in their order. */
  function Check(words: map<int, uint32>, z: int, length: uint32): (bug: Bug)
    ensures bug == NoBug <==> Intact(words, z, length)
  {
    var p, l := z - 8, Words(length);
    if Read(words, p + 4) != BEFORE_MARK then BeforeCorrupted
    else if Read(words, p) != length then WrongLength
    else if Read(words, p + 4 * (l - 2)) != AFTER_MARK then AfterCorrupted
    else if Read(words, p + 4 * (l - 1)) != p % WORD then WrongAddress
    else NoBug
  }

  /** `memset` of n words to 0. */
  function Zeroed(words: map<int, uint32>, a: int, n: nat): (r: map<int, uint32>)
    ensures forall i :: 0 <= i < n ==> Read(r, a + 4 * i) == 0
    ensures forall w :: !(a <= w < a + 4 * n) ==> Read(r, w) == Read(words, w)
  {
    if n == 0 then words else Zeroed(words, a, n - 1)[a + 4 * (n - 1) := 0]
  }

  function Stamped(words: map<int, uint32>, p: int, length: uint32): map<int, uint32> {
    var l := Words(length);
    var marked := words[p := length][p + 4 := BEFORE_MARK][p + 4 * (l - 2) := AFTER_MARK][p + 4 * (l - 1) := p % WORD];
    Zeroed(marked, p + 8, l - 4)
  }

  lemma StampedIntact(words: map<int, uint32>, p: int, length: uint32)
    requires length <= WORD - 20
    ensures Intact(Stamped(words, p, length), p + 8, length)
    ensures forall i :: 0 <= i < Words(length) - 4 ==> Read(Stamped(words, p, length), p + 8 + 4 * i) == 0
    ensures forall w :: !Lies(p + 8, length, w) ==> Read(Stamped(words, p, length), w) == Read(words, w)
  {
    hide Zeroed;
  }

  predicate Lies(z: int, length: uint32, w: int) { z - 8 <= w < z - 8 + 4 * Words(length) }

  lemma IntactFrame(words: map<int, uint32>, words': map<int, uint32>, z: int, length: uint32)
    requires Intact(words, z, length)
    requires forall w :: Lies(z, length, w) ==> Read(words', w) == Read(words, w)
    ensures Intact(words', z, length)
  {
    hide Read;
    assert Words(length) >= 4;
    assert Lies(z, length, z - 8) && Lies(z, length, z - 4);
    assert Lies(z, length, z - 8 + 4 * (Words(length) - 2)) && Lies(z, length, z - 8 + 4 * (Words(length) - 1));
  }

  // ----- zones -----

  /** The zone z lies in the user memory of a block of its own. */
  ghost predicate Inside(blocks: map<int, nat>, z: int, length: uint32) {
    z - 16 in blocks && 4 * Words(length) + SIZE_SZ <= blocks[z - 16]
  }

  class GuardedHeap {
    const heap: Heap
    var words: map<int, uint32>          // the user memory, by word address
    ghost var zones: map<int, uint32>    // the zones of the program and their lengths

    /** Every zone lies in a block of its own and its guards are intact. */
    ghost predicate Valid()
      reads this, heap
    {
      && heap.Valid()
      && forall z :: z in zones ==>
           Inside(heap.Blocks(), z, zones[z]) && Intact(words, z, zones[z]) && 0 < zones[z] <= WORD - 52
    }

    constructor (start: int)
      requires start > 0 && start % 8 == 0
      ensures Valid() && zones == map[] && fresh(heap)
    {
      heap := new Heap(start);
      words, zones := map[], map[];
    }

    /** Zones of different blocks have no word in common. */
    lemma ZonesApart(y: int, m: uint32, z: int, n: uint32, w: int)
      requires heap.Valid() && Inside(heap.Blocks(), y, m) && Inside(heap.Blocks(), z, n) && y != z && Lies(y, m, w)
      ensures !Lies(z, n, w)
    {
      hide Core; hide Flags; hide Live;
      heap.BlocksDisjoint(y - 16, z - 16, w);
    }

    /** `mem_alloc`.  It fails exactly on length 0, on lengths that are too large together with the
        guards, and when the blocks of the heap leave no room. */
    method MemAlloc(length: uint32, more: nat) returns (z: int)
      requires Valid() && Granted(more)
      modifies this, heap
      ensures Valid()
      ensures z != 0 <==> ZoneFits(old(heap.Blocks()), old(heap.base), old(heap.end), length, more)
      ensures z == 0 ==> zones == old(zones) && words == old(words) && heap.Blocks() == old(heap.Blocks())
      ensures z != 0 ==> length != 0 && length <= WORD - 20 && z !in old(zones) && zones == old(zones)[z := length]
      ensures z != 0 ==> forall i :: 0 <= i < Words(length) - 4 ==> Read(words, z + 4 * i) == 0
      ensures forall y, w :: y in old(zones) && Lies(y, old(zones)[y], w) ==> Read(words, w) == old(Read(words, w))
    {
      hide Core; hide Flags; hide Live; hide Intact; hide Stamped; hide RequestSize; hide Words; hide Read; hide Tags;
      hide HasRoom; hide FastHit; hide Shortcut; hide SearchedIn; hide BestFit; hide NoFit; hide Frees; hide Used;
      hide TopRoom; hide AskedSystem; hide Consolidated; hide FastTop;
      RefusedLength(length);
      var l2 := ByteSize(length);
      if length == 0 || l2 <= length { return 0; }
      LongestZone(length);
      ghost var before := heap.Blocks();
      var p;
      ghost var how, at;
      p, how, at := heap.Malloc(l2, more);
      if p == 0 { return 0; }
      z := p + 8;
      StampedIntact(words, p, length);
      assert Inside(heap.Blocks(), z, length);
      forall y | y in zones
        ensures y != z && Inside(heap.Blocks(), y, zones[y]) && Intact(Stamped(words, p, length), y, zones[y])
        ensures forall w :: Lies(y, zones[y], w) ==> Read(Stamped(words, p, length), w) == Read(words, w)
      {
        assert Inside(heap.Blocks(), y, zones[y]);
        forall w | Lies(y, zones[y], w) ensures Read(Stamped(words, p, length), w) == Read(words, w) {
          ZonesApart(y, zones[y], z, length, w);
        }
        IntactFrame(words, Stamped(words, p, length), y, zones[y]);
      }
      words := Stamped(words, p, length);
      zones := zones[z := length];
    }

    /** The block of a zone is room for another zone of this length. */
    lemma ZoneIsRoom(z: int)
      requires Valid() && z in zones
      ensures z - 16 > 0 && ZoneFits(heap.Blocks() - {z - 16}, heap.base, heap.end, zones[z], 0)
    {
      hide Core; hide Flags; hide Live; hide Intact; hide HasRoom; hide RequestSize; hide Words;
      var length := zones[z];
      RefusedLength(length);
      LongestZone(length);
      assert Inside(heap.Blocks(), z, length);
      heap.OwnedFacts(z - 16);
      BlockSize(ByteSize(length), heap.Blocks()[z - 16]);
      heap.BlockIsRoom(z - 16, heap.end, RequestSize(ByteSize(length)), 0);
    }

    /** `mem_free` of a zone of the program: refused unless the length is the one it was allocated
        with; a second `mem_free` finds the guard gone.  The block goes back to the heap, so that the
        same request succeeds afterwards even when the system gives nothing. */
    method MemFree(z: int, length: uint32) returns (bug: Bug)
      requires Valid() && z in zones
      modifies this, heap
      ensures Valid()
      ensures length == 0 || length != old(zones)[z] ==> zones == old(zones) && words == old(words)
      ensures length == 0 ==> bug == NoBug
      ensures length != 0 && length != old(zones)[z] ==> bug == WrongLength
      ensures length != 0 && length == old(zones)[z] ==> bug == NoBug && zones == old(zones) - {z}
      ensures length != 0 && length == old(zones)[z] ==> forall m :: Check(words, z, m) == BeforeCorrupted
      ensures heap.base == old(heap.base) && heap.end == old(heap.end)
      ensures heap.Blocks() ==
        if length != 0 && length == old(zones)[z] then old(heap.Blocks()) - {z - 16} else old(heap.Blocks())
      ensures length != 0 && length == old(zones)[z] ==> ZoneFits(heap.Blocks(), heap.base, heap.end, length, 0)
    {
      hide Core; hide Flags; hide Live; hide Zeroed; hide Words; hide Read; hide ZoneFits;
      if length == 0 { return NoBug; }
      bug := Check(words, z, length);
      if bug != NoBug { return; }
      var p := z - 8;
      var cleared := Zeroed(words, p, Words(length));
      forall y | y in zones && y != z ensures Intact(cleared, y, zones[y]) {
        forall w | Lies(y, zones[y], w) ensures Read(cleared, w) == Read(words, w) {
          ZonesApart(y, zones[y], z, length, w);
        }
        IntactFrame(words, cleared, y, zones[y]);
      }
      assert Read(cleared, p + 4 * 1) == 0 by { AtLeastFour(length); }
      ZoneIsRoom(z);
      words := cleared;
      ghost var mid := heap.Free(p);
      zones := zones - {z};
    }
  }

  /** A chunk with room for a request has its padded size. */
  lemma BlockSize(req: uint32, sz: nat)
    requires !OutOfRange(req) && sz % 8 == 0 && sz >= MINSIZE && req + SIZE_SZ <= sz
    ensures 0 < RequestSize(req) <= sz
  {
  }

  lemma AtLeastFour(length: uint32)
    ensures Words(length) >= 4
  {
  }
}
