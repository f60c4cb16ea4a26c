/**
 * The chunk list and the free lists of the planner: carving superblocks out of a new chunk,
 * and the first-fit allocators for metadata and data.
 */
module ChunkAllocator {
  import opened ChunkMath
  import opened SpaceList

  const STRIPE: nat := 0x10000
  const SUPERBLOCKS: seq<nat> := [0x10000, 0x4000000, 0x4000000000, 0x4000000000000]
  const VIRT: nat := 0x100000
  const RESERVED: nat := 0x100000
  const TREE: nat := 0x4000
  const DATA_CHUNK: nat := 0x8000000
  const SYSTEM_CHUNK: nat := 0x2000000

  datatype Result = Ok(addr: nat) | NoSpace | NoAddress

  datatype Kind = Data | System | Metadata

  datatype Chunk = Chunk(offset: nat, length: nat, diskStart: nat, kind: Kind, spaces: seq<Space>, used: nat,
                         added: bool) {
    predicate Holds(disk: int) {
      diskStart <= disk < diskStart + length
    }

    predicate HasAddr(addr: int) {
      offset <= addr < offset + length
    }

    // The byte is on the chunk's free list.
    predicate Spare(disk: int) {
      Covers(spaces, disk + VIRT)
    }

    predicate Valid() {
      offset == diskStart + VIRT && RESERVED <= diskStart
      && Sorted(spaces, offset, offset + length)
    }

    // No free byte of the chunk lies in a superblock's stripe.
    ghost predicate ClearOfSuperblocks() {
      forall disk :: Spare(disk) ==> !InStripe(disk)
    }
  }

  predicate InStripeOf(i: nat, disk: int)
    requires i < |SUPERBLOCKS|
  {
    SUPERBLOCKS[i] <= disk < SUPERBLOCKS[i] + STRIPE
  }

  // Within one of the first `n` superblocks' stripes.
  predicate InStripes(n: nat, disk: int)
    requires n <= |SUPERBLOCKS|
  {
    exists i: nat :: i < n && InStripeOf(i, disk)
  }

  predicate InStripe(disk: int) {
    InStripes(|SUPERBLOCKS|, disk)
  }

  // The part of superblock `i`'s stripe that lies in the chunk.
  predicate Blocked(c: Chunk, i: nat, disk: int)
    requires i < |SUPERBLOCKS|
  {
    InStripeOf(i, disk) && c.Holds(disk)
  }

  // The chunk and its free list are laid out in multiples of a divisor of 64 KB.
  ghost predicate EvenIn(c: Chunk, spaces: seq<Space>, u: nat) {
    Even(STRIPE, u) && Even(c.offset, u) && Even(c.length, u) && EvenStarts(spaces, u)
  }

  // One step of `remove_superblocks`: the free list left by the stripe of superblock `i`.
  method RemoveSuperblock(c: Chunk, spaces: seq<Space>, i: nat, ghost from: int, ghost to: int, ghost u: nat)
    returns (r: seq<Space>)
    requires c.offset == c.diskStart + VIRT && i < |SUPERBLOCKS| && Sorted(spaces, from, to)
    ensures Sorted(r, from, to)
    ensures forall addr :: Covers(r, addr) <==> Covers(spaces, addr) && !Blocked(c, i, addr - VIRT)
    ensures forall n: nat :: 0 < n && HasRoom(spaces, 2 * n + STRIPE) ==> HasRoom(r, n)
    ensures EvenIn(c, spaces, u) ==> EvenStarts(r, u)
  {
    hide Removed, Covers, HasRoom, EvenStarts, Even;
    r := spaces;
    var lo, hi := c.offset, c.offset + c.length;
    if c.diskStart + c.length > SUPERBLOCKS[i] && c.diskStart < SUPERBLOCKS[i] + STRIPE {
      var start := if SUPERBLOCKS[i] - c.diskStart + c.offset < lo then lo else SUPERBLOCKS[i] - c.diskStart + c.offset;
      var end := if SUPERBLOCKS[i] + STRIPE - c.diskStart + c.offset < hi
                 then SUPERBLOCKS[i] + STRIPE - c.diskStart + c.offset else hi;
      r := SpaceListRemove(spaces, start, end - start, from, to);
      RemovedIsSorted(spaces, start, end, from, to);
      if EvenIn(c, spaces, u) {
        StripeEndIsEven(c, i, u);
        RemovedIsEven(spaces, start, end, u);
      }
      forall addr
        ensures Covers(r, addr) <==> Covers(spaces, addr) && !Blocked(c, i, addr - VIRT)
      {
        RemovedIsDifference(spaces, start, end, addr);
      }
      forall n: nat | 0 < n && HasRoom(spaces, 2 * n + STRIPE)
        ensures HasRoom(r, n)
      {
        LessRoom(spaces, 2 * n + STRIPE, 2 * n + (end - start));
        RemovedLeavesRoom(spaces, start, end, n);
      }
    } else {
      forall n: nat | 0 < n && HasRoom(spaces, 2 * n + STRIPE)
        ensures HasRoom(r, n)
      {
        LessRoom(spaces, 2 * n + STRIPE, n);
      }
    }
  }

  // The free list after the first `n` superblocks have been seen to.
  ghost predicate CarvedBy(c: Chunk, spaces: seq<Space>, n: nat)
    requires n <= |SUPERBLOCKS|
  {
    && (forall addr ::
          Covers(spaces, addr)
          <==> Covers(c.spaces, addr) && !(InStripes(n, addr - VIRT) && c.Holds(addr - VIRT)))
    && (forall room: nat :: 0 < room && HasRoom(c.spaces, NeedsBefore(room, n)) ==> HasRoom(spaces, room))
  }

  lemma CarvedNone(c: Chunk)
    ensures CarvedBy(c, c.spaces, 0)
  {
    hide Covers, HasRoom;
  }

  lemma CarvedNext(c: Chunk, spaces: seq<Space>, spaces': seq<Space>, i: nat)
    requires i < |SUPERBLOCKS| && CarvedBy(c, spaces, i)
    requires forall addr :: Covers(spaces', addr) <==> Covers(spaces, addr) && !Blocked(c, i, addr - VIRT)
    requires forall n: nat :: 0 < n && HasRoom(spaces, 2 * n + STRIPE) ==> HasRoom(spaces', n)
    ensures CarvedBy(c, spaces', i + 1)
  {
    hide Covers, HasRoom, InStripeOf;
    forall disk
      ensures InStripes(i + 1, disk) <==> InStripes(i, disk) || InStripeOf(i, disk)
    {
    }
    forall addr
      ensures Covers(spaces', addr)
         <==> Covers(c.spaces, addr) && !(InStripes(i + 1, addr - VIRT) && c.Holds(addr - VIRT))
    {
      assert Blocked(c, i, addr - VIRT) <==> InStripeOf(i, addr - VIRT) && c.Holds(addr - VIRT);
    }
    forall n: nat | 0 < n && HasRoom(c.spaces, NeedsBefore(n, i + 1))
      ensures HasRoom(spaces', n)
    {
      NeedsMore(n, i + 1);
      assert HasRoom(spaces, 2 * n + STRIPE);
    }
  }

  lemma CarvedAll(c: Chunk, r: Chunk)
    requires r == c.(spaces := r.spaces) && CarvedBy(c, r.spaces, |SUPERBLOCKS|)
    ensures forall disk :: r.Spare(disk) <==> c.Spare(disk) && !(InStripe(disk) && c.Holds(disk))
    ensures forall n: nat :: 0 < n && HasRoom(c.spaces, 16 * n + 15 * STRIPE) ==> HasRoom(r.spaces, n)
  {
    hide Covers, HasRoom, InStripes;
    forall disk
      ensures r.Spare(disk) <==> c.Spare(disk) && !(InStripe(disk) && c.Holds(disk))
    {
      assert disk + VIRT - VIRT == disk;
    }
    forall n: nat | 0 < n && HasRoom(c.spaces, 16 * n + 15 * STRIPE)
      ensures HasRoom(r.spaces, n)
    {
      assert NeedsBefore(n, 1) == 2 * n + STRIPE;
      assert NeedsBefore(n, 2) == 4 * n + 3 * STRIPE;
      assert NeedsBefore(n, 4) == 16 * n + 15 * STRIPE;
    }
  }

  // `remove_superblocks`: exactly the chunk's bytes in the four stripes leave the free list.
  method RemoveSuperblocks(c: Chunk, ghost from: int, ghost to: int, ghost u: nat) returns (r: Chunk)
    requires c.offset == c.diskStart + VIRT && Sorted(c.spaces, from, to)
    ensures r == c.(spaces := r.spaces) && Sorted(r.spaces, from, to)
    ensures forall disk :: r.Spare(disk) <==> c.Spare(disk) && !(InStripe(disk) && c.Holds(disk))
    ensures forall n: nat :: 0 < n && HasRoom(c.spaces, 16 * n + 15 * STRIPE) ==> HasRoom(r.spaces, n)
    ensures EvenIn(c, c.spaces, u) ==> EvenStarts(r.spaces, u)
  {
    hide CarvedBy, Covers, HasRoom, Blocked, Sorted, EvenStarts, Even;
    var spaces := c.spaces;
    var i: nat := 0;
    CarvedNone(c);
    while i < |SUPERBLOCKS|
      invariant i <= |SUPERBLOCKS|
      invariant Sorted(spaces, from, to) && CarvedBy(c, spaces, i)
      invariant EvenIn(c, c.spaces, u) ==> EvenStarts(spaces, u)
    {
      ghost var before := spaces;
      spaces := RemoveSuperblock(c, spaces, i, from, to, u);
      CarvedNext(c, before, spaces, i);
      i := i + 1;
    }
    r := c.(spaces := spaces);
    CarvedAll(c, r);
  }

  // The room that leaves room for `n` bytes after `i` stripes have been cut out.
  function NeedsBefore(n: nat, i: nat): nat {
    if i == 0 then n else 2 * NeedsBefore(n, i - 1) + STRIPE
  }

  lemma {:induction false} NeedsMore(n: nat, i: nat)
    requires 0 < i
    ensures NeedsBefore(n, i) == NeedsBefore(2 * n + STRIPE, i - 1)
  {
    if 1 < i {
      NeedsMore(n, i - 1);
    }
  }

  // No byte of the device belongs to both. (A chunk can have length zero.)
  predicate Apart(a: Chunk, b: Chunk) {
    a.length == 0 || b.length == 0 || a.diskStart + a.length <= b.diskStart || b.diskStart + b.length <= a.diskStart
  }

  // Distinct chunks occupy distinct parts of the device.
  predicate ChunksApart(chunks: seq<Chunk>) {
    forall i, j :: 0 <= i < j < |chunks| ==> Apart(chunks[i], chunks[j])
  }

  predicate OffsetsDiffer(chunks: seq<Chunk>) {
    forall i, j :: 0 <= i < j < |chunks| ==> chunks[i].offset != chunks[j].offset
  }

  // A byte of the device that some allocation may still be given: free inside a chunk, or
  // outside every chunk and clear of the superblocks.
  ghost predicate FreeAt(chunks: seq<Chunk>, spaces: seq<Space>, disk: int) {
    || (exists c :: c in chunks && c.Spare(disk))
    || (Covers(spaces, disk) && !InStripe(disk))
  }

  ghost predicate Consistent(chunks: seq<Chunk>, spaces: seq<Space>, limit: nat) {
    && Sorted(spaces, RESERVED, limit)
    && ChunksApart(chunks)
    && (forall c :: c in chunks ==> c.Valid() && c.ClearOfSuperblocks() && c.diskStart + c.length <= limit)
    && (forall c, disk :: c in chunks && c.Holds(disk) ==> !Covers(spaces, disk))
  }

  lemma SpareIsHeld(c: Chunk, disk: int)
    requires c.Valid() && c.Spare(disk)
    ensures c.Holds(disk)
  {
    CoveredInBounds(c.spaces, c.offset, c.offset + c.length, disk + VIRT);
  }

  lemma FreeIsClear(chunks: seq<Chunk>, spaces: seq<Space>, limit: nat, disk: int)
    requires Consistent(chunks, spaces, limit) && FreeAt(chunks, spaces, disk)
    ensures RESERVED <= disk < limit && !InStripe(disk)
  {
    CoveredInBounds(spaces, RESERVED, limit, disk);
    if c :| c in chunks && c.Spare(disk) {
      SpareIsHeld(c, disk);
    }
  }

  // First fit in a chunk: entry `k` gives up its first `size` bytes.
  function Took(c: Chunk, k: nat, size: nat, used: nat): Chunk
    requires k < |c.spaces| && size <= c.spaces[k].length
  {
    c.(spaces := Taken(c.spaces, k, size), used := used)
  }

  // The bytes of the device that entry `k` gives up.
  function TookRange(c: Chunk, k: nat, size: nat): Range
    requires c.Valid() && k < |c.spaces|
  {
    SortedEntry(c.spaces, c.offset, c.offset + c.length, k);
    Range(c.spaces[k].offset - VIRT, size)
  }

  // The chunk's free bytes lose exactly that range, which lay inside the chunk.
  lemma TookIsExact(c: Chunk, k: nat, size: nat, used: nat)
    requires c.Valid() && k < |c.spaces| && 0 < size <= c.spaces[k].length
    ensures Took(c, k, size, used).Valid()
    ensures c.diskStart <= TookRange(c, k, size).start
         && TookRange(c, k, size).start + size <= c.diskStart + c.length
    ensures forall disk :: Took(c, k, size, used).Spare(disk) <==> c.Spare(disk) && !TookRange(c, k, size).Has(disk)
    ensures forall disk :: TookRange(c, k, size).Has(disk) ==> c.Spare(disk)
  {
    hide Taken, Removed, Covers;
    var s := c.spaces[k];
    var from, to := c.offset, c.offset + c.length;
    SortedEntry(c.spaces, from, to, k);
    TakenIsRemoved(c.spaces, k, size, from, to);
    RemovedIsSorted(c.spaces, s.offset, s.offset + size, from, to);
    forall disk
      ensures Took(c, k, size, used).Spare(disk) <==> c.Spare(disk) && !TookRange(c, k, size).Has(disk)
    {
      RemovedIsDifference(c.spaces, s.offset, s.offset + size, disk + VIRT);
    }
    forall disk | TookRange(c, k, size).Has(disk)
      ensures c.Spare(disk)
    {
      EntryIsCovered(c.spaces, k, disk + VIRT);
    }
  }

  // Replacing chunk `i` by one with fewer free bytes.
  lemma TookKeeps(chunks: seq<Chunk>, spaces: seq<Space>, limit: nat, i: nat, c: Chunk)
    requires Consistent(chunks, spaces, limit) && i < |chunks|
    requires c == chunks[i].(spaces := c.spaces, used := c.used, added := c.added) && c.Valid()
    requires forall disk :: c.Spare(disk) ==> chunks[i].Spare(disk)
    ensures Consistent(chunks[i := c], spaces, limit)
  {
    var chunks' := chunks[i := c];
    assert chunks[i] in chunks;
    assert c.ClearOfSuperblocks();
    forall d, disk | d in chunks' && d.Holds(disk)
      ensures !Covers(spaces, disk)
    {
      var j :| 0 <= j < |chunks'| && chunks'[j] == d;
      assert chunks[j] in chunks && chunks[j].Holds(disk);
    }
    forall j, l | 0 <= j < l < |chunks'|
      ensures Apart(chunks'[j], chunks'[l])
    {
      assert Apart(chunks[j], chunks[l]);
    }
  }

  // No byte is free in two chunks.
  lemma SpareOnce(chunks: seq<Chunk>, spaces: seq<Space>, limit: nat, i: nat, j: nat, disk: int)
    requires Consistent(chunks, spaces, limit) && i < j < |chunks|
    ensures !(chunks[i].Spare(disk) && chunks[j].Spare(disk))
  {
    if chunks[i].Spare(disk) && chunks[j].Spare(disk) {
      assert Apart(chunks[i], chunks[j]);
      assert chunks[i] in chunks && chunks[j] in chunks;
      SpareIsHeld(chunks[i], disk);
      SpareIsHeld(chunks[j], disk);
      assert false;
    }
  }

  lemma TookFree(chunks: seq<Chunk>, spaces: seq<Space>, limit: nat, i: nat, c: Chunk, disk: int)
    requires Consistent(chunks, spaces, limit) && i < |chunks|
    requires c == chunks[i].(spaces := c.spaces, used := c.used, added := c.added) && c.Valid()
    requires forall d :: c.Spare(d) ==> chunks[i].Spare(d)
    ensures FreeAt(chunks[i := c], spaces, disk)
        <==> FreeAt(chunks, spaces, disk) && (chunks[i].Spare(disk) ==> c.Spare(disk))
  {
    var chunks' := chunks[i := c];
    assert chunks[i] in chunks && chunks'[i] == c;
    if d :| d in chunks && d.Spare(disk) {
      var j :| 0 <= j < |chunks| && chunks[j] == d;
      assert chunks'[j] == if j == i then c else d;
    }
    if d :| d in chunks' && d.Spare(disk) {
      var j :| 0 <= j < |chunks'| && chunks'[j] == d;
      assert chunks[j] in chunks && chunks[j].Spare(disk);
      if i != j {
        SpareOnce(chunks, spaces, limit, if i < j then i else j, if i < j then j else i, disk);
      }
    }
    if chunks[i].Spare(disk) {
      SpareIsHeld(chunks[i], disk);
    }
  }

  // Turning device-wide free space into a chunk frees and loses nothing.
  lemma NewChunkKeeps(chunks: seq<Chunk>, spaces: seq<Space>, limit: nat, c: Chunk, rest: seq<Space>)
    requires Consistent(chunks, spaces, limit)
    requires c.Valid() && Sorted(rest, RESERVED, limit) && c.diskStart + c.length <= limit
    requires forall disk :: c.Holds(disk) ==> Covers(spaces, disk)
    requires forall disk :: Covers(rest, disk) <==> Covers(spaces, disk) && !c.Holds(disk)
    requires forall disk :: c.Spare(disk) <==> c.Holds(disk) && !InStripe(disk)
    ensures Consistent(chunks + [c], rest, limit)
    ensures forall disk :: FreeAt(chunks + [c], rest, disk) <==> FreeAt(chunks, spaces, disk)
  {
    var chunks' := chunks + [c];
    forall j | 0 <= j < |chunks|
      ensures Apart(chunks[j], c)
    {
      var d := chunks[j];
      if !Apart(d, c) {
        var x := if d.diskStart < c.diskStart then c.diskStart else d.diskStart;
        assert d.Holds(x) && c.Holds(x);
        assert false;
      }
    }
    assert c in chunks';
    forall disk
      ensures FreeAt(chunks', rest, disk) <==> FreeAt(chunks, spaces, disk)
    {
      if d :| d in chunks && d.Spare(disk) {
        assert d in chunks';
      }
    }
  }

  datatype Range = Range(start: nat, length: nat) {
    predicate Has(disk: int) {
      start <= disk < start + length
    }
  }

  predicate RangeMeets(a: Range, b: Range) {
    0 < a.length && 0 < b.length && a.start < b.start + b.length && b.start < a.start + a.length
  }

  predicate RangesApart(ranges: seq<Range>) {
    forall i, j :: 0 <= i < j < |ranges| ==> !RangeMeets(ranges[i], ranges[j])
  }

  // What every step of a run keeps, as a statement about values: what was handed out came
  // from the initial free set, no byte twice, each range inside one chunk; and exactly the
  // rest is still free.
  ghost predicate Accounted(chunks: seq<Chunk>, spaces: seq<Space>, limit: nat, initial: set<int>, given: seq<Range>) {
    && Consistent(chunks, spaces, limit)
    && RangesApart(given)
    && (forall g :: g in given ==> InOneChunk(chunks, g))
    && (forall disk :: FreeAt(chunks, spaces, disk) <==> disk in initial && !IsGiven(given, disk))
    && (forall disk :: IsGiven(given, disk) ==> disk in initial)
    && (forall disk :: disk in initial ==> RESERVED <= disk && !InStripe(disk))
  }

  ghost function StillFree(initial: set<int>, given: seq<Range>): set<int> {
    set disk | disk in initial && !IsGiven(given, disk)
  }

  predicate IsGiven(given: seq<Range>, disk: int) {
    exists g :: g in given && g.Has(disk)
  }

  predicate InOneChunk(chunks: seq<Chunk>, g: Range) {
    exists c :: c in chunks && Contains(c, g)
  }

  predicate Contains(c: Chunk, g: Range) {
    c.diskStart <= g.start && g.start + g.length <= c.diskStart + c.length
  }

  // A first-fit step from chunk `i` keeps the account.
  lemma TookIsAccounted(chunks: seq<Chunk>, spaces: seq<Space>, limit: nat, initial: set<int>, given: seq<Range>,
                        i: nat, k: nat, size: nat, used: nat)
    requires Accounted(chunks, spaces, limit, initial, given)
    requires i < |chunks| && k < |chunks[i].spaces| && 0 < size <= chunks[i].spaces[k].length
    ensures chunks[i].Valid()
    ensures Accounted(chunks[i := Took(chunks[i], k, size, used)], spaces, limit, initial,
                      given + [TookRange(chunks[i], k, size)])
    ensures forall disk :: TookRange(chunks[i], k, size).Has(disk) ==> FreeAt(chunks, spaces, disk)
  {
    hide Took, Consistent, Covers;
    hide IsGiven, InOneChunk, RangesApart;
    assert chunks[i] in chunks && chunks[i].Valid() by { ConsistentChunk(chunks, spaces, limit, i); }
    var g, c := TookRange(chunks[i], k, size), Took(chunks[i], k, size, used);
    assert c == chunks[i].(spaces := c.spaces, used := c.used) by { TookFrame(chunks[i], k, size, used); }
    TookIsExact(chunks[i], k, size, used);
    TookKeeps(chunks, spaces, limit, i, c);
    GivenGrows(chunks, chunks[i := c], given, g, i);
    forall disk
      ensures FreeAt(chunks[i := c], spaces, disk) <==> FreeAt(chunks, spaces, disk) && !g.Has(disk)
      ensures g.Has(disk) ==> FreeAt(chunks, spaces, disk)
    {
      if g.Has(disk) {
        assert chunks[i].Spare(disk);
      }
      TookFree(chunks, spaces, limit, i, c, disk);
    }
    RangesStayApart(given, g);
  }

  lemma AccountedApart(chunks: seq<Chunk>, spaces: seq<Space>, limit: nat, initial: set<int>, given: seq<Range>)
    requires Accounted(chunks, spaces, limit, initial, given)
    ensures ChunksApart(chunks)
  {
  }

  lemma AccountedIsConsistent(chunks: seq<Chunk>, spaces: seq<Space>, limit: nat, initial: set<int>, given: seq<Range>)
    requires Accounted(chunks, spaces, limit, initial, given)
    ensures Consistent(chunks, spaces, limit)
  {
  }

  lemma AccountedChunk(chunks: seq<Chunk>, spaces: seq<Space>, limit: nat, initial: set<int>, given: seq<Range>, i: nat)
    requires Accounted(chunks, spaces, limit, initial, given) && i < |chunks|
    ensures chunks[i].Valid() && chunks[i].diskStart + chunks[i].length <= limit
  {
    assert chunks[i] in chunks;
  }

  // The data chunks' free lists, and the device's, begin their entries at multiples of `u`.
  ghost predicate EvenLists(chunks: seq<Chunk>, spaces: seq<Space>, u: nat) {
    && Even(STRIPE, u) && EvenStarts(spaces, u)
    && forall c :: c in chunks && c.kind == Data ==> EvenStarts(c.spaces, u)
  }

  lemma MarkedIsEven(chunks: seq<Chunk>, spaces: seq<Space>, i: nat, c: Chunk, u: nat)
    requires EvenLists(chunks, spaces, u) && i < |chunks| && c == chunks[i].(used := c.used, added := c.added)
    ensures EvenLists(chunks[i := c], spaces, u)
  {
    assert chunks[i] in chunks;
  }

  // The chunk that holds an address, if there is one, counts fewer used bytes.
  predicate Uncharged(chunks: seq<Chunk>, chunks': seq<Chunk>, addr: nat, size: nat) {
    && |chunks'| == |chunks|
    && forall i :: 0 <= i < |chunks| ==>
         chunks'[i] == if chunks[i].HasAddr(addr) then chunks[i].(used := Wrap(chunks[i].used - size)) else chunks[i]
  }

  lemma OnlyHolder(chunks: seq<Chunk>, spaces: seq<Space>, limit: nat, initial: set<int>, given: seq<Range>, i: nat,
                   addr: nat)
    requires Accounted(chunks, spaces, limit, initial, given) && i < |chunks| && chunks[i].HasAddr(addr)
    ensures forall j :: 0 <= j < |chunks| && j != i ==> !chunks[j].HasAddr(addr)
  {
    assert chunks[i] in chunks && chunks[i].Valid();
    forall j | 0 <= j < |chunks| && j != i
      ensures !chunks[j].HasAddr(addr)
    {
      assert chunks[j] in chunks && chunks[j].Valid();
      assert Apart(chunks[if i < j then i else j], chunks[if i < j then j else i]);
    }
  }

  lemma ChunkSizesAreEven(chunks: seq<Chunk>, spaces: seq<Space>, u: nat)
    requires EvenLists(chunks, spaces, u)
    ensures Even(DATA_CHUNK, u) && Even(SYSTEM_CHUNK, u)
  {
    hide Even;
    EvenOf64K(0x800, u);
    EvenOf64K(0x200, u);
  }

  lemma TookIsEven(chunks: seq<Chunk>, spaces: seq<Space>, i: nat, k: nat, size: nat, used: nat, u: nat)
    requires EvenLists(chunks, spaces, u) && i < |chunks| && k < |chunks[i].spaces|
    requires size <= chunks[i].spaces[k].length
    requires chunks[i].kind == Data ==> Even(size, u)
    ensures EvenLists(chunks[i := Took(chunks[i], k, size, used)], spaces, u)
    ensures chunks[i].kind == Data ==> Even(chunks[i].spaces[k].offset, u)
  {
    hide Even;
    assert chunks[i] in chunks;
    if chunks[i].kind == Data {
      TakenIsEven(chunks[i].spaces, k, size, u);
      assert chunks[i].spaces[k] in chunks[i].spaces;
    }
  }

  lemma NewIsEven(chunks: seq<Chunk>, spaces: seq<Space>, rest: seq<Space>, k: nat, size: nat, c: Chunk,
                  carved: Chunk, u: nat)
    requires EvenLists(chunks, spaces, u) && k < |spaces| && Even(size, u)
    requires rest == Removed(spaces, spaces[k].offset, spaces[k].offset + size)
    requires c.offset == spaces[k].offset + VIRT && c.length == size && c.spaces == [Space(c.offset, size)]
    requires EvenIn(c, c.spaces, u) ==> EvenStarts(carved.spaces, u)
    ensures EvenLists(chunks + [carved], rest, u)
  {
    hide Even, Removed;
    assert spaces[k] in spaces;
    EvenAdds(spaces[k].offset, size, u);
    EvenOf64K(16, u);
    EvenAdds(spaces[k].offset, VIRT, u);
    RemovedIsEven(spaces, spaces[k].offset, spaces[k].offset + size, u);
    assert EvenStarts(c.spaces, u);
  }

  lemma SuperblockIsEven(i: nat, u: nat)
    requires i < |SUPERBLOCKS| && Even(STRIPE, u)
    ensures Even(SUPERBLOCKS[i], u)
  {
    hide Even;
    EvenOf64K(1, u);
    EvenOf64K(0x400, u);
    EvenOf64K(0x40_0000, u);
    EvenOf64K(0x4_0000_0000, u);
  }

  // Where superblock `i`'s stripe ends in the chunk.
  lemma StripeEndIsEven(c: Chunk, i: nat, u: nat)
    requires i < |SUPERBLOCKS| && c.offset == c.diskStart + VIRT
    requires Even(STRIPE, u) && Even(c.offset, u) && Even(c.length, u)
    ensures Even(SUPERBLOCKS[i] + STRIPE + VIRT, u) && Even(c.offset + c.length, u)
  {
    hide Even;
    SuperblockIsEven(i, u);
    EvenAdds(SUPERBLOCKS[i], STRIPE, u);
    EvenOf64K(16, u);
    EvenAdds(SUPERBLOCKS[i] + STRIPE, VIRT, u);
    EvenAdds(c.offset, c.length, u);
  }

  lemma ConsistentChunk(chunks: seq<Chunk>, spaces: seq<Space>, limit: nat, i: nat)
    requires Consistent(chunks, spaces, limit) && i < |chunks|
    ensures chunks[i] in chunks && chunks[i].Valid()
  {
  }

  lemma TookFrame(c: Chunk, k: nat, size: nat, used: nat)
    requires k < |c.spaces| && size <= c.spaces[k].length
    ensures var t := Took(c, k, size, used); t == c.(spaces := t.spaces, used := t.used)
  {
  }

  lemma GivenGrows(chunks: seq<Chunk>, chunks': seq<Chunk>, given: seq<Range>, g: Range, i: nat)
    requires i < |chunks| == |chunks'|
    requires forall j :: 0 <= j < |chunks| ==> SamePlace(chunks[j], chunks'[j])
    requires forall h :: h in given ==> InOneChunk(chunks, h)
    requires Contains(chunks[i], g)
    ensures forall h :: h in given + [g] ==> InOneChunk(chunks', h)
    ensures forall disk :: IsGiven(given + [g], disk) <==> IsGiven(given, disk) || g.Has(disk)
  {
    PlacesKept(chunks, chunks', given);
    assert SamePlace(chunks[i], chunks'[i]) && chunks'[i] in chunks' && Contains(chunks'[i], g);
  }

  lemma PlacesKept(chunks: seq<Chunk>, chunks': seq<Chunk>, given: seq<Range>)
    requires |chunks| == |chunks'| && forall j :: 0 <= j < |chunks| ==> SamePlace(chunks[j], chunks'[j])
    requires forall h :: h in given ==> InOneChunk(chunks, h)
    ensures forall h :: h in given ==> InOneChunk(chunks', h)
  {
    forall h | h in given
      ensures InOneChunk(chunks', h)
    {
      var c :| c in chunks && Contains(c, h);
      var j :| 0 <= j < |chunks| && chunks[j] == c;
      assert SamePlace(chunks[j], chunks'[j]);
      assert chunks'[j] in chunks' && Contains(chunks'[j], h);
    }
  }

  predicate SamePlace(c: Chunk, d: Chunk) {
    c.diskStart == d.diskStart && c.length == d.length
  }

  lemma RangesStayApart(given: seq<Range>, g: Range)
    requires RangesApart(given)
    requires forall disk :: g.Has(disk) ==> !IsGiven(given, disk)
    ensures RangesApart(given + [g])
  {
    forall i | 0 <= i < |given|
      ensures !RangeMeets(given[i], g)
    {
      var x := if given[i].start < g.start then g.start else given[i].start;
      assert given[i] in given;
      if RangeMeets(given[i], g) {
        assert given[i].Has(x) && g.Has(x);
        assert false;
      }
    }
  }

  lemma TookIsHanded(chunks: seq<Chunk>, given: seq<Range>, i: nat, k: nat, size: nat, changeUsed: bool)
    requires i < |chunks| && chunks[i].Valid() && k < |chunks[i].spaces| && 0 < size <= chunks[i].spaces[k].length
    ensures var c := chunks[i];
      var used := UsedAfter(c.used, size, changeUsed);
      Handed(chunks, chunks[i := Took(c, k, size, used)], given, given + [TookRange(c, k, size)],
             c.spaces[k].offset, c.kind, size, changeUsed)
  {
    hide Covers, Taken;
    var used := UsedAfter(chunks[i].used, size, changeUsed);
    TookIsExact(chunks[i], k, size, used);
    assert Charged(chunks, chunks[i := Took(chunks[i], k, size, used)], i, chunks[i].spaces[k].offset,
                   chunks[i].kind, size, changeUsed);
  }

  // What was handed out last is new, and leaves less.
  lemma HandingShrinks(chunks: seq<Chunk>, spaces: seq<Space>, limit: nat, initial: set<int>, given: seq<Range>,
                       g: Range)
    requires Accounted(chunks, spaces, limit, initial, given + [g]) && 0 < g.length
    ensures g !in given && StillFree(initial, given + [g]) < StillFree(initial, given)
  {
    var given' := given + [g];
    assert given'[|given|] == g && g.Has(g.start) && IsGiven(given', g.start);
    forall h | h in given
      ensures !h.Has(g.start)
    {
      var i :| 0 <= i < |given| && given[i] == h;
      assert !RangeMeets(given'[i], given'[|given|]);
    }
    assert g.start in StillFree(initial, given) && g.start !in StillFree(initial, given');
  }

  // Recording that a chunk is in the chunk tree, or another count of its used bytes.
  lemma MarkedIsAccounted(chunks: seq<Chunk>, spaces: seq<Space>, limit: nat, initial: set<int>, given: seq<Range>,
                          i: nat, c: Chunk)
    requires Accounted(chunks, spaces, limit, initial, given) && i < |chunks|
    requires c == chunks[i].(used := c.used, added := c.added)
    ensures Accounted(chunks[i := c], spaces, limit, initial, given)
  {
    hide Covers;
    assert chunks[i] in chunks;
    assert forall disk :: c.Spare(disk) <==> chunks[i].Spare(disk);
    TookKeeps(chunks, spaces, limit, i, c);
    PlacesKept(chunks, chunks[i := c], given);
    forall disk
      ensures FreeAt(chunks[i := c], spaces, disk) <==> FreeAt(chunks, spaces, disk)
    {
      TookFree(chunks, spaces, limit, i, c, disk);
    }
  }

  // What the ranges add up to inside one chunk.
  function InsideOf(ranges: seq<Range>, c: Chunk): nat {
    if ranges == [] then 0
    else
      var g := ranges[|ranges| - 1];
      InsideOf(ranges[..|ranges| - 1], c) + if Contains(c, g) then g.length else 0
  }

  lemma InsideNext(ranges: seq<Range>, g: Range, c: Chunk)
    ensures InsideOf(ranges + [g], c) == InsideOf(ranges, c) + if Contains(c, g) then g.length else 0
  {
    assert (ranges + [g])[..|ranges|] == ranges;
  }

  lemma {:induction false} InsideSame(ranges: seq<Range>, c: Chunk, d: Chunk)
    requires SamePlace(c, d)
    ensures InsideOf(ranges, c) == InsideOf(ranges, d)
    decreases |ranges|
  {
    if ranges != [] {
      InsideSame(ranges[..|ranges| - 1], c, d);
    }
  }

  lemma {:induction false} InsideNone(ranges: seq<Range>, c: Chunk)
    requires forall g :: g in ranges ==> !Contains(c, g)
    ensures InsideOf(ranges, c) == 0
    decreases |ranges|
  {
    if ranges != [] {
      assert ranges[|ranges| - 1] in ranges;
      InsideNone(ranges[..|ranges| - 1], c);
    }
  }

  // Nothing is both counted as used and free: the count cannot pass the chunk's length.
  predicate Roomy(c: Chunk) {
    c.used + Total(c.spaces) <= c.length
  }

  predicate AllRoomy(chunks: seq<Chunk>) {
    forall c :: c in chunks ==> Roomy(c)
  }

  function UsedAtFirst(first: seq<Chunk>, i: nat): nat {
    if i < |first| then first[i].used else 0
  }

  // What chunk `i` counts as used is what it counted at first and what it was charged since.
  predicate CountsAt(first: seq<Chunk>, chunks: seq<Chunk>, charged: seq<Range>, i: nat)
    requires i < |chunks|
  {
    && (i < |first| ==> SameGroup(first[i], chunks[i]))
    && chunks[i].used == UsedAtFirst(first, i) + InsideOf(charged, chunks[i])
    && Roomy(chunks[i])
  }

  ghost predicate Counted(first: seq<Chunk>, chunks: seq<Chunk>, charged: seq<Range>) {
    |first| <= |chunks| && forall i: nat :: i < |chunks| ==> CountsAt(first, chunks, charged, i)
  }

  predicate WasGiven(charged: seq<Range>, given: seq<Range>) {
    forall g :: g in charged ==> g in given && 0 < g.length
  }

  lemma CountedAtFirst(chunks: seq<Chunk>)
    requires AllRoomy(chunks)
    ensures Counted(chunks, chunks, [])
  {
    forall i: nat | i < |chunks|
      ensures CountsAt(chunks, chunks, [], i)
    {
      assert chunks[i] in chunks;
    }
  }

  lemma OtherHoldsNone(c: Chunk, d: Chunk, g: Range)
    requires Apart(c, d) || Apart(d, c)
    requires Contains(c, g) && 0 < g.length
    ensures !Contains(d, g)
  {
  }

  // The count after an allocation, in 64 bits.
  function UsedAfter(used: nat, size: nat, changeUsed: bool): nat {
    if changeUsed then Wrap(used + size) else used
  }

  function ChargedWith(charged: seq<Range>, g: Range, changeUsed: bool): seq<Range> {
    if changeUsed then charged + [g] else charged
  }

  // A first-fit step keeps the counts.
  lemma TookIsCounted(first: seq<Chunk>, chunks: seq<Chunk>, charged: seq<Range>, i: nat, k: nat, size: nat,
                      changeUsed: bool)
    requires ChunksApart(chunks) && Counted(first, chunks, charged)
    requires i < |chunks| && chunks[i].Valid() && chunks[i].length < 0x1_0000_0000_0000_0000
    requires k < |chunks[i].spaces| && 0 < size <= chunks[i].spaces[k].length
    ensures var used := UsedAfter(chunks[i].used, size, changeUsed);
      Counted(first, chunks[i := Took(chunks[i], k, size, used)],
              ChargedWith(charged, TookRange(chunks[i], k, size), changeUsed))
  {
    hide Covers, Taken, Chunk.Valid, CountsAt, Wrap;
    var g, used := TookRange(chunks[i], k, size), UsedAfter(chunks[i].used, size, changeUsed);
    var c, charged' := Took(chunks[i], k, size, used), ChargedWith(charged, g, changeUsed);
    TookIsExact(chunks[i], k, size, used);
    var chunks' := chunks[i := c];
    forall j: nat | j < |chunks'|
      ensures CountsAt(first, chunks', charged', j)
    {
      assert CountsAt(first, chunks, charged, j);
      if j == i {
        TookCounts(first, chunks, charged, i, k, size, changeUsed);
      } else {
        assert Apart(chunks[if i < j then i else j], chunks[if i < j then j else i]);
        OtherHoldsNone(chunks[i], chunks[j], g);
        OtherCounts(first, chunks, chunks', charged, charged', g, j);
      }
    }
  }

  lemma OtherCounts(first: seq<Chunk>, chunks: seq<Chunk>, chunks': seq<Chunk>, charged: seq<Range>,
                    charged': seq<Range>,
                    g: Range, j: nat)
    requires j < |chunks| == |chunks'| && CountsAt(first, chunks, charged, j) && chunks'[j] == chunks[j]
    requires !Contains(chunks[j], g) && (charged' == charged || charged' == charged + [g])
    ensures CountsAt(first, chunks', charged', j)
  {
    InsideNext(charged, g, chunks[j]);
  }

  lemma TookCounts(first: seq<Chunk>, chunks: seq<Chunk>, charged: seq<Range>, i: nat, k: nat, size: nat,
                   changeUsed: bool)
    requires i < |chunks| && CountsAt(first, chunks, charged, i)
    requires chunks[i].Valid() && chunks[i].length < 0x1_0000_0000_0000_0000
    requires k < |chunks[i].spaces| && 0 < size <= chunks[i].spaces[k].length
    ensures var used := UsedAfter(chunks[i].used, size, changeUsed);
      CountsAt(first, chunks[i := Took(chunks[i], k, size, used)],
               ChargedWith(charged, TookRange(chunks[i], k, size), changeUsed), i)
  {
    hide Covers, Taken, Chunk.Valid, Wrap;
    var g, used := TookRange(chunks[i], k, size), UsedAfter(chunks[i].used, size, changeUsed);
    var c := Took(chunks[i], k, size, used);
    TookIsExact(chunks[i], k, size, used);
    TakenTotal(chunks[i].spaces, k, size);
    WrapSmall(chunks[i].used + size);
    InsideSame(charged, chunks[i], c);
    InsideNext(charged, g, c);
  }

  // So does a new chunk, which nothing was taken from.
  lemma NewIsCounted(first: seq<Chunk>, chunks: seq<Chunk>, given: seq<Range>, charged: seq<Range>, c: Chunk)
    requires ChunksApart(chunks + [c]) && Counted(first, chunks, charged) && WasGiven(charged, given)
    requires forall g :: g in given ==> InOneChunk(chunks, g)
    requires c.used == 0 && Sorted(c.spaces, c.offset, c.offset + c.length)
    ensures Counted(first, chunks + [c], charged)
  {
    hide Covers, Sorted;
    var all := chunks + [c];
    forall g | g in charged
      ensures !Contains(c, g)
    {
      var d :| d in chunks && Contains(d, g);
      var j :| 0 <= j < |chunks| && chunks[j] == d;
      assert Apart(all[j], all[|chunks|]);
      OtherHoldsNone(d, c, g);
    }
    InsideNone(charged, c);
    SortedTotal(c.spaces, c.offset, c.offset + c.length);
    forall j: nat | j < |all|
      ensures CountsAt(first, all, charged, j)
    {
      assert j < |chunks| ==> CountsAt(first, chunks, charged, j);
    }
  }

  lemma AddedIsCounted(first: seq<Chunk>, chunks: seq<Chunk>, charged: seq<Range>, i: nat)
    requires Counted(first, chunks, charged) && i < |chunks|
    ensures Counted(first, chunks[i := chunks[i].(added := true)], charged)
  {
    var c := chunks[i].(added := true);
    InsideSame(charged, chunks[i], c);
    var chunks' := chunks[i := c];
    forall j: nat | j < |chunks'|
      ensures CountsAt(first, chunks', charged, j)
    {
      assert CountsAt(first, chunks, charged, j);
    }
  }

  // The allocators' state: the planner's globals `chunks`, `space_list` and `chunks_changed`.
  class Planner {
    var chunks: seq<Chunk>
    var spaces: seq<Space>
    var chunksChanged: bool
    ghost var limit: nat          // end of the device-wide free list
    ghost var initial: set<int>  // device bytes free at the start
    ghost var given: seq<Range>   // device ranges handed out since, in order
    ghost const first: seq<Chunk> // the chunks at the start
    ghost var charged: seq<Range> // the ranges handed out that count as used
    ghost const unit: nat         // data is handed out in multiples of this
    ghost const counting: bool    // whether the counts of used bytes are complete

    ghost predicate Valid()
      reads this
    {
      && Accounted(chunks, spaces, limit, initial, given) && limit + VIRT < 0x1_0000_0000_0000_0000
      && WasGiven(charged, given) && EvenLists(chunks, spaces, unit)
      && (counting ==> Counted(first, chunks, charged))
    }

    // The bytes of the device still free: what an allocation makes smaller.
    ghost function FreeSet(): set<int>
      reads this
    {
      StillFree(initial, given)
    }

    // No block is left to hand out, and no room for a chunk to take one from.
    ghost predicate Exhausted(system: bool)
      reads this
    {
      NoFit(chunks, MetadataKind(system), TREE) && !HasRoom(spaces, MetadataChunk(system))
    }

    constructor (chunks: seq<Chunk>, spaces: seq<Space>, ghost limit: nat, ghost unit: nat, ghost counting: bool)
      requires Consistent(chunks, spaces, limit) && limit + VIRT < 0x1_0000_0000_0000_0000
      requires EvenLists(chunks, spaces, unit) && (counting ==> AllRoomy(chunks))
      ensures this.limit == limit && this.unit == unit && this.counting == counting
      ensures Valid() && given == [] && charged == [] && this.chunks == this.first == chunks && this.spaces == spaces
      ensures forall disk :: disk in initial <==> FreeAt(chunks, spaces, disk)
    {
      this.chunks, this.spaces, this.chunksChanged := chunks, spaces, false;
      this.limit, this.given, this.first, this.charged := limit, [], chunks, [];
      this.unit, this.counting := unit, counting;
      this.initial := set disk | 0 <= disk < limit && FreeAt(chunks, spaces, disk);
      new;
      if counting {
        CountedAtFirst(chunks);
      }
      forall disk | FreeAt(chunks, spaces, disk)
        ensures RESERVED <= disk < limit && !InStripe(disk)
      {
        FreeIsClear(chunks, spaces, limit, disk);
      }
    }

    // First fit over the chunks of one kind.
    method TakeFromChunks(kind: Kind, size: nat, changeUsed: bool) returns (r: Result)
      requires Valid() && 0 < size && (kind == Data ==> Even(size, unit))
      modifies this
      ensures Valid() && spaces == old(spaces) && chunksChanged == old(chunksChanged)
      ensures initial == old(initial) && limit == old(limit) && |chunks| == |old(chunks)|
      ensures r == NoSpace || r.Ok?
      ensures r == NoSpace <==> old(NoFit(chunks, kind, size))
      ensures r == NoSpace ==> chunks == old(chunks) && given == old(given) && charged == old(charged)
      ensures r.Ok? ==> Handed(old(chunks), chunks, old(given), given, r.addr, kind, size, changeUsed)
      ensures r.Ok? ==> charged == ChargedWith(old(charged), Range(r.addr - VIRT, size), changeUsed)
      ensures r.Ok? && kind == Data ==> Even(r.addr, unit)
      ensures r.Ok? ==> TookFrom(old(chunks), chunks, Range(r.addr - VIRT, size), kind, changeUsed)
    {
      hide Accounted, Counted, Handed, EvenLists, Even, WasGiven, TookFrom;
      var i: nat := 0;
      while i < |chunks|
        invariant i <= |chunks| && NoFit(chunks[..i], kind, size)
        invariant Valid() && chunks == old(chunks) && spaces == old(spaces) && given == old(given)
        invariant charged == old(charged)
        invariant chunksChanged == old(chunksChanged) && initial == old(initial) && limit == old(limit)
      {
        if chunks[i].kind == kind {
          var k := FindFit(chunks[i].spaces, size);
          if k < |chunks[i].spaces| {
            r := TakeAt(i, k, size, changeUsed);
            return;
          }
          assert chunks[i].spaces[..k] == chunks[i].spaces;
        }
        assert chunks[..i + 1] == chunks[..i] + [chunks[i]];
        i := i + 1;
      }
      assert chunks[..i] == chunks;
      r := NoSpace;
    }

    method TakeAt(i: nat, k: nat, size: nat, changeUsed: bool) returns (r: Result)
      requires Valid() && i < |chunks| && k < |chunks[i].spaces| && 0 < size <= chunks[i].spaces[k].length
      requires chunks[i].kind == Data ==> Even(size, unit)
      modifies `chunks, `given, `charged
      ensures Valid() && r.Ok? && |chunks| == |old(chunks)|
      ensures Handed(old(chunks), chunks, old(given), given, r.addr, old(chunks[i].kind), size, changeUsed)
      ensures charged == ChargedWith(old(charged), Range(r.addr - VIRT, size), changeUsed)
      ensures old(chunks[i].kind) == Data ==> Even(r.addr, unit)
      ensures TookFrom(old(chunks), chunks, Range(r.addr - VIRT, size), old(chunks[i].kind), changeUsed)
    {
      hide Accounted, Handed, Sorted, Taken, Counted, EvenLists;
      var c, addr := chunks[i], chunks[i].spaces[k].offset;
      var used := if changeUsed then Wrap(c.used + size) else c.used;
      TookIsAccounted(chunks, spaces, limit, initial, given, i, k, size, used);
      AccountedApart(chunks, spaces, limit, initial, given);
      AccountedChunk(chunks, spaces, limit, initial, given, i);
      if counting {
        TookIsCounted(first, chunks, charged, i, k, size, changeUsed);
      }
      TookIsEven(chunks, spaces, i, k, size, used, unit);
      TookIsHanded(chunks, given, i, k, size, changeUsed);
      TakenInPlace(c.spaces, k, size);
      var list := if c.spaces[k].length == size then c.spaces[..k] + c.spaces[k + 1..]
                  else c.spaces[k := Space(addr + size, c.spaces[k].length - size)];
      var c' := c.(spaces := list, used := used);
      assert c' == Took(c, k, size, used);
      given := given + [TookRange(c, k, size)];
      charged := ChargedWith(charged, TookRange(c, k, size), changeUsed);
      assert TookAt(chunks, chunks[i := c'], i, k, TookRange(c, k, size), c.kind, changeUsed);
      chunks := chunks[i := c'];
      r := Ok(addr);
    }

    // The first large enough entry of the device-wide free list becomes a chunk.
    method NewChunk(size: nat, kind: Kind) returns (found: bool)
      requires Valid() && 0 < size && Even(size, unit)
      modifies this
      ensures Valid() && chunksChanged
      ensures initial == old(initial) && limit == old(limit) && given == old(given) && charged == old(charged)
      ensures found <==> old(HasRoom(spaces, size))
      ensures !found ==> chunks == old(chunks) && spaces == old(spaces)
      ensures found ==> |chunks| == |old(chunks)| + 1 && chunks[..|old(chunks)|] == old(chunks)
      ensures found ==> IsFresh(chunks[|old(chunks)|], size, kind)
      ensures found ==> exists k :: CarvedFront(old(spaces), spaces, k, chunks[|old(chunks)|], size, kind)
    {
      hide Covers, IsFresh, Removed, FreeAt, IsGiven, ChunksApart, CountsAt, EvenLists, Even, EvenStarts, WasGiven;
      hide Taken;
      chunksChanged := true;
      var k := FindFit(spaces, size);
      if k == |spaces| {
        assert spaces[..k] == spaces;
        found := false;
        return;
      }
      assert spaces[k] in spaces;
      found := true;
      var disk := spaces[k].offset;
      SortedEntry(spaces, RESERVED, limit, k);
      var rest := SpaceListRemove(spaces, disk, size, RESERVED, limit);
      var c := Chunk(disk + VIRT, size, disk, kind, [Space(disk + VIRT, size)], 0, false);
      ChunkIsWhole(c);
      var carved := RemoveSuperblocks(c, c.offset, c.offset + size, unit);
      CarvedIsAccounted(chunks, spaces, limit, initial, given, k, size, c, carved, rest);
      CarvedIsFresh(c, carved);
      AccountedApart(chunks + [carved], rest, limit, initial, given);
      if counting {
        NewIsCounted(first, chunks, given, charged, carved);
      }
      NewIsEven(chunks, spaces, rest, k, size, c, carved, unit);
      TakenIsRemoved(spaces, k, size, RESERVED, limit);
      assert CarvedFront(spaces, rest, k, carved, size, kind);
      chunks, spaces := chunks + [carved], rest;
    }

    // `allocate_metadata`: the only failure is a device without room for another chunk.
    method AllocateMetadata(system: bool) returns (r: Result)
      requires Valid()
      modifies this
      ensures Valid() && initial == old(initial) && limit == old(limit)
      ensures r != NoAddress
      ensures r == NoSpace
         <==> old(NoFit(chunks, MetadataKind(system), TREE) && !HasRoom(spaces, MetadataChunk(system)))
      ensures r == NoSpace ==> Exhausted(system)
      ensures r == NoSpace ==> chunks == old(chunks) && spaces == old(spaces) && given == old(given)
      ensures r.Ok? ==> Allocated(old(chunks), chunks, old(given), given, r.addr, MetadataKind(system), TREE, true)
      ensures charged == if r.Ok? then old(charged) + [Range(r.addr - VIRT, TREE)] else old(charged)
      ensures r.Ok? ==> VIRT <= r.addr && given == old(given) + [Range(r.addr - VIRT, TREE)]
      ensures r.Ok? ==> Range(r.addr - VIRT, TREE) !in old(given) && FreeSet() < old(FreeSet())
      ensures r.Ok? ==> AddedFrom(old(chunks), chunks)
    {
      hide Accounted, Counted, Handed, Allocated, NoFit, HasRoom, StillFree, AddedFrom, EvenLists, Even;
      ChunkSizesAreEven(chunks, spaces, unit);
      r := TakeFromChunks(MetadataKind(system), TREE, true);
      if r.Ok? {
        assert old(chunks) + [] == old(chunks);
        HandedIsAllocated(old(chunks), [], chunks, old(given), given, r.addr, MetadataKind(system), TREE, true);
      } else {
        r := TakeFromNew(MetadataChunk(system), MetadataKind(system), TREE, true);
      }
      if r.Ok? {
        AllocatedAt(old(chunks), chunks, old(given), given, r.addr, MetadataKind(system), TREE, true);
        HandingShrinks(chunks, spaces, limit, initial, old(given), Range(r.addr - VIRT, TREE));
        AllocatedKeepsAdded(old(chunks), chunks, old(given), given, r.addr, MetadataKind(system), TREE, true);
      }
    }

    method ClearChanged()
      requires Valid()
      modifies `chunksChanged
      ensures Valid() && !chunksChanged && FreeSet() == old(FreeSet())
    {
      chunksChanged := false;
    }

    // What `protect_cluster` does to the count of the chunk a protected cluster is in.
    method Uncharge(addr: nat, size: nat)
      requires Valid() && !counting
      modifies `chunks
      ensures Valid() && Uncharged(old(chunks), chunks, addr, size)
    {
      hide Accounted, EvenLists;
      AccountedApart(chunks, spaces, limit, initial, given);
      var i: nat := 0;
      while i < |chunks| && !chunks[i].HasAddr(addr)
        invariant i <= |chunks| && forall j :: 0 <= j < i ==> !chunks[j].HasAddr(addr)
      {
        i := i + 1;
      }
      if i < |chunks| {
        var c := chunks[i].(used := Wrap(chunks[i].used - size));
        MarkedIsAccounted(chunks, spaces, limit, initial, given, i, c);
        MarkedIsEven(chunks, spaces, i, c, unit);
        OnlyHolder(chunks, spaces, limit, initial, given, i, addr);
        chunks := chunks[i := c];
      }
    }

    // The flag `add_chunk`'s caller sets.
    method MarkAdded(i: nat)
      requires Valid() && i < |chunks|
      modifies `chunks
      ensures Valid() && chunks == old(chunks)[i := old(chunks)[i].(added := true)]
    {
      MarkedIsAccounted(chunks, spaces, limit, initial, given, i, chunks[i].(added := true));
      if counting {
        AddedIsCounted(first, chunks, charged, i);
      }
      chunks := chunks[i := chunks[i].(added := true)];
    }

    // `allocate_data`. A request of up to 7 MB, and so a single cluster, fails only when there is no
    // room for another chunk.
    method AllocateData(length: nat, changeUsed: bool) returns (r: Result)
      requires Valid() && 0 < length && Even(length, unit)
      modifies this
      ensures Valid() && initial == old(initial) && limit == old(limit)
      ensures length <= 0x700000 ==> r != NoAddress
      ensures r == NoSpace <==> old(NoFit(chunks, Data, length) && !HasRoom(spaces, DATA_CHUNK))
      ensures r == NoSpace ==> chunks == old(chunks) && spaces == old(spaces)
      ensures !r.Ok? ==> given == old(given) && charged == old(charged)
      ensures r.Ok? ==> Allocated(old(chunks), chunks, old(given), given, r.addr, Data, length, changeUsed)
      ensures r.Ok? ==> charged == ChargedWith(old(charged), Range(r.addr - VIRT, length), changeUsed)
      ensures r.Ok? ==> Even(r.addr, unit)
      ensures r.Ok? ==>
        DataStep(old(chunks), old(spaces), chunks, spaces, Range(r.addr - VIRT, length), changeUsed)
      ensures r.Ok? && !old(NoFit(chunks, Data, length)) ==> |chunks| == |old(chunks)|
      ensures !r.Ok? ==> old(NoFit(chunks, Data, length))
    {
      hide Accounted, Counted, Handed, Allocated, NoFit, HasRoom, EvenLists, Even, WasGiven, TookFrom;
      ChunkSizesAreEven(chunks, spaces, unit);
      r := TakeFromChunks(Data, length, changeUsed);
      if r.Ok? {
        assert old(chunks) + [] == old(chunks);
        HandedIsAllocated(old(chunks), [], chunks, old(given), given, r.addr, Data, length, changeUsed);
        assert NewFrom(old(spaces), spaces, []);
        return;
      }
      r := TakeFromNew(DATA_CHUNK, Data, length, changeUsed);
    }

    // The second half of both allocators: a new chunk, then first fit in it.
    method TakeFromNew(chunkSize: nat, kind: Kind, size: nat, changeUsed: bool) returns (r: Result)
      requires Valid() && 0 < size && chunkSize == if kind == System then SYSTEM_CHUNK else DATA_CHUNK
      requires Even(chunkSize, unit) && (kind == Data ==> Even(size, unit))
      modifies this
      ensures Valid() && initial == old(initial) && limit == old(limit)
      ensures 16 * size + 15 * STRIPE <= chunkSize ==> r != NoAddress
      ensures r == NoSpace <==> !old(HasRoom(spaces, chunkSize))
      ensures r == NoSpace ==> chunks == old(chunks) && spaces == old(spaces)
      ensures !r.Ok? ==> given == old(given) && charged == old(charged)
      ensures r.Ok? ==> Allocated(old(chunks), chunks, old(given), given, r.addr, kind, size, changeUsed)
      ensures r.Ok? ==> charged == ChargedWith(old(charged), Range(r.addr - VIRT, size), changeUsed)
      ensures r.Ok? && kind == Data ==> Even(r.addr, unit)
      ensures r.Ok? && kind == Data && chunkSize == DATA_CHUNK ==>
        DataStep(old(chunks), old(spaces), chunks, spaces, Range(r.addr - VIRT, size), changeUsed)
    {
      hide Accounted, Counted, Handed, Allocated, EvenLists, Even, WasGiven, TookFrom, CarvedFront;
      var i := |chunks|;
      var found := NewChunk(chunkSize, kind);
      if !found {
        r := NoSpace;
        return;
      }
      var k := FindFit(chunks[i].spaces, size);
      if k == |chunks[i].spaces| {
        assert chunks[i].spaces[..k] == chunks[i].spaces;
        assert 16 * size + 15 * STRIPE <= chunkSize ==> HasRoom(chunks[i].spaces, size);
        r := NoAddress;
        return;
      }
      ghost var extra := [chunks[i]];
      assert chunks == old(chunks) + extra;
      r := TakeAt(i, k, size, changeUsed);
      assert kind == Data && chunkSize == DATA_CHUNK ==> NewFrom(old(spaces), spaces, extra);
      HandedIsAllocated(old(chunks), extra, chunks, old(given), given, r.addr, kind, size, changeUsed);
    }

    // `write_trees`: every block that was handed out lies in a chunk, and the first chunk
    // that contains it gives the device address it was taken from.
    method Locate(addr: nat, size: nat) returns (physical: nat)
      requires Valid() && VIRT <= addr && 0 < size && Range(addr - VIRT, size) in given
      ensures physical == addr - VIRT
    {
      ghost var g := Range(addr - VIRT, size);
      var i: nat := 0;
      while i < |chunks| && !(chunks[i].offset <= addr && chunks[i].offset + chunks[i].length >= addr + size)
        invariant i <= |chunks| && forall j :: 0 <= j < i ==> !Contains(chunks[j], g)
      {
        assert chunks[i] in chunks && chunks[i].Valid();
        i := i + 1;
      }
      assert InOneChunk(chunks, g);
      assert chunks[i] in chunks && chunks[i].Valid();
      physical := addr - chunks[i].offset + chunks[i].diskStart;
    }
  }

  function MetadataKind(system: bool): Kind {
    if system then System else Metadata
  }

  function MetadataChunk(system: bool): nat {
    if system then SYSTEM_CHUNK else DATA_CHUNK
  }

  // A new chunk nothing was allocated from.
  ghost predicate IsFresh(c: Chunk, size: nat, kind: Kind) {
    c.kind == kind && c.length == size && c.used == 0 && !c.added && 0 < size
    && forall n: nat :: 0 < n && 16 * n + 15 * STRIPE <= size ==> HasRoom(c.spaces, n)
  }

  lemma ChunkIsWhole(c: Chunk)
    requires c.offset == c.diskStart + VIRT && RESERVED <= c.diskStart && c.spaces == [Space(c.offset, c.length)]
    requires 0 < c.length
    ensures c.Valid() && forall disk :: c.Spare(disk) <==> c.Holds(disk)
  {
    assert Sorted(c.spaces[1..], c.spaces[0].End(), c.offset + c.length);
    forall disk
      ensures c.Spare(disk) <==> c.Holds(disk)
    {
      if c.Holds(disk) {
        EntryIsCovered(c.spaces, 0, disk + VIRT);
      }
    }
  }

  lemma CarvedIsFresh(c: Chunk, r: Chunk)
    requires c.spaces == [Space(c.offset, c.length)] && c.used == 0 && !c.added && 0 < c.length
    requires r == c.(spaces := r.spaces)
    requires forall n: nat :: 0 < n && HasRoom(c.spaces, 16 * n + 15 * STRIPE) ==> HasRoom(r.spaces, n)
    ensures IsFresh(r, c.length, c.kind)
  {
    forall n: nat | 0 < n && 16 * n + 15 * STRIPE <= c.length
      ensures HasRoom(r.spaces, n)
    {
      assert c.spaces[0] in c.spaces;
      assert HasRoom(c.spaces, 16 * n + 15 * STRIPE);
    }
  }

  // Entry `k` of the device-wide list gives its front to the new chunk.
  lemma CarvedIsAccounted(chunks: seq<Chunk>, spaces: seq<Space>, limit: nat, initial: set<int>, given: seq<Range>,
                          k: nat, size: nat, c: Chunk, carved: Chunk, rest: seq<Space>)
    requires Accounted(chunks, spaces, limit, initial, given)
    requires k < |spaces| && 0 < size <= spaces[k].length
    requires rest == Removed(spaces, spaces[k].offset, spaces[k].offset + size)
    requires c.diskStart == spaces[k].offset && c.length == size && forall disk :: c.Spare(disk) <==> c.Holds(disk)
    requires carved == c.(spaces := carved.spaces) && carved.Valid()
    requires forall disk :: carved.Spare(disk) <==> c.Spare(disk) && !(InStripe(disk) && c.Holds(disk))
    ensures Accounted(chunks + [carved], rest, limit, initial, given)
  {
    hide Removed, Covers, FreeAt;
    RemovedIsSorted(spaces, spaces[k].offset, spaces[k].offset + size, RESERVED, limit);
    forall disk
      ensures Covers(rest, disk) <==> Covers(spaces, disk) && !carved.Holds(disk)
      ensures carved.Holds(disk) ==> Covers(spaces, disk)
    {
      RemovedIsDifference(spaces, spaces[k].offset, spaces[k].offset + size, disk);
      if carved.Holds(disk) {
        EntryIsCovered(spaces, k, disk);
      }
    }
    SortedEntry(spaces, RESERVED, limit, k);
    NewChunkKeeps(chunks, spaces, limit, carved, rest);
    forall g | g in given
      ensures InOneChunk(chunks + [carved], g)
    {
      var d :| d in chunks && Contains(d, g);
      assert d in chunks + [carved];
    }
  }

  predicate SameGroup(c: Chunk, d: Chunk) {
    c.offset == d.offset && c.length == d.length && c.diskStart == d.diskStart && c.kind == d.kind
  }

  predicate HasAdded(chunks: seq<Chunk>, d: Chunk) {
    exists c :: c in chunks && c.added && SameGroup(c, d)
  }

  predicate NoneEmpty(chunks: seq<Chunk>) {
    forall c :: c in chunks ==> 0 < c.length
  }

  // The chunks that have been added to the chunk tree are those that were so before, in the same places.
  predicate AddedFrom(chunks: seq<Chunk>, chunks': seq<Chunk>) {
    && (forall d :: d in chunks' && d.added ==> HasAdded(chunks, d))
    && (forall c :: c in chunks && c.added ==> HasAdded(chunks', c))
    && (NoneEmpty(chunks) ==> NoneEmpty(chunks'))
    && GroupsKept(chunks, chunks')
  }

  // The chunks are where they were, and there may be more.
  predicate GroupsKept(chunks: seq<Chunk>, chunks': seq<Chunk>) {
    |chunks| <= |chunks'| && forall i :: 0 <= i < |chunks| ==> SameGroup(chunks[i], chunks'[i])
  }

  lemma GroupsKeptOn(a: seq<Chunk>, b: seq<Chunk>, c: seq<Chunk>)
    requires GroupsKept(a, b) && GroupsKept(b, c)
    ensures GroupsKept(a, c)
  {
    forall i | 0 <= i < |a|
      ensures SameGroup(a[i], c[i])
    {
      assert SameGroup(a[i], b[i]) && SameGroup(b[i], c[i]);
    }
  }

  lemma GroupsKeptSelf(chunks: seq<Chunk>)
    ensures GroupsKept(chunks, chunks)
  {
  }

  lemma MarkedGroups(a: seq<Chunk>, b: seq<Chunk>, i: nat)
    requires GroupsKept(a, b) && i < |b|
    ensures GroupsKept(a, b[i := b[i].(added := true)])
  {
  }

  lemma AddedGroups(chunks: seq<Chunk>, chunks': seq<Chunk>)
    requires AddedFrom(chunks, chunks')
    ensures GroupsKept(chunks, chunks')
  {
  }

  lemma AddedFromItself(chunks: seq<Chunk>)
    ensures AddedFrom(chunks, chunks)
  {
    forall d | d in chunks && d.added
      ensures HasAdded(chunks, d)
    {
      assert SameGroup(d, d);
    }
  }

  lemma AddedBack(a: seq<Chunk>, b: seq<Chunk>, z: Chunk)
    requires forall y :: y in b && y.added ==> HasAdded(a, y)
    requires HasAdded(b, z)
    ensures HasAdded(a, z)
  {
    var y :| y in b && y.added && SameGroup(y, z);
    var x :| x in a && x.added && SameGroup(x, y);
    assert SameGroup(x, z);
  }

  lemma AddedFromTransitive(a: seq<Chunk>, b: seq<Chunk>, c: seq<Chunk>)
    requires AddedFrom(a, b) && AddedFrom(b, c)
    ensures AddedFrom(a, c)
  {
    GroupsKeptOn(a, b, c);
    hide GroupsKept;
    forall z | z in c && z.added
      ensures HasAdded(a, z)
    {
      AddedBack(a, b, z);
    }
    forall z | z in a && z.added
      ensures HasAdded(c, z)
    {
      AddedBack(c, b, z);
    }
  }

  lemma AllocatedKeepsAdded(chunks: seq<Chunk>, chunks': seq<Chunk>, given: seq<Range>, given': seq<Range>,
                            addr: nat, kind: Kind, size: nat, changeUsed: bool)
    requires Allocated(chunks, chunks', given, given', addr, kind, size, changeUsed)
    ensures AddedFrom(chunks, chunks')
  {
    var extra: seq<Chunk> :|
      FreshOnly(extra) && Handed(chunks + extra, chunks', given, given', addr, kind, size, changeUsed);
    var all := chunks + extra;
    var i: nat :| i < |all| && Charged(all, chunks', i, addr, kind, size, changeUsed);
    forall d | d in chunks'
      ensures d.added ==> HasAdded(chunks, d)
      ensures NoneEmpty(chunks) ==> 0 < d.length
    {
      var j :| 0 <= j < |chunks'| && chunks'[j] == d;
      assert SameGroup(all[j], d) && all[j].added == d.added;
      assert all[j] in all;
    }
    forall c | c in chunks && c.added
      ensures HasAdded(chunks', c)
    {
      var j :| 0 <= j < |chunks| && chunks[j] == c;
      assert all[j] == c && SameGroup(chunks'[j], c) && chunks'[j].added;
      assert chunks'[j] in chunks';
    }
  }

  // As `Handed`, possibly after one new chunk.
  ghost predicate Allocated(chunks: seq<Chunk>, chunks': seq<Chunk>, given: seq<Range>, given': seq<Range>,
                            addr: nat, kind: Kind, size: nat, changeUsed: bool) {
    exists extra: seq<Chunk> ::
      FreshOnly(extra) && Handed(chunks + extra, chunks', given, given', addr, kind, size, changeUsed)
  }

  lemma AllocatedAt(chunks: seq<Chunk>, chunks': seq<Chunk>, given: seq<Range>, given': seq<Range>,
                    addr: nat, kind: Kind, size: nat, changeUsed: bool)
    requires Allocated(chunks, chunks', given, given', addr, kind, size, changeUsed)
    ensures VIRT <= addr && given' == given + [Range(addr - VIRT, size)]
  {
  }

  predicate FreshOnly(extra: seq<Chunk>) {
    && |extra| <= 1
    && forall c :: c in extra ==>
         c.used == 0 && !c.added && c.length == if c.kind == System then 0x200_0000 else 0x800_0000
  }

  lemma HandedIsAllocated(chunks: seq<Chunk>, extra: seq<Chunk>, chunks': seq<Chunk>, given: seq<Range>,
                          given': seq<Range>, addr: nat, kind: Kind, size: nat, changeUsed: bool)
    requires FreshOnly(extra)
    requires Handed(chunks + extra, chunks', given, given', addr, kind, size, changeUsed)
    ensures Allocated(chunks, chunks', given, given', addr, kind, size, changeUsed)
  {
  }

  // No chunk of the kind has a free entry of `size` bytes.
  predicate NoFit(chunks: seq<Chunk>, kind: Kind, size: nat) {
    forall c :: c in chunks && c.kind == kind ==> TooShort(c.spaces, size)
  }

  // Chunk `i` gave up the front of its free entry `k`.
  ghost predicate TookAt(chunks: seq<Chunk>, chunks': seq<Chunk>, i: nat, k: nat, g: Range, kind: Kind,
                         changeUsed: bool)
  {
    && i < |chunks| && chunks[i].Valid() && chunks[i].kind == kind
    && k < |chunks[i].spaces| && 0 < g.length <= chunks[i].spaces[k].length
    && g == TookRange(chunks[i], k, g.length)
    && chunks' == chunks[i := Took(chunks[i], k, g.length, UsedAfter(chunks[i].used, g.length, changeUsed))]
  }

  ghost predicate TookFrom(chunks: seq<Chunk>, chunks': seq<Chunk>, g: Range, kind: Kind, changeUsed: bool) {
    exists i: nat, k: nat :: TookAt(chunks, chunks', i, k, g, kind, changeUsed)
  }

  // Chunk `c` is the front of entry `k` of the device-wide free list, which has given it up.
  ghost predicate CarvedFront(spaces: seq<Space>, spaces': seq<Space>, k: nat, c: Chunk, size: nat, kind: Kind) {
    && k < |spaces| && 0 < size <= spaces[k].length && spaces' == Taken(spaces, k, size)
    && c.diskStart == spaces[k].offset && c.length == size && c.kind == kind && c.used == 0 && !c.added && c.Valid()
  }

  // No new chunk, or one.
  ghost predicate NewFrom(spaces: seq<Space>, spaces': seq<Space>, extra: seq<Chunk>) {
    || (extra == [] && spaces' == spaces)
    || (|extra| == 1 && exists k :: CarvedFront(spaces, spaces', k, extra[0], DATA_CHUNK, Data))
  }

  // What `allocate_data` does: at most one new chunk, and then a range from the front of a free entry.
  ghost predicate DataStep(chunks: seq<Chunk>, spaces: seq<Space>, chunks': seq<Chunk>, spaces': seq<Space>, g: Range,
                           changeUsed: bool)
  {
    exists extra: seq<Chunk> ::
      NewFrom(spaces, spaces', extra) && TookFrom(chunks + extra, chunks', g, Data, changeUsed)
  }

  // One chunk of the kind was charged for the range, which was recorded; the rest stand.
  ghost predicate Handed(chunks: seq<Chunk>, chunks': seq<Chunk>, given: seq<Range>, given': seq<Range>,
                         addr: nat, kind: Kind, size: nat, changeUsed: bool) {
    && VIRT <= addr && given' == given + [Range(addr - VIRT, size)]
    && exists i :: 0 <= i < |chunks| && Charged(chunks, chunks', i, addr, kind, size, changeUsed)
  }

  ghost predicate Charged(chunks: seq<Chunk>, chunks': seq<Chunk>, i: nat, addr: nat, kind: Kind, size: nat,
                          changeUsed: bool)
    requires i < |chunks| && VIRT <= addr
  {
    && |chunks'| == |chunks|
    && chunks' == chunks[i := chunks'[i]]
    && chunks[i].kind == kind && Contains(chunks[i], Range(addr - VIRT, size))
    && chunks'[i] == chunks[i].(spaces := chunks'[i].spaces,
                                used := UsedAfter(chunks[i].used, size, changeUsed))
    && (forall disk :: chunks'[i].Spare(disk) <==> chunks[i].Spare(disk) && !Range(addr - VIRT, size).Has(disk))
  }
}
