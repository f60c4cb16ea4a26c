/**
 * Carving the data chunks: `create_data_chunks`. Each stretch of 128 MB with used clusters becomes a
 * chunk whose free list is what its used runs leave over.
 */
module DataChunks {
  import opened SpaceList
  import opened ChunkAllocator
  import opened ChunkMath
  import opened Room
  import Bits = BitmapScan
  import ChunkSteps
  import Tail = BitmapTail

  // Cluster `c` of the chunk begins at this byte.
  function At(c: nat, cs: nat): nat {
    First(c, cs)
  }

  // The byte, counted from the chunk's start, belongs to a used cluster.
  predicate UsedByte(used: seq<Bits.Run>, b: nat, cs: nat)
    requires 0 < cs
  {
    Bits.InRuns(used, Index(b, cs))
  }

  // Where the last run ends, and where it begins.
  function LastEnd(used: seq<Bits.Run>): nat {
    if used == [] then 0 else used[|used| - 1].End()
  }

  function LastStart(used: seq<Bits.Run>): nat {
    if used == [] then 0 else used[|used| - 1].offset
  }

  // The stretch between two clusters, if there is one.
  function Gap(base: nat, from: nat, to: nat, cs: nat): seq<Space> {
    if from < to then [Space(base + At(from, cs), At(to - from, cs))] else []
  }

  // The gaps before the runs.
  function Gaps(base: nat, used: seq<Bits.Run>, cs: nat): seq<Space> {
    if used == [] then []
    else
      var front, u := used[..|used| - 1], used[|used| - 1];
      Gaps(base, front, cs) + Gap(base, LastEnd(front), u.offset, cs)
  }

  // And the stretch after them, up to the chunk's length.
  function FreeList(base: nat, used: seq<Bits.Run>, cs: nat, length: nat): seq<Space> {
    Gaps(base, used, cs)
    + if At(LastEnd(used), cs) < length then [Space(base + At(LastEnd(used), cs), length - At(LastEnd(used), cs))]
      else []
  }

  method BuildFreeList(base: nat, used: seq<Bits.Run>, cs: nat, length: nat) returns (list: seq<Space>)
    ensures list == FreeList(base, used, cs, length)
  {
    list := [];
    var last, i: nat := 0, 0;
    while i < |used|
      invariant i <= |used| && last == LastEnd(used[..i]) && list == Gaps(base, used[..i], cs)
    {
      assert used[..i + 1][..i] == used[..i];
      if used[i].offset > last {
        list := list + [Space(base + At(last, cs), At(used[i].offset - last, cs))];
      }
      last := used[i].End();
      i := i + 1;
    }
    assert used[..i] == used;
    if At(last, cs) < length {
      list := list + [Space(base + At(last, cs), length - At(last, cs))];
    }
  }

  lemma AtGrows(a: nat, b: nat, cs: nat)
    requires 0 < cs && a < b
    ensures At(a, cs) < At(b, cs) && At(b - a, cs) == At(b, cs) - At(a, cs)
  {
    FirstGrows(a, b, cs);
    FirstAdds(a, b - a, cs);
  }

  lemma SeparateFront(used: seq<Bits.Run>)
    requires Bits.Separate(used) && used != []
    ensures Bits.Separate(used[..|used| - 1]) && 0 < used[|used| - 1].length
    ensures 1 < |used| ==> LastEnd(used[..|used| - 1]) < used[|used| - 1].offset
  {
  }

  lemma OneSpace(s: Space, to: int)
    requires 0 < s.length && s.End() <= to
    ensures Sorted([s], s.offset, to)
  {
    assert Sorted([s][1..], s.End(), to);
  }

  lemma {:induction false} GapsAreSorted(base: nat, used: seq<Bits.Run>, cs: nat)
    requires 0 < cs && Bits.Separate(used)
    ensures Sorted(Gaps(base, used, cs), base, base + At(LastStart(used), cs))
    ensures At(LastStart(used), cs) <= At(LastEnd(used), cs)
    decreases |used|
  {
    if used != [] {
      var front, u := used[..|used| - 1], used[|used| - 1];
      SeparateFront(used);
      GapsAreSorted(base, front, cs);
      AtGrows(u.offset, u.End(), cs);
      var mid := base + At(LastEnd(front), cs);
      if LastEnd(front) < u.offset {
        AtGrows(LastEnd(front), u.offset, cs);
        OneSpace(Space(mid, At(u.offset - LastEnd(front), cs)), base + At(u.offset, cs));
        SortedWiden(Gaps(base, front, cs), base, base + At(LastStart(front), cs), base, mid);
        SortedConcat(Gaps(base, front, cs), [Space(mid, At(u.offset - LastEnd(front), cs))], base, mid,
                     base + At(u.offset, cs));
      }
    }
  }

  function Max(a: nat, b: nat): nat {
    if a < b then b else a
  }

  // The free list is in order, and reaches as far as the chunk or, when a used run begins
  // beyond its end, as far as that.
  lemma FreeListIsSorted(base: nat, used: seq<Bits.Run>, cs: nat, length: nat)
    requires 0 < cs && Bits.Separate(used)
    ensures Sorted(FreeList(base, used, cs, length), base, base + Max(length, At(LastStart(used), cs)))
  {
    GapsAreSorted(base, used, cs);
    var gaps, mid := Gaps(base, used, cs), base + At(LastEnd(used), cs);
    var end := base + Max(length, At(LastStart(used), cs));
    if At(LastEnd(used), cs) < length {
      OneSpace(Space(mid, length - At(LastEnd(used), cs)), end);
      SortedWiden(gaps, base, base + At(LastStart(used), cs), base, mid);
      SortedConcat(gaps, [Space(mid, length - At(LastEnd(used), cs))], base, mid, end);
    } else {
      assert gaps + [] == gaps;
      SortedWiden(gaps, base, base + At(LastStart(used), cs), base, end);
    }
  }

  // The free list lies inside the chunk exactly when no used run begins beyond the chunk's end.
  lemma FreeListInside(base: nat, used: seq<Bits.Run>, cs: nat, length: nat)
    requires 0 < cs && Bits.Separate(used)
    ensures Sorted(FreeList(base, used, cs, length), base, base + length) <==> At(LastStart(used), cs) <= length
  {
    FreeListIsSorted(base, used, cs, length);
    if length < At(LastStart(used), cs) {
      var front, u := used[..|used| - 1], used[|used| - 1];
      SeparateFront(used);
      var before := LastEnd(front);
      assert before < u.offset;
      AtGrows(before, u.offset, cs);
      var list := FreeList(base, used, cs, length);
      var k := |Gaps(base, front, cs)|;
      assert list[k].End() == base + At(u.offset, cs);
      if Sorted(list, base, base + length) {
        SortedEntry(list, base, base + length, k);
      }
    }
  }

  // A cluster's bytes.
  lemma ByteOf(b: nat, c: nat, cs: nat)
    requires 0 < cs
    ensures At(c, cs) <= b <==> c <= Index(b, cs)
  {
    IndexBounds(b, cs);
    var i := Index(b, cs);
    if c < i {
      FirstGrows(c, i, cs);
    } else if i < c {
      FirstGrows(i, c, cs);
    }
  }

  // The gaps hold exactly the bytes of unused clusters before the last run.
  lemma {:induction false} GapsAreExact(base: nat, used: seq<Bits.Run>, cs: nat, b: nat)
    requires 0 < cs && Bits.Separate(used)
    ensures Covers(Gaps(base, used, cs), base + b) <==> Index(b, cs) < LastStart(used) && !UsedByte(used, b, cs)
    ensures UsedByte(used, b, cs) ==> Index(b, cs) < LastEnd(used)
    decreases |used|
  {
    hide Index, Gap, Bits.Separate;
    if used != [] {
      hide Covers;
      var front, u := used[..|used| - 1], used[|used| - 1];
      assert used == front + [u];
      SeparateFront(used);
      GapsAreExact(base, front, cs, b);
      Bits.RunsNext(front, u, Index(b, cs));
      GapHas(base, LastEnd(front), u.offset, cs, b);
      ConcatCovers(Gaps(base, front, cs), Gap(base, LastEnd(front), u.offset, cs), base + b);
      LastRunHas(front, Index(b, cs));
    }
  }

  lemma GapHas(base: nat, from: nat, to: nat, cs: nat, b: nat)
    requires 0 < cs
    ensures Covers(Gap(base, from, to, cs), base + b) <==> from <= Index(b, cs) < to
  {
    ByteOf(b, from, cs);
    ByteOf(b, to, cs);
    if from < to {
      AtGrows(from, to, cs);
      var s := Space(base + At(from, cs), At(to - from, cs));
      assert s.Has(base + b) <==> from <= Index(b, cs) < to;
      assert s in Gap(base, from, to, cs);
    }
  }

  lemma ConcatCovers(a: seq<Space>, b: seq<Space>, x: int)
    ensures Covers(a + b, x) <==> Covers(a, x) || Covers(b, x)
  {
    assert (a + b)[..|a|] == a && (a + b)[|a|..] == b;
    CoversSplit(a + b, |a|, x);
  }

  lemma LastRunHas(used: seq<Bits.Run>, c: nat)
    requires Bits.Separate(used)
    ensures LastStart(used) <= c < LastEnd(used) ==> Bits.InRuns(used, c)
    ensures used != [] ==> LastStart(used) < LastEnd(used)
  {
    if LastStart(used) <= c < LastEnd(used) {
      assert used[|used| - 1].Has(c);
    }
  }

  // The free list holds exactly the unused bytes of the chunk, and those before a used run that
  // begins beyond it.
  lemma FreeListIsExact(base: nat, used: seq<Bits.Run>, cs: nat, length: nat, b: nat)
    requires 0 < cs && Bits.Separate(used)
    ensures Covers(FreeList(base, used, cs, length), base + b)
       <==> !UsedByte(used, b, cs) && b < Max(length, At(LastStart(used), cs))
  {
    hide Index, Covers, Bits.Separate;
    GapsAreExact(base, used, cs, b);
    GapsAreSorted(base, used, cs);
    ByteOf(b, LastStart(used), cs);
    ByteOf(b, LastEnd(used), cs);
    LastRunHas(used, Index(b, cs));
    RestHas(base, At(LastEnd(used), cs), length, b);
    ConcatCovers(Gaps(base, used, cs), Rest(base, At(LastEnd(used), cs), length), base + b);
  }

  function Rest(base: nat, from: nat, to: nat): seq<Space> {
    if from < to then [Space(base + from, to - from)] else []
  }

  lemma RestHas(base: nat, from: nat, to: nat, b: nat)
    ensures Covers(Rest(base, from, to), base + b) <==> from <= b < to
  {
    if from < to {
      assert Space(base + from, to - from) in Rest(base, from, to);
    }
  }

  function Shift(addr: nat): nat {
    if addr > RESERVED then 0 else RESERVED - addr
  }

  // No used run begins beyond the end of the chunk.
  predicate Inside(addr: nat, length: nat, used: seq<Bits.Run>, cs: nat) {
    Shift(addr) <= length && At(LastStart(used), cs) <= length
  }

  // A chunk whose free bytes are exactly the unused ones clear of the superblocks.
  ghost predicate IsCarved(c: Chunk, addr: nat, length: nat, used: seq<Bits.Run>, cs: nat)
    requires 0 < cs && Shift(addr) <= length
  {
    && c.diskStart == addr + Shift(addr) && c.length == length - Shift(addr)
    && c.kind == Data && c.used == 0 && !c.added
    && c.Valid() && c.ClearOfSuperblocks()
    && (forall disk :: c.Spare(disk) <==> c.Holds(disk) && !InStripe(disk) && !UsedByte(used, disk - addr, cs))
  }

  // One chunk, from the used runs of its stretch of the bitmap.
  method CarveChunk(addr: nat, length: nat, used: seq<Bits.Run>, cs: nat) returns (c: Chunk)
    requires 0 < cs && Bits.Separate(used) && Shift(addr) <= length && (addr == 0 || RESERVED <= addr)
    ensures Inside(addr, length, used, cs) ==> IsCarved(c, addr, length, used, cs)
    ensures c.offset == c.diskStart + VIRT
    ensures Even(STRIPE, cs) && Even(addr, cs) && Even(length, cs) ==> EvenStarts(c.spaces, cs)
  {
    hide Covers, Sorted, FreeList, IsCarved, InStripe, HasRoom, Even, EvenStarts;
    var shift := Shift(addr);
    var base := addr + VIRT;
    var list := BuildFreeList(base, used, cs, length);
    FreeListIsSorted(base, used, cs, length);
    ghost var to := base + Max(length, At(LastStart(used), cs));
    c := Chunk(base + shift, length - shift, addr + shift, Data, list, 0, false);
    ghost var whole := c;
    c := RemoveSuperblocks(c, base, to, cs);
    if Even(STRIPE, cs) && Even(addr, cs) && Even(length, cs) {
      CarvedIsEven(addr, used, cs, length, c, whole);
    }
    ghost var cut := c;
    if shift != 0 {
      var spaces := SpaceListRemove(c.spaces, base, shift, base, to);
      c := c.(spaces := spaces);
    }
    if Inside(addr, length, used, cs) {
      CarvedIsExact(whole, cut, c, addr, length, used, cs);
    }
  }

  // The free list, and what cutting out the superblocks and the first megabyte leaves, begin at clusters.
  lemma CarvedIsEven(addr: nat, used: seq<Bits.Run>, cs: nat, length: nat, cut: Chunk, whole: Chunk)
    requires Even(STRIPE, cs) && Even(addr, cs) && Even(length, cs) && Shift(addr) <= length
    requires var base, shift := addr + VIRT, Shift(addr);
      whole == Chunk(base + shift, length - shift, addr + shift, Data, FreeList(base, used, cs, length), 0, false)
    requires EvenIn(whole, whole.spaces, cs) ==> EvenStarts(cut.spaces, cs)
    requires addr == 0 || RESERVED <= addr
    ensures EvenStarts(cut.spaces, cs)
    ensures EvenStarts(Removed(cut.spaces, addr + VIRT, addr + VIRT + Shift(addr)), cs)
  {
    hide Even, EvenStarts, FreeList, Removed;
    var base, shift := addr + VIRT, Shift(addr);
    EvenOf64K(16, cs);
    EvenOf64K(0, cs);
    EvenAdds(addr, VIRT, cs);
    EvenAdds(base, shift, cs);
    EvenAdds(length, shift, cs);
    FreeListIsEven(base, used, cs, length);
    RemovedIsEven(cut.spaces, base, base + shift, cs);
  }

  lemma {:induction false} GapsAreEven(base: nat, used: seq<Bits.Run>, cs: nat)
    requires Even(base, cs)
    ensures EvenStarts(Gaps(base, used, cs), cs)
    decreases |used|
  {
    hide Even;
    if used != [] {
      var front := used[..|used| - 1];
      GapsAreEven(base, front, cs);
      AtIsEven(base, LastEnd(front), cs);
      EvenStartsConcat(Gaps(base, front, cs), Gap(base, LastEnd(front), used[|used| - 1].offset, cs), cs);
    }
  }

  lemma AtIsEven(base: nat, k: nat, cs: nat)
    requires Even(base, cs)
    ensures Even(base + At(k, cs), cs)
  {
    assert Even(At(k, cs), cs);
    EvenAdds(base, At(k, cs), cs);
  }

  lemma FreeListIsEven(base: nat, used: seq<Bits.Run>, cs: nat, length: nat)
    requires Even(base, cs)
    ensures EvenStarts(FreeList(base, used, cs, length), cs)
  {
    hide Even;
    GapsAreEven(base, used, cs);
    AtIsEven(base, LastEnd(used), cs);
    EvenStartsConcat(Gaps(base, used, cs), Rest(base, At(LastEnd(used), cs), length), cs);
  }

  lemma CarvedIsExact(whole: Chunk, cut: Chunk, c: Chunk, addr: nat, length: nat, used: seq<Bits.Run>, cs: nat)
    requires 0 < cs && Bits.Separate(used) && Shift(addr) <= length && At(LastStart(used), cs) <= length
    requires var base, shift := addr + VIRT, Shift(addr);
      && whole == Chunk(base + shift, length - shift, addr + shift, Data, FreeList(base, used, cs, length), 0, false)
      && cut == whole.(spaces := cut.spaces) && Sorted(cut.spaces, base, base + length)
      && (forall disk :: cut.Spare(disk) <==> whole.Spare(disk) && !(InStripe(disk) && whole.Holds(disk)))
      && c == cut.(spaces := if shift == 0 then cut.spaces else Removed(cut.spaces, base, base + shift))
    ensures IsCarved(c, addr, length, used, cs)
  {
    hide Covers, Removed, UsedByte, InStripe;
    var base, shift := addr + VIRT, Shift(addr);
    if shift != 0 {
      RemovedIsSorted(cut.spaces, base, base + shift, base, base + length);
      RemovedStartsLater(cut.spaces, base, base + shift, base, base + length);
    }
    forall disk
      ensures c.Spare(disk) <==> c.Holds(disk) && !InStripe(disk) && !UsedByte(used, disk - addr, cs)
    {
      assert cut.Spare(disk) <==> whole.Spare(disk) && !(InStripe(disk) && whole.Holds(disk));
      RemovedIsDifference(cut.spaces, base, base + shift, disk + VIRT);
      CoveredInBounds(cut.spaces, base, base + length, disk + VIRT);
      if addr <= disk {
        FreeListIsExact(base, used, cs, length, disk - addr);
        assert base + (disk - addr) == disk + VIRT;
      }
    }
  }

  // A stretch of the device and its part of the bitmap.
  datatype Stretch = Stretch(addr: nat, at: nat, len: nat)

  // How the loop cuts up a bitmap of `size` bits.
  function Plan(device: nat, size: nat, cs: nat, addr: nat, at: nat): seq<Stretch>
    requires 0 < cs && at <= size
    decreases device - addr
  {
    if at < size && addr < device then
      var len := Scanned(device, size, cs, addr, at);
      [Stretch(addr, at, len)] + Plan(device, size, cs, addr + DATA_CHUNK, at + len)
    else []
  }

  function Full(device: nat, addr: nat): nat
    requires addr <= device
  {
    if device - addr < DATA_CHUNK then device - addr else DATA_CHUNK
  }

  // Whole bytes of the bitmap only; what is left of the last one is not looked at.
  function Scanned(device: nat, size: nat, cs: nat, addr: nat, at: nat): (len: nat)
    requires 0 < cs && addr <= device && at <= size
    ensures at + len <= size
  {
    var bits := 8 * (Index(Full(device, addr), cs) / 8);
    if at + bits <= size then bits else size - at
  }

  function ChunkLength(device: nat, addr: nat): nat
    requires addr <= device
  {
    Full(device, addr) - Full(device, addr) % STRIPE
  }

  function UsedIn(bits: seq<bool>, s: Stretch): seq<Bits.Run> {
    if s.at + s.len <= |bits| then Tail.CodeRuns(bits[s.at..s.at + s.len]) else []
  }

  predicate AllInside(device: nat, bits: seq<bool>, cs: nat, plan: seq<Stretch>) {
    forall s :: s in plan && UsedIn(bits, s) != [] ==>
      s.addr <= device && Inside(s.addr, ChunkLength(device, s.addr), UsedIn(bits, s), cs)
  }

  ghost predicate CarvedFrom(c: Chunk, device: nat, bits: seq<bool>, cs: nat, s: Stretch)
    requires 0 < cs
  {
    && s.addr <= device && Shift(s.addr) <= ChunkLength(device, s.addr)
    && IsCarved(c, s.addr, ChunkLength(device, s.addr), UsedIn(bits, s), cs)
  }

  // What the loop has made of the stretches below `addr`.
  ghost predicate CarvedSoFar(chunks: seq<Chunk>, spaces: seq<Space>, device: nat, bits: seq<bool>, cs: nat,
                              plan: seq<Stretch>, addr: nat)
    requires 0 < cs
  {
    && Consistent(chunks, spaces, RESERVED + device)
    && (forall c :: c in chunks ==> c.diskStart + c.length <= addr)
    && (forall s :: s in plan && UsedIn(bits, s) != [] ==>
         exists c :: c in chunks && CarvedFrom(c, device, bits, cs, s))
  }

  lemma ChunkJoins(chunks: seq<Chunk>, spaces: seq<Space>, device: nat, bits: seq<bool>, cs: nat,
                   plan: seq<Stretch>, s: Stretch, c: Chunk, length: nat)
    requires 0 < cs && CarvedSoFar(chunks, spaces, device, bits, cs, plan, s.addr)
    requires s.addr <= device && length == ChunkLength(device, s.addr) && CarvedFrom(c, device, bits, cs, s)
    ensures CarvedSoFar(chunks + [c], Removed(spaces, s.addr, s.addr + length), device, bits, cs, plan + [s],
                        s.addr + DATA_CHUNK)
  {
    hide Removed, Covers, InStripe, UsedByte, UsedIn;
    var rest, chunks' := Removed(spaces, s.addr, s.addr + length), chunks + [c];
    RemovedIsSorted(spaces, s.addr, s.addr + length, RESERVED, RESERVED + device);
    assert c in chunks';
    forall d, disk | d in chunks' && d.Holds(disk)
      ensures !Covers(rest, disk)
    {
      RemovedIsDifference(spaces, s.addr, s.addr + length, disk);
    }
    forall t | t in plan + [s] && UsedIn(bits, t) != []
      ensures exists d :: d in chunks' && CarvedFrom(d, device, bits, cs, t)
    {
      if t in plan {
        var d :| d in chunks && CarvedFrom(d, device, bits, cs, t);
        assert d in chunks';
      }
    }
  }

  // Every stretch with used clusters none of which begins a run beyond it has its chunk.
  ghost predicate EachCarved(chunks: seq<Chunk>, device: nat, bits: seq<bool>, cs: nat, plan: seq<Stretch>)
    requires 0 < cs
  {
    forall s :: s in plan && CanCarve(device, bits, cs, s) ==>
      exists c :: c in chunks && CarvedFrom(c, device, bits, cs, s)
  }

  predicate CanCarve(device: nat, bits: seq<bool>, cs: nat, s: Stretch) {
    && UsedIn(bits, s) != [] && s.addr <= device
    && Inside(s.addr, ChunkLength(device, s.addr), UsedIn(bits, s), cs)
  }

  lemma EachCarvedNext(chunks: seq<Chunk>, more: seq<Chunk>, device: nat, bits: seq<bool>, cs: nat,
                       plan: seq<Stretch>, s: Stretch)
    requires 0 < cs && EachCarved(chunks, device, bits, cs, plan)
    requires CanCarve(device, bits, cs, s) ==> exists c :: c in more && CarvedFrom(c, device, bits, cs, s)
    ensures EachCarved(chunks + more, device, bits, cs, plan + [s])
  {
    hide CanCarve, CarvedFrom;
    forall t | t in plan + [s] && CanCarve(device, bits, cs, t)
      ensures exists c :: c in chunks + more && CarvedFrom(c, device, bits, cs, t)
    {
      if t in plan {
        var c :| c in chunks && CarvedFrom(c, device, bits, cs, t);
        assert c in chunks + more;
      } else {
        var c :| c in more && CarvedFrom(c, device, bits, cs, t);
        assert c in chunks + more;
      }
    }
  }

  // The chunk was carved from one of the stretches.
  ghost predicate FromStretch(c: Chunk, device: nat, bits: seq<bool>, cs: nat, plan: seq<Stretch>)
    requires 0 < cs
  {
    exists s :: s in plan && UsedIn(bits, s) != [] && CarvedFrom(c, device, bits, cs, s)
  }

  function ChunkEnd(c: Chunk): nat {
    c.diskStart + c.length
  }

  // Where the chunks and the device-wide free list are: the chunks come in order, and once the first stretch
  // has been removed every entry long enough for a chunk begins at a multiple of a chunk's length.
  ghost predicate Gridded(chunks: seq<Chunk>, spaces: seq<Space>, device: nat, bits: seq<bool>, cs: nat,
                          plan: seq<Stretch>, addr: nat)
    requires 0 < cs
  {
    && (forall c :: c in chunks ==> FromStretch(c, device, bits, cs, plan) && c.diskStart < addr)
    && OffsetsDiffer(chunks)
    && (chunks != [] ==> forall c :: c in chunks ==> ChunkEnd(c) <= ChunkEnd(chunks[|chunks| - 1]))
    && (plan != [] && UsedIn(bits, plan[0]) != [] ==> LongStarts(spaces))
  }

  lemma FirstRemoved(device: nat)
    requires RESERVED <= device
    ensures LongStarts(Removed([Space(RESERVED, device)], 0, ChunkLength(device, 0)))
  {
    var hi := ChunkLength(device, 0);
    var list := [Space(RESERVED, device)];
    assert list[1..] == [] && Removed(list, 0, hi) == Cut(list[0], 0, hi);
    assert First(1, DATA_CHUNK) == DATA_CHUNK;
  }

  // Where a stretch's chunk ends.
  lemma StretchEnd(device: nat, addr: nat)
    requires addr < device && Even(addr, DATA_CHUNK)
    ensures var hi := addr + ChunkLength(device, addr);
      Even(hi, DATA_CHUNK) || RESERVED + device - hi < DATA_CHUNK
  {
    if Full(device, addr) == DATA_CHUNK {
      assert First(1, DATA_CHUNK) == DATA_CHUNK;
      EvenAdds(addr, DATA_CHUNK, DATA_CHUNK);
    }
  }

  lemma GriddedNext(chunks: seq<Chunk>, spaces: seq<Space>, device: nat, bits: seq<bool>, cs: nat, plan: seq<Stretch>,
                    s: Stretch, c: Chunk, length: nat)
    requires 0 < cs && Gridded(chunks, spaces, device, bits, cs, plan, s.addr)
    requires RESERVED <= device && s.addr < device && length == ChunkLength(device, s.addr)
    requires CarvedFrom(c, device, bits, cs, s) && UsedIn(bits, s) != [] && Sorted(spaces, RESERVED, RESERVED + device)
    requires forall d :: d in chunks ==> ChunkEnd(d) <= s.addr
    requires Even(s.addr, DATA_CHUNK) && (plan == [] ==> s.addr == 0 && spaces == [Space(RESERVED, device)])
    ensures Gridded(chunks + [c], Removed(spaces, s.addr, s.addr + length), device, bits, cs, plan + [s],
                    s.addr + DATA_CHUNK)
  {
    hide Removed, LongStarts, Even, UsedIn, InStripe, Covers, ChunkLength;
    var all := plan + [s];
    assert s in all && all[0] == if plan == [] then s else plan[0];
    FromMore(chunks, device, bits, cs, plan, s);
    assert FromStretch(c, device, bits, cs, all);
    forall i, j | 0 <= i < j < |chunks + [c]|
      ensures (chunks + [c])[i].offset != (chunks + [c])[j].offset
    {
      if j == |chunks| {
        assert chunks[i] in chunks && FromStretch(chunks[i], device, bits, cs, plan);
      }
    }
    StretchEnd(device, s.addr);
    if plan == [] {
      FirstRemoved(device);
    } else if UsedIn(bits, plan[0]) != [] {
      RemovedLongStarts(spaces, s.addr, s.addr + length, RESERVED, RESERVED + device);
    }
  }

  lemma FromMore(chunks: seq<Chunk>, device: nat, bits: seq<bool>, cs: nat, plan: seq<Stretch>, s: Stretch)
    requires 0 < cs && forall c :: c in chunks ==> FromStretch(c, device, bits, cs, plan)
    ensures forall c :: c in chunks ==> FromStretch(c, device, bits, cs, plan + [s])
  {
    hide UsedIn, CarvedFrom;
    forall c | c in chunks
      ensures FromStretch(c, device, bits, cs, plan + [s])
    {
      var t :| t in plan && UsedIn(bits, t) != [] && CarvedFrom(c, device, bits, cs, t);
      assert t in plan + [s];
    }
  }

  lemma GriddedSkip(chunks: seq<Chunk>, spaces: seq<Space>, device: nat, bits: seq<bool>, cs: nat, plan: seq<Stretch>,
                    s: Stretch)
    requires 0 < cs && Gridded(chunks, spaces, device, bits, cs, plan, s.addr) && UsedIn(bits, s) == []
    ensures Gridded(chunks, spaces, device, bits, cs, plan + [s], s.addr + DATA_CHUNK)
  {
    hide UsedIn, CarvedFrom;
    assert (plan + [s])[0] == if plan == [] then s else plan[0];
    FromMore(chunks, device, bits, cs, plan, s);
  }

  // One turn of the loop.
  method CreateDataChunk(device: nat, bits: seq<bool>, cs: nat, addr: nat, at: nat, len: nat, length: nat,
                         chunks0: seq<Chunk>, spaces0: seq<Space>, ghost done: seq<Stretch>, ghost inside: bool)
    returns (chunks: seq<Chunk>, spaces: seq<Space>)
    requires 0 < cs && RESERVED <= device && addr < device && at + len <= |bits| && len % 8 == 0
    requires length == ChunkLength(device, addr) && Sorted(spaces0, RESERVED, RESERVED + device)
    requires (addr == 0 || DATA_CHUNK <= addr)
    requires inside ==> CarvedSoFar(chunks0, spaces0, device, bits, cs, done, addr)
    requires inside && UsedIn(bits, Stretch(addr, at, len)) != [] ==>
      Inside(addr, length, UsedIn(bits, Stretch(addr, at, len)), cs)
    requires inside ==> Gridded(chunks0, spaces0, device, bits, cs, done, addr) && Even(addr, DATA_CHUNK)
    requires done == [] ==> addr == 0 && spaces0 == [Space(RESERVED, device)]
    requires forall c :: c in chunks0 ==> c.offset == c.diskStart + VIRT
    requires EachCarved(chunks0, device, bits, cs, done)
    requires Even(STRIPE, cs) ==> EvenLists(chunks0, spaces0, cs) && Even(addr, DATA_CHUNK)
    ensures Even(STRIPE, cs) ==> EvenLists(chunks, spaces, cs)
    ensures EachCarved(chunks, device, bits, cs, done + [Stretch(addr, at, len)])
    ensures forall c :: c in chunks ==> c.offset == c.diskStart + VIRT
    ensures Sorted(spaces, RESERVED, RESERVED + device)
    ensures inside ==> CarvedSoFar(chunks, spaces, device, bits, cs, done + [Stretch(addr, at, len)], addr + DATA_CHUNK)
    ensures inside ==> Gridded(chunks, spaces, device, bits, cs, done + [Stretch(addr, at, len)], addr + DATA_CHUNK)
  {
    hide Consistent, Removed, IsCarved, Tail.CodeRuns, Gridded, Even, EachCarved, EvenLists, EvenStarts;
    ghost var s := Stretch(addr, at, len);
    chunks, spaces := chunks0, spaces0;
    var used := Tail.ParseBitmap(bits[at..at + len]);
    if used != [] {
      Tail.CodeRunsAreSeparate(bits[at..at + len]);
      spaces := SpaceListRemove(spaces, addr, length, RESERVED, RESERVED + device);
      RemovedIsSorted(spaces0, addr, addr + length, RESERVED, RESERVED + device);
      RoomForShift(device, addr);
      var c := CarveChunk(addr, length, used, cs);
      chunks := chunks + [c];
      if Even(STRIPE, cs) {
        StretchIsEven(device, addr, cs);
        EvenListsNext(chunks0, spaces0, addr, length, c, cs);
      }
      assert c in [c] && (CanCarve(device, bits, cs, s) ==> CarvedFrom(c, device, bits, cs, s));
      EachCarvedNext(chunks0, [c], device, bits, cs, done, s);
      if inside {
        ChunkJoins(chunks0, spaces0, device, bits, cs, done, s, c, length);
        SoFarEnds(chunks0, spaces0, device, bits, cs, done, addr);
        GriddedNext(chunks0, spaces0, device, bits, cs, done, s, c, length);
      }
    } else {
      EachCarvedNext(chunks0, [], device, bits, cs, done, s);
      assert chunks0 + [] == chunks0;
      if inside {
        GriddedSkip(chunks0, spaces0, device, bits, cs, done, s);
      }
    }
  }

  lemma StretchIsEven(device: nat, addr: nat, cs: nat)
    requires Even(STRIPE, cs) && Even(addr, DATA_CHUNK) && addr < device
    ensures Even(addr, cs) && Even(ChunkLength(device, addr), cs)
  {
    ChunkSteps.MultiplesAreEven(addr, cs);
    EvenOf64K(Full(device, addr) / STRIPE, cs);
  }

  lemma EvenListsNext(chunks: seq<Chunk>, spaces: seq<Space>, addr: nat, length: nat, c: Chunk, cs: nat)
    requires EvenLists(chunks, spaces, cs) && Even(addr, cs) && Even(length, cs)
    requires EvenStarts(c.spaces, cs)
    ensures EvenLists(chunks + [c], Removed(spaces, addr, addr + length), cs)
  {
    hide Even, EvenStarts, Removed;
    EvenAdds(addr, length, cs);
    RemovedIsEven(spaces, addr, addr + length, cs);
  }

  lemma RoomForShift(device: nat, addr: nat)
    requires RESERVED <= device && addr < device && (addr == 0 || DATA_CHUNK <= addr)
    ensures Shift(addr) <= ChunkLength(device, addr)
  {
    if addr == 0 {
      assert RESERVED <= Full(device, 0);
    }
  }

  lemma ScannedIsBytes(device: nat, size: nat, cs: nat, addr: nat, at: nat)
    requires 0 < cs && addr <= device && at <= size && at % 8 == 0 && size % 8 == 0
    ensures Scanned(device, size, cs, addr, at) % 8 == 0 && (at + Scanned(device, size, cs, addr, at)) % 8 == 0
  {
    var a, s := at / 8, size / 8;
    assert at == 8 * a && size == 8 * s && size - at == 8 * (s - a);
  }

  lemma CarvedStart(device: nat, bits: seq<bool>, cs: nat)
    requires 0 < cs && RESERVED <= device
    ensures Sorted([Space(RESERVED, device)], RESERVED, RESERVED + device)
    ensures CarvedSoFar([], [Space(RESERVED, device)], device, bits, cs, [], 0)
    ensures Gridded([], [Space(RESERVED, device)], device, bits, cs, [], 0)
  {
    OneSpace(Space(RESERVED, device), RESERVED + device);
  }

  lemma CarvedEnd(chunks: seq<Chunk>, spaces: seq<Space>, device: nat, bits: seq<bool>, cs: nat, plan: seq<Stretch>,
                  addr: nat, addr': nat)
    requires 0 < cs && addr <= addr' && CarvedSoFar(chunks, spaces, device, bits, cs, plan, addr)
    requires Gridded(chunks, spaces, device, bits, cs, plan, addr)
    ensures CarvedSoFar(chunks, spaces, device, bits, cs, plan, addr')
    ensures Gridded(chunks, spaces, device, bits, cs, plan, addr')
  {
  }

  lemma NoneCarved(device: nat, bits: seq<bool>, cs: nat)
    requires 0 < cs
    ensures EachCarved([], device, bits, cs, []) && (Even(STRIPE, cs) ==> EvenLists([], [Space(RESERVED, device)], cs))
  {
    if Even(STRIPE, cs) {
      EvenOf64K(16, cs);
    }
  }

  lemma NothingEven(u: nat)
    ensures Even(0, u)
  {
    assert First(0, u) == 0;
  }

  lemma NextEven(addr: nat)
    requires Even(addr, DATA_CHUNK)
    ensures Even(addr + DATA_CHUNK, DATA_CHUNK)
  {
    assert First(1, DATA_CHUNK) == DATA_CHUNK;
    EvenAdds(addr, DATA_CHUNK, DATA_CHUNK);
  }

  lemma SoFarEnds(chunks: seq<Chunk>, spaces: seq<Space>, device: nat, bits: seq<bool>, cs: nat, plan: seq<Stretch>,
                  addr: nat)
    requires 0 < cs && CarvedSoFar(chunks, spaces, device, bits, cs, plan, addr)
    ensures forall c :: c in chunks ==> ChunkEnd(c) <= addr
  {
  }

  lemma PlanNext(device: nat, size: nat, cs: nat, addr: nat, at: nat, done: seq<Stretch>)
    requires 0 < cs && at < size && addr < device
    ensures var s := Stretch(addr, at, Scanned(device, size, cs, addr, at));
      done + Plan(device, size, cs, addr, at) == (done + [s]) + Plan(device, size, cs, addr + DATA_CHUNK, at + s.len)
      && s in done + Plan(device, size, cs, addr, at)
  {
  }

  // `create_data_chunks`: where no used run begins beyond the end of its chunk, the planner
  // starts from a consistent state, and every stretch with used clusters is carved exactly.
  method CreateDataChunks(device: nat, bits: seq<bool>, cs: nat)
    returns (chunks: seq<Chunk>, spaces: seq<Space>, last: nat)
    requires 0 < cs && RESERVED <= device && |bits| % 8 == 0
    ensures var plan := Plan(device, |bits|, cs, 0, 0);
      AllInside(device, bits, cs, plan) ==>
        && CarvedSoFar(chunks, spaces, device, bits, cs, plan, device + DATA_CHUNK)
        && Gridded(chunks, spaces, device, bits, cs, plan, device + DATA_CHUNK)
    ensures EachCarved(chunks, device, bits, cs, Plan(device, |bits|, cs, 0, 0))
    ensures Even(STRIPE, cs) ==> EvenLists(chunks, spaces, cs)
    ensures chunks != [] ==> last == ChunkEnd(chunks[|chunks| - 1])
  {
    hide Scanned, ChunkLength, Plan, AllInside, CarvedSoFar, Inside, Gridded, Even, EachCarved, EvenLists;
    chunks, spaces := [], [Space(RESERVED, device)];
    CarvedStart(device, bits, cs);
    NoneCarved(device, bits, cs);
    NothingEven(DATA_CHUNK);
    var addr, at: nat := 0, 0;
    ghost var done: seq<Stretch>, plan := [], Plan(device, |bits|, cs, 0, 0);
    ghost var inside := AllInside(device, bits, cs, plan);
    while at < |bits| && addr < device
      invariant at <= |bits| && at % 8 == 0 && addr <= device + DATA_CHUNK && (addr == 0 || DATA_CHUNK <= addr)
      invariant done + Plan(device, |bits|, cs, addr, at) == plan
      invariant Sorted(spaces, RESERVED, RESERVED + device)
      invariant inside ==> CarvedSoFar(chunks, spaces, device, bits, cs, done, addr)
      invariant inside ==> Gridded(chunks, spaces, device, bits, cs, done, addr)
      invariant forall c :: c in chunks ==> c.offset == c.diskStart + VIRT
      invariant EachCarved(chunks, device, bits, cs, done) && (Even(STRIPE, cs) ==> EvenLists(chunks, spaces, cs))
      invariant Even(addr, DATA_CHUNK) && (done == [] ==> addr == 0 && spaces == [Space(RESERVED, device)])
      decreases device - addr
    {
      var len, length := Scanned(device, |bits|, cs, addr, at), ChunkLength(device, addr);
      ghost var s := Stretch(addr, at, len);
      PlanNext(device, |bits|, cs, addr, at, done);
      ScannedIsBytes(device, |bits|, cs, addr, at);
      if inside {
        StretchInside(device, bits, cs, plan, s);
      }
      chunks, spaces := CreateDataChunk(device, bits, cs, addr, at, len, length, chunks, spaces, done, inside);
      done := done + [s];
      NextEven(addr);
      addr, at := addr + DATA_CHUNK, at + len;
    }
    PlanOver(device, |bits|, cs, addr, at);
    assert done + [] == done;
    if inside {
      CarvedEnd(chunks, spaces, device, bits, cs, done, addr, device + DATA_CHUNK);
    }
    last := if chunks == [] then 0 else chunks[|chunks| - 1].offset - VIRT + chunks[|chunks| - 1].length;
  }

  lemma StretchInside(device: nat, bits: seq<bool>, cs: nat, plan: seq<Stretch>, s: Stretch)
    requires AllInside(device, bits, cs, plan) && s in plan && s.addr <= device
    ensures UsedIn(bits, s) != [] ==> Inside(s.addr, ChunkLength(device, s.addr), UsedIn(bits, s), cs)
  {
  }

  lemma PlanOver(device: nat, size: nat, cs: nat, addr: nat, at: nat)
    requires 0 < cs && at <= size && !(at < size && addr < device)
    ensures Plan(device, size, cs, addr, at) == []
  {
  }

  // A device of 1 MB and 116 KB with 4 KB clusters, of which cluster 275 is used: the chunk ends
  // at 1 MB and 64 KB, but the free list runs on to the used cluster.
  lemma FreeListPassesTheEnd()
    ensures var used := [Bits.Run(275, 1)];
      && ChunkLength(0x11D000, 0) == 0x110000 && Bits.Separate(used)
      && FreeList(VIRT, used, 0x1000, 0x110000) == [Space(VIRT, 0x113000)]
      && !Inside(0, 0x110000, used, 0x1000)
  {
    FirstOf4K(275);
    FirstOf4K(276);
    var used := [Bits.Run(275, 1)];
    assert used[..0] == [];
    assert Gaps(VIRT, used[..0], 0x1000) == [];
  }

  lemma {:induction false} FirstOf4K(k: nat)
    ensures First(k, 0x1000) == 0x1000 * k
  {
    if 0 < k {
      FirstOf4K(k - 1);
    }
  }

  // Every cluster inside the chunk is looked at exactly when the chunk is no longer than the clusters
  // that fill whole bytes of the bitmap, and part of one more.
  lemma WholeChunkIsScanned(len: nat, length: nat, cs: nat)
    requires 0 < cs
    ensures (forall c: nat :: LiesIn(c, length, cs) ==> c < len) <==> length < At(len + 1, cs)
  {
    if length < At(len + 1, cs) {
      forall c: nat | LiesIn(c, length, cs)
        ensures c < len
      {
        if len < c {
          AtGrows(len + 1, c + 1, cs);
        }
      }
    } else {
      assert LiesIn(len, length, cs);
    }
  }

  predicate LiesIn(c: nat, length: nat, cs: nat) {
    At(c + 1, cs) <= length
  }

  // A device of 1 MB and 64 KB with 64 KB clusters: its last cluster is inside the chunk and is
  // not looked at, so it counts as free whatever its bit says.
  lemma LastClusterIsNotScanned()
    ensures Scanned(0x110000, 24, 0x10000, 0, 0) == 16 && ChunkLength(0x110000, 0) == At(17, 0x10000)
  {
    FirstOf64K(17);
    IndexIsUnique(0x110000, 0x10000, 17);
  }

  lemma {:induction false} FirstOf64K(k: nat)
    ensures First(k, 0x10000) == 0x10000 * k
  {
    if 0 < k {
      FirstOf64K(k - 1);
    }
  }
}
