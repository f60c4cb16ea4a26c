/**
 * A conversion from the scan of the bitmap to the extent items, over the chunks and the run lists
 * together: protecting clusters at addresses the allocator gives, adding up the counts of used bytes,
 * writing new file data, and giving clusters to files.
 */
module Conversion {
  import opened ChunkMath
  import opened RunLists
  import opened ImageRollback
  import opened Joined
  import opened Protect
  import opened ExtentItems
  import opened ChunkUse
  import opened ChunkSteps
  import opened Room
  import P = ChunkAllocator
  import S = SpaceList
  import ChunkItems
  import ChunkTree
  import ExtentFixpoint
  import ExtentTrees
  import ExtentUsed
  import RoundTrip
  import TreeBooks
  import TreeBuilder
  import TreeItems
  import TreeWalk
  import U = UsedBytes

  // What a step comes to. `PastEnd`: the address lies beyond the device, and the write fails. `Again`: a
  // cluster was to be protected that is protected already, or holds a copy; what follows is not described.
  datatype Step = Done | Skipped | NoSpace | PastEnd | Again

  // ----- the chunks' counts, one step on -----

  lemma TallyKept(c: P.Chunk, c': P.Chunk, runs: RunMap, runs': RunMap, n: nat, cs: nat, x: nat, t: nat)
    requires DataChunkIs(n, cs) && Tallied(c, runs, cs)
    requires c' == if InChunk(c, x, cs) then c.(used := Wrap(c.used - cs)) else c
    requires Protectable(OwnerAt(runs, x, n)) && ProtectedIn(runs, runs', x, t, n)
    ensures Tallied(c', runs', cs)
  {
    hide CoveredAt, OwnerAt, IsCutIn, IsPutIn, Wrap, HasHome, InChunk;
    var split: RunMap :| IsCutIn(runs, split, Index(x, n), x, 1, DUMMY, 0) && IsPutIn(split, runs', CopyOf(t), n);
    var k: nat :| HasHome(c, runs, k, cs);
    HomeKept(c, c', runs, split, runs', k, n, cs, x, t);
  }

  // Every chunk's count stays short by what is protected in it.
  lemma UnchargedTallies(chunks: seq<P.Chunk>, chunks': seq<P.Chunk>, runs: RunMap, runs': RunMap, n: nat, cs: nat,
                         x: nat, t: nat)
    requires DataChunkIs(n, cs) && AllTallied(chunks, runs, cs)
    requires P.Uncharged(chunks, chunks', First(x, cs) + P.VIRT, cs)
    requires Protectable(OwnerAt(runs, x, n)) && ProtectedIn(runs, runs', x, t, n)
    ensures AllTallied(chunks', runs', cs)
  {
    hide OwnerAt, Tallied, First, ProtectedIn, Protectable;
    forall c | c in chunks'
      ensures Tallied(c, runs', cs)
    {
      var i :| 0 <= i < |chunks'| && chunks'[i] == c;
      assert chunks[i] in chunks;
      TallyKept(chunks[i], c, runs, runs', n, cs, x, t);
    }
  }

  // Chunks that differ in their counts alone.
  predicate SameButCounts(chunks: seq<P.Chunk>, chunks': seq<P.Chunk>) {
    |chunks'| == |chunks| && forall i :: 0 <= i < |chunks| ==> chunks'[i] == chunks[i].(used := chunks'[i].used)
  }

  lemma CountsAreNoMatter(chunks: seq<P.Chunk>, chunks': seq<P.Chunk>, spaces: seq<S.Space>, limit: nat, runs: RunMap,
                          n: nat, cs: nat)
    requires 0 < n && 0 < cs && SameButCounts(chunks, chunks') && KeptApart(chunks, spaces, limit, runs, n, cs)
    ensures KeptApart(chunks', spaces, limit, runs, n, cs) && P.GroupsKept(chunks, chunks')
  {
    hide CoveredAt, Index, LongStarts, LongUnused, PlacedIn, S.Covers;
    forall c | c in chunks'
      ensures PlacedIn(c, limit, cs)
      ensures forall b: nat :: c.Spare(b) ==> !CoveredAt(runs, Index(b, cs), n)
    {
      var i :| 0 <= i < |chunks'| && chunks'[i] == c;
      assert chunks[i] in chunks;
      SamePlaced(chunks[i], c, limit, cs);
      assert forall b :: c.Spare(b) <==> chunks[i].Spare(b);
    }
  }

  // ----- copies and other used clusters in chunks -----

  // Clear of the first megabyte and of the superblocks.
  predicate CopyAt(b: nat) {
    P.RESERVED <= b && !P.InStripe(b)
  }

  // Every copy is in a chunk.
  ghost predicate CopiesHeld(chunks: seq<P.Chunk>, relocs: seq<Reloc>, cs: nat) {
    forall r :: r in relocs ==> InSomeChunk(chunks, r.new', cs) && CopyAt(First(r.new', cs))
  }

  lemma GivenIsClear(chunks: seq<P.Chunk>, spaces: seq<S.Space>, limit: nat, initial: set<int>, given: seq<P.Range>,
                     g: P.Range)
    requires P.Accounted(chunks, spaces, limit, initial, given + [g]) && 0 < g.length
    ensures CopyAt(g.start)
  {
    hide P.Consistent, P.FreeAt, P.InStripes;
    assert (given + [g])[|given|] == g && g.Has(g.start);
    assert P.IsGiven(given + [g], g.start);
  }

  lemma StillInChunk(chunks: seq<P.Chunk>, chunks': seq<P.Chunk>, x: nat, cs: nat)
    requires P.GroupsKept(chunks, chunks') && InSomeChunk(chunks, x, cs)
    ensures InSomeChunk(chunks', x, cs)
  {
    hide First;
    var i :| 0 <= i < |chunks| && InChunk(chunks[i], x, cs);
    assert P.SameGroup(chunks[i], chunks'[i]) && InChunk(chunks'[i], x, cs);
  }

  lemma StillHeld(chunks: seq<P.Chunk>, chunks': seq<P.Chunk>, relocs: seq<Reloc>, cs: nat)
    requires P.GroupsKept(chunks, chunks') && CopiesHeld(chunks, relocs, cs)
    ensures CopiesHeld(chunks', relocs, cs)
  {
    hide InSomeChunk, CopyAt;
    forall r | r in relocs
      ensures InSomeChunk(chunks', r.new', cs) && CopyAt(First(r.new', cs))
    {
      StillInChunk(chunks, chunks', r.new', cs);
    }
  }

  // What is used outside the chunks is protected, and stays so.
  lemma StillOutside(chunks: seq<P.Chunk>, chunks': seq<P.Chunk>, runs: RunMap, runs': RunMap, n: nat, cs: nat)
    requires 0 < n && P.GroupsKept(chunks, chunks') && OutsideProtected(chunks, runs, n, cs)
    requires forall x: nat :: CoveredAt(runs', x, n) && OwnerAt(runs', x, n).inode != DUMMY ==>
      (CoveredAt(runs, x, n) && OwnerAt(runs, x, n).inode != DUMMY) || InSomeChunk(chunks', x, cs)
    ensures OutsideProtected(chunks', runs', n, cs)
  {
    hide InSomeChunk, CoveredAt, OwnerAt;
    forall x: nat | CoveredAt(runs', x, n) && OwnerAt(runs', x, n).inode != DUMMY
      ensures InSomeChunk(chunks', x, cs)
    {
      if !InSomeChunk(chunks', x, cs) {
        StillInChunk(chunks, chunks', x, cs);
      }
    }
  }

  // Giving clusters away neither protects any nor takes protection away.
  lemma GivenOutside(chunks: seq<P.Chunk>, runs: RunMap, runs': RunMap, n: nat, cs: nat, from: nat, to: nat,
                     inode: nat, vcn: nat)
    requires 0 < n && OutsideProtected(chunks, runs, n, cs) && RunsOk(runs, n) && AllUnits(runs) && from < to
    requires Given(runs, runs', n, from, to, inode, vcn)
    requires forall x: nat :: from <= x < to && CoveredAt(runs, x, n) ==> MayGive(OwnerAt(runs, x, n))
    ensures OutsideProtected(chunks, runs', n, cs)
  {
    hide InSomeChunk, CoveredAt, OwnerAt, SameRun;
    forall x: nat | CoveredAt(runs', x, n) && OwnerAt(runs', x, n).inode != DUMMY
      ensures CoveredAt(runs, x, n) && OwnerAt(runs, x, n).inode != DUMMY
    {
      GiveAt(runs, runs', n, from, to, inode, vcn, x);
    }
    P.GroupsKeptSelf(chunks);
    StillOutside(chunks, chunks, runs, runs', n, cs);
  }

  lemma EnteredOutside(chunks: seq<P.Chunk>, chunks': seq<P.Chunk>, runs: RunMap, runs': RunMap, a: Alloc, n: nat,
                       cs: nat)
    requires 0 < n && OutsideProtected(chunks, runs, n, cs) && P.GroupsKept(chunks, chunks')
    requires Entered(runs, runs', a, n)
    requires exists i :: 0 <= i < |chunks'| && HoldsAll(chunks'[i], a.offset, a.length, cs)
    ensures OutsideProtected(chunks', runs', n, cs)
  {
    hide CoveredAt, OwnerAt, InChunk;
    var i :| 0 <= i < |chunks'| && HoldsAll(chunks'[i], a.offset, a.length, cs);
    StillOutside(chunks, chunks', runs, runs', n, cs);
  }

  // ----- protecting a cluster, as the run lists see it -----

  lemma CutIsGiven(runs: RunMap, split: RunMap, n: nat, x: nat, t: nat, runs': RunMap)
    requires 0 < n && RunsOk(runs, n) && AllUnits(runs) && CoveredAt(runs, x, n) && !CoveredAt(runs, t, n)
    requires IsCutIn(runs, split, Index(x, n), x, 1, DUMMY, 0) && IsPutIn(split, runs', CopyOf(t), n)
    ensures Given(runs, split, n, x, x + 1, DUMMY, 0) && Entered(split, runs', CopyOf(t), n)
    ensures RunsOk(split, n) && AllUnits(split)
  {
    hide Given, Entered, SplitOf, RunLists.Sorted, CoveredAt, OwnerAt, Put;
    IndexBounds(x, n);
    CutGiven(runs, split, n, x, 1, DUMMY, 0);
    SplitKeepsUnits(runs[Index(x, n)], x, 1, DUMMY, 0);
    GivenCovers(runs, split, n, x, x + 1, DUMMY, 0);
    IndexBounds(t, n);
    RunEntered(split, runs', CopyOf(t), n);
  }

  // ----- whose the runs are -----

  // No file owns a run yet.
  ghost predicate NoneOwned(runs: RunMap) {
    forall a :: Entry(runs, a) ==> !Owned(a) && !a.owner.notInImg
  }

  lemma ProtectOwnsNone(runs: RunMap, runs': RunMap, n: nat, x: nat, t: nat)
    requires 0 < n && RunsOk(runs, n) && NoneOwned(runs) && ProtectedIn(runs, runs', x, t, n)
    ensures NoneOwned(runs')
  {
    hide SplitOf, RunLists.Sorted, Put;
    var split: RunMap :| IsCutIn(runs, split, Index(x, n), x, 1, DUMMY, 0) && IsPutIn(split, runs', CopyOf(t), n);
    forall a | Entry(runs', a)
      ensures !Owned(a) && !a.owner.notInImg
    {
      PutEntry(split, runs', CopyOf(t), n, a);
      if a != CopyOf(t) {
        CutOwnsNone(runs, split, n, x, a);
      }
    }
  }

  lemma CutOwnsNone(runs: RunMap, split: RunMap, n: nat, x: nat, a: Alloc)
    requires 0 < n && RunsOk(runs, n) && NoneOwned(runs) && IsCutIn(runs, split, Index(x, n), x, 1, DUMMY, 0)
    requires Entry(split, a)
    ensures !Owned(a) && !a.owner.notInImg
  {
    hide SplitOf, RunLists.Sorted, Hit;
    var k := Index(x, n);
    var l :| l in split && a in split[l];
    if l == k {
      SplitEntries(runs[k], x, 1, DUMMY, 0, a, First(k, n), First(k, n) + n);
      HitIsThere(runs[k], x, 1);
      assert Entry(runs, Hit(runs[k], x, 1));
    }
    if a in runs[l] {
      assert Entry(runs, a);
    }
  }

  lemma PutEntry(runs: RunMap, runs': RunMap, a: Alloc, n: nat, b: Alloc)
    requires 0 < n && IsPutIn(runs, runs', a, n)
    ensures Entry(runs', b) <==> Entry(runs, b) || b == a
  {
    hide Put;
    var k := Index(a.offset, n);
    PutHas(ListOf(runs, k), a);
    if b == a {
      assert a in runs'[k];
    }
    if Entry(runs, b) {
      var l :| l in runs && b in runs[l];
      assert b in runs'[l];
    }
    if Entry(runs', b) {
      var l :| l in runs' && b in runs'[l];
      assert b != a ==> l in runs && b in runs[l];
    }
  }

  lemma DataKeepsMatch(runs: RunMap, runs': RunMap, files: set<FileExtent>, a: Alloc, n: nat)
    requires 0 < n && IsPutIn(runs, runs', a, n) && FilesMatch(runs, files) && NewDataOwned(runs)
    requires Owned(a) && a.owner.notInImg && !a.owner.relocated
    ensures FilesMatch(runs', files + {FileOf(a)}) && NewDataOwned(runs')
  {
    hide IsPutIn, Entry;
    forall b
      ensures Entry(runs', b) <==> Entry(runs, b) || b == a
    {
      PutEntry(runs, runs', a, n, b);
    }
  }

  lemma NoneOwnedMatches(runs: RunMap)
    requires NoneOwned(runs)
    ensures FilesMatch(runs, {}) && NewDataOwned(runs)
  {
  }

  // The first run a range meets, when none in the range has an owner.
  lemma HitIsFree(runs: RunMap, n: nat, k: nat, offset: nat, length: nat)
    requires 0 < n && RunsOk(runs, n) && 0 < length
    requires k in runs && SplitOf(runs[k], offset, length, 0, 0) != Untouched
    requires forall x: nat :: offset <= x < offset + length && CoveredAt(runs, x, n) ==> OwnerAt(runs, x, n).inode == 0
    ensures Hit(runs[k], offset, length).owner.inode == 0
  {
    hide SplitOf, Hit, RunLists.Sorted, CoveredAt, OwnerAt;
    var h := Hit(runs[k], offset, length);
    HitIsThere(runs[k], offset, length);
    HitMeets(runs[k], offset, length);
    RunStarts(runs, n, k, h);
    var x := if h.offset < offset then offset else h.offset;
    EntryAt(runs, n, k, h, x);
  }

  lemma {:induction false} HitMeets(list: seq<Alloc>, offset: nat, length: nat)
    requires SplitOf(list, offset, length, 0, 0) != Untouched
    ensures Overlaps(Hit(list, offset, length), offset, length)
    decreases |list|
  {
    if !Overlaps(list[0], offset, length) {
      HitMeets(list[1..], offset, length);
    }
  }

  lemma EntryAt(runs: RunMap, n: nat, k: nat, a: Alloc, x: nat)
    requires 0 < n && RunsOk(runs, n) && k in runs && a in runs[k] && a.Has(x)
    ensures CoveredAt(runs, x, n) && OwnerAt(runs, x, n) == a.owner
  {
    EntryOwns(runs[k], a, First(k, n), First(k, n) + n, x);
    IndexIsUnique(x, n, k);
  }

  lemma ProtectCovers(runs: RunMap, runs': RunMap, n: nat, x: nat, t: nat)
    requires 0 < n && RunsOk(runs, n) && AllUnits(runs) && CoveredAt(runs, x, n) && !CoveredAt(runs, t, n)
    requires ProtectedIn(runs, runs', x, t, n)
    ensures forall y: nat :: CoveredAt(runs', y, n) <==> CoveredAt(runs, y, n) || y == t
  {
    hide RunsOk, AllUnits, CoveredAt, OwnerAt, IsCutIn, IsPutIn;
    var split: RunMap :| IsCutIn(runs, split, Index(x, n), x, 1, DUMMY, 0) && IsPutIn(split, runs', CopyOf(t), n);
    CutIsGiven(runs, split, n, x, t, runs');
  }

  // ----- what the counts need -----

  // Free entries and runs do not touch.
  lemma FreeIsClear(c: P.Chunk, runs: RunMap, k: nat, n: nat, cs: nat)
    requires 0 < n && 0 < cs && RunsOk(runs, n) && k in runs && c.Valid()
    requires forall b: nat :: c.Spare(b) ==> !CoveredAt(runs, Index(b, cs), n)
    ensures Clear(c.spaces, runs[k], cs)
  {
    hide CoveredAt, OwnerAt, S.Covers, S.Sorted, First, Index, RunsOk;
    forall s, r | s in c.spaces && r in runs[k]
      ensures s.End() <= First(r.offset, cs) + P.VIRT || First(r.End(), cs) + P.VIRT <= s.offset
    {
      if First(r.offset, cs) + P.VIRT < s.End() && s.offset < First(r.End(), cs) + P.VIRT {
        var b := SpareMeetsRun(c, runs, k, n, cs, s, r);
        assert false;
      }
    }
  }

  lemma SpareMeetsRun(c: P.Chunk, runs: RunMap, k: nat, n: nat, cs: nat, s: S.Space, r: Alloc) returns (b: nat)
    requires 0 < n && 0 < cs && RunsOk(runs, n) && k in runs && r in runs[k] && c.Valid() && s in c.spaces
    requires First(r.offset, cs) + P.VIRT < s.End() && s.offset < First(r.End(), cs) + P.VIRT
    ensures c.Spare(b) && CoveredAt(runs, Index(b, cs), n)
  {
    hide CoveredAt, OwnerAt, First, Index;
    var i :| 0 <= i < |c.spaces| && c.spaces[i] == s;
    S.SortedEntry(c.spaces, c.offset, c.offset + c.length, i);
    RunStarts(runs, n, k, r);
    LaterStartsLater(runs[k], First(k, n), First(k, n) + n, r);
    FirstGrows(r.offset, r.End(), cs);
    b := if s.offset - P.VIRT < First(r.offset, cs) then First(r.offset, cs) else s.offset - P.VIRT;
    assert s.Has(b + P.VIRT);
    var x := Index(b, cs);
    IndexBounds(b, cs);
    FirstOrder(r.End(), x, cs);
    if x < r.offset {
      FirstGrows(x, r.offset, cs);
    }
    EntryAt(runs, n, k, r, x);
  }

  // ----- the conversion -----

  class Conversion {
    const cs: nat      // bytes in a cluster
    const conv: Converter
    var planner: P.Planner
    ghost var files: set<FileExtent>  // the EXTENT_DATA items of the files so far
    ghost var counted: RunMap         // the runs as they were added up

    ghost predicate Base()
      reads this, conv, conv.disk, planner
    {
      && conv.Valid() && planner.Valid() && DataChunkIs(conv.n, cs) && planner.unit == cs
      && First(conv.disk.Length, cs) + P.VIRT < 0x1_0000_0000_0000_0000
      && KeptApart(planner.chunks, planner.spaces, planner.limit, conv.runs, conv.n, cs)
      && CopiesHeld(planner.chunks, conv.relocs, cs)
      && FilesMatch(conv.runs, files) && NewDataOwned(conv.runs) && AllJoined(conv.runs)
    }

    // What rolling back needs: the copies, and what was never moved away, are in chunks.
    ghost predicate Undoable()
      reads this, conv, conv.disk, planner
    {
      && conv.Valid() && 0 < cs && First(conv.disk.Length, cs) + P.VIRT < 0x1_0000_0000_0000_0000
      && CopiesHeld(planner.chunks, conv.relocs, cs) && OutsideProtected(planner.chunks, conv.runs, conv.n, cs)
      && forall c :: c in planner.chunks ==> c.offset == c.diskStart + P.VIRT
    }

    // While clusters are being protected.
    ghost predicate Protecting()
      reads this, conv, conv.disk, planner
    {
      && Base() && !planner.counting && files == {} && NoneOwned(conv.runs)
      && AllTallied(planner.chunks, conv.runs, cs)
    }

    // Once the runs have been added up.
    ghost predicate Counting()
      reads this, conv, conv.disk, planner
    {
      && Base() && planner.counting && (forall c :: c in planner.first ==> CountsRuns(c, counted, cs))
      && OutsideProtected(planner.chunks, conv.runs, conv.n, cs)
    }

    // After the scan of the bitmap. The device-wide free list may hold used clusters, but not where a chunk
    // can be carved.
    constructor (cs: nat, conv: Converter, planner: P.Planner)
      requires conv.Valid() && planner.Valid() && DataChunkIs(conv.n, cs) && planner.unit == cs && !planner.counting
      requires conv.relocs == [] && conv.runs == conv.first
      requires First(conv.disk.Length, cs) + P.VIRT < 0x1_0000_0000_0000_0000
      requires forall x: nat :: CoveredAt(conv.runs, x, conv.n) ==> OwnerAt(conv.runs, x, conv.n) == PLAIN
      requires KeptApart(planner.chunks, planner.spaces, planner.limit, conv.runs, conv.n, cs)
      requires (forall c :: c in planner.chunks ==> c.used == 0) && AllJoined(conv.runs)
      ensures Protecting() && this.cs == cs && this.conv == conv && this.planner == planner
    {
      this.cs, this.conv, this.planner, this.files := cs, conv, planner, {};
      new;
      hide KeptApart, Kept, CoveredAt, OwnerAt;
      ScanIsPlain(conv.runs, conv.n, conv.relocs, conv.disk[..], conv.first, conv.d0);
      PlainOwnsNone(conv.runs);
      NoneOwnedMatches(conv.runs);
      PlainIsTallied(planner.chunks, planner.spaces, planner.limit, conv.runs, conv.n, cs);
    }

    // `protect_cluster`.
    method ProtectCluster(cluster: nat) returns (o: Step, ghost target: nat)
      requires Protecting()
      requires CoveredAt(conv.runs, cluster, conv.n) ==> Protectable(OwnerAt(conv.runs, cluster, conv.n))
      modifies planner, conv`runs, conv`relocs, conv.disk
      ensures o in {Done, Skipped, NoSpace, PastEnd}
      ensures o == Skipped <==> !old(CoveredAt(conv.runs, cluster, conv.n))
      ensures o == NoSpace ==> old(P.NoFit(planner.chunks, P.Data, cs) && !S.HasRoom(planner.spaces, P.DATA_CHUNK))
      ensures o == PastEnd ==>
        old(P.NoFit(planner.chunks, P.Data, cs) || EndsBeyond(planner.chunks, First(conv.disk.Length, cs)))
      ensures o == Skipped ==> Protecting() && conv.relocs == old(conv.relocs) && conv.disk[..] == old(conv.disk[..])
      ensures o == Skipped ==> planner.chunks == old(planner.chunks) && planner.spaces == old(planner.spaces)
      ensures o == Done ==> Protecting() && conv.relocs == old(conv.relocs) + [Reloc(cluster, 1, target)]
      ensures o == Done ==> target < conv.disk.Length && !old(CoveredAt(conv.runs, target, conv.n))
      ensures o == Done ==> cluster < conv.disk.Length
      ensures o == Done ==> conv.disk[..] == old(conv.disk[..])[target := old(conv.disk[cluster])]
      ensures o == Done ==> RoomUsed(old(planner.chunks), old(planner.spaces), planner.chunks, planner.spaces,
                                     First(target, cs), cs)
      ensures P.GroupsKept(old(planner.chunks), planner.chunks) && planner.limit == old(planner.limit)
    {
      hide KeptApart, NoneOwned, AllTallied, CoveredAt, OwnerAt, Kept, ProtectedIn, DataChunkIs, Even, First;
      hide CopiesHeld;
      hide FilesMatch, NewDataOwned, P.Accounted, P.Consistent, P.EvenLists, P.WasGiven, P.Allocated, P.DataStep;
      hide P.StillFree, P.Uncharged, P.NoFit, S.HasRoom, S.Covers, P.GroupsKept, P.Contains, EndsBeyond;
      hide P.Chunk.Spare, Slots, RoomUsed, CopyAt, AllJoined;
      target := 0;
      P.GroupsKeptSelf(planner.chunks);
      if !CoveredAt(conv.runs, cluster, conv.n) {
        return Skipped, 0;
      }
      ghost var chunks, spaces, runs, relocs := planner.chunks, planner.spaces, conv.runs, conv.relocs;
      PlainFacts();
      OneCluster(cs);
      UnitFits(cs);
      P.AccountedIsConsistent(chunks, spaces, planner.limit, planner.initial, planner.given);
      var r := planner.AllocateData(cs, false);
      if !r.Ok? {
        return NoSpace, 0;
      }
      P.AllocatedAt(chunks, planner.chunks, old(planner.given), planner.given, r.addr, P.Data, cs, false);
      P.AccountedIsConsistent(planner.chunks, planner.spaces, planner.limit, planner.initial, planner.given);
      ghost var g, chunks1 := P.Range(r.addr - P.VIRT, cs), planner.chunks;
      StepKeepsApart(chunks, spaces, chunks1, planner.spaces, planner.limit, g, false, runs, conv.n, cs);
      var t := Index(r.addr - P.VIRT, cs);
      HandedAt(r.addr, cs, t);
      if t >= conv.disk.Length {
        HandedBeyond(chunks, chunks1, g, t, 1, conv.disk.Length, cs);
        return PastEnd, 0;
      }
      target := t;
      GivenIsClear(planner.chunks, planner.spaces, planner.limit, planner.initial, old(planner.given), g);
      RangeIsUnused(runs, conv.n, cs, g, t, 1);
      var done := conv.ProtectCluster(cluster, t);
      OwnedByNone(runs, conv.n, cluster);
      ProtectKeepsJoined(runs, conv.runs, cluster, t, conv.n);
      planner.Uncharge(First(cluster, cs) + P.VIRT, cs);
      ProtectedStep(chunks, spaces, chunks1, planner.chunks, planner.spaces, planner.limit, relocs, runs, conv.runs,
                    conv.n, cs, cluster, t, g);
      StepRoom(chunks, spaces, chunks1, planner.chunks, planner.spaces, g, cs);
      NoneOwnedMatches(conv.runs);
      o := Done;
    }

    // `calc_used_space`, once every cluster in use outside the chunks is protected: each count becomes
    // the bytes of its list's runs in the chunk that are not protected.
    method CountUsed(bound: nat)
      requires Protecting() && OutsideProtected(planner.chunks, conv.runs, conv.n, cs)
      requires forall k :: k in conv.runs ==> k < bound
      modifies `planner, `counted
      ensures Counting() && fresh(planner) && counted == conv.runs && planner.first == planner.chunks
      ensures planner.charged == [] && planner.limit == old(planner.limit)
      ensures planner.spaces == old(planner.spaces) && planner.FreeSet() == old(planner.FreeSet())
      ensures P.AllRoomy(planner.chunks) && forall c :: c in planner.chunks ==> CountsRuns(c, conv.runs, cs)
      ensures SameButCounts(old(planner.chunks), planner.chunks)
    {
      hide KeptApart, NoneOwned, AllTallied, CoveredAt, OwnerAt, Kept, Even, First, OutsideProtected, CopiesHeld;
      hide FilesMatch, NewDataOwned, P.Accounted, P.Consistent, P.EvenLists, P.WasGiven, CountsRuns, P.Roomy, P.FreeAt;
      hide P.StillFree, Countable, U.InReach, UsedUpTo, P.OffsetsDiffer, RunsOk, AllUnits, P.Counted, P.GroupsKept;
      PlainFacts();
      ghost var chunks0, runs := planner.chunks, conv.runs;
      P.AccountedIsConsistent(chunks0, planner.spaces, planner.limit, planner.initial, planner.given);
      ApartOffsets(chunks0, planner.spaces, planner.limit, runs, conv.n, cs);
      RunsInReach(runs, conv.n, conv.relocs, conv.disk[..], conv.first, conv.d0, cs);
      ChunksCountable(chunks0, planner.spaces, planner.limit, runs, cs);
      var chunks := CalcUsedSpace(conv.runs, planner.chunks, bound, cs);
      SameBut(chunks0, chunks, planner.spaces, planner.limit, cs);
      AllExact(chunks0, chunks, planner.spaces, planner.limit, runs, bound, conv.n, cs);
      CountsAreNoMatter(chunks0, chunks, planner.spaces, planner.limit, runs, conv.n, cs);
      StillHeld(chunks0, chunks, conv.relocs, cs);
      StillOutside(chunks0, chunks, runs, runs, conv.n, cs);
      ghost var free := planner.FreeSet();
      SameFree(chunks0, chunks, planner.spaces, planner.limit, planner.initial, planner.given);
      planner := new P.Planner(chunks, planner.spaces, planner.limit, cs, true);
      FreeIsInitial(chunks, planner.spaces, planner.initial, free);
      counted := conv.runs;
    }

    // A file's data, written anew: space is allocated, the data written, and its run entered.
    method NewData(length: nat, data: seq<Cluster>, inode: nat, vcn: nat) returns (o: Step, ghost lcn: nat)
      requires Counting() && 0 < |data| && length == First(|data|, cs) && inode != 0 && inode != DUMMY
      modifies `files, planner, conv, conv.disk
      ensures o in {Done, NoSpace, PastEnd}
      ensures o == NoSpace ==> old(P.NoFit(planner.chunks, P.Data, length))
      ensures o == PastEnd ==> old(P.NoFit(planner.chunks, P.Data, length)
                                   || EndsBeyond(planner.chunks, First(conv.disk.Length, cs)))
      ensures o == Done ==> Counting() && files == old(files) + {FileExtent(inode, vcn, lcn, |data|)}
      ensures o == Done ==> conv.relocs == old(conv.relocs) && lcn + |data| <= conv.disk.Length
      ensures o == Done ==> forall x: nat :: lcn <= x < lcn + |data| ==> !old(CoveredAt(conv.runs, x, conv.n))
      ensures o == Done ==> conv.disk[lcn..lcn + |data|] == data
      ensures o == Done ==> conv.disk[..lcn] == old(conv.disk[..lcn])
      ensures o == Done ==> conv.disk[lcn + |data|..] == old(conv.disk[lcn + |data|..])
      ensures o == Done ==> planner.charged == old(planner.charged) + [P.Range(First(lcn, cs), length)]
      ensures o == Done ==>
        Entered(old(conv.runs), conv.runs, Alloc(lcn, |data|, Owner(inode, vcn, false, true)), conv.n)
    {
      hide KeptApart, CoveredAt, OwnerAt, Kept, Even, First, Entered, Enterable, IsPutIn, CountsRuns, CopiesHeld;
      hide FilesMatch, NewDataOwned, P.Accounted, P.EvenLists, P.WasGiven, P.Allocated, P.DataStep, P.Counted;
      hide P.StillFree, P.NoFit, S.HasRoom, S.Covers, RunsOk, AllUnits, OutsideProtected, P.GroupsKept, P.Contains;
      hide P.Consistent, P.Chunk.Spare, DataChunkIs, HoldsAll, AllJoined;
      lcn := 0;
      ghost var chunks, spaces, runs := planner.chunks, planner.spaces, conv.runs;
      PlainFacts();
      WholeClusters(|data|, cs);
      P.AccountedIsConsistent(chunks, spaces, planner.limit, planner.initial, planner.given);
      var r := planner.AllocateData(length, true);
      if !r.Ok? {
        return NoSpace, 0;
      }
      P.AllocatedAt(chunks, planner.chunks, old(planner.given), planner.given, r.addr, P.Data, length, true);
      P.AccountedIsConsistent(planner.chunks, planner.spaces, planner.limit, planner.initial, planner.given);
      ghost var g := P.Range(r.addr - P.VIRT, length);
      StepKeepsApart(chunks, spaces, planner.chunks, planner.spaces, planner.limit, g, true, runs, conv.n, cs);
      var at := Index(r.addr - P.VIRT, cs);
      HandedAt(r.addr, cs, at);
      if conv.disk.Length < at + |data| {
        HandedBeyond(chunks, planner.chunks, g, at, |data|, conv.disk.Length, cs);
        return PastEnd, 0;
      }
      lcn := at;
      RangeIsUnused(runs, conv.n, cs, g, at, |data|);
      ApartOneList(planner.chunks, planner.spaces, planner.limit, runs, conv.n, cs, g, at, |data|);
      WriteData(at, data);
      ghost var a := Alloc(at, |data|, Owner(inode, vcn, false, true));
      IsEnterable(runs, a, conv.n);
      conv.Enter(at, |data|, inode, vcn);
      files := files + {FileExtent(inode, vcn, at, |data|)};
      PutInKeepsJoined(runs, conv.runs, a, conv.n);
      DataKeepsMatch(runs, conv.runs, old(files), a, conv.n);
      EnteredCovers(runs, conv.runs, a, conv.n);
      EnteredKeepsApart(planner.chunks, planner.spaces, planner.limit, runs, conv.runs, conv.n, cs, g, at, |data|);
      StillHeld(chunks, planner.chunks, conv.relocs, cs);
      EnteredOutside(chunks, planner.chunks, runs, conv.runs, a, conv.n, cs);
      o := Done;
    }

    // The data's clusters, one after the other.
    method WriteData(at: nat, data: seq<Cluster>)
      requires conv.Valid() && at + |data| <= conv.disk.Length
      requires forall x: nat :: at <= x < at + |data| ==> !CoveredAt(conv.runs, x, conv.n)
      modifies conv.disk
      ensures conv.Valid() && conv.disk[at..at + |data|] == data
      ensures conv.disk[..at] == old(conv.disk[..at]) && conv.disk[at + |data|..] == old(conv.disk[at + |data|..])
    {
      hide Kept, CoveredAt, OwnerAt;
      var i: nat := 0;
      while i < |data|
        invariant i <= |data| && conv.Valid()
        invariant conv.disk[at..at + i] == data[..i]
        invariant conv.disk[..at] == old(conv.disk[..at]) && conv.disk[at + |data|..] == old(conv.disk[at + |data|..])
      {
        ghost var was := conv.disk[..];
        conv.Write(at + i, data[i]);
        WroteNext(was, conv.disk[..], at, i, data);
        i := i + 1;
      }
    }

    // Giving clusters in use, that no file has yet, to a file, with an extent there.
    method Give(offset: nat, length: nat, inode: nat, vcn: nat) returns (ok: bool)
      requires Counting() && inode != 0 && inode != DUMMY
      requires 0 < length <= conv.n - Rem(offset, conv.n) && Touched(conv.runs, conv.n, offset, offset + length)
      requires forall x: nat :: offset <= x < offset + length && CoveredAt(conv.runs, x, conv.n) ==>
        MayGive(OwnerAt(conv.runs, x, conv.n)) && OwnerAt(conv.runs, x, conv.n).inode == 0
      modifies conv`runs, `files
      ensures old(CanGive(conv.runs, conv.n, offset, length)) ==> ok
      ensures ok ==> Counting() && files == old(files) + {FileExtent(inode, vcn, offset, length)}
      ensures ok ==> Given(old(conv.runs), conv.runs, conv.n, offset, offset + length, inode, vcn)
    {
      hide KeptApart, CoveredAt, OwnerAt, Kept, First, Given, Touched, IsCutIn, CountsRuns, CopiesHeld;
      hide OutsideProtected;
      hide FilesMatch, NewDataOwned, RunsOk, AllUnits, P.Accounted, P.EvenLists, P.WasGiven, P.Counted;
      hide AllJoined, CanGive, MayGive, SplitOf;
      PlainFacts();
      ghost var runs := conv.runs;
      CutIfCan(runs, conv.n, offset, length, inode, vcn);
      var given := conv.Give(offset, length, inode, vcn);
      ok := given != Corrupt;
      if !ok {
        return;
      }
      CutKeepsJoined(runs, conv.runs, conv.n, offset, length, inode, vcn);
      GiveMatches(runs, conv.runs, old(files), conv.n, offset, length, inode, vcn);
      files := files + {FileExtent(inode, vcn, offset, length)};
      GivenCovers(runs, conv.runs, conv.n, offset, offset + length, inode, vcn);
      SameKeepsApart(planner.chunks, planner.spaces, planner.limit, runs, conv.runs, conv.n, cs);
      GivenOutside(planner.chunks, runs, conv.runs, conv.n, cs, offset, offset + length, inode, vcn);
    }

    // Any other write, such as the trees and superblocks: to protected clusters, to clusters in no run,
    // or to new file data.
    method Write(x: nat, data: Cluster)
      requires Base() && x < conv.disk.Length
      requires CoveredAt(conv.runs, x, conv.n) ==> MayWrite(OwnerAt(conv.runs, x, conv.n))
      modifies conv.disk
      ensures old(Protecting()) ==> Protecting()
      ensures old(Counting()) ==> Counting()
      ensures conv.disk[..] == old(conv.disk[..])[x := data]
    {
      hide KeptApart, CoveredAt, OwnerAt, Kept, AllTallied, NoneOwned, CopiesHeld, CountsRuns, FilesMatch;
      hide OutsideProtected, NewDataOwned;
      conv.Write(x, data);
    }

    // A write to what is still content of the old volume, and so to what rolling back will restore.
    method Change(x: nat, data: Cluster)
      requires Counting() && x < conv.disk.Length && HoldsOld(conv.relocs, conv.first, conv.n, x)
      modifies conv.disk, conv`d0
      ensures Counting() && conv.disk[..] == old(conv.disk[..])[x := data]
      ensures var o := OldOf(conv.relocs, x);
        && o < |old(conv.d0)| && conv.d0 == old(conv.d0)[o := data] && old(conv.disk[x]) == old(conv.d0)[o]
    {
      hide KeptApart, CoveredAt, OwnerAt, Kept, CopiesHeld, CountsRuns, FilesMatch, OutsideProtected, NewDataOwned;
      hide HoldsOld;
      conv.Change(x, data);
    }

    // Each run that is not protected has one item, which counts exactly the image's and the files'
    // extents that point at the run: at any point after the counting.
    lemma RefsAgreeNow(chunks: nat, a: Alloc, hash: Ref -> nat)
      requires Counting() && (forall k :: k in conv.runs ==> k < chunks) && Entry(conv.runs, a) && !IsDummy(a)
      ensures a.owner.relocated ==> HasNew(conv.relocs, a.offset)
      ensures forall k :: k in conv.runs ==> DummiesHaveRelocs(conv.runs[k], conv.relocs)
      ensures RefsAre(ItemOf(a, conv.relocs, hash).refs, ImageExtents(conv.runs, conv.relocs, chunks), files,
                      a.offset, hash)
    {
      hide Kept, FilesMatch, NewDataOwned, Entry, KeptApart, CopiesHeld;
      RefsAgree(conv.runs, conv.relocs, conv.disk[..], conv.first, conv.d0, conv.n, files, chunks, a, hash);
    }

    lemma PlainFacts()
      requires Base()
      ensures 0 < conv.n && 0 < cs && Even(P.STRIPE, cs) && RunsOk(conv.runs, conv.n) && AllUnits(conv.runs)
    {
      KeptRuns(conv.runs, conv.relocs, conv.disk[..], conv.first, conv.d0, conv.n);
    }
  }

  // As long as no file owns anything.
  lemma OwnedByNone(runs: RunMap, n: nat, x: nat)
    requires 0 < n && NoneOwned(runs) && CoveredAt(runs, x, n) && Protectable(OwnerAt(runs, x, n))
    ensures OwnerAt(runs, x, n).inode == 0
  {
    var a := RoundTrip.EntryOf(ListOf(runs, Index(x, n)), x);
    assert Entry(runs, a);
  }

  lemma CutIfCan(runs: RunMap, n: nat, offset: nat, length: nat, inode: nat, fileOffset: nat)
    requires 0 < n && RunsOk(runs, n) && AllJoined(runs) && 0 < length <= n - Rem(offset, n)
    ensures CanGive(runs, n, offset, length) ==>
      SplitOf(ListOf(runs, Index(offset, n)), offset, length, inode, fileOffset) != Partial
  {
    hide SplitOf, CanGive, AllJoined, RunsOk;
    if CanGive(runs, n, offset, length) {
      CanBeCut(runs, n, offset, length);
      SameKind(ListOf(runs, Index(offset, n)), offset, length, inode, fileOffset);
    }
  }

  // The count is list `k`'s clusters in the chunk that are not protected, and `more` bytes.
  predicate CountIs(c: P.Chunk, runs: RunMap, k: nat, cs: nat, more: nat)
    requires 0 < cs
  {
    && c.offset == ChunkAt(k)
    && c.used == First(U.LiveClusters(ListOf(runs, k), Lo(c, cs), Len(c, cs)), cs) + more
  }

  // What a chunk's BLOCK_GROUP_ITEM is given: the bytes of the runs that were added up, of those that were
  // not protected, and of everything allocated since. It is no more than the chunk's length.
  ghost predicate UsedIs(first: seq<P.Chunk>, i: nat, c: P.Chunk, runs: RunMap, charged: seq<P.Range>, cs: nat)
    requires 0 < cs
  {
    && c.used <= c.length
    && (if |first| <= i then c.used == P.InsideOf(charged, c)
        else exists k: nat :: CountIs(c, runs, k, cs, P.InsideOf(charged, c)))
  }

  // The trees, built at the end of a conversion, with the counts in place.
  method BuildTrees(cv: Conversion, others: seq<TreeBuilder.Root>, e: TreeBuilder.Root, c: TreeBuilder.Root,
                    d: TreeBuilder.Root, devUuid: TreeItems.Bytes, chunkUuid: TreeItems.Bytes)
    returns (o: TreeBuilder.Outcome)
    requires cv.Counting() && ExtentFixpoint.AllDistinct(others + [e, c, d]) && TreeBooks.Books(e.items, map[])
    requires e.live == map[]
    requires forall r :: r in others + [e, c, d] ==> ExtentFixpoint.Unbuilt(r)
    requires |devUuid| == 16 && |chunkUuid| == 16
    modifies others, e, c, d, cv.planner
    ensures o == TreeBuilder.Done ==> ExtentFixpoint.SelfConsistent(ExtentFixpoint.Forest(others + [e, c, d]), e.items)
    ensures o == TreeBuilder.Done ==> ExtentFixpoint.AllStand(others + [e, c, d])
    ensures o == TreeBuilder.Done ==> forall r :: r in others ==> r.items == old(r.items)
    ensures o == TreeBuilder.Done && old(ExtentTrees.NoneDescribed(e.items, c.items, d.items)) ==>
      Described(cv.planner.chunks, e.items, c.items, d.items)
    ensures o == TreeBuilder.Done ==> cv.planner.first == old(cv.planner.first)
    ensures o == TreeBuilder.Done ==> P.GroupsKept(old(cv.planner.chunks), cv.planner.chunks)
    ensures o == TreeBuilder.Done ==> cv.Undoable()
    ensures o == TreeBuilder.Done ==> forall i: nat :: i < |cv.planner.chunks| ==>
      UsedIs(cv.planner.first, i, cv.planner.chunks[i], cv.counted, cv.planner.charged, cv.cs)
  {
    hide TreeBooks.Books, ExtentFixpoint.Unbuilt, ExtentFixpoint.SelfConsistent, ExtentTrees.Stands, P.CountsAt;
    hide CountsRuns, UsedIs;
    hide KeptApart, Kept, FilesMatch, NewDataOwned, P.Accounted, OutsideProtected, CopiesHeld, P.GroupsKept;
    hide P.Consistent, TreeItems.Ascending, ChunkItems.OnlyThese, ChunkItems.Filed, ExtentTrees.NoneDescribed;
    hide ChunkTree.ChunksAre, ExtentFixpoint.AllStand, P.ChunksApart;
    ghost var chunks := cv.planner.chunks;
    NoneAdded(chunks, cv.planner.spaces, cv.planner.limit, cv.conv.runs, cv.conv.n, cv.cs);
    o := ExtentFixpoint.BuildTrees(others, e, c, d, cv.planner, devUuid, chunkUuid);
    if o == TreeBuilder.Done {
      StillHeld(chunks, cv.planner.chunks, cv.conv.relocs, cv.cs);
      StillOutside(chunks, cv.planner.chunks, cv.conv.runs, cv.conv.runs, cv.conv.n, cv.cs);
      PlannerChunks(cv.planner);
      ItsItemsAscend(others + [e, c, d], c);
      ItsItemsAscend(others + [e, c, d], e);
      ExtentFixpoint.PlannerIsApart(cv.planner);
      if ChunkItems.OnlyThese(cv.planner.chunks, e.items, c.items, d.items) {
        DescribedChunks(cv.planner, e.items, c.items, d.items);
      }
      UsedIsCounted(cv.planner.first, cv.planner.chunks, cv.counted, cv.planner.charged, cv.cs);
    }
  }

  // The three trees' items describe the chunks, all of them, and no others.
  ghost predicate Described(chunks: seq<P.Chunk>, e: seq<TreeItems.Item>, ch: seq<TreeItems.Item>,
                            d: seq<TreeItems.Item>) {
    && ChunkTree.ChunksAre(ch, chunks) && TreeItems.Ascending(e) && P.ChunksApart(chunks)
    && ChunkItems.OnlyThese(chunks, e, ch, d) && forall c :: c in chunks ==> ChunkItems.Filed(c, e, ch, d)
  }

  ghost predicate AllUsedAre(cv: Conversion)
    reads cv, cv.planner
    requires 0 < cv.cs
  {
    forall i: nat :: i < |cv.planner.chunks| ==>
      UsedIs(cv.planner.first, i, cv.planner.chunks[i], cv.counted, cv.planner.charged, cv.cs)
  }

  // The chunk's block group has an item with its count.
  predicate UsedIsSaid(items: seq<TreeItems.Item>, c: P.Chunk) {
    exists x :: x in items && x.key == TreeItems.Key(c.offset, 0xC0, c.length) && ExtentUsed.SaysUsed(x.data, c)
  }

  // The trees, with the counts filled in.
  method FinishTrees(cv: Conversion, others: seq<TreeBuilder.Root>, e: TreeBuilder.Root, c: TreeBuilder.Root,
                     d: TreeBuilder.Root, devUuid: TreeItems.Bytes, chunkUuid: TreeItems.Bytes)
    returns (o: TreeBuilder.Outcome)
    requires cv.Counting() && ExtentFixpoint.AllDistinct(others + [e, c, d]) && TreeBooks.Books(e.items, map[])
    requires e.live == map[] && ExtentTrees.NoneDescribed(e.items, c.items, d.items)
    requires forall r :: r in others + [e, c, d] ==> ExtentFixpoint.Unbuilt(r)
    requires |devUuid| == 16 && |chunkUuid| == 16
    modifies others, e, c, d, cv.planner
    ensures o == TreeBuilder.Done ==> 0 < cv.cs && AllUsedAre(cv) && ExtentUsed.GroupsWhole(e.items)
    ensures o == TreeBuilder.Done ==> var items := ExtentUsed.AllCounted(e.items, cv.planner.chunks);
      && TreeWalk.Represents(TreeBuilder.StoreOf(e.trees), e.treeAddr, e.level, items)
      && forall k :: k in cv.planner.chunks ==> UsedIsSaid(items, k)
  {
    hide ExtentFixpoint.SelfConsistent, ExtentFixpoint.Forest, ExtentFixpoint.AllStand, ExtentUsed.GroupsWhole;
    hide ExtentUsed.AllCounted, Described, UsedIsSaid, UsedIs, TreeBooks.Books, ExtentFixpoint.Unbuilt, cv.Counting;
    hide TreeWalk.Represents, TreeBuilder.StoreOf, ExtentTrees.NoneDescribed;
    o := BuildTrees(cv, others, e, c, d, devUuid, chunkUuid);
    if o == TreeBuilder.Done {
      FillCounts(cv, others, e, c, d);
    }
  }

  // The counts are filled in where the extent tree stands. It then reads as its items with the counts, and
  // each chunk's item says the count that the chunk has.
  method FillCounts(cv: Conversion, others: seq<TreeBuilder.Root>, e: TreeBuilder.Root, c: TreeBuilder.Root,
                    d: TreeBuilder.Root)
    requires ExtentFixpoint.SelfConsistent(ExtentFixpoint.Forest(others + [e, c, d]), e.items)
    requires ExtentFixpoint.AllStand(others + [e, c, d]) && 0 < cv.cs && AllUsedAre(cv)
    requires Described(cv.planner.chunks, e.items, c.items, d.items)
    modifies e`trees
    ensures ExtentUsed.GroupsWhole(e.items)
    ensures var items := ExtentUsed.AllCounted(e.items, cv.planner.chunks);
      && TreeWalk.Represents(TreeBuilder.StoreOf(e.trees), e.treeAddr, e.level, items)
      && forall k :: k in cv.planner.chunks ==> UsedIsSaid(items, k)
  {
    hide ExtentFixpoint.SelfConsistent, ExtentFixpoint.Forest, ExtentFixpoint.AllStand, ExtentTrees.Stands;
    hide ExtentUsed.GroupsWhole, ExtentUsed.AllCounted, ExtentUsed.BlocksDiffer, AllUsedAre, Described, UsedIsSaid;
    hide TreeWalk.Represents, TreeBuilder.StoreOf;
    ghost var rs := others + [e, c, d];
    assert rs[|others|] == e;
    GroupsAreWhole(cv.planner.chunks, e.items, c.items, d.items);
    TreeStandsApart(rs, |others|, e.items);
    ExtentUsed.FillIn(e, cv.planner.chunks, e.items);
    forall k | k in cv.planner.chunks
      ensures UsedIsSaid(ExtentUsed.AllCounted(e.items, cv.planner.chunks), k)
    {
      OneCountEach(cv, e.items, c.items, d.items, k);
      CountIsSaid(cv.planner.chunks, e.items, c.items, d.items, k);
    }
  }

  lemma GroupsAreWhole(chunks: seq<P.Chunk>, e: seq<TreeItems.Item>, ch: seq<TreeItems.Item>, d: seq<TreeItems.Item>)
    requires Described(chunks, e, ch, d)
    ensures ExtentUsed.GroupsWhole(e)
  {
    hide ChunkTree.ChunksAre, TreeItems.Ascending, P.ChunksApart, ChunkItems.Filed;
    forall x | x in e && x.key.kind == ChunkItems.BLOCK_GROUP_ITEM
      ensures 8 <= |x.data|
    {
      assert ChunkItems.GroupIsIn(x, chunks);
    }
  }

  // No two blocks of one tree are at the same address.
  lemma TreeStandsApart(rs: seq<TreeBuilder.Root>, i: nat, items: seq<TreeItems.Item>)
    requires ExtentFixpoint.SelfConsistent(ExtentFixpoint.Forest(rs), items) && i < |rs|
    requires ExtentFixpoint.AllStand(rs)
    ensures ExtentUsed.BlocksDiffer(rs[i].trees) && ExtentTrees.Stands(rs[i], rs[i].items)
  {
    hide ExtentTrees.Stands, TreeItems.Ascending, TreeWalk.Represents, ExtentFixpoint.Forest, TreeItems.HasKey;
    hide ExtentFixpoint.HasBlock;
    var forest := ExtentFixpoint.Forest(rs);
    forall j, k | 0 <= j < k < |rs[i].trees|
      ensures rs[i].trees[j].addr != rs[i].trees[k].addr
    {
      var a, b := rs[i].trees[j], rs[i].trees[k];
      assert ExtentFixpoint.BlockAt(forest, i, j, a.addr, a.level);
      assert ExtentFixpoint.BlockAt(forest, i, k, b.addr, b.level);
    }
    assert rs[i] in rs;
  }

  // Chunks that begin at the same place have the same count: they are the same, or both are empty.
  lemma OneCountEach(cv: Conversion, e: seq<TreeItems.Item>, ch: seq<TreeItems.Item>, d: seq<TreeItems.Item>,
                     k: P.Chunk)
    requires 0 < cv.cs && AllUsedAre(cv) && Described(cv.planner.chunks, e, ch, d) && k in cv.planner.chunks
    ensures ExtentUsed.OneCount(cv.planner.chunks, k) && k.used <= k.length && k.offset + k.length < ChunkTree.WORD
  {
    hide ChunkItems.OnlyThese, ChunkItems.Filed, TreeItems.Ascending;
    var chunks := cv.planner.chunks;
    var i: nat :| i < |chunks| && chunks[i] == k;
    assert UsedIs(cv.planner.first, i, k, cv.counted, cv.planner.charged, cv.cs);
    forall b | b in chunks && b.offset == k.offset
      ensures b.used == k.used
    {
      var j: nat :| j < |chunks| && chunks[j] == b;
      assert UsedIs(cv.planner.first, j, b, cv.counted, cv.planner.charged, cv.cs);
      SameDescription(ch, chunks, b, k);
      if i != j {
        assert P.Apart(chunks[if i < j then i else j], chunks[if i < j then j else i]);
      }
    }
  }

  // There is one item at a chunk's address, and it says one length.
  lemma SameDescription(ch: seq<TreeItems.Item>, chunks: seq<P.Chunk>, b: P.Chunk, c: P.Chunk)
    requires ChunkTree.ChunksAre(ch, chunks) && b in chunks && c in chunks && b.offset == c.offset
    ensures b.length == c.length && b.diskStart == c.diskStart
  {
    hide TreeItems.Ascending;
    assert ChunkTree.HasChunk(ch, b) && ChunkTree.HasChunk(ch, c);
    var x :| x in ch && ChunkItems.IsChunkItem(x, b);
    var y :| y in ch && ChunkItems.IsChunkItem(y, c);
    ChunkItems.SameKeySameItem(ch, x, y);
  }

  lemma CountIsSaid(chunks: seq<P.Chunk>, e: seq<TreeItems.Item>, ch: seq<TreeItems.Item>, d: seq<TreeItems.Item>,
                    k: P.Chunk)
    requires Described(chunks, e, ch, d) && k in chunks && ExtentUsed.OneCount(chunks, k)
    requires k.used < ChunkTree.WORD && ExtentUsed.GroupsWhole(e)
    ensures UsedIsSaid(ExtentUsed.AllCounted(e, chunks), k)
  {
    hide ChunkTree.ChunksAre, TreeItems.Ascending, P.ChunksApart, ChunkItems.OnlyThese, ExtentUsed.Counted;
    hide ChunkItems.SaysGroup, ChunkItems.SaysChunk, ChunkItems.SaysDev, ExtentUsed.SaysUsed, ExtentUsed.OneCount;
    assert ChunkItems.Filed(k, e, ch, d);
    var x :| x in e && ChunkItems.IsGroupItem(x, k);
    var i :| 0 <= i < |e| && e[i] == x;
    ExtentUsed.CountIsFilledIn(x, chunks, k);
    assert ExtentUsed.AllCounted(e, chunks)[i] == ExtentUsed.Counted(x, chunks);
  }

  lemma NoneAdded(chunks: seq<P.Chunk>, spaces: seq<S.Space>, limit: nat, runs: RunMap, n: nat, cs: nat)
    requires 0 < n && 0 < cs && KeptApart(chunks, spaces, limit, runs, n, cs)
    ensures forall c :: c in chunks ==> !c.added
  {
    forall c | c in chunks
      ensures !c.added
    {
      assert PlacedIn(c, limit, cs);
    }
  }

  lemma PlannerChunks(p: P.Planner)
    requires p.Valid()
    ensures forall c :: c in p.chunks ==> c.offset == c.diskStart + P.VIRT
  {
  }

  lemma ItsItemsAscend(rs: seq<TreeBuilder.Root>, r: TreeBuilder.Root)
    requires ExtentFixpoint.AllStand(rs) && r in rs
    ensures TreeItems.Ascending(r.items)
  {
  }

  // The chunk tree's items are those of the chunks.
  lemma DescribedChunks(p: P.Planner, e: seq<TreeItems.Item>, ch: seq<TreeItems.Item>, d: seq<TreeItems.Item>)
    requires p.Valid() && TreeItems.Ascending(ch) && ChunkItems.OnlyThese(p.chunks, e, ch, d)
    requires forall c :: c in p.chunks ==> ChunkItems.Filed(c, e, ch, d)
    ensures ChunkTree.ChunksAre(ch, p.chunks)
  {
    hide TreeItems.Ascending, ChunkItems.IsChunkItem, ChunkItems.IsDevItem, ChunkItems.IsGroupItem;
    forall c | c in p.chunks
      ensures c.offset == c.diskStart + P.VIRT && c.offset + c.length < ChunkTree.WORD
      ensures ChunkTree.HasChunk(ch, c)
    {
      assert ChunkItems.Filed(c, e, ch, d);
    }
  }

  lemma UsedIsCounted(first: seq<P.Chunk>, chunks: seq<P.Chunk>, runs: RunMap, charged: seq<P.Range>, cs: nat)
    requires 0 < cs && P.Counted(first, chunks, charged) && forall c :: c in first ==> CountsRuns(c, runs, cs)
    ensures forall i: nat :: i < |chunks| ==> UsedIs(first, i, chunks[i], runs, charged, cs)
  {
    forall i: nat | i < |chunks|
      ensures UsedIs(first, i, chunks[i], runs, charged, cs)
    {
      assert P.CountsAt(first, chunks, charged, i);
      if i < |first| {
        assert first[i] in first && CountsRuns(first[i], runs, cs);
        var k: nat :|
          first[i].offset == ChunkAt(k)
          && first[i].used == First(U.LiveClusters(ListOf(runs, k), Lo(first[i], cs), Len(first[i], cs)), cs);
        assert CountIs(chunks[i], runs, k, cs, P.InsideOf(charged, chunks[i]));
      }
    }
  }

  lemma ScanIsPlain(runs: RunMap, n: nat, relocs: seq<Reloc>, disk: seq<Cluster>, first: RunMap, d0: seq<Cluster>)
    requires 0 < n && Kept(runs, relocs, disk, first, d0, n)
    requires forall x: nat :: CoveredAt(runs, x, n) ==> OwnerAt(runs, x, n) == PLAIN
    ensures AllPlain(runs)
  {
    hide CoveredAt, OwnerAt, RunLists.Sorted;
    forall a | Entry(runs, a)
      ensures a.owner == PLAIN
    {
      var k :| k in runs && a in runs[k];
      RunStarts(runs, n, k, a);
    }
  }

  // Nothing is protected yet, so nothing is missing from a count of none.
  lemma PlainIsHome(c: P.Chunk, runs: RunMap, n: nat, k: nat, cs: nat)
    requires 0 < n && 0 < cs && Laid(c, cs) && c.used == 0 && AllPlain(runs)
    requires c.offset == ChunkAt(k) && c.diskStart + c.length <= First(k + 1, P.DATA_CHUNK)
    ensures Tallied(c, runs, cs)
  {
    hide First;
    forall r | r in ListOf(runs, k)
      ensures r.owner.inode != DUMMY
    {
      assert Entry(runs, r);
    }
    NoDummies(ListOf(runs, k), Lo(c, cs), Len(c, cs));
    FirstOfNone(cs);
    WrapSmall(0);
    assert HasHome(c, runs, k, cs);
  }

  ghost predicate AllPlain(runs: RunMap) {
    forall a :: Entry(runs, a) ==> a.owner == PLAIN
  }

  lemma PlainOwnsNone(runs: RunMap)
    requires AllPlain(runs)
    ensures NoneOwned(runs)
  {
  }

  lemma OneCluster(cs: nat)
    ensures First(1, cs) == cs && Even(cs, cs)
  {
    assert First(1, cs) == cs;
  }

  lemma UnitFits(cs: nat)
    requires Even(P.STRIPE, cs)
    ensures cs <= P.STRIPE
  {
    var k: nat :| First(k, cs) == P.STRIPE;
    FirstGrows(0, k, cs);
  }

  // ----- adding up -----

  lemma CoveredOnDisk(runs: RunMap, n: nat, relocs: seq<Reloc>, disk: seq<Cluster>, first: RunMap, d0: seq<Cluster>,
                      x: nat)
    requires 0 < n && Kept(runs, relocs, disk, first, d0, n) && NoneOwned(runs) && CoveredAt(runs, x, n)
    ensures x < |disk|
  {
    hide CoveredAt, OwnerAt;
    if Used(first, x, n) {
      assert UsedOk(x, runs, relocs, disk, d0, n);
    } else {
      NoNewData(runs, n, x);
      var i :| 0 <= i < |relocs| && relocs[i].new' == x;
      assert relocs[i] in relocs && RelocOk(relocs[i], runs, disk, first, d0, n);
    }
  }

  lemma NoNewData(runs: RunMap, n: nat, x: nat)
    requires 0 < n && NoneOwned(runs) && CoveredAt(runs, x, n)
    ensures !OwnerAt(runs, x, n).notInImg
  {
    var a := RoundTrip.EntryOf(ListOf(runs, Index(x, n)), x);
    assert Entry(runs, a);
  }

  lemma RunsInReach(runs: RunMap, n: nat, relocs: seq<Reloc>, disk: seq<Cluster>, first: RunMap, d0: seq<Cluster>,
                    cs: nat)
    requires 0 < n && 0 < cs && Kept(runs, relocs, disk, first, d0, n) && NoneOwned(runs)
    requires First(|disk|, cs) < 0x1_0000_0000_0000_0000
    ensures forall k :: k in runs ==> U.InReach(runs[k], cs)
  {
    hide Kept, NoneOwned, First, CoveredAt, OwnerAt;
    forall k, r | k in runs && r in runs[k]
      ensures First(r.offset, cs) < 0x1_0000_0000_0000_0000
    {
      KeptRuns(runs, relocs, disk, first, d0, n);
      RunStarts(runs, n, k, r);
      CoveredOnDisk(runs, n, relocs, disk, first, d0, r.offset);
      FirstOrder(r.offset, |disk|, cs);
    }
  }

  lemma ChunksCountable(chunks: seq<P.Chunk>, spaces: seq<S.Space>, limit: nat, runs: RunMap, cs: nat)
    requires 0 < cs && Even(P.STRIPE, cs) && P.Consistent(chunks, spaces, limit)
    requires limit + P.VIRT < 0x1_0000_0000_0000_0000 && AllTallied(chunks, runs, cs)
    ensures forall c :: c in chunks ==> Countable(c, cs)
  {
    hide First, Even, P.ChunksApart, S.Sorted, S.Covers;
    forall c | c in chunks
      ensures Countable(c, cs)
    {
      assert c.Valid() && Tallied(c, runs, cs);
      forall k: nat | c.offset == ChunkAt(k)
        ensures First(Lo(c, cs) + Len(c, cs), cs) < 0x1_0000_0000_0000_0000
      {
        EvenStart(c, k, cs);
        LaidOut(c, cs);
      }
    }
  }

  lemma SameBut(chunks: seq<P.Chunk>, chunks': seq<P.Chunk>, spaces: seq<S.Space>, limit: nat, cs: nat)
    requires SameButCounts(chunks, chunks')
    ensures P.Consistent(chunks, spaces, limit) ==> P.Consistent(chunks', spaces, limit)
    ensures P.EvenLists(chunks, spaces, cs) ==> P.EvenLists(chunks', spaces, cs)
    ensures forall disk :: P.FreeAt(chunks', spaces, disk) <==> P.FreeAt(chunks, spaces, disk)
  {
    hide S.Covers, S.Sorted, Even, S.EvenStarts;
    forall c | c in chunks'
      ensures exists d :: d in chunks && c == d.(used := c.used)
    {
      var i :| 0 <= i < |chunks'| && chunks'[i] == c;
      assert chunks[i] in chunks;
    }
    forall d | d in chunks
      ensures exists c :: c in chunks' && c == d.(used := c.used)
    {
      var i :| 0 <= i < |chunks| && chunks[i] == d;
      assert chunks'[i] in chunks';
    }
    if P.Consistent(chunks, spaces, limit) {
      SameConsistent(chunks, chunks', spaces, limit);
    }
  }

  lemma AllExact(chunks: seq<P.Chunk>, chunks': seq<P.Chunk>, spaces: seq<S.Space>, limit: nat, runs: RunMap,
                 bound: nat, n: nat, cs: nat)
    requires DataChunkIs(n, cs) && Even(P.STRIPE, cs) && RunsOk(runs, n) && AllUnits(runs) && P.OffsetsDiffer(chunks)
    requires (forall k :: k in runs ==> k < bound) && OutsideProtected(chunks, runs, n, cs)
    requires AllTallied(chunks, runs, cs) && KeptApart(chunks, spaces, limit, runs, n, cs)
    requires P.Consistent(chunks, spaces, limit) && limit + P.VIRT < 0x1_0000_0000_0000_0000
    requires |chunks'| == |chunks|
    requires forall i :: 0 <= i < |chunks| ==> chunks'[i] == chunks[i].(used := UsedUpTo(runs, chunks[i], bound, cs))
    ensures P.AllRoomy(chunks') && forall c :: c in chunks' ==> CountsRuns(c, runs, cs)
  {
    hide RunsOk, AllUnits, P.OffsetsDiffer, OutsideProtected, Tallied, UsedUpTo, CountsRuns, LongStarts, LongUnused;
    hide P.Roomy, Even, Placed, CoveredAt, Clear, P.ChunksApart, S.Covers, S.Sorted;
    forall c | c in chunks'
      ensures P.Roomy(c) && CountsRuns(c, runs, cs)
    {
      var i :| 0 <= i < |chunks'| && chunks'[i] == c;
      assert chunks[i] in chunks && chunks[i].Valid();
      forall k | k in runs
        ensures Clear(chunks[i].spaces, runs[k], cs)
      {
        FreeIsClear(chunks[i], runs, k, n, cs);
      }
      CountIsExact(chunks, i, c, runs, bound, n, cs);
    }
  }

  lemma SameConsistent(chunks: seq<P.Chunk>, chunks': seq<P.Chunk>, spaces: seq<S.Space>, limit: nat)
    requires |chunks'| == |chunks| && P.Consistent(chunks, spaces, limit)
    requires forall i :: 0 <= i < |chunks| ==> chunks'[i] == chunks[i].(used := chunks'[i].used)
    ensures P.Consistent(chunks', spaces, limit)
  {
    hide S.Covers, S.Sorted;
    forall i, j | 0 <= i < j < |chunks'|
      ensures P.Apart(chunks'[i], chunks'[j])
    {
      assert P.Apart(chunks[i], chunks[j]);
    }
    forall c | c in chunks'
      ensures c.Valid() && c.ClearOfSuperblocks() && c.diskStart + c.length <= limit
      ensures forall disk :: c.Holds(disk) ==> !S.Covers(spaces, disk)
    {
      var i :| 0 <= i < |chunks'| && chunks'[i] == c;
      var d := chunks[i];
      assert d in chunks && d.Valid() && d.ClearOfSuperblocks();
      assert forall disk :: c.Spare(disk) <==> d.Spare(disk);
      assert forall disk :: c.Holds(disk) <==> d.Holds(disk);
    }
  }

  lemma SameFree(chunks: seq<P.Chunk>, chunks': seq<P.Chunk>, spaces: seq<S.Space>, limit: nat, initial: set<int>,
                 given: seq<P.Range>)
    requires P.Accounted(chunks, spaces, limit, initial, given)
    requires forall disk :: P.FreeAt(chunks', spaces, disk) <==> P.FreeAt(chunks, spaces, disk)
    ensures forall disk :: P.FreeAt(chunks', spaces, disk) <==> disk in P.StillFree(initial, given)
  {
    hide P.FreeAt, P.Consistent, P.IsGiven, P.InOneChunk, P.RangesApart;
  }

  lemma FreeIsInitial(chunks: seq<P.Chunk>, spaces: seq<S.Space>, initial: set<int>, free: set<int>)
    requires forall disk :: disk in initial <==> P.FreeAt(chunks, spaces, disk)
    requires forall disk :: P.FreeAt(chunks, spaces, disk) <==> disk in free
    ensures P.StillFree(initial, []) == free
  {
    hide P.FreeAt;
    assert forall disk :: disk in P.StillFree(initial, []) <==> disk in free;
  }

  // ----- new data and given clusters -----

  lemma WholeClusters(length: nat, cs: nat)
    requires 0 < length && 0 < cs
    ensures Even(First(length, cs), cs) && 0 < First(length, cs)
  {
    FirstGrows(0, length, cs);
  }

  lemma IsEnterable(runs: RunMap, a: Alloc, n: nat)
    requires 0 < n && 0 < a.length && a.owner.inode != DUMMY && !a.owner.relocated
    requires a.End() <= First(Index(a.offset, n), n) + n
    requires forall x: nat :: a.offset <= x < a.End() ==> !CoveredAt(runs, x, n)
    ensures Enterable(runs, a, n)
  {
  }

  lemma EnteredCovers(runs: RunMap, runs': RunMap, a: Alloc, n: nat)
    requires 0 < n && Entered(runs, runs', a, n)
    ensures forall x: nat :: CoveredAt(runs', x, n) ==> CoveredAt(runs, x, n) || a.offset <= x < a.offset + a.length
  {
    hide CoveredAt, OwnerAt;
  }

  lemma WroteNext(was: seq<Cluster>, now: seq<Cluster>, at: nat, i: nat, data: seq<Cluster>)
    requires i < |data| && at + |data| <= |was| && now == was[at + i := data[i]]
    ensures |now| == |was|
    ensures was[at..at + i] == data[..i] ==> now[at..at + (i + 1)] == data[..i + 1]
    ensures now[..at] == was[..at] && now[at + |data|..] == was[at + |data|..]
  {
    if was[at..at + i] == data[..i] {
      assert now[at..at + (i + 1)] == was[at..at + i] + [data[i]];
      assert data[..i + 1] == data[..i] + [data[i]];
    }
  }

  lemma GiveMatches(runs: RunMap, runs': RunMap, files: set<FileExtent>, n: nat, offset: nat, length: nat, inode: nat,
                    vcn: nat)
    requires 0 < n && RunsOk(runs, n) && 0 < length && FilesMatch(runs, files) && NewDataOwned(runs)
    requires IsCutIn(runs, runs', Index(offset, n), offset, length, inode, vcn) && inode != 0 && inode != DUMMY
    requires forall x: nat :: offset <= x < offset + length && CoveredAt(runs, x, n) ==> OwnerAt(runs, x, n).inode == 0
    ensures FilesMatch(runs', files + {FileExtent(inode, vcn, offset, length)}) && NewDataOwned(runs')
  {
    hide SplitOf, RunsOk, FilesMatch, NewDataOwned, CoveredAt, OwnerAt, Hit;
    var k := Index(offset, n);
    SameKind(runs[k], offset, length, inode, vcn);
    HitIsFree(runs, n, k, offset, length);
    GiveKeepsMatch(runs, runs', files, n, k, offset, length, inode, vcn);
  }

  lemma SameKeepsApart(chunks: seq<P.Chunk>, spaces: seq<S.Space>, limit: nat, runs: RunMap, runs': RunMap, n: nat,
                       cs: nat)
    requires 0 < n && 0 < cs && KeptApart(chunks, spaces, limit, runs, n, cs)
    requires forall x: nat :: CoveredAt(runs', x, n) <==> CoveredAt(runs, x, n)
    ensures KeptApart(chunks, spaces, limit, runs', n, cs)
  {
    hide CoveredAt, Index, Placed, LongStarts, P.Chunk.Spare;
  }

  lemma ApartOffsets(chunks: seq<P.Chunk>, spaces: seq<S.Space>, limit: nat, runs: RunMap, n: nat, cs: nat)
    requires 0 < n && 0 < cs && KeptApart(chunks, spaces, limit, runs, n, cs)
    ensures P.OffsetsDiffer(chunks) && forall c :: c in chunks ==> c.offset == c.diskStart + P.VIRT
  {
    forall c | c in chunks
      ensures c.offset == c.diskStart + P.VIRT
    {
      assert PlacedIn(c, limit, cs);
    }
  }

  lemma ApartOneList(chunks: seq<P.Chunk>, spaces: seq<S.Space>, limit: nat, runs: RunMap, n: nat, cs: nat, g: P.Range,
                     lcn: nat, length: nat)
    requires DataChunkIs(n, cs) && KeptApart(chunks, spaces, limit, runs, n, cs) && 0 < length
    requires g == P.Range(First(lcn, cs), First(length, cs)) && exists c :: c in chunks && P.Contains(c, g)
    ensures lcn + length <= First(Index(lcn, n), n) + n
    ensures exists i :: 0 <= i < |chunks| && HoldsAll(chunks[i], lcn, length, cs)
  {
    hide LongStarts, LongUnused, SpareUnused, First, Index;
    RangeInOneList(chunks, limit, n, cs, g, lcn, length);
  }

  // The allocator's address is where a cluster begins.
  lemma HandedAt(addr: nat, cs: nat, t: nat)
    requires 0 < cs && P.VIRT <= addr && Even(addr, cs) && Even(P.STRIPE, cs) && t == Index(addr - P.VIRT, cs)
    ensures First(t, cs) == addr - P.VIRT
  {
    hide Even, Index, First;
    EvenOf64K(16, cs);
    EvenAdds(addr, P.VIRT, cs);
    EvenIndex(addr - P.VIRT, cs);
  }

  // An address beyond the device is in a new chunk, or in one that reaches beyond the device.
  lemma HandedBeyond(chunks: seq<P.Chunk>, chunks': seq<P.Chunk>, g: P.Range, t: nat, k: nat, size: nat, cs: nat)
    requires 0 < cs && g == P.Range(First(t, cs), First(k, cs)) && size < t + k && P.GroupsKept(chunks, chunks')
    requires exists c :: c in chunks' && P.Contains(c, g)
    requires |chunks'| == |chunks| || P.NoFit(chunks, P.Data, g.length)
    ensures P.NoFit(chunks, P.Data, g.length) || EndsBeyond(chunks, First(size, cs))
  {
    hide P.NoFit, First;
    if !P.NoFit(chunks, P.Data, g.length) {
      var c :| c in chunks' && P.Contains(c, g);
      var i :| 0 <= i < |chunks'| && chunks'[i] == c;
      assert P.SameGroup(chunks[i], c) && chunks[i] in chunks;
      FirstAdds(t, k, cs);
      FirstGrows(size, t + k, cs);
    }
  }

  // One cluster protected: all that holds while clusters are being protected still does.
  lemma ProtectedStep(chunks: seq<P.Chunk>, spaces: seq<S.Space>, chunks1: seq<P.Chunk>, chunks': seq<P.Chunk>,
                      spaces': seq<S.Space>, limit: nat, relocs: seq<Reloc>, runs: RunMap, runs': RunMap, n: nat,
                      cs: nat, x: nat, t: nat, g: P.Range)
    requires DataChunkIs(n, cs) && RunsOk(runs, n) && AllUnits(runs) && NoneOwned(runs)
    requires KeptApart(chunks1, spaces', limit, runs, n, cs) && AllTallied(chunks1, runs, cs)
    requires P.GroupsKept(chunks, chunks1) && CopiesHeld(chunks, relocs, cs)
    requires P.Uncharged(chunks1, chunks', First(x, cs) + P.VIRT, cs) && g == P.Range(First(t, cs), cs)
    requires CoveredAt(runs, x, n) && Protectable(OwnerAt(runs, x, n)) && !CoveredAt(runs, t, n)
    requires ProtectedIn(runs, runs', x, t, n)
    requires forall c, b :: c in chunks1 && g.Has(b) ==> !c.Spare(b)
    requires forall b :: g.Has(b) ==> !S.Covers(spaces', b)
    requires (exists c :: c in chunks1 && P.Contains(c, g)) && CopyAt(g.start)
    ensures KeptApart(chunks', spaces', limit, runs', n, cs) && AllTallied(chunks', runs', cs) && NoneOwned(runs')
    ensures P.GroupsKept(chunks, chunks') && CopiesHeld(chunks', relocs + [Reloc(x, 1, t)], cs)
    ensures SameButCounts(chunks1, chunks')
  {
    hide KeptApart, AllTallied, NoneOwned, RunsOk, AllUnits, CoveredAt, OwnerAt, Protectable, ProtectedIn, CopiesHeld;
    hide P.Chunk.Spare, S.Covers, P.Contains, P.Uncharged, First, P.GroupsKept, InSomeChunk, DataChunkIs, CopyAt;
    PositiveUnits(n, cs);
    UnchargedTallies(chunks1, chunks', runs, runs', n, cs, x, t);
    ProtectOwnsNone(runs, runs', n, x, t);
    ProtectCovers(runs, runs', n, x, t);
    OneCluster(cs);
    EnteredKeepsApart(chunks1, spaces', limit, runs, runs', n, cs, g, t, 1);
    UnchargedCounts(chunks1, chunks', First(x, cs) + P.VIRT, cs);
    CountsAreNoMatter(chunks1, chunks', spaces', limit, runs', n, cs);
    P.GroupsKeptOn(chunks, chunks1, chunks');
    StillHeld(chunks, chunks', relocs, cs);
    ApartOffsets(chunks1, spaces', limit, runs, n, cs);
    CopyIsHeld(chunks1, chunks', g, t, cs);
    OneMoreHeld(chunks', relocs, x, t, cs);
  }

  lemma PositiveUnits(n: nat, cs: nat)
    requires DataChunkIs(n, cs)
    ensures 0 < n && 0 < cs
  {
  }

  lemma UnchargedCounts(chunks: seq<P.Chunk>, chunks': seq<P.Chunk>, addr: nat, size: nat)
    requires P.Uncharged(chunks, chunks', addr, size)
    ensures SameButCounts(chunks, chunks')
  {
  }

  lemma CopyIsHeld(chunks: seq<P.Chunk>, chunks': seq<P.Chunk>, g: P.Range, t: nat, cs: nat)
    requires 0 < cs && g == P.Range(First(t, cs), cs) && P.GroupsKept(chunks, chunks')
    requires (exists c :: c in chunks && P.Contains(c, g))
    requires forall c :: c in chunks ==> c.offset == c.diskStart + P.VIRT
    ensures InSomeChunk(chunks', t, cs)
  {
    var c :| c in chunks && P.Contains(c, g);
    var i :| 0 <= i < |chunks| && chunks[i] == c;
    assert InChunk(c, t, cs);
    StillInChunk(chunks, chunks', t, cs);
  }

  lemma OneMoreHeld(chunks: seq<P.Chunk>, relocs: seq<Reloc>, x: nat, t: nat, cs: nat)
    requires CopiesHeld(chunks, relocs, cs) && InSomeChunk(chunks, t, cs) && CopyAt(First(t, cs))
    ensures CopiesHeld(chunks, relocs + [Reloc(x, 1, t)], cs)
  {
    hide InSomeChunk, CopyAt;
  }

  // Before anything is protected.
  lemma PlainIsTallied(chunks: seq<P.Chunk>, spaces: seq<S.Space>, limit: nat, runs: RunMap, n: nat, cs: nat)
    requires 0 < n && 0 < cs && KeptApart(chunks, spaces, limit, runs, n, cs) && AllPlain(runs)
    requires forall c :: c in chunks ==> c.used == 0
    ensures AllTallied(chunks, runs, cs)
  {
    hide AllPlain, LongStarts, LongUnused, SpareUnused, First, Laid;
    forall c | c in chunks
      ensures Tallied(c, runs, cs)
    {
      assert PlacedIn(c, limit, cs);
      var k: nat :| c.offset == ChunkAt(k) && c.diskStart + c.length <= First(k + 1, P.DATA_CHUNK);
      PlainIsHome(c, runs, n, k, cs);
    }
  }
}
