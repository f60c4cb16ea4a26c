/**
 * What the chunks count as used while clusters are being protected, and what adding up the runs makes of
 * it: `calc_used_space` over all the chunks.
 */
module ChunkUse {
  import opened ChunkMath
  import opened RunLists
  import opened Protect
  import opened UsedBytes
  import P = ChunkAllocator
  import S = SpaceList

  // Where the chunk for list `k` is expected to begin.
  function ChunkAt(k: nat): nat {
    First(k, P.DATA_CHUNK) + P.VIRT + if k == 0 then P.RESERVED else 0
  }

  lemma ChunkAtIsUnique(k: nat, l: nat)
    requires ChunkAt(k) == ChunkAt(l)
    ensures k == l
  {
    if k < l {
      FirstGrows(k, l, P.DATA_CHUNK);
    } else if l < k {
      FirstGrows(l, k, P.DATA_CHUNK);
    }
  }

  // The chunk's first cluster, and how many it has.
  function Lo(c: P.Chunk, cs: nat): nat
    requires 0 < cs
  {
    Index(c.diskStart, cs)
  }

  function Len(c: P.Chunk, cs: nat): nat
    requires 0 < cs
  {
    Index(c.length, cs)
  }

  // The chunk is made of whole clusters.
  ghost predicate Laid(c: P.Chunk, cs: nat) {
    c.offset == c.diskStart + P.VIRT && Even(c.diskStart, cs) && Even(c.length, cs)
  }

  lemma LaidOut(c: P.Chunk, cs: nat)
    requires 0 < cs && Laid(c, cs)
    ensures First(Lo(c, cs), cs) == c.diskStart && First(Len(c, cs), cs) == c.length
    ensures First(Lo(c, cs) + Len(c, cs), cs) == c.diskStart + c.length
  {
    hide Even;
    EvenIndex(c.diskStart, cs);
    EvenIndex(c.length, cs);
    FirstAdds(Lo(c, cs), Len(c, cs), cs);
  }

  lemma FirstOrder(x: nat, y: nat, cs: nat)
    requires 0 < cs
    ensures x <= y <==> First(x, cs) <= First(y, cs)
    ensures x < y <==> First(x, cs) < First(y, cs)
  {
    if x < y {
      FirstGrows(x, y, cs);
    } else if y < x {
      FirstGrows(y, x, cs);
    }
  }

  // Cluster `x` begins in the chunk.
  predicate InChunk(c: P.Chunk, x: nat, cs: nat) {
    c.HasAddr(First(x, cs) + P.VIRT)
  }

  lemma InChunkIs(c: P.Chunk, x: nat, cs: nat)
    requires 0 < cs && Laid(c, cs)
    ensures InChunk(c, x, cs) <==> Lo(c, cs) <= x < Lo(c, cs) + Len(c, cs)
  {
    LaidOut(c, cs);
    FirstOrder(Lo(c, cs), x, cs);
    FirstOrder(x, Lo(c, cs) + Len(c, cs), cs);
  }

  // ----- the space that is used and the space that is free -----

  // No free entry touches the clusters of a run.
  predicate Clear(spaces: seq<S.Space>, list: seq<Alloc>, cs: nat) {
    forall s, r :: s in spaces && r in list ==>
      s.End() <= First(r.offset, cs) + P.VIRT || First(r.End(), cs) + P.VIRT <= s.offset
  }

  predicate From(list: seq<Alloc>, lo: nat, len: nat, cs: nat, at: int) {
    forall r :: r in list && StartsIn(r, lo, len) ==> at <= First(r.offset, cs) + P.VIRT
  }

  // Runs and free entries that do not touch share out what lies beyond `at`.
  lemma {:induction false} FitTogether(list: seq<Alloc>, from: nat, to: nat, spaces: seq<S.Space>, at: int,
                                       lo: nat, len: nat, cs: nat)
    requires 0 < cs && RunLists.Sorted(list, from, to) && EndsIn(list, lo, len) && From(list, lo, len, cs, at)
    requires at <= First(lo + len, cs) + P.VIRT
    requires S.Sorted(spaces, at, First(lo + len, cs) + P.VIRT) && Clear(spaces, list, cs)
    ensures First(LiveClusters(list, lo, len), cs) + S.Total(spaces) <= First(lo + len, cs) + P.VIRT - at
    decreases |list| + |spaces|
  {
    hide First;
    assert First(0, cs) == 0 by {
      FirstOfNone(cs);
    }
    var end := First(lo + len, cs) + P.VIRT;
    if list == [] {
      S.SortedTotal(spaces, at, end);
    } else {
      var r, rest := list[0], list[1..];
      assert r in list;
      RestIsWithin(list, lo, len, cs, at, spaces);
      if !StartsIn(r, lo, len) || r.owner.inode == DUMMY {
        FitTogether(rest, r.End(), to, spaces, at, lo, len, cs);
      } else if spaces == [] || First(r.End(), cs) + P.VIRT <= spaces[0].offset {
        var next := First(r.End(), cs) + P.VIRT;
        RestIsLater(list, from, to, lo, len, cs);
        FirstOrder(r.End(), lo + len, cs);
        FitTogether(rest, r.End(), to, spaces, next, lo, len, cs);
        FirstAdds(r.offset, r.length, cs);
        FirstAdds(LiveClusters(rest, lo, len), r.length, cs);
      } else {
        var s := spaces[0];
        assert s in spaces;
        AllLater(list, from, to, lo, len, cs, s.End());
        assert Clear(spaces[1..], list, cs);
        SortedEnds(spaces[1..], s.End(), end);
        FitTogether(list, from, to, spaces[1..], s.End(), lo, len, cs);
      }
    }
  }

  lemma FirstOfNone(cs: nat)
    ensures First(0, cs) == 0
  {
  }

  lemma {:induction false} SortedEnds(spaces: seq<S.Space>, from: int, to: int)
    requires S.Sorted(spaces, from, to)
    ensures from <= to
    decreases |spaces|
  {
    if spaces != [] {
      SortedEnds(spaces[1..], spaces[0].End(), to);
    }
  }

  lemma RestIsWithin(list: seq<Alloc>, lo: nat, len: nat, cs: nat, at: int, spaces: seq<S.Space>)
    requires list != [] && EndsIn(list, lo, len) && From(list, lo, len, cs, at) && Clear(spaces, list, cs)
    ensures EndsIn(list[1..], lo, len) && From(list[1..], lo, len, cs, at) && Clear(spaces, list[1..], cs)
  {
  }

  lemma RestIsLater(list: seq<Alloc>, from: nat, to: nat, lo: nat, len: nat, cs: nat)
    requires 0 < cs && list != [] && RunLists.Sorted(list, from, to)
    ensures From(list[1..], lo, len, cs, First(list[0].End(), cs) + P.VIRT)
  {
    forall r | r in list[1..]
      ensures First(list[0].End(), cs) <= First(r.offset, cs)
    {
      LaterStartsLater(list[1..], list[0].End(), to, r);
      FirstOrder(list[0].End(), r.offset, cs);
    }
  }

  lemma AllLater(list: seq<Alloc>, from: nat, to: nat, lo: nat, len: nat, cs: nat, at: int)
    requires 0 < cs && list != [] && RunLists.Sorted(list, from, to) && at <= First(list[0].offset, cs) + P.VIRT
    ensures From(list, lo, len, cs, at)
  {
    forall r | r in list
      ensures First(list[0].offset, cs) <= First(r.offset, cs)
    {
      if r != list[0] {
        LaterStartsLater(list[1..], list[0].End(), to, r);
      }
      FirstOrder(list[0].offset, r.offset, cs);
    }
  }

  // ----- the counts while clusters are being protected -----

  // The chunk is where list `k` expects it, and its count is short by the list's protected clusters.
  ghost predicate HasHome(c: P.Chunk, runs: RunMap, k: nat, cs: nat)
    requires 0 < cs
  {
    && Laid(c, cs) && c.offset == ChunkAt(k) && c.diskStart + c.length <= First(k + 1, P.DATA_CHUNK)
    && Charged(c.used, ListOf(runs, k), Lo(c, cs), Len(c, cs), cs)
  }

  ghost predicate Tallied(c: P.Chunk, runs: RunMap, cs: nat)
    requires 0 < cs
  {
    exists k: nat :: HasHome(c, runs, k, cs)
  }

  // The chunk is where some list expects it, and no longer than the list's clusters.
  ghost predicate Expected(c: P.Chunk) {
    exists k: nat :: c.offset == ChunkAt(k) && c.diskStart + c.length <= First(k + 1, P.DATA_CHUNK)
  }

  // A data chunk is `n` clusters.
  predicate DataChunkIs(n: nat, cs: nat) {
    0 < n && 0 < cs && First(n, cs) == P.DATA_CHUNK
  }

  lemma {:induction false} FirstFirst(k: nat, n: nat, cs: nat)
    ensures First(k, First(n, cs)) == First(First(k, n), cs)
  {
    if 0 < k {
      FirstFirst(k - 1, n, cs);
      FirstAdds(First(k - 1, n), n, cs);
    }
  }

  // The clusters of a chunk that is where list `k` expects it belong to list `k`.
  lemma HomeKey(c: P.Chunk, k: nat, n: nat, cs: nat, x: nat)
    requires DataChunkIs(n, cs) && c.offset == c.diskStart + P.VIRT
    requires c.offset == ChunkAt(k) && c.diskStart + c.length <= First(k + 1, P.DATA_CHUNK) && InChunk(c, x, cs)
    ensures Index(x, n) == k
  {
    FirstFirst(k, n, cs);
    FirstFirst(k + 1, n, cs);
    FirstOrder(First(k, n), x, cs);
    FirstOrder(x, First(k + 1, n), cs);
    IndexIsUnique(x, n, k);
  }

  lemma {:induction false} HitOwnsOne(list: seq<Alloc>, c: nat)
    requires SplitOf(list, c, 1, 0, 0) != Untouched
    ensures Hit(list, c, 1).owner == OwnerOf(list, c)
    decreases |list|
  {
    if !Overlaps(list[0], c, 1) {
      HitOwnsOne(list[1..], c);
    }
  }

  // Protecting a cluster keeps the count of the chunk at home with list `k`.
  lemma HomeKept(c: P.Chunk, c': P.Chunk, runs: RunMap, split: RunMap, runs': RunMap, k: nat, n: nat, cs: nat,
                 x: nat, t: nat)
    requires DataChunkIs(n, cs) && HasHome(c, runs, k, cs)
    requires c' == c.(used := if InChunk(c, x, cs) then Wrap(c.used - cs) else c.used)
    requires IsCutIn(runs, split, Index(x, n), x, 1, DUMMY, 0) && IsPutIn(split, runs', CopyOf(t), n)
    requires OwnerAt(runs, x, n).inode != DUMMY
    ensures HasHome(c', runs', k, cs)
  {
    hide Charged, SplitOf, Wrap, Put;
    var lo, len := Lo(c, cs), Len(c, cs);
    var list := ListOf(runs, k);
    InChunkIs(c, x, cs);
    if k == Index(x, n) {
      SameKind(list, x, 1, DUMMY, 0);
      HitOwnsOne(list, x);
      ProtectKeepsCharge(c.used, list, x, lo, len, cs);
    } else if InChunk(c, x, cs) {
      HomeKey(c, k, n, cs, x);
    }
    if k == Index(t, n) {
      PutKeepsCharge(c'.used, ListOf(split, k), t, lo, len, cs);
    }
  }

  lemma PutKeepsCharge(used: nat, list: seq<Alloc>, t: nat, lo: nat, len: nat, cs: nat)
    requires Charged(used, list, lo, len, cs)
    ensures Charged(used, Put(list, CopyOf(t)), lo, len, cs)
  {
    hide Charged;
    PutIsPlaced(list, CopyOf(t));
    var i := Place(list, t);
    assert list == list[..i] + list[i..];
    CopyKeepsCharge(used, list[..i], list[i..], CopyOf(t), lo, len, cs);
  }

  // A chunk with no used cluster in it counts none.
  lemma FreshIsHome(c: P.Chunk, runs: RunMap, n: nat, cs: nat)
    requires 0 < n && 0 < cs && RunsOk(runs, n) && Laid(c, cs) && Expected(c) && c.used == 0
    requires forall x: nat :: CoveredAt(runs, x, n) ==> !InChunk(c, x, cs)
    ensures Tallied(c, runs, cs)
  {
    hide RunsOk, Laid, InChunk, Lo, Len, CoveredAt, OwnerAt;
    var k: nat :| c.offset == ChunkAt(k) && c.diskStart + c.length <= First(k + 1, P.DATA_CHUNK);
    forall r | r in ListOf(runs, k)
      ensures !StartsIn(r, Lo(c, cs), Len(c, cs))
    {
      RunStarts(runs, n, k, r);
      InChunkIs(c, r.offset, cs);
    }
    NoDummies(ListOf(runs, k), Lo(c, cs), Len(c, cs));
    FirstOfNone(cs);
    WrapSmall(0);
    assert HasHome(c, runs, k, cs);
  }

  // ----- adding up the runs -----

  // The count of a chunk after the first `k` lists.
  function UsedUpTo(runs: RunMap, c: P.Chunk, k: nat, cs: nat): nat
    requires 0 < cs
  {
    if k == 0 then c.used
    else
      var u := UsedUpTo(runs, c, k - 1, cs);
      if k - 1 in runs && ChunkAt(k - 1) == c.offset
      then Wrap(u + First(Clusters(runs[k - 1], Lo(c, cs), Len(c, cs)), cs))
      else u
  }

  // Only one list counts.
  lemma {:induction false} OneListCounts(runs: RunMap, c: P.Chunk, bound: nat, k: nat, cs: nat)
    requires 0 < cs && c.offset == ChunkAt(k)
    ensures UsedUpTo(runs, c, bound, cs)
         == if k < bound && k in runs then Wrap(c.used + First(Clusters(runs[k], Lo(c, cs), Len(c, cs)), cs))
            else c.used
    decreases bound
  {
    hide Wrap, First, Clusters;
    if 0 < bound {
      OneListCounts(runs, c, bound - 1, k, cs);
      if ChunkAt(bound - 1) == c.offset {
        ChunkAtIsUnique(bound - 1, k);
      }
    }
  }

  // What the arithmetic needs: 64-bit numbers, and whole clusters where a list is counted.
  ghost predicate Countable(c: P.Chunk, cs: nat)
    requires 0 < cs
  {
    && c.used < 0x1_0000_0000_0000_0000
    && forall k: nat :: c.offset == ChunkAt(k) ==> First(Lo(c, cs) + Len(c, cs), cs) < 0x1_0000_0000_0000_0000
  }

  // `calc_used_space`.
  method CalcUsedSpace(runs: RunMap, chunks0: seq<P.Chunk>, bound: nat, cs: nat) returns (chunks: seq<P.Chunk>)
    requires 0 < cs && P.OffsetsDiffer(chunks0)
    requires (forall c :: c in chunks0 ==> Countable(c, cs)) && forall k :: k in runs ==> InReach(runs[k], cs)
    ensures |chunks| == |chunks0|
    ensures forall i :: 0 <= i < |chunks| ==> chunks[i] == chunks0[i].(used := UsedUpTo(runs, chunks0[i], bound, cs))
  {
    hide Wrap, First, Clusters, InReach, ChunkAt;
    chunks := chunks0;
    var k: nat := 0;
    while k < bound
      invariant k <= bound && |chunks| == |chunks0|
      invariant forall i :: 0 <= i < |chunks| ==> chunks[i] == chunks0[i].(used := UsedUpTo(runs, chunks0[i], k, cs))
    {
      if k in runs {
        var i: nat := 0;
        while i < |chunks| && chunks[i].offset != ChunkAt(k)
          invariant i <= |chunks| && forall j :: 0 <= j < i ==> chunks[j].offset != ChunkAt(k)
        {
          i := i + 1;
        }
        if i < |chunks| {
          assert chunks0[i] in chunks0 && Countable(chunks0[i], cs);
          UsedIsWord(runs, chunks0[i], k, cs);
          var u := CalcUsed(chunks[i].used, runs[k], Lo(chunks[i], cs), Len(chunks[i], cs), cs);
          chunks := chunks[i := chunks[i].(used := u)];
        }
      }
      k := k + 1;
    }
  }

  lemma {:induction false} UsedIsWord(runs: RunMap, c: P.Chunk, k: nat, cs: nat)
    requires 0 < cs && c.used < 0x1_0000_0000_0000_0000
    ensures UsedUpTo(runs, c, k, cs) < 0x1_0000_0000_0000_0000
    decreases k
  {
    if 0 < k {
      UsedIsWord(runs, c, k - 1, cs);
    }
  }

  // ----- what the counts come to -----

  // Every cluster outside the chunks that is in use has been protected.
  ghost predicate OutsideProtected(chunks: seq<P.Chunk>, runs: RunMap, n: nat, cs: nat)
    requires 0 < n
  {
    forall x: nat :: CoveredAt(runs, x, n) && OwnerAt(runs, x, n).inode != DUMMY ==> InSomeChunk(chunks, x, cs)
  }

  predicate InSomeChunk(chunks: seq<P.Chunk>, x: nat, cs: nat) {
    exists i :: 0 <= i < |chunks| && InChunk(chunks[i], x, cs)
  }

  // The chunk is the one list `k` is counted into.
  ghost predicate AtHome(c: P.Chunk, runs: RunMap, k: nat, cs: nat)
    requires 0 < cs
  {
    && Laid(c, cs) && c.offset == ChunkAt(k)
    && Charged(c.used, ListOf(runs, k), Lo(c, cs), Len(c, cs), cs) && EndsIn(ListOf(runs, k), Lo(c, cs), Len(c, cs))
  }

  // A run of list `k` that is not protected and has a cluster in the chunk lies in it.
  lemma RunIsInside(chunks: seq<P.Chunk>, i: nat, runs: RunMap, k: nat, n: nat, cs: nat, r: Alloc, x: nat)
    requires DataChunkIs(n, cs) && RunsOk(runs, n) && AllUnits(runs) && P.OffsetsDiffer(chunks) && i < |chunks|
    requires OutsideProtected(chunks, runs, n, cs) && forall c :: c in chunks ==> Tallied(c, runs, cs)
    requires HasHome(chunks[i], runs, k, cs) && k in runs && r in runs[k] && r.owner.inode != DUMMY
    requires r.Has(x) && InChunk(chunks[i], x, cs)
    ensures Lo(chunks[i], cs) <= r.offset && r.End() <= Lo(chunks[i], cs) + Len(chunks[i], cs)
  {
    hide Charged, Tallied, Lo, Len, Laid, OutsideProtected;
    var lo, end := Lo(chunks[i], cs), Lo(chunks[i], cs) + Len(chunks[i], cs);
    InChunkIs(chunks[i], x, cs);
    if r.offset < lo || end < r.End() {
      var y: nat := if end < r.End() then end else lo - 1;
      InChunkIs(chunks[i], y, cs);
      RunInsideAt(chunks, i, runs, k, n, cs, r, x, y);
      assert false;
    }
  }

  lemma RunInsideAt(chunks: seq<P.Chunk>, i: nat, runs: RunMap, k: nat, n: nat, cs: nat, r: Alloc, x: nat, y: nat)
    requires DataChunkIs(n, cs) && RunsOk(runs, n) && AllUnits(runs) && P.OffsetsDiffer(chunks) && i < |chunks|
    requires OutsideProtected(chunks, runs, n, cs) && forall c :: c in chunks ==> Tallied(c, runs, cs)
    requires chunks[i].offset == ChunkAt(k) && k in runs && r in runs[k] && r.owner.inode != DUMMY
    requires r.Has(x) && r.Has(y) && x != y
    ensures InChunk(chunks[i], y, cs)
  {
    hide Charged, Even, InChunk, ChunkAt;
    EntryOwns(runs[k], r, First(k, n), First(k, n) + n, y);
    IndexIsUnique(y, n, k);
    assert InSomeChunk(chunks, y, cs);
    var j :| 0 <= j < |chunks| && InChunk(chunks[j], y, cs);
    assert Tallied(chunks[j], runs, cs);
    var l: nat :| HasHome(chunks[j], runs, l, cs);
    HomeKey(chunks[j], l, n, cs, y);
    ChunkAtIsUnique(l, k);
  }

  lemma HomeIsAtHome(chunks: seq<P.Chunk>, i: nat, runs: RunMap, k: nat, n: nat, cs: nat)
    requires DataChunkIs(n, cs) && RunsOk(runs, n) && AllUnits(runs) && P.OffsetsDiffer(chunks) && i < |chunks|
    requires OutsideProtected(chunks, runs, n, cs) && forall c :: c in chunks ==> Tallied(c, runs, cs)
    requires HasHome(chunks[i], runs, k, cs)
    ensures AtHome(chunks[i], runs, k, cs)
  {
    hide Charged, Tallied, OutsideProtected, P.OffsetsDiffer, RunsOk, Lo, Len, Laid;
    var c := chunks[i];
    forall r | r in ListOf(runs, k) && StartsIn(r, Lo(c, cs), Len(c, cs))
      ensures r.End() <= Lo(c, cs) + Len(c, cs)
    {
      if r.owner.inode == DUMMY {
        assert Units(runs[k]);
      } else {
        RunStarts(runs, n, k, r);
        InChunkIs(c, r.offset, cs);
        RunIsInside(chunks, i, runs, k, n, cs, r, r.offset);
      }
    }
  }

  lemma RunStarts(runs: RunMap, n: nat, k: nat, r: Alloc)
    requires 0 < n && RunsOk(runs, n) && k in runs && r in runs[k]
    ensures r.Has(r.offset) && CoveredAt(runs, r.offset, n) && OwnerAt(runs, r.offset, n) == r.owner
    ensures First(k, n) <= r.offset < First(k, n) + n
  {
    LaterStartsLater(runs[k], First(k, n), First(k, n) + n, r);
    EntryOwns(runs[k], r, First(k, n), First(k, n) + n, r.offset);
    SortedBounds(runs[k], First(k, n), First(k, n) + n, r.offset);
    IndexIsUnique(r.offset, n, k);
  }

  lemma EvenStart(c: P.Chunk, k: nat, cs: nat)
    requires c.offset == c.diskStart + P.VIRT && c.offset == ChunkAt(k) && Even(P.STRIPE, cs)
    ensures Even(c.diskStart, cs)
  {
    hide Even;
    EvenOf64K(16, cs);
    EvenOf64K(0x800 * k, cs);
    DataChunks(k);
    EvenAdds(0x10000 * (0x800 * k), P.RESERVED, cs);
  }

  lemma {:induction false} DataChunks(k: nat)
    ensures First(k, P.DATA_CHUNK) == 0x10000 * (0x800 * k)
  {
    if 0 < k {
      DataChunks(k - 1);
    }
  }

  lemma {:induction false} NoDummies(list: seq<Alloc>, lo: nat, len: nat)
    requires forall r :: r in list && StartsIn(r, lo, len) ==> r.owner.inode != DUMMY
    ensures DummyClusters(list, lo, len) == 0
    decreases |list|
  {
    if list != [] {
      assert list[0] in list;
      NoDummies(list[1..], lo, len);
    }
  }

  // What `calc_used_space` leaves in a chunk at home with list `k`: the bytes of the list's runs that
  // are in the chunk and not protected; and these leave room for what is free.
  lemma HomeIsExact(c: P.Chunk, runs: RunMap, k: nat, bound: nat, n: nat, cs: nat)
    requires 0 < n && 0 < cs && RunsOk(runs, n) && AtHome(c, runs, k, cs) && (k in runs ==> k < bound)
    requires S.Sorted(c.spaces, c.offset, c.offset + c.length) && Clear(c.spaces, ListOf(runs, k), cs)
    requires c.diskStart + c.length < 0x1_0000_0000_0000_0000
    ensures UsedUpTo(runs, c, bound, cs) == First(LiveClusters(ListOf(runs, k), Lo(c, cs), Len(c, cs)), cs)
    ensures UsedUpTo(runs, c, bound, cs) + S.Total(c.spaces) <= c.length
  {
    hide Wrap, UsedUpTo, Charged;
    var list, lo, len := ListOf(runs, k), Lo(c, cs), Len(c, cs);
    LaidOut(c, cs);
    OneListCounts(runs, c, bound, k, cs);
    NoneSorted(k, n);
    if k in runs {
      UsedIsExact(c.used, list, First(k, n), First(k, n) + n, lo, len, cs);
    } else {
      NothingUsed(c.used, lo, len, cs);
    }
    HomeStarts(c, list, cs);
    FitTogether(list, First(k, n), First(k, n) + n, c.spaces, c.offset, lo, len, cs);
  }

  lemma HomeStarts(c: P.Chunk, list: seq<Alloc>, cs: nat)
    requires 0 < cs && Laid(c, cs)
    ensures From(list, Lo(c, cs), Len(c, cs), cs, c.offset)
  {
    LaidOut(c, cs);
    forall r | r in list && StartsIn(r, Lo(c, cs), Len(c, cs))
      ensures c.diskStart <= First(r.offset, cs)
    {
      FirstOrder(Lo(c, cs), r.offset, cs);
    }
  }

  lemma NothingUsed(used: nat, lo: nat, len: nat, cs: nat)
    requires Charged(used, [], lo, len, cs)
    ensures used == 0 == First(LiveClusters([], lo, len), cs)
  {
    WrapSmall(0);
  }

  // What a chunk counts once the runs have been added up: its list's clusters in it that are not protected.
  ghost predicate CountsRuns(c: P.Chunk, runs: RunMap, cs: nat)
    requires 0 < cs
  {
    exists k: nat ::
      c.offset == ChunkAt(k) && c.used == First(LiveClusters(ListOf(runs, k), Lo(c, cs), Len(c, cs)), cs)
  }

  // Adding up the runs makes every count exact, and leaves room for what is free.
  lemma CountIsExact(chunks: seq<P.Chunk>, i: nat, c': P.Chunk, runs: RunMap, bound: nat, n: nat, cs: nat)
    requires DataChunkIs(n, cs) && Even(P.STRIPE, cs) && RunsOk(runs, n) && AllUnits(runs)
    requires P.OffsetsDiffer(chunks) && i < |chunks| && forall k :: k in runs ==> k < bound
    requires OutsideProtected(chunks, runs, n, cs) && forall c :: c in chunks ==> Tallied(c, runs, cs)
    requires S.Sorted(chunks[i].spaces, chunks[i].offset, chunks[i].offset + chunks[i].length)
    requires forall k :: k in runs ==> Clear(chunks[i].spaces, runs[k], cs)
    requires chunks[i].diskStart + chunks[i].length < 0x1_0000_0000_0000_0000
    requires c' == chunks[i].(used := UsedUpTo(runs, chunks[i], bound, cs))
    ensures CountsRuns(c', runs, cs) && P.Roomy(c')
  {
    hide RunsOk, Charged, Clear, UsedUpTo, P.OffsetsDiffer, OutsideProtected, First, Index, Even, ChunkAt, S.Sorted;
    var c := chunks[i];
    assert c in chunks && Tallied(c, runs, cs);
    var k: nat :| HasHome(c, runs, k, cs);
    HomeIsAtHome(chunks, i, runs, k, n, cs);
    ClearOfNone(c.spaces, cs);
    HomeIsExact(c, runs, k, bound, n, cs);
    assert c'.offset == ChunkAt(k);
  }

  lemma ClearOfNone(spaces: seq<S.Space>, cs: nat)
    ensures Clear(spaces, [], cs)
  {
  }
}
