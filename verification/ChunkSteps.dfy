/**
 * What allocating data keeps of the chunks, the free lists and the run lists taken together. The device-wide
 * free list may hold used clusters near the device's end; no chunk can be carved out of that part of it.
 */
module ChunkSteps {
  import opened ChunkMath
  import opened ChunkUse
  import opened Room
  import opened RunLists
  import P = ChunkAllocator
  import S = SpaceList

  // No byte that can become part of a chunk is in a used cluster.
  ghost predicate LongUnused(spaces: seq<S.Space>, runs: RunMap, n: nat, cs: nat)
    requires 0 < n && 0 < cs
  {
    forall s, b: nat :: s in spaces && InWhole(s, b) ==> !CoveredAt(runs, Index(b, cs), n)
  }

  // No byte free in a chunk is in a used cluster.
  ghost predicate SpareUnused(chunks: seq<P.Chunk>, runs: RunMap, n: nat, cs: nat)
    requires 0 < n && 0 < cs
  {
    forall c, b: nat :: c in chunks && c.Spare(b) ==> !CoveredAt(runs, Index(b, cs), n)
  }

  // Every chunk is made of whole clusters, where some list expects it, and in no tree yet; and only the last
  // stretch of the device can have given a chunk of no length.
  ghost predicate PlacedIn(c: P.Chunk, limit: nat, cs: nat) {
    Laid(c, cs) && Expected(c) && !c.added && (c.length == 0 ==> limit < c.diskStart + P.DATA_CHUNK)
  }

  ghost predicate Placed(chunks: seq<P.Chunk>, limit: nat, cs: nat) {
    P.OffsetsDiffer(chunks) && forall c :: c in chunks ==> PlacedIn(c, limit, cs)
  }

  ghost predicate AllTallied(chunks: seq<P.Chunk>, runs: RunMap, cs: nat)
    requires 0 < cs
  {
    forall c :: c in chunks ==> Tallied(c, runs, cs)
  }

  // ----- carving a chunk -----

  lemma WholeNext(length: nat)
    requires P.DATA_CHUNK <= length
    ensures Whole(length) == P.DATA_CHUNK + Whole(length - P.DATA_CHUNK)
  {
  }

  lemma MultiplesAreEven(x: nat, cs: nat)
    requires Even(x, P.DATA_CHUNK) && Even(P.STRIPE, cs)
    ensures Even(x, cs)
  {
    hide Even;
    EvenIndex(x, P.DATA_CHUNK);
    DataChunks(Index(x, P.DATA_CHUNK));
    EvenOf64K(0x800 * Index(x, P.DATA_CHUNK), cs);
  }

  // A chunk carved from an entry is where a list expects it.
  lemma FrontIsPlaced(spaces: seq<S.Space>, spaces': seq<S.Space>, k: nat, c: P.Chunk, limit: nat, cs: nat)
    requires S.Sorted(spaces, P.RESERVED, limit) && LongStarts(spaces) && Even(P.STRIPE, cs)
    requires P.CarvedFront(spaces, spaces', k, c, P.DATA_CHUNK, P.Data)
    ensures PlacedIn(c, limit, cs) && 0 < c.length
  {
    hide Even, S.Sorted, S.Taken;
    assert spaces[k] in spaces;
    S.SortedEntry(spaces, P.RESERVED, limit, k);
    var l := Index(c.diskStart, P.DATA_CHUNK);
    EvenIndex(c.diskStart, P.DATA_CHUNK);
    MultiplesAreEven(c.diskStart, cs);
    EvenOf64K(0x800, cs);
    assert c.offset == ChunkAt(l);
    assert c.diskStart + c.length <= First(l + 1, P.DATA_CHUNK);
  }

  lemma FrontIsUnused(spaces: seq<S.Space>, spaces': seq<S.Space>, k: nat, c: P.Chunk, runs: RunMap, n: nat, cs: nat)
    requires 0 < n && 0 < cs && LongUnused(spaces, runs, n, cs)
    requires P.CarvedFront(spaces, spaces', k, c, P.DATA_CHUNK, P.Data)
    ensures forall b: nat :: c.Holds(b) ==> !CoveredAt(runs, Index(b, cs), n)
  {
    hide CoveredAt, Index, S.Taken, S.Sorted;
    assert spaces[k] in spaces;
    WholeNext(spaces[k].length);
    forall b: nat | c.Holds(b)
      ensures !CoveredAt(runs, Index(b, cs), n)
    {
      assert InWhole(spaces[k], b);
    }
  }

  // What is left of the entry begins at a multiple again, and is as unused.
  lemma RestIsLong(spaces: seq<S.Space>, spaces': seq<S.Space>, k: nat, c: P.Chunk, runs: RunMap, n: nat, cs: nat)
    requires 0 < n && 0 < cs && LongStarts(spaces) && LongUnused(spaces, runs, n, cs)
    requires P.CarvedFront(spaces, spaces', k, c, P.DATA_CHUNK, P.Data)
    ensures LongStarts(spaces') && LongUnused(spaces', runs, n, cs)
  {
    hide CoveredAt, Index, Even, S.Taken, S.Sorted;
    assert spaces[k] in spaces;
    WholeNext(spaces[k].length);
    OneIsEven(P.DATA_CHUNK);
    EvenAdds(spaces[k].offset, P.DATA_CHUNK, P.DATA_CHUNK);
    forall s | s in spaces'
      ensures P.DATA_CHUNK <= s.length ==> Even(s.offset, P.DATA_CHUNK)
      ensures forall b: nat :: InWhole(s, b) ==> !CoveredAt(runs, Index(b, cs), n)
    {
      TakenEntry(spaces, k, P.DATA_CHUNK, s);
      if s !in spaces {
        assert forall b: nat :: InWhole(s, b) ==> InWhole(spaces[k], b);
      }
    }
  }

  lemma OneIsEven(u: nat)
    ensures Even(u, u)
  {
    assert First(1, u) == u;
  }

  // Its offset is no other chunk's.
  lemma FrontIsApart(chunks: seq<P.Chunk>, spaces: seq<S.Space>, spaces': seq<S.Space>, k: nat, c: P.Chunk,
                     limit: nat, cs: nat)
    requires P.Consistent(chunks, spaces, limit) && Placed(chunks, limit, cs)
    requires P.CarvedFront(spaces, spaces', k, c, P.DATA_CHUNK, P.Data)
    ensures P.OffsetsDiffer(chunks + [c])
  {
    hide P.ChunksApart, S.Sorted, S.Taken, Laid, Expected;
    S.SortedEntry(spaces, P.RESERVED, limit, k);
    S.EntryIsCovered(spaces, k, c.diskStart);
    forall i | 0 <= i < |chunks|
      ensures chunks[i].offset != c.offset
    {
      assert chunks[i] in chunks && PlacedIn(chunks[i], limit, cs) && chunks[i].Valid();
      assert !chunks[i].Holds(c.diskStart);
    }
  }

  // ----- one step -----

  // What holds of the chunks and the device-wide list while clusters are protected and data is written.
  ghost predicate KeptApart(chunks: seq<P.Chunk>, spaces: seq<S.Space>, limit: nat, runs: RunMap, n: nat, cs: nat)
    requires 0 < n && 0 < cs
  {
    && Placed(chunks, limit, cs) && LongStarts(spaces) && LongUnused(spaces, runs, n, cs)
    && SpareUnused(chunks, runs, n, cs)
  }

  // With the new chunk, if there is one.
  lemma NewKeepsApart(chunks: seq<P.Chunk>, spaces: seq<S.Space>, extra: seq<P.Chunk>, spaces': seq<S.Space>,
                      limit: nat, runs: RunMap, n: nat, cs: nat)
    requires 0 < n && 0 < cs && Even(P.STRIPE, cs) && P.Consistent(chunks, spaces, limit)
    requires KeptApart(chunks, spaces, limit, runs, n, cs) && P.NewFrom(spaces, spaces', extra)
    ensures KeptApart(chunks + extra, spaces', limit, runs, n, cs)
  {
    hide CoveredAt, Index, LongStarts, LongUnused, Even, P.Chunk.Spare, P.OffsetsDiffer, PlacedIn;
    if extra == [] {
      assert chunks + extra == chunks;
    } else {
      var c := extra[0];
      var k :| P.CarvedFront(spaces, spaces', k, c, P.DATA_CHUNK, P.Data);
      assert extra == [c];
      FrontIsPlaced(spaces, spaces', k, c, limit, cs);
      FrontIsUnused(spaces, spaces', k, c, runs, n, cs);
      RestIsLong(spaces, spaces', k, c, runs, n, cs);
      FrontIsApart(chunks, spaces, spaces', k, c, limit, cs);
      forall b: nat | c.Spare(b)
        ensures !CoveredAt(runs, Index(b, cs), n)
      {
        P.SpareIsHeld(c, b);
      }
    }
  }

  lemma NewIsTallied(chunks: seq<P.Chunk>, spaces: seq<S.Space>, extra: seq<P.Chunk>, spaces': seq<S.Space>, limit: nat,
                     runs: RunMap, n: nat, cs: nat)
    requires 0 < n && 0 < cs && Even(P.STRIPE, cs) && P.Consistent(chunks, spaces, limit) && RunsOk(runs, n)
    requires KeptApart(chunks, spaces, limit, runs, n, cs) && P.NewFrom(spaces, spaces', extra)
    requires AllTallied(chunks, runs, cs)
    ensures AllTallied(chunks + extra, runs, cs)
  {
    hide CoveredAt, Index, LongStarts, LongUnused, Even, Tallied, RunsOk, First, S.Sorted;
    forall c | c in extra
      ensures Tallied(c, runs, cs)
    {
      var k :| P.CarvedFront(spaces, spaces', k, c, P.DATA_CHUNK, P.Data);
      FrontIsPlaced(spaces, spaces', k, c, limit, cs);
      FrontIsUnused(spaces, spaces', k, c, runs, n, cs);
      forall x: nat | InChunk(c, x, cs)
        ensures !CoveredAt(runs, x, n)
      {
        ByteInCluster(First(x, cs), x, cs);
        assert c.Holds(First(x, cs));
      }
      FreshIsHome(c, runs, n, cs);
    }
  }

  // The bytes of cluster `t`.
  lemma ByteInCluster(b: nat, t: nat, cs: nat)
    requires 0 < cs
    ensures Index(b, cs) == t <==> First(t, cs) <= b < First(t, cs) + cs
  {
    IndexBounds(b, cs);
    if First(t, cs) <= b < First(t, cs) + cs {
      IndexIsUnique(b, cs, t);
    }
  }

  lemma SamePlaced(c: P.Chunk, c': P.Chunk, limit: nat, cs: nat)
    requires PlacedIn(c, limit, cs) && P.SameGroup(c, c') && c'.added == c.added
    ensures PlacedIn(c', limit, cs)
  {
  }

  lemma SameTally(c: P.Chunk, c': P.Chunk, runs: RunMap, cs: nat)
    requires 0 < cs && Tallied(c, runs, cs) && P.SameGroup(c, c') && c'.used == c.used
    ensures Tallied(c', runs, cs)
  {
    var k: nat :| HasHome(c, runs, k, cs);
    assert HasHome(c', runs, k, cs);
  }

  // Chunk `i` gives up the range: it was unused, and is free no more.
  lemma TookKeepsApart(chunks: seq<P.Chunk>, chunks': seq<P.Chunk>, spaces: seq<S.Space>, limit: nat, g: P.Range,
                       changeUsed: bool, runs: RunMap, n: nat, cs: nat)
    requires 0 < n && 0 < cs && P.Consistent(chunks', spaces, limit) && KeptApart(chunks, spaces, limit, runs, n, cs)
    requires P.TookFrom(chunks, chunks', g, P.Data, changeUsed)
    ensures KeptApart(chunks', spaces, limit, runs, n, cs) && P.GroupsKept(chunks, chunks')
    ensures forall b: nat :: g.Has(b) ==> !CoveredAt(runs, Index(b, cs), n)
    ensures forall c, b :: c in chunks' && g.Has(b) ==> !c.Spare(b)
    ensures forall b :: g.Has(b) ==> !S.Covers(spaces, b)
    ensures exists c :: c in chunks' && P.Contains(c, g)
    ensures !changeUsed && AllTallied(chunks, runs, cs) ==> AllTallied(chunks', runs, cs)
  {
    hide CoveredAt, Index, LongStarts, LongUnused, Even, PlacedIn, Tallied, S.Taken, S.Covers, S.Sorted;
    var i: nat, k: nat :| P.TookAt(chunks, chunks', i, k, g, P.Data, changeUsed);
    var c' := chunks'[i];
    P.TookIsExact(chunks[i], k, g.length, P.UsedAfter(chunks[i].used, g.length, changeUsed));
    assert c' in chunks' && chunks[i] in chunks;
    forall b | g.Has(b)
      ensures c'.Holds(b)
    {
      P.SpareIsHeld(chunks[i], b);
    }
    forall c | c in chunks'
      ensures PlacedIn(c, limit, cs)
      ensures forall b :: g.Has(b) ==> !c.Spare(b)
      ensures forall b: nat :: c.Spare(b) ==> !CoveredAt(runs, Index(b, cs), n)
      ensures !changeUsed && AllTallied(chunks, runs, cs) ==> Tallied(c, runs, cs)
    {
      var j :| 0 <= j < |chunks'| && chunks'[j] == c;
      assert chunks[j] in chunks && P.SameGroup(chunks[j], c);
      SamePlaced(chunks[j], c, limit, cs);
      if j != i {
        OthersHoldNone(chunks', spaces, limit, i, j, g);
      }
      if !changeUsed && AllTallied(chunks, runs, cs) {
        SameTally(chunks[j], c, runs, cs);
      }
    }
  }

  lemma OthersHoldNone(chunks: seq<P.Chunk>, spaces: seq<S.Space>, limit: nat, i: nat, j: nat, g: P.Range)
    requires P.Consistent(chunks, spaces, limit) && i < |chunks| && j < |chunks| && i != j
    requires forall b :: g.Has(b) ==> chunks[i].Holds(b)
    ensures forall b :: g.Has(b) ==> !chunks[j].Spare(b)
  {
    hide S.Covers, S.Sorted;
    assert P.Apart(chunks[if i < j then i else j], chunks[if i < j then j else i]);
    forall b | g.Has(b)
      ensures !chunks[j].Spare(b)
    {
      assert chunks[j] in chunks;
      if chunks[j].Spare(b) {
        P.SpareIsHeld(chunks[j], b);
      }
    }
  }

  // What `allocate_data` keeps, and that what it gives is in no run, in one chunk, and free no more.
  lemma StepKeepsApart(chunks: seq<P.Chunk>, spaces: seq<S.Space>, chunks': seq<P.Chunk>, spaces': seq<S.Space>,
                       limit: nat, g: P.Range, changeUsed: bool, runs: RunMap, n: nat, cs: nat)
    requires 0 < n && 0 < cs && Even(P.STRIPE, cs) && RunsOk(runs, n)
    requires P.Consistent(chunks, spaces, limit) && P.Consistent(chunks', spaces', limit)
    requires KeptApart(chunks, spaces, limit, runs, n, cs)
    requires P.DataStep(chunks, spaces, chunks', spaces', g, changeUsed)
    ensures KeptApart(chunks', spaces', limit, runs, n, cs) && P.GroupsKept(chunks, chunks')
    ensures forall b: nat :: g.Has(b) ==> !CoveredAt(runs, Index(b, cs), n)
    ensures forall c, b :: c in chunks' && g.Has(b) ==> !c.Spare(b)
    ensures forall b :: g.Has(b) ==> !S.Covers(spaces', b)
    ensures exists c :: c in chunks' && P.Contains(c, g)
    ensures !changeUsed && AllTallied(chunks, runs, cs) ==> AllTallied(chunks', runs, cs)
  {
    hide CoveredAt, Index, KeptApart, Even, RunsOk, AllTallied, P.NewFrom, P.TookFrom, P.Consistent, S.Covers;
    hide P.Chunk.Spare;
    var extra: seq<P.Chunk> :|
      P.NewFrom(spaces, spaces', extra) && P.TookFrom(chunks + extra, chunks', g, P.Data, changeUsed);
    NewKeepsApart(chunks, spaces, extra, spaces', limit, runs, n, cs);
    TookKeepsApart(chunks + extra, chunks', spaces', limit, g, changeUsed, runs, n, cs);
    if AllTallied(chunks, runs, cs) {
      NewIsTallied(chunks, spaces, extra, spaces', limit, runs, n, cs);
    }
    FrontKept(chunks, extra, chunks');
  }

  lemma FrontKept(chunks: seq<P.Chunk>, extra: seq<P.Chunk>, chunks': seq<P.Chunk>)
    requires P.GroupsKept(chunks + extra, chunks')
    ensures P.GroupsKept(chunks, chunks')
  {
    forall i | 0 <= i < |chunks|
      ensures P.SameGroup(chunks[i], chunks'[i])
    {
      assert (chunks + extra)[i] == chunks[i];
    }
  }

  // Entering a run in the range keeps free and used apart.
  lemma EnteredKeepsApart(chunks: seq<P.Chunk>, spaces: seq<S.Space>, limit: nat, runs: RunMap, runs': RunMap, n: nat,
                       cs: nat, g: P.Range, t: nat, length: nat)
    requires 0 < n && 0 < cs && KeptApart(chunks, spaces, limit, runs, n, cs)
    requires g == P.Range(First(t, cs), First(length, cs))
    requires forall c, b :: c in chunks && g.Has(b) ==> !c.Spare(b)
    requires forall b :: g.Has(b) ==> !S.Covers(spaces, b)
    requires forall x: nat :: CoveredAt(runs', x, n) ==> CoveredAt(runs, x, n) || t <= x < t + length
    ensures KeptApart(chunks, spaces, limit, runs', n, cs)
  {
    hide CoveredAt, Index, LongStarts, Placed, P.Chunk.Spare, First;
    forall b: nat | CoveredAt(runs', Index(b, cs), n) && !CoveredAt(runs, Index(b, cs), n)
      ensures g.Has(b)
    {
      ClusterInRange(b, t, length, cs);
    }
    forall s, b: nat | s in spaces && InWhole(s, b)
      ensures !CoveredAt(runs', Index(b, cs), n)
    {
      WholeIsInside(s.length);
      assert s.Has(b);
    }
  }

  lemma WholeIsInside(length: nat)
    ensures Whole(length) <= length
  {
    IndexBounds(length, P.DATA_CHUNK);
  }

  lemma ClusterInRange(b: nat, t: nat, length: nat, cs: nat)
    requires 0 < cs && t <= Index(b, cs) < t + length
    ensures First(t, cs) <= b < First(t, cs) + First(length, cs)
  {
    hide First, Index;
    IndexBounds(b, cs);
    FirstAdds(t, length, cs);
    FirstOrder(t, Index(b, cs), cs);
    FirstGrows(Index(b, cs), t + length, cs);
  }

  // A range of whole clusters none of whose bytes is in a used cluster.
  lemma RangeIsUnused(runs: RunMap, n: nat, cs: nat, g: P.Range, lcn: nat, length: nat)
    requires 0 < n && 0 < cs && g == P.Range(First(lcn, cs), First(length, cs))
    requires forall b: nat :: g.Has(b) ==> !CoveredAt(runs, Index(b, cs), n)
    ensures forall x: nat :: lcn <= x < lcn + length ==> !CoveredAt(runs, x, n)
  {
    hide CoveredAt, Index, First;
    forall x: nat | lcn <= x < lcn + length
      ensures !CoveredAt(runs, x, n)
    {
      FirstAdds(lcn, length, cs);
      FirstOrder(lcn, x, cs);
      FirstOrder(x, lcn + length, cs);
      ByteInCluster(First(x, cs), x, cs);
      assert g.Has(First(x, cs));
    }
  }

  // The clusters of a range are all in the chunk.
  ghost predicate HoldsAll(c: P.Chunk, lcn: nat, length: nat, cs: nat) {
    forall x: nat :: lcn <= x < lcn + length ==> InChunk(c, x, cs)
  }

  // A range in a chunk that is where a list expects it lies in that list's clusters.
  lemma RangeInOneList(chunks: seq<P.Chunk>, limit: nat, n: nat, cs: nat, g: P.Range, lcn: nat, length: nat)
    requires DataChunkIs(n, cs) && Placed(chunks, limit, cs) && 0 < length
    requires g == P.Range(First(lcn, cs), First(length, cs)) && exists c :: c in chunks && P.Contains(c, g)
    ensures lcn + length <= First(Index(lcn, n), n) + n
    ensures exists i :: 0 <= i < |chunks| && HoldsAll(chunks[i], lcn, length, cs)
  {
    hide First, Index;
    var c :| c in chunks && P.Contains(c, g);
    var i :| 0 <= i < |chunks| && chunks[i] == c;
    assert PlacedIn(c, limit, cs);
    var k: nat :| c.offset == ChunkAt(k) && c.diskStart + c.length <= First(k + 1, P.DATA_CHUNK);
    FirstAdds(lcn, length, cs);
    forall x: nat | lcn <= x < lcn + length
      ensures InChunk(c, x, cs)
    {
      FirstOrder(lcn, x, cs);
      FirstGrows(x, lcn + length, cs);
    }
    assert InChunk(c, lcn, cs);
    HomeKey(c, k, n, cs, lcn);
    FirstFirst(k + 1, n, cs);
    FirstOrder(lcn + length, First(k + 1, n), cs);
    NextFirst(k, n);
  }

  lemma NextFirst(k: nat, n: nat)
    ensures First(k + 1, n) == First(k, n) + n
  {
  }
}
