/**
 * A conversion from end to end: beginning it, protecting what is outside the chunks and counting; giving each
 * file its clusters; writing the image's items, the extent items and the runs to be checksummed; and undoing it.
 */
module Convert {
  import opened ChunkMath
  import opened ChunkUse
  import opened Conversion
  import opened ExtentItems
  import opened ImageRollback
  import opened ImageTree
  import opened ItemCover
  import opened Joined
  import opened Protect
  import opened Room
  import opened RunLists
  import B = DataBitmap
  import Bits = BitmapScan
  import ChunkItems
  import ChunkTree
  import D = DataChunks
  import ExtentFixpoint
  import ExtentTrees
  import K = CsumRuns
  import M = Mappings
  import P = ChunkAllocator
  import RoundTrip
  import S = SpaceList
  import Start
  import SB = Superblocks
  import TreeBooks
  import TreeBuilder
  import TreeItems
  import TreeWalk
  import V = ValidData

  // ----- up to the counting -----

  // Beyond every list of runs.
  method KeyBound(runs: RunMap) returns (bound: nat)
    ensures forall k :: k in runs ==> k < bound
  {
    bound := 0;
    var left := runs.Keys;
    while left != {}
      invariant left <= runs.Keys && forall k :: k in runs && k !in left ==> k < bound
      decreases |left|
    {
      var k :| k in left;
      if bound <= k {
        bound := k + 1;
      }
      left := left - {k};
    }
  }

  lemma BeginningLies(v: Start.Volume, cv: Conversion, last: nat)
    requires Start.Geometry(v) && cv.cs == v.cs && cv.conv.n == v.n
    requires cv.conv.disk.Length == B.ClustersIn(v.orig, v.cs)
    requires P.RESERVED <= last <= v.device && last % P.STRIPE == 0 && Start.AllEndBy(cv.planner.chunks, last)
    requires forall x: nat :: Used(cv.conv.first, x, v.n) <==> Start.InUse(v, x)
    requires forall x: nat :: Start.InUse(v, x) ==> Start.Reachable(cv.planner.chunks, last, x, v.cs)
    ensures SB.Lies(cv, v.device, last, v.orig != v.device)
  {
    hide First, Index, Used, Start.InUse, Start.Reachable, Start.AllEndBy;
    var size := B.ClustersIn(v.orig, v.cs);
    B.BeginsBefore(size, v.orig, v.cs);
    Start.SectorsAreFew(v);
    SB.EndOf(v.device, v.cs);
    var x := Index(v.device, v.cs) + 1;
    Start.JumpFirst(x - 1, v.cs);
    B.BeginsBefore(x, v.orig, v.cs);
    forall y: nat | y < size
      ensures First(y, v.cs) < v.orig
    {
      B.BeginsBefore(y, v.orig, v.cs);
    }
  }

  // All is in use from the first megabyte to the end of the last chunk.
  ghost predicate Full(v: Start.Volume, last: nat)
    requires 0 < v.cs
  {
    && last < v.device
    && forall x: nat :: P.RESERVED <= First(x, v.cs) < last ==> Start.InUse(v, x)
  }

  // Then no free entry of a chunk has a cluster.
  lemma FullHasNoSlots(v: Start.Volume, chunks: seq<P.Chunk>, spaces: seq<S.Space>, last: nat)
    requires Start.Clean(v) && 0 < v.cs && Full(v, last) && Start.AllEndBy(chunks, last)
    requires D.Gridded(chunks, spaces, v.device, v.bits, v.cs, Start.PlanOf(v), v.device + P.DATA_CHUNK)
    requires P.EvenLists(chunks, spaces, v.cs)
    ensures Slots(chunks, v.cs) == 0
  {
    hide First, Index, Even, D.FromStretch, D.CarvedFrom, Start.Clean, Start.InUse, D.UsedIn;
    CleanGeometry(v);
    forall c | c in chunks && c.kind == P.Data
      ensures S.TooShort(c.spaces, v.cs)
    {
      if !S.TooShort(c.spaces, v.cs) {
        var s :| s in c.spaces && v.cs <= s.length;
        var j := Start.ChunkOf(v, c);
        FullIsNotSpare(v, c, j, s, last);
        assert false;
      }
    }
    NoFitIsNoSlots(chunks, v.cs);
  }

  lemma FullIsNotSpare(v: Start.Volume, c: P.Chunk, j: nat, s: S.Space, last: nat)
    requires Start.Clean(v) && 0 < v.cs && Full(v, last) && D.ChunkEnd(c) <= last && Start.HasUsed(v, j)
    requires D.CarvedFrom(c, v.device, v.bits, v.cs, Start.StretchOf(v, j))
    ensures !(s in c.spaces && v.cs <= s.length && Even(s.offset, v.cs))
  {
    hide First, Index, Start.Clean, Start.InUse, D.UsedIn, D.Scanned, D.UsedByte;
    CleanGeometry(v);
    if s in c.spaces && v.cs <= s.length && Even(s.offset, v.cs) {
      var b := s.offset - P.VIRT;
      var i :| 0 <= i < |c.spaces| && c.spaces[i] == s;
      S.SortedEntry(c.spaces, c.offset, c.offset + c.length, i);
      assert c.spaces[i].Has(b + P.VIRT) && c.Spare(b);
      VirtIsEven(s.offset, v.cs);
      EvenIndex(b, v.cs);
      Start.SpareIsUnused(v, c, j, b);
    }
  }

  lemma VirtIsEven(x: nat, cs: nat)
    requires Even(P.STRIPE, cs) && Even(x, cs) && P.VIRT <= x
    ensures Even(x - P.VIRT, cs)
  {
    EvenOf64K(16, cs);
    EvenAdds(x, P.VIRT, cs);
  }

  // Every entry that could hold a chunk is behind the chunks.
  lemma FullHasRoomBehind(v: Start.Volume, chunks: seq<P.Chunk>, spaces: seq<S.Space>, last: nat)
    requires Start.Clean(v) && 0 < v.cs && Full(v, last)
    requires D.CarvedSoFar(chunks, spaces, v.device, v.bits, v.cs, Start.PlanOf(v), v.device + P.DATA_CHUNK)
    requires LongStarts(spaces) && P.EvenLists(chunks, spaces, v.cs)
    ensures LongBehind(spaces, last)
  {
    hide First, Index, Even, D.FromStretch, D.CarvedFrom, Start.Clean, Start.InUse, D.UsedIn;
    CleanGeometry(v);
    forall s | s in spaces && P.DATA_CHUNK <= s.length
      ensures last <= s.offset
    {
      var i :| 0 <= i < |spaces| && spaces[i] == s;
      S.SortedEntry(spaces, P.RESERVED, P.RESERVED + v.device, i);
      LongHasFirst(s);
      EvenIndex(s.offset, v.cs);
      Start.LongIsUnusedAt(v, chunks, spaces, s, s.offset);
    }
  }

  lemma LongHasFirst(s: S.Space)
    requires P.DATA_CHUNK <= s.length
    ensures InWhole(s, s.offset)
  {
    IndexBounds(s.length, P.DATA_CHUNK);
    if Index(s.length, P.DATA_CHUNK) != 0 {
      FirstGrows(0, Index(s.length, P.DATA_CHUNK), P.DATA_CHUNK);
    }
  }

  // The copies' room is behind the chunks, where copies are protected again.
  lemma FullIsStuck(v: Start.Volume, cv: Conversion, last: nat, cut: bool)
    requires Start.Clean(v) && cv.cs == v.cs && 0 < v.cs && cv.conv.n == v.n && 0 < v.n && Full(v, last)
    requires Start.AllEndBy(cv.planner.chunks, last) && P.RESERVED <= last && last % P.STRIPE == 0
    requires forall x: nat :: Used(cv.conv.first, x, v.n) <==> Start.InUse(v, x)
    requires D.CarvedSoFar(cv.planner.chunks, cv.planner.spaces, v.device, v.bits, v.cs, Start.PlanOf(v),
                           v.device + P.DATA_CHUNK)
    requires D.Gridded(cv.planner.chunks, cv.planner.spaces, v.device, v.bits, v.cs, Start.PlanOf(v),
                       v.device + P.DATA_CHUNK)
    requires P.EvenLists(cv.planner.chunks, cv.planner.spaces, v.cs)
    ensures SB.OnlyBehind(cv, v.device, last, cut)
  {
    hide First, Index, Used, Start.Clean, Start.InUse, SB.FrontAsked, D.CarvedSoFar, D.Gridded, Even;
    hide LongBehind, P.EvenLists, Start.AllEndBy, LongStarts;
    CleanGeometry(v);
    GriddedStarts(v, cv.planner.chunks, cv.planner.spaces);
    FullHasNoSlots(v, cv.planner.chunks, cv.planner.spaces, last);
    FullHasRoomBehind(v, cv.planner.chunks, cv.planner.spaces, last);
    BootIsAsked(v, cv.conv.first, cut);
  }

  lemma GriddedStarts(v: Start.Volume, chunks: seq<P.Chunk>, spaces: seq<S.Space>)
    requires Start.Clean(v) && 0 < v.cs
    requires D.Gridded(chunks, spaces, v.device, v.bits, v.cs, Start.PlanOf(v), v.device + P.DATA_CHUNK)
    ensures LongStarts(spaces)
  {
    hide LongStarts, D.FromStretch, D.UsedIn, Start.Clean;
    Start.FirstIsUsed(v);
  }

  // The boot sector's cluster is in use and asked for.
  lemma BootIsAsked(v: Start.Volume, first: RunMap, cut: bool)
    requires Start.Clean(v) && 0 < v.cs && 0 < v.n && (Used(first, 0, v.n) <==> Start.InUse(v, 0))
    ensures 0 < SB.UsedAmong(SB.FrontAsked(v.device, cut, v.cs), first, v.n)
  {
    hide Used, SB.Stripes, SB.UsedAmong, Even, Index, First, Start.Clean, Start.InUse;
    CleanGeometry(v);
    var asked := SB.FrontAsked(v.device, cut, v.cs);
    SB.FrontHas(v.device, cut, v.cs, 0);
    Start.FirstIsNone(v.cs);
    assert 0 in asked;
    var i :| 0 <= i < |asked| && asked[i] == 0;
    SB.UsedNext(asked[..i], 0, first, v.n);
    SB.UsedMore(asked[..i] + [0], asked[i + 1..], first, v.n);
    assert asked == asked[..i] + [0] + asked[i + 1..];
    BootIsInUse(v);
  }

  lemma BootIsInUse(v: Start.Volume)
    requires Start.Clean(v) && 0 < v.cs
    ensures Start.InUse(v, 0)
  {
    hide Index;
    B.BeginsBefore(0, v.orig, v.cs);
  }

  // From the bitmap to the counts. It is done as `protect_superblocks` is: not on a volume that is full up to
  // its last chunk, and not when a used cluster behind that chunk is in a superblock's stripe.
  method Prepare(v: Start.Volume, disk: array<Cluster>) returns (cv: Conversion, o: Step, last: nat)
    requires Start.Clean(v) && disk.Length == B.ClustersIn(v.orig, v.cs)
    modifies disk
    ensures fresh(cv) && fresh(cv.conv) && fresh(cv.planner) && cv.cs == v.cs && cv.conv.n == v.n
    ensures cv.conv.disk == disk && cv.conv.d0 == old(disk[..])
    ensures forall x: nat :: Used(cv.conv.first, x, v.n) <==> Start.InUse(v, x)
    ensures o in {Done, NoSpace, PastEnd, Again}
    ensures o == Done ==> cv.Counting() && cv.counted == cv.conv.runs && cv.planner.charged == []
    ensures o == Done ==> forall c :: c in cv.planner.chunks ==> CountsRuns(c, cv.conv.runs, v.cs)
    ensures Start.LastEnd(v, last) && (Full(v, last) ==> o != Done)
    ensures SB.UsedTwice(v.device, last, v.orig != v.device, v.cs, cv.conv.first, v.n) ==> o != Done
  {
    hide Start.Clean, SB.UsedTwice, cv.Counting, cv.Protecting, OutsideProtected, CountsRuns, First, Index, Used;
    hide Start.InUse, Start.Reachable, Start.AllEndBy, SB.Lies, Start.Geometry, B.ClustersIn;
    hide Full, Start.LastEnd, SB.Enough, SB.OnlyBehind, D.CarvedSoFar, D.Gridded, P.EvenLists;
    CleanGeometry(v);
    cv, last := Start.Begin(v, disk);
    BeginningLies(v, cv, last);
    ghost var full := Full(v, last);
    if full {
      FullIsStuck(v, cv, last, v.orig != v.device);
    }
    o := SB.ProtectSuperblocks(cv, v.device, last, v.orig != v.device);
    if o == Done {
      var bound := KeyBound(cv.conv.runs);
      cv.CountUsed(bound);
    }
  }

  lemma CleanGeometry(v: Start.Volume)
    requires Start.Clean(v)
    ensures Start.Geometry(v) && 0 < v.n && 0 < v.cs
  {
  }

  // ----- a file's clusters -----

  // The cluster's place, where it was or where it was moved to, is no file's.
  predicate PlaceIsFree(runs: RunMap, relocs: seq<Reloc>, n: nat, x: nat)
    requires 0 < n
  {
    if HasReloc(relocs, x) then OwnerAt(runs, relocs[FindReloc(relocs, x)].new', n).inode == 0
    else OwnerAt(runs, x, n).inode == 0
  }

  predicate LcnsApart(ms: seq<M.Mapping>) {
    forall i, j :: 0 <= i < j < |ms| && 0 < ms[i].length && 0 < ms[j].length ==>
      ms[i].lcn + ms[i].length <= ms[j].lcn || ms[j].lcn + ms[j].length <= ms[i].lcn
  }

  // A sound file: its mappings are in order, none shares a cluster with another, and their clusters are in use
  // and no other file's.
  ghost predicate SoundFile(first: RunMap, runs: RunMap, relocs: seq<Reloc>, n: nat, ms: seq<M.Mapping>)
    requires 0 < n
  {
    && M.InOrder(ms) && LcnsApart(M.Mapped(ms))
    && forall m, x: nat :: m in M.Mapped(ms) && m.lcn <= x < m.lcn + m.length ==>
         Used(first, x, n) && PlaceIsFree(runs, relocs, n, x)
  }

  // Every cluster of the mapping is in a run that can be given to a file.
  ghost predicate Givable(runs: RunMap, n: nat, p: M.Mapping)
    requires 0 < n
  {
    forall y: nat :: p.lcn <= y < p.lcn + p.length ==>
      CoveredAt(runs, y, n) && MayGive(OwnerAt(runs, y, n)) && OwnerAt(runs, y, n).inode == 0
  }

  // The place of a used cluster that is no file's can be given.
  lemma PlaceIsGivable(runs: RunMap, relocs: seq<Reloc>, disk: seq<Cluster>, first: RunMap, d0: seq<Cluster>, n: nat,
                       x: nat, y: nat)
    requires 0 < n && Kept(runs, relocs, disk, first, d0, n) && NewDataOwned(runs)
    requires Used(first, x, n) && PlaceIsFree(runs, relocs, n, x) && M.Translated(relocs, x, y)
    ensures CoveredAt(runs, y, n) && MayGive(OwnerAt(runs, y, n)) && OwnerAt(runs, y, n).inode == 0
    ensures OwnerAt(runs, y, n).relocated <==> HasReloc(relocs, x)
    ensures if HasReloc(relocs, x) then y == relocs[FindReloc(relocs, x)].new' else y == x
  {
    hide RunsOk, AllUnits, CoveredAt, OwnerAt;
    assert UsedOk(x, runs, relocs, disk, d0, n);
    OldIsOld(runs, relocs, disk, first, d0, n, x);
    if HasReloc(relocs, x) {
      var r := relocs[FindReloc(relocs, x)];
      assert r in relocs && RelocOk(r, runs, disk, first, d0, n);
      MovesTo(runs, relocs, disk, first, d0, n, x, y);
      CopyIsNotNew(runs, n, y);
    }
  }

  lemma CopyIsNotNew(runs: RunMap, n: nat, y: nat)
    requires 0 < n && NewDataOwned(runs) && CoveredAt(runs, y, n) && OwnerAt(runs, y, n).relocated
    ensures !OwnerAt(runs, y, n).notInImg
  {
    var a := RoundTrip.EntryOf(ListOf(runs, Index(y, n)), y);
    assert Entry(runs, a);
  }

  // With relocations of one cluster each, a cluster is in the old part of one exactly when it was moved.
  lemma OldIsOld(runs: RunMap, relocs: seq<Reloc>, disk: seq<Cluster>, first: RunMap, d0: seq<Cluster>, n: nat, x: nat)
    requires 0 < n && Kept(runs, relocs, disk, first, d0, n)
    ensures M.InOld(relocs, x) <==> HasReloc(relocs, x)
    ensures M.OneClusterEach(relocs)
  {
    hide RunsOk, AllUnits, CoveredAt, OwnerAt;
    forall r | r in relocs
      ensures r.length == 1
    {
      assert RelocOk(r, runs, disk, first, d0, n);
    }
    if M.InOld(relocs, x) {
      var i :| 0 <= i < |relocs| && relocs[i].old' <= x < relocs[i].old' + relocs[i].length;
      assert relocs[i] in relocs && relocs[i].old' == x;
    }
    if HasReloc(relocs, x) {
      var i :| 0 <= i < |relocs| && relocs[i].old' == x;
      assert relocs[i] in relocs;
    }
  }

  lemma MovesTo(runs: RunMap, relocs: seq<Reloc>, disk: seq<Cluster>, first: RunMap, d0: seq<Cluster>, n: nat,
                x: nat, y: nat)
    requires 0 < n && Kept(runs, relocs, disk, first, d0, n) && HasReloc(relocs, x) && M.Moves(relocs, x, y)
    ensures y == relocs[FindReloc(relocs, x)].new'
  {
    hide RunsOk, AllUnits, CoveredAt, OwnerAt;
    OldIsOld(runs, relocs, disk, first, d0, n, x);
    var i :| 0 <= i < |relocs| && M.Carries(relocs[i], x, y);
    assert relocs[i] in relocs;
    SameReloc(relocs, i, FindReloc(relocs, x));
  }

  // Two clusters with the same place are the same.
  lemma PlacesDiffer(runs: RunMap, relocs: seq<Reloc>, disk: seq<Cluster>, first: RunMap, d0: seq<Cluster>, n: nat,
                     x: nat, z: nat, y: nat)
    requires 0 < n && Kept(runs, relocs, disk, first, d0, n) && NewDataOwned(runs)
    requires Used(first, x, n) && PlaceIsFree(runs, relocs, n, x) && M.Translated(relocs, x, y)
    requires Used(first, z, n) && PlaceIsFree(runs, relocs, n, z) && M.Translated(relocs, z, y)
    ensures x == z
  {
    hide Kept, PlaceIsFree, M.Translated, Used, CoveredAt, OwnerAt, NewDataOwned;
    PlaceIsGivable(runs, relocs, disk, first, d0, n, x, y);
    PlaceIsGivable(runs, relocs, disk, first, d0, n, z, y);
    if HasReloc(relocs, x) {
      KeptDistinct(runs, relocs, disk, first, d0, n);
      SameReloc(relocs, FindReloc(relocs, x), FindReloc(relocs, z));
    }
  }

  lemma KeptDistinct(runs: RunMap, relocs: seq<Reloc>, disk: seq<Cluster>, first: RunMap, d0: seq<Cluster>, n: nat)
    requires 0 < n && Kept(runs, relocs, disk, first, d0, n)
    ensures DistinctRelocs(relocs)
  {
  }

  lemma MovedIsNoCopy(runs: RunMap, relocs: seq<Reloc>, disk: seq<Cluster>, first: RunMap, d0: seq<Cluster>, n: nat,
                      y: nat)
    requires 0 < n && Kept(runs, relocs, disk, first, d0, n)
    ensures HasReloc(relocs, y) ==> !OwnerAt(runs, y, n).relocated
  {
    hide RunsOk, AllUnits, CoveredAt, OwnerAt;
    if HasReloc(relocs, y) {
      var r := relocs[FindReloc(relocs, y)];
      assert r in relocs && RelocOk(r, runs, disk, first, d0, n);
      assert UsedOk(y, runs, relocs, disk, d0, n);
    }
  }

  // Nothing is moved to a place that something is moved from.
  lemma RelocsAreApart(runs: RunMap, relocs: seq<Reloc>, disk: seq<Cluster>, first: RunMap, d0: seq<Cluster>, n: nat)
    requires 0 < n && Kept(runs, relocs, disk, first, d0, n)
    ensures M.Apart(relocs) && M.OneClusterEach(relocs)
  {
    hide Kept, OwnerAt, M.InOld, HasReloc;
    OldIsOld(runs, relocs, disk, first, d0, n, 0);
    forall x: nat, y: nat | M.Moves(relocs, x, y)
      ensures !M.InOld(relocs, y)
    {
      var i :| 0 <= i < |relocs| && M.Carries(relocs[i], x, y);
      assert relocs[i] in relocs;
      CopyIsRelocated(runs, relocs, disk, first, d0, n, relocs[i]);
      OldIsOld(runs, relocs, disk, first, d0, n, y);
      MovedIsNoCopy(runs, relocs, disk, first, d0, n, y);
    }
  }

  lemma CopyIsRelocated(runs: RunMap, relocs: seq<Reloc>, disk: seq<Cluster>, first: RunMap, d0: seq<Cluster>,
                        n: nat, r: Reloc)
    requires 0 < n && Kept(runs, relocs, disk, first, d0, n) && r in relocs
    ensures OwnerAt(runs, r.new', n).relocated
  {
    hide RunsOk, AllUnits, CoveredAt, OwnerAt;
    assert RelocOk(r, runs, disk, first, d0, n);
  }

  // Where a cluster of a rewritten mapping was.
  lemma OriginOf(ms: seq<M.Mapping>, relocs: seq<Reloc>, maps: seq<M.Mapping>, p: M.Mapping, y: nat)
    returns (m: M.Mapping, x: nat)
    requires M.Rewritten(ms, relocs, maps) && p in maps && p.lcn <= y < p.lcn + p.length
    ensures m in ms && m.lcn <= x < m.lcn + m.length && M.Translated(relocs, x, y)
    ensures m.HasVcn(p.vcn + (y - p.lcn)) && x == m.lcn + (p.vcn + (y - p.lcn) - m.vcn)
  {
    hide M.InOrder, M.HasVcn, M.Translated;
    var v := p.vcn + (y - p.lcn);
    assert p.HasVcn(v) && M.Lands(ms, relocs, v, y);
    m :| m in ms && m.HasVcn(v) && M.Translated(relocs, m.lcn + (v - m.vcn), y);
    x := m.lcn + (v - m.vcn);
  }

  lemma AllGivable(runs: RunMap, relocs: seq<Reloc>, disk: seq<Cluster>, first: RunMap, d0: seq<Cluster>, n: nat,
                   ms: seq<M.Mapping>, maps: seq<M.Mapping>)
    requires 0 < n && Kept(runs, relocs, disk, first, d0, n) && NewDataOwned(runs)
    requires SoundFile(first, runs, relocs, n, ms) && M.Rewritten(M.Mapped(ms), relocs, maps)
    ensures forall p :: p in maps ==> Givable(runs, n, p)
  {
    hide Kept, NewDataOwned, M.Rewritten, PlaceIsFree, Used, CoveredAt, OwnerAt, MayGive, M.Translated;
    forall p, y: nat | p in maps && p.lcn <= y < p.lcn + p.length
      ensures CoveredAt(runs, y, n) && MayGive(OwnerAt(runs, y, n)) && OwnerAt(runs, y, n).inode == 0
    {
      var m, x := OriginOf(M.Mapped(ms), relocs, maps, p, y);
      PlaceIsGivable(runs, relocs, disk, first, d0, n, x, y);
    }
  }

  // The rewritten mappings share no clusters.
  lemma MapsApart(runs: RunMap, relocs: seq<Reloc>, disk: seq<Cluster>, first: RunMap, d0: seq<Cluster>, n: nat,
                  ms: seq<M.Mapping>, maps: seq<M.Mapping>)
    requires 0 < n && Kept(runs, relocs, disk, first, d0, n) && NewDataOwned(runs)
    requires SoundFile(first, runs, relocs, n, ms) && M.Rewritten(M.Mapped(ms), relocs, maps)
    ensures LcnsApart(maps)
  {
    hide Kept, NewDataOwned, SoundFile, M.Rewritten;
    forall i, j | 0 <= i < j < |maps| && 0 < maps[i].length && 0 < maps[j].length
      ensures maps[i].lcn + maps[i].length <= maps[j].lcn || maps[j].lcn + maps[j].length <= maps[i].lcn
    {
      var p, q := maps[i], maps[j];
      if p.lcn < q.lcn + q.length && q.lcn < p.lcn + p.length {
        var y := if p.lcn < q.lcn then q.lcn else p.lcn;
        OriginsDiffer(runs, relocs, disk, first, d0, n, ms, maps, i, j, y);
      }
    }
  }

  lemma OriginsDiffer(runs: RunMap, relocs: seq<Reloc>, disk: seq<Cluster>, first: RunMap, d0: seq<Cluster>, n: nat,
                      ms: seq<M.Mapping>, maps: seq<M.Mapping>, i: nat, j: nat, y: nat)
    requires 0 < n && Kept(runs, relocs, disk, first, d0, n) && NewDataOwned(runs)
    requires SoundFile(first, runs, relocs, n, ms) && M.Rewritten(M.Mapped(ms), relocs, maps) && i < j < |maps|
    ensures !(maps[i].lcn <= y < maps[i].lcn + maps[i].length && maps[j].lcn <= y < maps[j].lcn + maps[j].length)
  {
    hide Kept, NewDataOwned, PlaceIsFree, Used, M.Translated;
    var p, q, mapped := maps[i], maps[j], M.Mapped(ms);
    if p.lcn <= y < p.lcn + p.length && q.lcn <= y < q.lcn + q.length {
      var m, x := OriginOf(mapped, relocs, maps, p, y);
      var m', x' := OriginOf(mapped, relocs, maps, q, y);
      PlacesDiffer(runs, relocs, disk, first, d0, n, x, x', y);
      SameMapping(mapped, m, m', x);
      assert false;
    }
  }

  lemma SameMapping(ms: seq<M.Mapping>, a: M.Mapping, b: M.Mapping, x: nat)
    requires LcnsApart(ms) && a in ms && b in ms && a.lcn <= x < a.lcn + a.length && b.lcn <= x < b.lcn + b.length
    ensures a == b
  {
    var i :| 0 <= i < |ms| && ms[i] == a;
    var j :| 0 <= j < |ms| && ms[j] == b;
  }

  // Giving one mapping's clusters away leaves another's as they were.
  lemma OthersStayGivable(runs: RunMap, runs': RunMap, n: nat, p: M.Mapping, q: M.Mapping, inode: nat, vcn: nat)
    requires 0 < n && Given(runs, runs', n, p.lcn, p.lcn + p.length, inode, vcn) && Givable(runs, n, q)
    requires p.lcn + p.length <= q.lcn || q.lcn + q.length <= p.lcn
    ensures Givable(runs', n, q)
  {
    hide CoveredAt, OwnerAt, SameRun;
  }

  // The extents a file gets for its mappings.
  ghost function ExtentsFor(inode: nat, maps: seq<M.Mapping>): set<FileExtent> {
    set m | m in maps :: FileExtent(inode, m.vcn, m.lcn, m.length)
  }

  lemma ExtentsNext(inode: nat, maps: seq<M.Mapping>, m: M.Mapping)
    ensures ExtentsFor(inode, maps + [m]) == ExtentsFor(inode, maps) + {FileExtent(inode, m.vcn, m.lcn, m.length)}
  {
    forall f
      ensures f in ExtentsFor(inode, maps + [m])
         <==> f in ExtentsFor(inode, maps) || f == FileExtent(inode, m.vcn, m.lcn, m.length)
    {
      assert m in maps + [m] && forall q :: q in maps ==> q in maps + [m];
    }
  }

  lemma OneChunkFits(p: M.Mapping, n: nat)
    requires 0 < n && M.OneChunk(p, n)
    ensures 0 < p.length <= n - Rem(p.lcn, n)
  {
    IndexBounds(p.lcn, n);
    IndexBounds(p.lcn + p.length - 1, n);
  }

  lemma GivableIsTouched(runs: RunMap, n: nat, p: M.Mapping)
    requires 0 < n && 0 < p.length && Givable(runs, n, p)
    ensures Touched(runs, n, p.lcn, p.lcn + p.length)
  {
    hide CoveredAt, OwnerAt;
    assert CoveredAt(runs, p.lcn, n);
  }

  // A rewritten mapping's clusters are in one run.
  lemma SteadyCanBeGiven(runs: RunMap, relocs: seq<Reloc>, disk: seq<Cluster>, first: RunMap, d0: seq<Cluster>, n: nat,
                         ms: seq<M.Mapping>, p: M.Mapping)
    requires 0 < n && Kept(runs, relocs, disk, first, d0, n) && Givable(runs, n, p) && M.Steady(p, M.Mapped(ms))
    requires MappedAreUsed(first, n, ms)
    ensures CanGive(runs, n, p.lcn, p.length)
  {
    hide RunsOk, AllUnits, CoveredAt, OwnerAt, M.Mapped;
    if p.length != 1 {
      var m :| m in M.Mapped(ms) && M.PartOf(p, m) && p.lcn == M.Origin(p, m);
      forall y: nat | p.lcn <= y < p.lcn + p.length
        ensures Loose(OwnerAt(runs, y, n))
      {
        assert m.lcn <= y < m.lcn + m.length && Used(first, y, n);
        assert UsedOk(y, runs, relocs, disk, d0, n);
      }
    }
  }

  lemma SteadyAt(maps: seq<M.Mapping>, ms: seq<M.Mapping>, i: nat)
    requires M.AllSteady(maps, ms) && i < |maps|
    ensures M.Steady(maps[i], ms)
  {
    assert maps[i] in maps;
  }

  // `process_mappings`, with the owners it records, and the file's extents: runs and extents stay in step, and the
  // clusters of each mapping are found in one run.
  method ProcessFile(cv: Conversion, ms: seq<M.Mapping>, inode: nat) returns (maps: seq<M.Mapping>)
    requires cv.Counting() && 0 < cv.conv.n && inode != 0 && inode != DUMMY
    requires SoundFile(cv.conv.first, cv.conv.runs, cv.conv.relocs, cv.conv.n, ms)
    modifies cv.conv`runs, cv`files
    ensures M.Rewritten(M.Mapped(ms), cv.conv.relocs, maps) && M.InChunks(maps, cv.conv.n)
    ensures cv.Counting() && cv.files == old(cv.files) + ExtentsFor(inode, maps)
  {
    hide Kept, SoundFile, M.Rewritten, M.Apart, M.InChunks, M.OneClusterEach, NewDataOwned, Givable, LcnsApart, Given;
    hide Touched, MayGive, M.OneChunk, OwnerAt, CoveredAt, FilesMatch, M.AllSteady, M.Steady, MappedAreUsed, CanGive;
    hide AllJoined;
    var now;
    FileFacts(cv, ms);
    ghost var n, relocs, first, d0, disk := cv.conv.n, cv.conv.relocs, cv.conv.first, cv.conv.d0, cv.conv.disk[..];
    RelocsAreApart(cv.conv.runs, relocs, disk, first, d0, n);
    SoundIsUsed(first, cv.conv.runs, relocs, n, ms);
    now, maps := M.ProcessMappings(ms, cv.conv.relocs, cv.conv.n);
    AllGivable(cv.conv.runs, relocs, disk, first, d0, n, ms, maps);
    MapsApart(cv.conv.runs, relocs, disk, first, d0, n, ms, maps);
    var i: nat := 0;
    assert cv.files + ExtentsFor(inode, maps[..0]) == cv.files;
    while i < |maps|
      invariant i <= |maps| && cv.Counting() && cv.conv.relocs == relocs
      invariant forall j :: i <= j < |maps| ==> Givable(cv.conv.runs, n, maps[j])
      invariant cv.files == old(cv.files) + ExtentsFor(inode, maps[..i])
    {
      hide cv.Counting;
      var m := maps[i];
      ghost var runs := cv.conv.runs;
      InChunkAt(maps, i, n);
      OneChunkFits(m, n);
      GivableIsTouched(runs, n, m);
      GivableIs(runs, n, m);
      ConverterIs(cv);
      SteadyAt(maps, M.Mapped(ms), i);
      SteadyCanBeGiven(runs, relocs, cv.conv.disk[..], first, cv.conv.d0, n, ms, m);
      var ok := cv.Give(m.lcn, m.length, inode, m.vcn);
      forall j | i < j < |maps|
        ensures Givable(cv.conv.runs, n, maps[j])
      {
        MapsApartAt(maps, i, j, n);
        OthersStayGivable(runs, cv.conv.runs, n, m, maps[j], inode, m.vcn);
      }
      assert maps[..i + 1] == maps[..i] + [m];
      ExtentsNext(inode, maps[..i], m);
      i := i + 1;
    }
    assert maps[..i] == maps;
  }

  lemma FileFacts(cv: Conversion, ms: seq<M.Mapping>)
    requires cv.Counting() && 0 < cv.conv.n && SoundFile(cv.conv.first, cv.conv.runs, cv.conv.relocs, cv.conv.n, ms)
    ensures M.InOrder(ms) && NewDataOwned(cv.conv.runs)
    ensures Kept(cv.conv.runs, cv.conv.relocs, cv.conv.disk[..], cv.conv.first, cv.conv.d0, cv.conv.n)
  {
  }

  lemma InChunkAt(maps: seq<M.Mapping>, i: nat, n: nat)
    requires 0 < n && M.InChunks(maps, n) && i < |maps|
    ensures M.OneChunk(maps[i], n)
  {
    assert maps[i] in maps;
  }

  lemma GivableIs(runs: RunMap, n: nat, p: M.Mapping)
    requires 0 < n && Givable(runs, n, p)
    ensures forall x: nat :: p.lcn <= x < p.lcn + p.length && CoveredAt(runs, x, n) ==>
      MayGive(OwnerAt(runs, x, n)) && OwnerAt(runs, x, n).inode == 0
  {
    hide CoveredAt, OwnerAt;
  }

  lemma MapsApartAt(maps: seq<M.Mapping>, i: nat, j: nat, n: nat)
    requires 0 < n && LcnsApart(maps) && M.InChunks(maps, n) && i < j < |maps|
    ensures maps[i].lcn + maps[i].length <= maps[j].lcn || maps[j].lcn + maps[j].length <= maps[i].lcn
  {
    InChunkAt(maps, i, n);
    InChunkAt(maps, j, n);
  }

  // ----- beyond its valid data -----

  // What becomes of a file. `NoTail` and `Stray` when its valid data ends inside a cluster that is not mapped: for
  // want of any mapping, or in a sparse part of the file, and then the write that follows goes to `cluster` of the
  // device.
  datatype FileStep = Added | NoTail | Stray(cluster: nat)

  // Valid data ends inside its last cluster.
  predicate EndsInside(vdl: nat, size: nat, cs: nat)
    requires 0 < cs
  {
    vdl < size && Rem(vdl, cs) != 0
  }

  // Cluster `v` of the file was at `o` on the old volume.
  ghost predicate WasAt(ms: seq<M.Mapping>, v: nat, o: nat) {
    exists m :: m in ms && m.HasVcn(v) && o == m.lcn + (v - m.vcn)
  }

  // The rewritten mappings reach up to the file's cluster `v` exactly when the one before it is mapped.
  lemma ReachesEnd(ms: seq<M.Mapping>, relocs: seq<Reloc>, maps: seq<M.Mapping>, v: nat)
    requires M.Rewritten(ms, relocs, maps) && M.EndBy(ms, v)
    ensures V.EndOf(maps) <= v && (0 < v ==> (V.EndOf(maps) == v <==> M.HasVcn(ms, v - 1)))
  {
    hide M.Lands;
    assert 0 < v ==> (M.HasVcn(maps, v - 1) <==> M.HasVcn(ms, v - 1));
    if maps != [] {
      var last := maps[|maps| - 1];
      assert last.HasVcn(V.EndOf(maps) - 1) && M.HasVcn(maps, V.EndOf(maps) - 1);
      var i :| 0 <= i < |ms| && ms[i].HasVcn(V.EndOf(maps) - 1);
      if 0 < v && M.HasVcn(ms, v - 1) {
        var j :| 0 <= j < |maps| && maps[j].HasVcn(v - 1);
      }
    }
  }

  // The content of the last cluster is that of the file's last cluster on the old volume.
  lemma LastIsOld(runs: RunMap, relocs: seq<Reloc>, disk: seq<Cluster>, first: RunMap, d0: seq<Cluster>, n: nat,
                  ms: seq<M.Mapping>, maps: seq<M.Mapping>)
    requires 0 < n && Kept(runs, relocs, disk, first, d0, n) && M.Rewritten(ms, relocs, maps) && maps != []
    requires forall m, x: nat :: m in ms && m.lcn <= x < m.lcn + m.length ==> Used(first, x, n)
    ensures var last := maps[|maps| - 1]; var x := last.lcn + last.length - 1;
      && x < |disk| && HoldsOld(relocs, first, n, x) && WasAt(ms, V.EndOf(maps) - 1, OldOf(relocs, x))
  {
    hide Kept, Used, M.Translated;
    var last := maps[|maps| - 1];
    var x := last.lcn + last.length - 1;
    var m, o := OriginOf(ms, relocs, maps, last, x);
    PlaceIsOld(runs, relocs, disk, first, d0, n, o, x);
  }

  lemma PlaceIsOld(runs: RunMap, relocs: seq<Reloc>, disk: seq<Cluster>, first: RunMap, d0: seq<Cluster>, n: nat,
                   o: nat, x: nat)
    requires 0 < n && Kept(runs, relocs, disk, first, d0, n) && Used(first, o, n) && M.Translated(relocs, o, x)
    ensures x < |disk| && HoldsOld(relocs, first, n, x) && OldOf(relocs, x) == o
  {
    hide RunsOk, AllUnits, CoveredAt, OwnerAt;
    OldIsOld(runs, relocs, disk, first, d0, n, o);
    assert UsedOk(o, runs, relocs, disk, d0, n);
    if HasReloc(relocs, o) {
      MovesTo(runs, relocs, disk, first, d0, n, o, x);
      var i := FindReloc(relocs, o);
      assert relocs[i] in relocs && RelocOk(relocs[i], runs, disk, first, d0, n);
      FoundNew(relocs, i);
    } else {
      CopyIsNotUsed(runs, relocs, disk, first, d0, n, x);
    }
  }

  lemma FoundNew(relocs: seq<Reloc>, i: nat)
    requires DistinctRelocs(relocs) && i < |relocs|
    ensures HasNew(relocs, relocs[i].new') && FindNew(relocs, relocs[i].new') == i
  {
  }

  lemma CopyIsNotUsed(runs: RunMap, relocs: seq<Reloc>, disk: seq<Cluster>, first: RunMap, d0: seq<Cluster>, n: nat,
                      x: nat)
    requires 0 < n && Kept(runs, relocs, disk, first, d0, n)
    ensures HasNew(relocs, x) ==> !Used(first, x, n)
  {
    hide RunsOk, AllUnits, CoveredAt, OwnerAt;
    if HasNew(relocs, x) {
      var r := relocs[FindNew(relocs, x)];
      assert r in relocs && RelocOk(r, runs, disk, first, d0, n);
    }
  }

  // Copies are not at the device's first cluster, so no mapping of the file comes to look sparse.
  lemma NoneIsSparse(ms: seq<M.Mapping>, relocs: seq<Reloc>, maps: seq<M.Mapping>)
    requires M.Rewritten(M.Mapped(ms), relocs, maps) && !HasNew(relocs, 0) && M.OneClusterEach(relocs)
    ensures forall p :: p in maps ==> !M.Sparse(p)
  {
    hide M.InOrder;
    forall p | p in maps
      ensures !M.Sparse(p)
    {
      var i :| 0 <= i < |maps| && maps[i] == p;
      RewrittenInOrder(M.Mapped(ms), relocs, maps, i);
      var m, x := OriginOf(M.Mapped(ms), relocs, maps, p, p.lcn);
      M.MappedHas(ms, m);
      if M.InOld(relocs, x) {
        var j :| 0 <= j < |relocs| && M.Carries(relocs[j], x, p.lcn);
        assert relocs[j] in relocs && relocs[j].new' == p.lcn;
      }
    }
  }

  lemma RewrittenInOrder(ms: seq<M.Mapping>, relocs: seq<Reloc>, maps: seq<M.Mapping>, i: nat)
    requires M.Rewritten(ms, relocs, maps) && i < |maps|
    ensures 0 < maps[i].length
  {
  }

  lemma NoCopyAtZero(cv: Conversion)
    requires cv.Counting() && 0 < cv.conv.n
    ensures !HasNew(cv.conv.relocs, 0)
  {
    hide Kept, FilesMatch, NewDataOwned, OutsideProtected, P.Accounted;
    Start.FirstIsNone(cv.cs);
    forall i | 0 <= i < |cv.conv.relocs|
      ensures cv.conv.relocs[i].new' != 0
    {
      assert cv.conv.relocs[i] in cv.conv.relocs;
    }
  }

  lemma {:induction false} AllAreMapped(maps: seq<M.Mapping>)
    requires forall p :: p in maps ==> !M.Sparse(p)
    ensures M.Mapped(maps) == maps
    decreases |maps|
  {
    if maps != [] {
      AllAreMapped(maps[..|maps| - 1]);
    }
  }

  // The filling is sparse, and no extent.
  lemma FillingIsSparse(maps: seq<M.Mapping>, v: nat)
    requires forall p :: p in maps ==> !M.Sparse(p)
    ensures M.Mapped(maps + V.Filling(maps, v)) == maps
  {
    AllAreMapped(maps);
    var all := maps + V.Filling(maps, v);
    if V.Filling(maps, v) != [] {
      assert all[..|all| - 1] == maps && M.Sparse(all[|all| - 1]);
    } else {
      assert all == maps;
    }
  }

  ghost predicate MappedAreUsed(first: RunMap, n: nat, ms: seq<M.Mapping>)
    requires 0 < n
  {
    forall m, x: nat :: m in M.Mapped(ms) && m.lcn <= x < m.lcn + m.length ==> Used(first, x, n)
  }

  lemma SoundIsUsed(first: RunMap, runs: RunMap, relocs: seq<Reloc>, n: nat, ms: seq<M.Mapping>)
    requires 0 < n && SoundFile(first, runs, relocs, n, ms)
    ensures MappedAreUsed(first, n, ms)
  {
    hide Used, PlaceIsFree;
  }

  // Of the old volume, the file's last cluster has been zeroed from the end of its valid data on.
  ghost predicate TailZeroed(d: seq<Cluster>, d': seq<Cluster>, ms: seq<M.Mapping>, vdl: nat, cs: nat)
    requires 0 < cs
  {
    exists o: nat :: o < |d| == |d'| && WasAt(M.Mapped(ms), Index(vdl, cs), o)
      && d' == d[o := d'[o]] && V.SectorZeroed(d[o], d'[o], Rem(vdl, cs))
  }

  // The cluster in which its valid data ends is mapped, if it ends inside one.
  predicate TailIsMapped(ms: seq<M.Mapping>, vdl: nat, size: nat, cs: nat)
    requires 0 < cs
  {
    EndsInside(vdl, size, cs) ==> M.HasVcn(M.Mapped(ms), Index(vdl, cs))
  }

  lemma EndsInSome(vdl: nat, cs: nat)
    requires 0 < cs && Rem(vdl, cs) != 0
    ensures B.ClustersIn(vdl, cs) == Index(vdl, cs) + 1
  {
    hide First;
    var i := Index(vdl, cs);
    IndexBounds(vdl, cs);
    Start.JumpFirst(i, cs);
    B.BeginsBefore(i, vdl, cs);
    B.BeginsBefore(i + 1, vdl, cs);
  }

  // The sector in which the valid data ends is zeroed from there on, in the last cluster of the last mapping.
  method ZeroTail(cv: Conversion, ms: seq<M.Mapping>, maps: seq<M.Mapping>, vdl: nat)
    requires cv.Counting() && 0 < cv.conv.n && 0 < cv.cs && Rem(vdl, cv.cs) != 0 && maps != []
    requires M.Rewritten(M.Mapped(ms), cv.conv.relocs, maps) && V.EndOf(maps) == B.ClustersIn(vdl, cv.cs)
    requires MappedAreUsed(cv.conv.first, cv.conv.n, ms)
    modifies cv.conv`d0, cv.conv.disk
    ensures cv.Counting() && TailZeroed(old(cv.conv.d0), cv.conv.d0, ms, vdl, cv.cs)
  {
    hide Kept, M.Rewritten, HoldsOld, WasAt, Index, First, B.ClustersIn, Used, V.Zeroed, V.SectorEnd, cv.Counting;
    hide V.SectorZeroed;
    ConverterIs(cv);
    EndsInSome(vdl, cv.cs);
    LastIsOld(cv.conv.runs, cv.conv.relocs, cv.conv.disk[..], cv.conv.first, cv.conv.d0, cv.conv.n, M.Mapped(ms), maps);
    var last := maps[|maps| - 1];
    var x := last.lcn + last.length - 1;
    V.ZeroedToSectorEnd(cv.conv.disk[x], vdl, cv.cs);
    cv.Change(x, V.Zeroed(cv.conv.disk[x], Rem(vdl, cv.cs), V.SectorEnd(vdl, cv.cs)));
  }

  lemma ConverterIs(cv: Conversion)
    requires cv.Counting()
    ensures 0 < cv.conv.n && 0 < cv.cs
    ensures Kept(cv.conv.runs, cv.conv.relocs, cv.conv.disk[..], cv.conv.first, cv.conv.d0, cv.conv.n)
  {
  }

  // Each of the file's clusters that is mapped is in one of its extents, which has it where it was on the old volume
  // or, if that place was protected, where the copy is.
  ghost predicate Reads(files: set<FileExtent>, inode: nat, ms: seq<M.Mapping>, relocs: seq<Reloc>) {
    forall v: nat :: M.HasVcn(M.Mapped(ms), v) ==> ReadsAt(files, inode, ms, relocs, v)
  }

  ghost predicate ReadsAt(files: set<FileExtent>, inode: nat, ms: seq<M.Mapping>, relocs: seq<Reloc>, v: nat) {
    exists f :: f in files && f.inode == inode && f.vcn <= v < f.vcn + f.len
                && M.Lands(M.Mapped(ms), relocs, v, f.lcn + (v - f.vcn))
  }

  lemma ReadsNow(files: set<FileExtent>, inode: nat, ms: seq<M.Mapping>, relocs: seq<Reloc>, maps: seq<M.Mapping>)
    requires ExtentsFor(inode, maps) <= files && M.Rewritten(M.Mapped(ms), relocs, maps)
    ensures Reads(files, inode, ms, relocs)
  {
    hide M.Lands, M.InOrder;
    forall v: nat | M.HasVcn(M.Mapped(ms), v)
      ensures ReadsAt(files, inode, ms, relocs, v)
    {
      assert M.HasVcn(maps, v);
      var i :| 0 <= i < |maps| && maps[i].HasVcn(v);
      var p := maps[i];
      assert p in maps;
      assert FileExtent(inode, p.vcn, p.lcn, p.length) in files;
    }
  }

  // A file that is not compressed, from its mappings to its extents. They are those of the rewritten mappings,
  // whatever is beyond its valid data; and of the old volume at most its own last cluster is changed.
  method AddFile(cv: Conversion, ms: seq<M.Mapping>, inode: nat, vdl: nat, size: nat)
    returns (o: FileStep, maps: seq<M.Mapping>)
    requires cv.Counting() && 0 < cv.conv.n && 0 < cv.cs && inode != 0 && inode != DUMMY
    requires SoundFile(cv.conv.first, cv.conv.runs, cv.conv.relocs, cv.conv.n, ms)
    requires M.EndBy(M.Mapped(ms), B.ClustersIn(vdl, cv.cs))
    modifies cv.conv`runs, cv.conv`d0, cv.conv.disk, cv`files
    ensures cv.Counting() && (o == Added <==> TailIsMapped(ms, vdl, size, cv.cs))
    ensures o.Stray? ==> o.cluster == B.ClustersIn(vdl, cv.cs) - V.EndOf(M.Mapped(maps)) - 1
    ensures o == Added ==> cv.files == old(cv.files) + ExtentsFor(inode, M.Mapped(maps))
    ensures o == Added ==> M.Rewritten(M.Mapped(ms), cv.conv.relocs, M.Mapped(maps))
    ensures o == Added ==> Reads(cv.files, inode, ms, cv.conv.relocs)
    ensures o == Added ==> if EndsInside(vdl, size, cv.cs) then TailZeroed(old(cv.conv.d0), cv.conv.d0, ms, vdl, cv.cs)
                           else cv.conv.d0 == old(cv.conv.d0)
  {
    hide Kept, SoundFile, M.Rewritten, M.OneClusterEach, M.InChunks, M.Apart, B.ClustersIn, M.EndBy, Used, M.HasVcn;
    hide cv.Counting, First, TailZeroed, ExtentsFor, LcnsApart, Reads;
    ConverterIs(cv);
    ghost var relocs, first, n, v := cv.conv.relocs, cv.conv.first, cv.conv.n, B.ClustersIn(vdl, cv.cs);
    RelocsAreApart(cv.conv.runs, relocs, cv.conv.disk[..], first, cv.conv.d0, n);
    SoundIsUsed(first, cv.conv.runs, relocs, n, ms);
    maps := ProcessFile(cv, ms, inode);
    ReadsNow(cv.files, inode, ms, relocs, maps);
    o, maps := FinishFile(cv, ms, maps, vdl, size);
  }

  // What is beyond the valid data of a file whose mappings have been rewritten to `given`.
  method FinishFile(cv: Conversion, ms: seq<M.Mapping>, given: seq<M.Mapping>, vdl: nat, size: nat)
    returns (o: FileStep, maps: seq<M.Mapping>)
    requires cv.Counting() && 0 < cv.conv.n && 0 < cv.cs
    requires M.Rewritten(M.Mapped(ms), cv.conv.relocs, given) && M.OneClusterEach(cv.conv.relocs)
    requires MappedAreUsed(cv.conv.first, cv.conv.n, ms)
    requires M.EndBy(M.Mapped(ms), B.ClustersIn(vdl, cv.cs))
    modifies cv.conv`d0, cv.conv.disk
    ensures cv.Counting() && (o == Added <==> TailIsMapped(ms, vdl, size, cv.cs))
    ensures M.Mapped(maps) == given && (o == NoTail <==> !TailIsMapped(ms, vdl, size, cv.cs) && given == [])
    ensures o.Stray? ==> o.cluster == B.ClustersIn(vdl, cv.cs) - V.EndOf(given) - 1
    ensures o == Added ==> if EndsInside(vdl, size, cv.cs) then TailZeroed(old(cv.conv.d0), cv.conv.d0, ms, vdl, cv.cs)
                           else cv.conv.d0 == old(cv.conv.d0)
  {
    hide M.Rewritten, M.OneClusterEach, B.ClustersIn, M.EndBy, Used, M.HasVcn, cv.Counting, First, TailZeroed;
    hide TailIsMapped, M.Sparse, V.EndOf, V.Filling, Index, M.InOrder;
    NoCopyAtZero(cv);
    NoneIsSparse(ms, cv.conv.relocs, given);
    AllAreMapped(given);
    o, maps := Added, given;
    if vdl < size {
      RewrittenOrder(M.Mapped(ms), cv.conv.relocs, given);
      EndsByValid(ms, cv.conv.relocs, given, B.ClustersIn(vdl, cv.cs));
      var t;
      maps, t := V.TailOf(given, vdl, size, cv.cs);
      TailCases(ms, cv.conv.relocs, given, maps, t, vdl, size, cv.cs);
      if t.Missing? {
        o := NoTail;
      } else if t.At? {
        if M.Sparse(maps[|maps| - 1]) {
          o := Stray(t.cluster);
        } else {
          ZeroTail(cv, ms, maps, vdl);
        }
      }
    } else {
      NoTailIsMapped(ms, vdl, size, cv.cs);
    }
  }

  lemma NoTailIsMapped(ms: seq<M.Mapping>, vdl: nat, size: nat, cs: nat)
    requires 0 < cs && size <= vdl
    ensures TailIsMapped(ms, vdl, size, cs)
  {
  }

  lemma EndsByValid(ms: seq<M.Mapping>, relocs: seq<Reloc>, given: seq<M.Mapping>, v: nat)
    requires M.Rewritten(M.Mapped(ms), relocs, given) && M.EndBy(M.Mapped(ms), v)
    ensures V.EndOf(given) <= v
  {
    ReachesEnd(M.Mapped(ms), relocs, given, v);
  }

  // Where the valid data ends, once the mappings have been cut there.
  lemma TailCases(ms: seq<M.Mapping>, relocs: seq<Reloc>, given: seq<M.Mapping>, maps: seq<M.Mapping>, t: V.Tail,
                  vdl: nat, size: nat, cs: nat)
    requires M.Rewritten(M.Mapped(ms), relocs, given) && 0 < cs && vdl < size
    requires M.EndBy(M.Mapped(ms), B.ClustersIn(vdl, cs)) && forall p :: p in given ==> !M.Sparse(p)
    requires maps == given + V.Filling(given, B.ClustersIn(vdl, cs)) && (t == V.Whole <==> Rem(vdl, cs) == 0)
    requires (t == V.Missing <==> Rem(vdl, cs) != 0 && given == []) && (t.At? ==> given != [])
    ensures M.Mapped(maps) == given
    ensures t == V.Whole ==> TailIsMapped(ms, vdl, size, cs)
    ensures t == V.Missing ==> !TailIsMapped(ms, vdl, size, cs)
    ensures t.At? ==> maps != [] && (M.Sparse(maps[|maps| - 1]) <==> !TailIsMapped(ms, vdl, size, cs))
    ensures t.At? && TailIsMapped(ms, vdl, size, cs) ==> maps == given && V.EndOf(maps) == B.ClustersIn(vdl, cs)
    ensures t.At? && !TailIsMapped(ms, vdl, size, cs) ==> given != [] && V.EndOf(given) != B.ClustersIn(vdl, cs)
  {
    hide M.Rewritten, M.EndBy, M.HasVcn, B.ClustersIn, Index, First;
    var v := B.ClustersIn(vdl, cs);
    FillingIsSparse(given, v);
    ReachesEnd(M.Mapped(ms), relocs, given, v);
    if Rem(vdl, cs) != 0 {
      EndsInSome(vdl, cs);
      assert TailIsMapped(ms, vdl, size, cs) <==> V.EndOf(given) == v;
      assert V.EndOf(given) == v ==> maps == given;
    }
  }

  lemma RewrittenOrder(ms: seq<M.Mapping>, relocs: seq<Reloc>, maps: seq<M.Mapping>)
    requires M.Rewritten(ms, relocs, maps)
    ensures M.InOrder(maps)
  {
  }

  // ----- the image, the extent items and the checksums -----

  lemma Undo(cv: Conversion)
    requires cv.Counting()
    ensures cv.Undoable()
  {
    hide Kept, FilesMatch, NewDataOwned, P.Accounted, CopiesHeld, OutsideProtected;
    var p := cv.planner;
    cv.PlainFacts();
    ApartOffsets(p.chunks, p.spaces, p.limit, cv.conv.runs, cv.conv.n, cv.cs);
  }

  lemma ConverterKept(c: Converter)
    requires c.Valid()
    ensures 0 < c.n && Kept(c.runs, c.relocs, c.disk[..], c.first, c.d0, c.n) && RunsOk(c.runs, c.n)
    ensures forall k :: k in c.runs ==> DummiesHaveRelocs(c.runs[k], c.relocs)
  {
    KeptRuns(c.runs, c.relocs, c.disk[..], c.first, c.d0, c.n);
    RoundTrip.ImageIsWellFormed(c.runs, c.relocs, c.disk[..], c.first, c.d0, c.n, 0);
  }

  // The extents of `create_image`: one item for each joins the image's tree.
  method WriteImage(cv: Conversion, r: TreeBuilder.Root, inode: nat) returns (bound: nat)
    requires cv.Undoable() && TreeItems.Ascending(r.items) && ExtentsIn(r.items, inode) == []
    modifies r`items
    ensures forall k :: k in cv.conv.runs ==> k < bound && DummiesHaveRelocs(cv.conv.runs[k], cv.conv.relocs)
    ensures TreeItems.Ascending(r.items)
    ensures ExtentsIn(r.items, inode) == ImageItems(ImageExtents(cv.conv.runs, cv.conv.relocs, bound), inode, cv.cs)
  {
    hide Kept, DummiesHaveRelocs, ImageExtents, ExtentsIn, TreeItems.Ascending, Rising, RunsOk, CopiesHeld;
    hide OutsideProtected;
    ConverterKept(cv.conv);
    bound := KeyBound(cv.conv.runs);
    ImageRises(cv.conv.runs, cv.conv.relocs, bound, cv.conv.n);
    var extents := CreateImage(cv.conv.runs, cv.conv.relocs, bound);
    var ok := AddExtents(r, extents, inode, cv.cs);
  }

  // `create_data_extent_items`: each extent of the image and each of a file has an item where it points, of its
  // length, that names it; the items come one behind the other, and hold exactly the clusters in use that are not
  // protected; and each names nothing but the extents that point at it, each once, in falling order of the hashes.
  method CreateAllItems(cv: Conversion, hash: Ref -> nat) returns (items: seq<ExtentItem>, bound: nat)
    requires cv.Counting() && 0 < cv.conv.n
    ensures forall k :: k in cv.conv.runs ==> k < bound && DummiesHaveRelocs(cv.conv.runs[k], cv.conv.relocs)
    ensures forall e :: e in ImageExtents(cv.conv.runs, cv.conv.relocs, bound) ==>
      ItemFor(items, e.phys, e.len, ImageRef(e.off))
    ensures forall f :: f in cv.files ==> ItemFor(items, f.lcn, f.len, FileRef(f.inode, f.vcn))
    ensures forall i, j :: 0 <= i < j < |items| ==> items[i].at + items[i].len <= items[j].at
    ensures forall x: nat :: InItems(items, x) <==> Live(cv.conv.runs, x, cv.conv.n)
    ensures forall item :: item in items ==>
      RefsAre(item.refs, ImageExtents(cv.conv.runs, cv.conv.relocs, bound), cv.files, item.at, hash)
  {
    hide cv.Counting, DummiesHaveRelocs, RelocatedHaveRelocs, ImageExtents, Kept, RefsAre, RunsOk, ItemOf, ItemFor;
    hide InItems, CoveredAt, OwnerAt, FilesMatch;
    Undo(cv);
    ConverterKept(cv.conv);
    ghost var runs, relocs, n := cv.conv.runs, cv.conv.relocs, cv.conv.n;
    forall k | k in runs
      ensures RelocatedHaveRelocs(runs[k], relocs)
    {
      ItemsAreDefined(runs, relocs, cv.conv.disk[..], cv.conv.first, cv.conv.d0, n, k);
    }
    NoneHaveRelocs(relocs);
    bound := KeyBound(cv.conv.runs);
    items := [];
    var k: nat := 0;
    while k < bound
      invariant k <= bound && items == AllItems(runs, relocs, hash, k)
    {
      var more := CreateItems(ListOf(cv.conv.runs, k), cv.conv.relocs, hash);
      items, k := items + more, k + 1;
    }
    AllItemsRise(runs, relocs, hash, n, bound);
    forall item | item in items
      ensures RefsAre(item.refs, ImageExtents(runs, relocs, bound), cv.files, item.at, hash)
    {
      var a := AllItemsAreOf(runs, relocs, hash, bound, item);
      cv.RefsAgreeNow(bound, a, hash);
      ItemIsAt(a, relocs, hash);
    }
    forall x: nat
      ensures InItems(items, x) <==> Live(runs, x, n)
    {
      AllItemsCover(runs, relocs, hash, n, bound, x);
      CoveredHasKey(runs, n, x);
    }
    forall e | e in ImageExtents(runs, relocs, bound)
      ensures ItemFor(items, e.phys, e.len, ImageRef(e.off))
    {
      ImageHasItem(cv, hash, bound, e);
    }
    forall f | f in cv.files
      ensures ItemFor(items, f.lcn, f.len, FileRef(f.inode, f.vcn))
    {
      FileHasItem(cv, hash, bound, f);
    }
  }

  // The run that an extent of the image points at has an item that names the extent.
  lemma ImageHasItem(cv: Conversion, hash: Ref -> nat, bound: nat, e: Extent)
    requires cv.Counting() && 0 < cv.conv.n && forall k :: k in cv.conv.runs ==> k < bound
    requires forall k :: k in cv.conv.runs ==>
      DummiesHaveRelocs(cv.conv.runs[k], cv.conv.relocs) && RelocatedHaveRelocs(cv.conv.runs[k], cv.conv.relocs)
    requires e in ImageExtents(cv.conv.runs, cv.conv.relocs, bound)
    ensures ItemFor(AllItems(cv.conv.runs, cv.conv.relocs, hash, bound), e.phys, e.len, ImageRef(e.off))
  {
    hide cv.Counting, DummiesHaveRelocs, RelocatedHaveRelocs, ImageExtents, AllItems, Kept, ItemFor;
    ConverterIs(cv);
    JoinedNow(cv);
    var c := cv.conv;
    var a := RunOfExtent(c.runs, c.relocs, c.disk[..], c.first, c.d0, c.n, bound, e);
    cv.RefsAgreeNow(bound, a, hash);
    ImageNamesIt(a, c.runs, c.relocs, hash, cv.files, bound, e);
    RunHasItem(c.runs, c.relocs, hash, bound, a, ImageRef(e.off));
  }

  lemma FileHasItem(cv: Conversion, hash: Ref -> nat, bound: nat, f: FileExtent)
    requires cv.Counting() && 0 < cv.conv.n && forall k :: k in cv.conv.runs ==> k < bound
    requires forall k :: k in cv.conv.runs ==>
      DummiesHaveRelocs(cv.conv.runs[k], cv.conv.relocs) && RelocatedHaveRelocs(cv.conv.runs[k], cv.conv.relocs)
    requires f in cv.files
    ensures ItemFor(AllItems(cv.conv.runs, cv.conv.relocs, hash, bound), f.lcn, f.len, FileRef(f.inode, f.vcn))
  {
    hide cv.Counting, DummiesHaveRelocs, RelocatedHaveRelocs, ImageExtents, AllItems, Kept, ItemFor;
    MatchNow(cv);
    var c := cv.conv;
    var a :| Entry(c.runs, a) && Owned(a) && f == FileOf(a);
    cv.RefsAgreeNow(bound, a, hash);
    FileNamesIt(a, c.runs, c.relocs, hash, cv.files, bound, f);
    RunHasItem(c.runs, c.relocs, hash, bound, a, FileRef(f.inode, f.vcn));
  }

  lemma JoinedNow(cv: Conversion)
    requires cv.Counting()
    ensures AllJoined(cv.conv.runs)
  {
  }

  lemma MatchNow(cv: Conversion)
    requires cv.Counting()
    ensures FilesMatch(cv.conv.runs, cv.files)
  {
  }

  lemma NoneHaveRelocs(relocs: seq<Reloc>)
    ensures RelocatedHaveRelocs([], relocs)
  {
  }

  // The run's checksums fit a leaf with their header, and 16 bits.
  predicate FitsItem(t: K.Csum, ratio: nat, r: Bits.Run) {
    var size := K.CsumBytes(t, First(r.length, ratio));
    0 < size && size + TreeItems.HEAD <= TreeItems.AREA && size < 0x10000
  }

  // In use, and not protected.
  predicate Live(runs: RunMap, x: nat, n: nat)
    requires 0 < n
  {
    CoveredAt(runs, x, n) && OwnerAt(runs, x, n).inode != DUMMY
  }

  // `calc_checksums`, up to the reading of the data: the runs hold exactly the clusters in use that are not
  // protected, in order and once each, and the checksums of each fit an item.
  method ChecksumRuns(cv: Conversion, t: K.Csum, ratio: nat) returns (merged: seq<Bits.Run>)
    requires cv.Counting() && 0 < ratio <= 256
    ensures forall r :: r in merged ==> 0 < r.length <= K.MaxClusters(t, ratio)
    ensures 0 < cv.conv.n && K.Merged(merged, K.MaxClusters(t, ratio), cv.conv.n)
    ensures forall r :: r in merged ==> FitsItem(t, ratio, r)
    ensures forall x: nat :: x in K.Expand(merged) <==> Live(cv.conv.runs, x, cv.conv.n)
    ensures forall i, j :: 0 <= i < j < |K.Expand(merged)| ==> K.Expand(merged)[i] < K.Expand(merged)[j]
  {
    hide cv.Counting, Kept, RunsOk, CoveredAt, OwnerAt, K.Expand, K.AllClusters, K.MaxClusters, First, K.CsumBytes;
    hide K.Merged;
    Undo(cv);
    ConverterKept(cv.conv);
    var bound := KeyBound(cv.conv.runs);
    K.MaxIsPositive(t, ratio);
    merged := K.MergeRuns(cv.conv.runs, cv.conv.n, bound, K.MaxClusters(t, ratio));
    forall r | r in merged
      ensures FitsItem(t, ratio, r)
    {
      K.ItemFits(t, ratio, r);
    }
    K.AllClustersAre(cv.conv.runs, cv.conv.n, bound, 0);
    forall x: nat
      ensures x in K.Expand(merged) <==> Live(cv.conv.runs, x, cv.conv.n)
    {
      K.AllClustersAre(cv.conv.runs, cv.conv.n, bound, x);
      CoveredHasKey(cv.conv.runs, cv.conv.n, x);
    }
  }

  lemma CoveredHasKey(runs: RunMap, n: nat, x: nat)
    requires 0 < n
    ensures CoveredAt(runs, x, n) ==> Index(x, n) in runs
  {
  }

  // ----- undoing -----

  // Every extent of the image points into a chunk.
  lemma ImageIsLocated(cv: Conversion, bound: nat, e: Extent)
    requires cv.Undoable() && forall k :: k in cv.conv.runs ==> DummiesHaveRelocs(cv.conv.runs[k], cv.conv.relocs)
    requires e in ImageExtents(cv.conv.runs, cv.conv.relocs, bound)
    ensures Located(cv.planner.chunks, e, cv.cs)
  {
    hide Kept, First, CoveredAt, OwnerAt;
    var c := cv.conv;
    KeptRuns(c.runs, c.relocs, c.disk[..], c.first, c.d0, c.n);
    RoundTrip.ImageIsOfRuns(c.runs, c.relocs, bound, e);
    var k: nat :| k < bound && RoundTrip.FromRun(e, c.runs, c.relocs, k);
    var a :| a in ListOf(c.runs, k) && InImage(a) && e == RoundTrip.SafeExtent(a, c.relocs);
    if IsDummy(a) {
      var j :| 0 <= j < |c.runs[k]| && c.runs[k][j] == a;
      assert HasReloc(c.relocs, a.offset);
      var r := c.relocs[FindReloc(c.relocs, a.offset)];
      assert r in c.relocs && InSomeChunk(cv.planner.chunks, r.new', cv.cs);
    } else {
      RunStarts(c.runs, c.n, k, a);
      assert InSomeChunk(cv.planner.chunks, a.offset, cv.cs);
    }
    var i :| 0 <= i < |cv.planner.chunks| && InChunk(cv.planner.chunks[i], e.phys, cv.cs);
    assert cv.planner.chunks[i] in cv.planner.chunks;
  }

  // Rolling back from the chunk tree and the image's tree, after any conversion: every extent is found, and every
  // cluster of the old volume that was in use is what it was.
  method RollBack(cv: Conversion, store: TreeWalk.Store, chunkTree: Tree, image: Tree, inode: nat, bound: nat)
    requires cv.Undoable()
    requires forall k :: k in cv.conv.runs ==> k < bound && DummiesHaveRelocs(cv.conv.runs[k], cv.conv.relocs)
    requires chunkTree.On(store) && ChunkTree.ChunksAre(chunkTree.items, cv.planner.chunks) && image.On(store)
    requires ExtentsIn(image.items, inode)
          == ImageItems(ImageExtents(cv.conv.runs, cv.conv.relocs, bound), inode, cv.cs)
    modifies cv.conv.disk
    ensures forall x: nat :: Used(cv.conv.first, x, cv.conv.n) ==>
      x < cv.conv.disk.Length && cv.conv.disk[x] == cv.conv.d0[x]
  {
    hide Kept, Used, TreeWalk.Represents, TreeItems.Ascending, ExtentsIn, ImageExtents, Located, DummiesHaveRelocs;
    hide ChunkTree.ChunksAre;
    forall e | e in ImageExtents(cv.conv.runs, cv.conv.relocs, bound)
      ensures Located(cv.planner.chunks, e, cv.cs)
    {
      ImageIsLocated(cv, bound, e);
    }
    var ok := RollBackConverted(cv.conv, store, chunkTree, image, inode, bound, cv.cs, cv.planner.chunks);
  }

  // The end of a conversion and its undoing: the trees are built, and the chunk tree and the image's tree are read
  // back from the blocks that were made.
  method BuildThenRollBack(cv: Conversion, others: seq<TreeBuilder.Root>, e: TreeBuilder.Root, c: TreeBuilder.Root,
                           d: TreeBuilder.Root, devUuid: TreeItems.Bytes, chunkUuid: TreeItems.Bytes,
                           image: TreeBuilder.Root, inode: nat, bound: nat)
    returns (o: TreeBuilder.Outcome)
    requires cv.Counting() && ExtentFixpoint.AllDistinct(others + [e, c, d]) && TreeBooks.Books(e.items, map[])
    requires e.live == map[] && ExtentTrees.NoneDescribed(e.items, c.items, d.items)
    requires forall r :: r in others + [e, c, d] ==> ExtentFixpoint.Unbuilt(r)
    requires |devUuid| == 16 && |chunkUuid| == 16 && image in others
    requires forall k :: k in cv.conv.runs ==> k < bound && DummiesHaveRelocs(cv.conv.runs[k], cv.conv.relocs)
    requires ExtentsIn(image.items, inode)
          == ImageItems(ImageExtents(cv.conv.runs, cv.conv.relocs, bound), inode, cv.cs)
    modifies others, e, c, d, cv.planner, cv.conv.disk
    ensures o == TreeBuilder.Done ==> forall x: nat :: Used(cv.conv.first, x, cv.conv.n) ==>
      x < cv.conv.disk.Length && cv.conv.disk[x] == cv.conv.d0[x]
  {
    hide Kept, Used, TreeWalk.Represents, TreeItems.Ascending, ExtentsIn, ImageExtents, DummiesHaveRelocs;
    hide ChunkTree.ChunksAre, TreeBooks.Books, ExtentTrees.NoneDescribed, ExtentFixpoint.Unbuilt, cv.Counting;
    hide cv.Undoable, ExtentFixpoint.SelfConsistent, ExtentFixpoint.StoreOfAll, ExtentFixpoint.Forest;
    hide ChunkItems.OnlyThese, ChunkItems.Filed, P.ChunksApart;
    o := BuildTrees(cv, others, e, c, d, devUuid, chunkUuid);
    if o == TreeBuilder.Done {
      var rs := others + [e, c, d];
      var store := ExtentFixpoint.StoreOfAll(ExtentFixpoint.Forest(rs));
      assert c in rs && image in rs;
      RollBack(cv, store, Tree(c.treeAddr, c.level, c.items), Tree(image.treeAddr, image.level, image.items), inode,
               bound);
    }
  }
}
