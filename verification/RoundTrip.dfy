/**
 * Rolling back after a conversion gives the old volume's used clusters back.
 */
module RoundTrip {
  import opened ChunkMath
  import opened RunLists
  import opened ImageRollback
  import opened Protect

  lemma {:induction false} EntryOf(list: seq<Alloc>, x: nat) returns (a: Alloc)
    requires Covered(list, x)
    ensures a in list && a.Has(x) && a.owner == OwnerOf(list, x)
    decreases |list|
  {
    if list[0].Has(x) {
      a := list[0];
    } else {
      a := EntryOf(list[1..], x);
    }
  }

  lemma {:induction false} ExtentsAreOfRuns(list: seq<Alloc>, relocs: seq<Reloc>, e: Extent)
    requires DummiesHaveRelocs(list, relocs)
    ensures e in ExtentsOf(list, relocs) <==> exists a :: a in list && InImage(a) && e == SafeExtent(a, relocs)
    decreases |list|
  {
    if list != [] {
      var front, a := list[..|list| - 1], list[|list| - 1];
      assert list == front + [a];
      ExtentsAreOfRuns(front, relocs, e);
    }
  }

  // `ExtentOf`, for any run.
  function SafeExtent(a: Alloc, relocs: seq<Reloc>): Extent {
    if IsDummy(a) && HasReloc(relocs, a.offset)
    then Extent(a.offset, relocs[FindReloc(relocs, a.offset)].new', a.length)
    else Extent(a.offset, a.offset, a.length)
  }

  ghost predicate FromRun(e: Extent, runs: RunMap, relocs: seq<Reloc>, k: nat) {
    exists a :: a in ListOf(runs, k) && InImage(a) && e == SafeExtent(a, relocs)
  }

  lemma {:induction false} ImageIsOfRuns(runs: RunMap, relocs: seq<Reloc>, chunks: nat, e: Extent)
    requires forall k :: k in runs ==> DummiesHaveRelocs(runs[k], relocs)
    ensures e in ImageExtents(runs, relocs, chunks) <==> exists k: nat :: k < chunks && FromRun(e, runs, relocs, k)
    decreases chunks
  {
    if 0 < chunks {
      hide ExtentsOf, SafeExtent;
      ImageIsOfRuns(runs, relocs, chunks - 1, e);
      ExtentsAreOfRuns(ListOf(runs, chunks - 1), relocs, e);
      assert e in ExtentsOf(ListOf(runs, chunks - 1), relocs) <==> FromRun(e, runs, relocs, chunks - 1);
      if k: nat :| k < chunks && FromRun(e, runs, relocs, k) {
        assert k < chunks - 1 || k == chunks - 1;
      }
    }
  }

  // The extents are in order, within [from, to).
  predicate Ascending(extents: seq<Extent>, from: nat, to: nat) {
    && (forall i :: 0 <= i < |extents| ==> from <= extents[i].off && extents[i].off + extents[i].len <= to)
    && (forall i, j :: 0 <= i < j < |extents| ==> extents[i].off + extents[i].len <= extents[j].off)
  }

  lemma {:induction false} ExtentsAscend(list: seq<Alloc>, relocs: seq<Reloc>, from: nat, to: nat)
    requires DummiesHaveRelocs(list, relocs) && RunLists.Sorted(list, from, to)
    ensures Ascending(ExtentsOf(list, relocs), from, to)
    decreases |list|
  {
    if list != [] {
      var k := |list| - 1;
      SortedParts(list, from, to, k);
      ExtentsAscend(list[..k], relocs, from, list[k].offset);
    }
  }

  lemma {:induction false} ImageAscends(runs: RunMap, relocs: seq<Reloc>, chunks: nat, n: nat)
    requires RunsOk(runs, n) && forall k :: k in runs ==> DummiesHaveRelocs(runs[k], relocs)
    ensures Ascending(ImageExtents(runs, relocs, chunks), 0, First(chunks, n))
    decreases chunks
  {
    if 0 < chunks {
      ImageAscends(runs, relocs, chunks - 1, n);
      NoneSorted(chunks - 1, n);
      ExtentsAscend(ListOf(runs, chunks - 1), relocs, First(chunks - 1, n), First(chunks - 1, n) + n);
    }
  }

  // A run of the image is a run of the old volume: its clusters were all in use.
  lemma ImageRunsAreUsed(runs: RunMap, relocs: seq<Reloc>, disk: seq<Cluster>, first: RunMap, d0: seq<Cluster>, n: nat,
                         k: nat, a: Alloc, x: nat)
    requires 0 < n && Kept(runs, relocs, disk, first, d0, n) && k in runs && a in runs[k] && InImage(a) && a.Has(x)
    ensures Index(x, n) == k && Used(first, x, n) && UsedOk(x, runs, relocs, disk, d0, n)
    ensures OwnerAt(runs, x, n) == a.owner
  {
    EntryOwns(runs[k], a, First(k, n), First(k, n) + n, x);
    IndexIsUnique(x, n, k);
  }

  lemma ImageIsWellFormed(runs: RunMap, relocs: seq<Reloc>, disk: seq<Cluster>, first: RunMap, d0: seq<Cluster>,
                          n: nat, chunks: nat)
    requires 0 < n && Kept(runs, relocs, disk, first, d0, n)
    ensures forall k :: k in runs ==> DummiesHaveRelocs(runs[k], relocs)
    ensures OnDisk(ImageExtents(runs, relocs, chunks), |disk|) && Disjoint(ImageExtents(runs, relocs, chunks))
  {
    forall k | k in runs
      ensures DummiesHaveRelocs(runs[k], relocs)
    {
      forall i | 0 <= i < |runs[k]| && InImage(runs[k][i]) && IsDummy(runs[k][i])
        ensures HasReloc(relocs, runs[k][i].offset)
      {
        var a := runs[k][i];
        assert a in runs[k] && a.length == 1;
        ImageRunsAreUsed(runs, relocs, disk, first, d0, n, k, a, a.offset);
      }
    }
    ImageAscends(runs, relocs, chunks, n);
    forall e | e in ImageExtents(runs, relocs, chunks)
      ensures e.off + e.len <= |disk| && e.phys + e.len <= |disk|
    {
      ImageIsOfRuns(runs, relocs, chunks, e);
      var k: nat :| k < chunks && FromRun(e, runs, relocs, k);
      var a :| a in ListOf(runs, k) && InImage(a) && e == SafeExtent(a, relocs);
      RunIsOnDisk(runs, relocs, disk, first, d0, n, k, a);
    }
  }

  lemma RunIsOnDisk(runs: RunMap, relocs: seq<Reloc>, disk: seq<Cluster>, first: RunMap, d0: seq<Cluster>, n: nat,
                    k: nat, a: Alloc)
    requires 0 < n && Kept(runs, relocs, disk, first, d0, n) && k in runs && a in runs[k] && InImage(a)
    ensures var e := SafeExtent(a, relocs); e.off + e.len <= |disk| && e.phys + e.len <= |disk|
  {
    RunIsNotEmpty(runs[k], a, First(k, n), First(k, n) + n);
    ImageRunsAreUsed(runs, relocs, disk, first, d0, n, k, a, a.End() - 1);
    if IsDummy(a) {
      var r := relocs[FindReloc(relocs, a.offset)];
      assert r in relocs && RelocOk(r, runs, disk, first, d0, n);
    }
  }

  lemma {:induction false} RunIsNotEmpty(list: seq<Alloc>, a: Alloc, from: nat, to: nat)
    requires RunLists.Sorted(list, from, to) && a in list
    ensures 0 < a.length
    decreases |list|
  {
    if a != list[0] {
      RunIsNotEmpty(list[1..], a, list[0].End(), to);
    }
  }

  lemma KeptIsUsed(runs: RunMap, relocs: seq<Reloc>, disk: seq<Cluster>, first: RunMap, d0: seq<Cluster>, n: nat,
                   x: nat)
    requires 0 < n && Kept(runs, relocs, disk, first, d0, n) && Used(first, x, n)
    ensures |disk| == |d0| && UsedOk(x, runs, relocs, disk, d0, n)
  {
  }

  // A used cluster that was moved away has an extent, which leads to what it held.
  lemma DummyHasExtent(runs: RunMap, relocs: seq<Reloc>, disk: seq<Cluster>, first: RunMap, d0: seq<Cluster>, n: nat,
                       chunks: nat, x: nat)
    returns (e: Extent)
    requires 0 < n && Kept(runs, relocs, disk, first, d0, n) && forall k :: k in runs ==> k < chunks
    requires forall k :: k in runs ==> DummiesHaveRelocs(runs[k], relocs)
    requires Used(first, x, n) && OwnerAt(runs, x, n).inode == DUMMY
    ensures e in ImageExtents(runs, relocs, chunks) && Moved(e) && e.Has(x) && x < |d0|
    ensures e.phys + (x - e.off) < |disk| && disk[e.phys + (x - e.off)] == d0[x]
  {
    hide First, Disjoint, DistinctRelocs;
    assert UsedOk(x, runs, relocs, disk, d0, n);
    var k := Index(x, n);
    var a := EntryOf(ListOf(runs, k), x);
    assert a.length == 1 && a.offset == x;
    var r := relocs[FindReloc(relocs, x)];
    assert r in relocs && RelocOk(r, runs, disk, first, d0, n);
    e := SafeExtent(a, relocs);
    assert k in runs && FromRun(e, runs, relocs, k);
    ImageIsOfRuns(runs, relocs, chunks, e);
  }

  // Every used cluster is as it was.
  lemma UsedIsBack(runs: RunMap, relocs: seq<Reloc>, disk: seq<Cluster>, first: RunMap, d0: seq<Cluster>, n: nat,
                   chunks: nat,
                   after: seq<Cluster>, x: nat)
    requires 0 < n && Kept(runs, relocs, disk, first, d0, n) && forall k :: k in runs ==> k < chunks
    requires forall k :: k in runs ==> DummiesHaveRelocs(runs[k], relocs)
    requires RolledBack(disk, after, ImageExtents(runs, relocs, chunks)) && Used(first, x, n)
    ensures x < |after| && after[x] == d0[x]
  {
    hide Kept, ImageExtents, Used, CoveredAt, OwnerAt, HasReloc, DummiesHaveRelocs;
    var extents := ImageExtents(runs, relocs, chunks);
    assert UsedOk(x, runs, relocs, disk, d0, n) by {
      KeptIsUsed(runs, relocs, disk, first, d0, n, x);
    }
    assert BackAt(disk, after, extents, x);
    if OwnerAt(runs, x, n).inode == DUMMY {
      var e := DummyHasExtent(runs, relocs, disk, first, d0, n, chunks, x);
    } else if MovedAt(extents, x) {
      var e :| e in extents && Moved(e) && e.Has(x);
      MovedIsDummy(runs, relocs, disk, first, d0, n, chunks, e, x);
      assert false;
    }
  }

  lemma MovedIsDummy(runs: RunMap, relocs: seq<Reloc>, disk: seq<Cluster>, first: RunMap, d0: seq<Cluster>, n: nat,
                     chunks: nat,
                     e: Extent, x: nat)
    requires 0 < n && Kept(runs, relocs, disk, first, d0, n)
    requires forall k :: k in runs ==> DummiesHaveRelocs(runs[k], relocs)
    requires e in ImageExtents(runs, relocs, chunks) && Moved(e) && e.Has(x)
    ensures OwnerAt(runs, x, n).inode == DUMMY
  {
    ImageIsOfRuns(runs, relocs, chunks, e);
    var k: nat :| k < chunks && FromRun(e, runs, relocs, k);
    var a :| a in ListOf(runs, k) && InImage(a) && e == SafeExtent(a, relocs);
    ImageRunsAreUsed(runs, relocs, disk, first, d0, n, k, a, x);
  }

  // Converting, then rolling back, is the identity on the used clusters: whatever was written in
  // between to protected clusters, to clusters in no run and to new file data.
  method RollBackConversion(c: Converter, chunks: nat)
    requires c.Valid() && forall k :: k in c.runs ==> k < chunks
    modifies c.disk
    ensures forall x: nat :: Used(c.first, x, c.n) ==> x < c.disk.Length && c.disk[x] == c.d0[x]
  {
    ghost var before := c.disk[..];
    ImageIsWellFormed(c.runs, c.relocs, before, c.first, c.d0, c.n, chunks);
    var extents := CreateImage(c.runs, c.relocs, chunks);
    Rollback(c.disk, extents);
    forall x: nat | Used(c.first, x, c.n)
      ensures x < c.disk.Length && c.disk[x] == c.d0[x]
    {
      UsedIsBack(c.runs, c.relocs, before, c.first, c.d0, c.n, chunks, c.disk[..], x);
    }
  }
}
