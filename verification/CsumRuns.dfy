/**
 * Cutting and merging runs for the checksum items: `calc_checksums` up to the reading of the data.
 */
module CsumRuns {
  import opened ChunkMath
  import opened RunLists
  import opened BitmapScan
  import TreeItems

  // A stretch of clusters, one after the other.
  function Range(from: nat, n: nat): (s: seq<nat>)
    ensures |s| == n && forall i :: 0 <= i < n ==> s[i] == from + i
  {
    seq(n, i => from + i)
  }

  // The clusters of the runs that are not protected, in order.
  function ClustersOf(list: seq<Alloc>): seq<nat> {
    if list == [] then []
    else (if list[0].owner.inode == DUMMY then [] else Range(list[0].offset, list[0].length)) + ClustersOf(list[1..])
  }

  function Expand(runs: seq<Run>): seq<nat> {
    if runs == [] then [] else Expand(runs[..|runs| - 1]) + Range(runs[|runs| - 1].offset, runs[|runs| - 1].length)
  }

  predicate Lengths(runs: seq<Run>, max: nat) {
    forall r :: r in runs ==> 0 < r.length <= max
  }

  lemma ExpandNext(runs: seq<Run>, r: Run)
    ensures Expand(runs + [r]) == Expand(runs) + Range(r.offset, r.length)
  {
    assert (runs + [r])[..|runs|] == runs;
  }

  lemma RangeSplits(from: nat, a: nat, b: nat)
    ensures Range(from, a + b) == Range(from, a) + Range(from + a, b)
  {
  }

  // The last run made longer by what follows it.
  lemma ExpandGrows(runs: seq<Run>, n: nat)
    requires runs != []
    ensures var r := runs[|runs| - 1];
      Expand(runs[|runs| - 1 := Run(r.offset, r.length + n)]) == Expand(runs) + Range(r.End(), n)
  {
    var front, r := runs[..|runs| - 1], runs[|runs| - 1];
    var longer := runs[|runs| - 1 := Run(r.offset, r.length + n)];
    assert longer[..|runs| - 1] == front;
    RangeSplits(r.offset, r.length, n);
  }

  lemma ClustersFront(list: seq<Alloc>)
    requires list != [] && list[0].owner.inode != DUMMY
    ensures ClustersOf(list) == Range(list[0].offset, list[0].length) + ClustersOf(list[1..])
  {
  }

  function Total(list: seq<Alloc>): nat {
    if list == [] then 0 else list[0].length + Total(list[1..])
  }

  // The list with its front run shorter by its first `n` clusters, or gone.
  function Shortened(list: seq<Alloc>, n: nat): seq<Alloc>
    requires list != [] && n <= list[0].length
  {
    if n == list[0].length then list[1..]
    else [Alloc(list[0].offset + n, list[0].length - n, list[0].owner)] + list[1..]
  }

  // The front run gives up its first `n` clusters.
  lemma ShortenedIs(list: seq<Alloc>, n: nat, from: nat, to: nat)
    requires list != [] && 0 < n <= list[0].length && list[0].owner.inode != DUMMY && Sorted(list, from, to)
    ensures ClustersOf(list) == Range(list[0].offset, n) + ClustersOf(Shortened(list, n))
    ensures Sorted(Shortened(list, n), list[0].offset + n, to) && Total(Shortened(list, n)) < Total(list)
  {
    hide ClustersOf, Range;
    var r, rest := list[0], list[1..];
    ClustersFront(list);
    if n < r.length {
      var s := Shortened(list, n);
      assert s[1..] == rest;
      ClustersFront(s);
      RangeSplits(r.offset, n, r.length - n);
      assert Range(r.offset, r.length) + ClustersOf(rest)
          == Range(r.offset, n) + (Range(r.offset + n, r.length - n) + ClustersOf(rest));
    }
  }

  // Clusters that leave the list and join the runs.
  lemma Carried(e: seq<nat>, x: seq<nat>, rest: seq<nat>)
    ensures (e + x) + rest == e + (x + rest)
  {
  }

  // From run `s` on, each lies within [from, to), and what follows a run that is not full is not next to it.
  predicate Tight(runs: seq<Run>, s: nat, max: nat, from: nat, to: nat) {
    && s <= |runs| && (forall i :: s <= i < |runs| ==> from <= runs[i].offset && runs[i].End() <= to)
    && forall i, j :: s <= i < j == i + 1 < |runs| ==> runs[i].length == max || runs[i].End() < runs[j].offset
  }

  lemma TightMore(runs: seq<Run>, s: nat, max: nat, from: nat, to: nat, r: Run)
    requires Tight(runs, s, max, from, to) && from <= r.offset && r.End() <= to
    requires s < |runs| ==> runs[|runs| - 1].length == max || runs[|runs| - 1].End() < r.offset
    ensures Tight(runs + [r], s, max, from, to)
  {
  }

  lemma TightLonger(runs: seq<Run>, s: nat, max: nat, from: nat, to: nat, n: nat)
    requires Tight(runs, s, max, from, to) && s < |runs| && runs[|runs| - 1].End() + n <= to
    ensures var last := |runs| - 1;
      Tight(runs[last := Run(runs[last].offset, runs[last].length + n)], s, max, from, to)
  {
  }

  // A new run is begun with the front of the list.
  method BeginRun(runs0: seq<Run>, list0: seq<Alloc>, max: nat, ghost from: nat, ghost to: nat)
    returns (runs: seq<Run>, list: seq<Alloc>, ghost low: nat, n: nat)
    requires 0 < max && list0 != [] && Sorted(list0, from, to) && Lengths(runs0, max) && list0[0].owner.inode != DUMMY
    ensures Sorted(list, low, to) && Lengths(runs, max) && runs != [] && runs[|runs| - 1].End() <= low
    ensures Expand(runs) + ClustersOf(list) == Expand(runs0) + ClustersOf(list0)
    ensures Total(list) < Total(list0) && |runs| == |runs0| + 1
    ensures n <= list0[0].length && runs == runs0 + [Run(list0[0].offset, n)]
  {
    hide Expand, ClustersOf, Total;
    var r := list0[0];
    n := if r.length > max then max else r.length;
    ShortenedIs(list0, n, from, to);
    ExpandNext(runs0, Run(r.offset, n));
    runs := runs0 + [Run(r.offset, n)];
    if r.length > max {
      list := [Alloc(r.offset + max, r.length - max, r.owner)] + list0[1..];
    } else {
      list := list0[1..];
    }
    Carried(Expand(runs0), Range(r.offset, n), ClustersOf(list));
    low := r.offset + n;
  }

  // The last run goes on with the front of the list.
  method GoOn(runs0: seq<Run>, list0: seq<Alloc>, max: nat, ghost from: nat, ghost to: nat)
    returns (runs: seq<Run>, list: seq<Alloc>, ghost low: nat, n: nat)
    requires 0 < max && list0 != [] && Sorted(list0, from, to) && Lengths(runs0, max) && list0[0].owner.inode != DUMMY
    requires runs0 != [] && runs0[|runs0| - 1].End() == list0[0].offset && runs0[|runs0| - 1].length < max
    ensures Sorted(list, low, to) && Lengths(runs, max) && runs != [] && runs[|runs| - 1].End() <= low
    ensures Expand(runs) + ClustersOf(list) == Expand(runs0) + ClustersOf(list0)
    ensures Total(list) < Total(list0)
    ensures n <= list0[0].length
    ensures var b := runs0[|runs0| - 1]; runs == runs0[|runs0| - 1 := Run(b.offset, b.length + n)]
  {
    hide Expand, ClustersOf, Total;
    var r, last := list0[0], |runs0| - 1;
    var b := runs0[last];
    assert b in runs0;
    n := if b.length + r.length <= max then r.length else max - b.length;
    SortedParts(list0, from, to, 0);
    ShortenedIs(list0, n, from, to);
    ExpandGrows(runs0, n);
    runs := runs0[last := Run(b.offset, b.length + n)];
    if b.length + r.length <= max {
      list := list0[1..];
    } else {
      list := [Alloc(r.offset + n, r.length - n, r.owner)] + list0[1..];
    }
    Carried(Expand(runs0), Range(r.offset, n), ClustersOf(list));
    low := r.offset + n;
  }

  // One turn of the loop over a chunk's runs.
  method Turn(runs0: seq<Run>, list0: seq<Alloc>, max: nat, first0: bool, ghost from: nat, ghost to: nat, ghost s: nat,
              ghost begin: nat)
    returns (runs: seq<Run>, list: seq<Alloc>, first: bool, ghost low: nat)
    requires 0 < max && list0 != [] && Sorted(list0, from, to) && Lengths(runs0, max)
    requires !first0 ==> runs0 != [] && runs0[|runs0| - 1].End() <= from
    requires Tight(runs0, s, max, begin, to) && (first0 <==> |runs0| == s) && begin <= from
    ensures Tight(runs, s, max, begin, to) && (first <==> |runs| == s) && runs[..s] == runs0[..s] && begin <= low
    ensures Sorted(list, low, to) && Lengths(runs, max)
    ensures !first ==> runs != [] && runs[|runs| - 1].End() <= low
    ensures Expand(runs) + ClustersOf(list) == Expand(runs0) + ClustersOf(list0)
    ensures Total(list) < Total(list0)
  {
    hide Expand, ClustersOf, Total;
    runs, first := runs0, first0;
    var r := list0[0];
    if r.owner.inode == DUMMY {
      SortedParts(list0, from, to, 0);
      list, low := list0[1..], r.End();
      DummyDropped(list0, from, to);
      return;
    }
    if first || runs[|runs| - 1].End() < r.offset || runs[|runs| - 1].length == max {
      SortedParts(list0, from, to, 0);
      var n;
      runs, list, low, n := BeginRun(runs, list0, max, from, to);
      TightMore(runs0, s, max, begin, to, Run(list0[0].offset, n));
      first := false;
      return;
    }
    assert runs[|runs| - 1] in runs;
    SortedParts(list0, from, to, 0);
    var n;
    runs, list, low, n := GoOn(runs, list0, max, from, to);
    TightLonger(runs0, s, max, begin, to, n);
  }

  lemma DummyDropped(list: seq<Alloc>, from: nat, to: nat)
    requires list != [] && list[0].owner.inode == DUMMY && Sorted(list, from, to)
    ensures ClustersOf(list) == ClustersOf(list[1..]) && Total(list[1..]) < Total(list)
    ensures from <= list[0].offset
  {
  }

  // One chunk's runs, after those of the chunks before it.
  method MergeChunk(runs0: seq<Run>, list0: seq<Alloc>, max: nat, from: nat, to: nat) returns (runs: seq<Run>)
    requires 0 < max && Sorted(list0, from, to) && Lengths(runs0, max)
    ensures Lengths(runs, max) && Expand(runs) == Expand(runs0) + ClustersOf(list0)
    ensures Tight(runs, |runs0|, max, from, to) && runs[..|runs0|] == runs0
  {
    hide Sorted, Expand, ClustersOf, Total;
    runs := runs0;
    var list, first := list0, true;
    ghost var low := from;
    while list != []
      invariant Sorted(list, low, to) && Lengths(runs, max)
      invariant Tight(runs, |runs0|, max, from, to) && runs[..|runs0|] == runs0 && from <= low
      invariant first <==> |runs| == |runs0|
      invariant !first ==> runs != [] && runs[|runs| - 1].End() <= low
      invariant Expand(runs) + ClustersOf(list) == Expand(runs0) + ClustersOf(list0)
      decreases Total(list)
    {
      runs, list, first, low := Turn(runs, list, max, first, low, to, |runs0|, from);
    }
    NothingLeft(runs);
  }

  lemma NothingLeft(runs: seq<Run>)
    ensures Expand(runs) + ClustersOf([]) == Expand(runs)
  {
  }

  function AllClusters(runs: RunMap, chunks: nat): seq<nat> {
    if chunks == 0 then [] else AllClusters(runs, chunks - 1) + ClustersOf(ListOf(runs, chunks - 1))
  }

  // In order, each once, and within [from, to).
  predicate Rising(s: seq<nat>, from: nat, to: nat) {
    && (forall i :: 0 <= i < |s| ==> from <= s[i] < to)
    && (forall i, j :: 0 <= i < j < |s| ==> s[i] < s[j])
  }

  lemma RisingConcat(a: seq<nat>, b: seq<nat>, from: nat, mid: nat, to: nat)
    requires from <= mid <= to && Rising(a, from, mid) && Rising(b, mid, to)
    ensures Rising(a + b, from, to)
  {
  }

  // A list's clusters: those in a run that is not protected.
  lemma {:induction false} ClustersAre(list: seq<Alloc>, from: nat, to: nat, x: nat)
    requires Sorted(list, from, to)
    ensures Rising(ClustersOf(list), from, to)
    ensures x in ClustersOf(list) <==> Covered(list, x) && OwnerOf(list, x).inode != DUMMY
    decreases |list|
  {
    SortedBounds(list, from, to, x);
    if list != [] {
      var r := list[0];
      ClustersAre(list[1..], r.End(), to, x);
      SortedBounds(list[1..], r.End(), to, x);
      var front := if r.owner.inode == DUMMY then [] else Range(r.offset, r.length);
      RisingConcat(front, ClustersOf(list[1..]), from, r.End(), to);
      assert x in Range(r.offset, r.length) <==> r.Has(x) by {
        if r.Has(x) {
          assert Range(r.offset, r.length)[x - r.offset] == x;
        }
      }
    }
  }

  // All the clusters, in order and once each: exactly those in use that are not protected.
  lemma {:induction false} AllClustersAre(runs: RunMap, n: nat, chunks: nat, x: nat)
    requires 0 < n && RunsOk(runs, n)
    ensures Rising(AllClusters(runs, chunks), 0, First(chunks, n))
    ensures x in AllClusters(runs, chunks)
       <==> Index(x, n) < chunks && CoveredAt(runs, x, n) && OwnerAt(runs, x, n).inode != DUMMY
    decreases chunks
  {
    hide Covered, OwnerOf, Rising, Sorted;
    RisingNone();
    if 0 < chunks {
      var k := chunks - 1;
      AllClustersAre(runs, n, k, x);
      NoneSorted(k, n);
      ClustersAre(ListOf(runs, k), First(k, n), First(k, n) + n, x);
      RisingConcat(AllClusters(runs, k), ClustersOf(ListOf(runs, k)), 0, First(k, n), First(chunks, n));
      if Covered(ListOf(runs, k), x) {
        KeyOfCovered(runs, n, k, x);
      }
    }
  }

  lemma RisingNone()
    ensures Rising([], 0, 0)
  {
  }

  lemma KeyOfCovered(runs: RunMap, n: nat, k: nat, x: nat)
    requires 0 < n && RunsOk(runs, n) && Covered(ListOf(runs, k), x)
    ensures Index(x, n) == k
  {
    NoneSorted(k, n);
    SortedBounds(ListOf(runs, k), First(k, n), First(k, n) + n, x);
    IndexIsUnique(x, n, k);
  }

  // A run that is not full is followed by a gap, or by the next chunk.
  predicate Merged(runs: seq<Run>, max: nat, n: nat)
    requires 0 < n
  {
    forall i, j :: 0 <= i < j == i + 1 < |runs| ==>
      runs[i].length == max || runs[i].End() < runs[j].offset || Index(runs[i].offset, n) < Index(runs[j].offset, n)
  }

  predicate Before(runs: seq<Run>, n: nat, k: nat)
    requires 0 < n
  {
    forall r :: r in runs ==> Index(r.offset, n) < k
  }

  lemma MergedOn(runs0: seq<Run>, runs: seq<Run>, max: nat, n: nat, k: nat)
    requires 0 < n && Merged(runs0, max, n) && Before(runs0, n, k) && Lengths(runs, max)
    requires Tight(runs, |runs0|, max, First(k, n), First(k, n) + n) && runs[..|runs0|] == runs0
    ensures Merged(runs, max, n) && Before(runs, n, k + 1)
  {
    hide First, Index;
    forall i | 0 <= i < |runs|
      ensures i < |runs0| ==> runs[i] == runs0[i] && Index(runs[i].offset, n) < k
      ensures |runs0| <= i ==> Index(runs[i].offset, n) == k
    {
      assert i < |runs0| ==> runs[i] == runs[..|runs0|][i];
      assert runs[i] in runs;
      if |runs0| <= i {
        IndexIsUnique(runs[i].offset, n, k);
      }
    }
  }

  lemma NoneMerged(max: nat, n: nat)
    requires 0 < n
    ensures Merged([], max, n) && Before([], n, 0) && Expand([]) == []
  {
  }

  // All the chunks, in order: the runs cover every cluster that is not protected, once each and
  // in order, none is empty or longer than `max`, and none could be longer.
  method MergeRuns(runs: RunMap, n: nat, chunks: nat, max: nat) returns (merged: seq<Run>)
    requires 0 < max && 0 < n && RunsOk(runs, n) && forall k :: k in runs ==> k < chunks
    ensures Lengths(merged, max) && Expand(merged) == AllClusters(runs, chunks)
    ensures Merged(merged, max, n)
  {
    hide Merged, Before, Tight, Expand, ClustersOf, Sorted, First, Index;
    merged := [];
    NoneMerged(max, n);
    var k: nat := 0;
    while k < chunks
      invariant k <= chunks && Lengths(merged, max) && Expand(merged) == AllClusters(runs, k)
      invariant Merged(merged, max, n) && Before(merged, n, k)
    {
      NoneSorted(k, n);
      ghost var before := merged;
      merged := MergeChunk(merged, ListOf(runs, k), max, First(k, n), First(k, n) + n);
      MergedOn(before, merged, max, n, k);
      k := k + 1;
    }
  }

  datatype Csum = Crc32c | XxHash | Sha256 | Blake2

  function CsumBytes(t: Csum, sectors: nat): nat {
    match t
    case Crc32c => 4 * sectors
    case XxHash => 8 * sectors
    case Sha256 => 32 * sectors
    case Blake2 => 32 * sectors
  }

  // Sectors in one item, and clusters: `ratio` sectors make a cluster.
  function MaxSectors(t: Csum): nat {
    match t
    case Crc32c => (0x4000 - 101 - 2 * 25) / 4 - 1
    case XxHash => (0x4000 - 101 - 2 * 25) / 8 - 1
    case Sha256 => (0x4000 - 101 - 2 * 25) / 32 - 1
    case Blake2 => (0x4000 - 101 - 2 * 25) / 32 - 1
  }

  function MaxClusters(t: Csum, ratio: nat): nat
    requires 0 < ratio
  {
    Index(MaxSectors(t), ratio)
  }

  // The checksums of a run: for each of the four kinds, and clusters of up to 1 MB, not empty, small
  // enough for a leaf with its header, and for the 16-bit length `add_item` takes.
  lemma ItemFits(t: Csum, ratio: nat, r: Run)
    requires 0 < ratio <= 256 && 0 < r.length <= MaxClusters(t, ratio)
    ensures 0 < MaxClusters(t, ratio)
    ensures var size := CsumBytes(t, First(r.length, ratio));
      0 < size && size + TreeItems.HEAD <= TreeItems.AREA && size < 0x10000
  {
    IndexBounds(MaxSectors(t), ratio);
    var m := MaxClusters(t, ratio);
    if r.length < m {
      FirstGrows(r.length, m, ratio);
    }
    FirstGrows(0, r.length, ratio);
  }

  lemma MaxIsPositive(t: Csum, ratio: nat)
    requires 0 < ratio <= 256
    ensures 0 < MaxClusters(t, ratio)
  {
    IndexBounds(MaxSectors(t), ratio);
    assert First(0, ratio) == 0;
  }
}
