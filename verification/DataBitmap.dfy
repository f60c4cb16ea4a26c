/**
 * Runs of used clusters, kept per chunk: what `parse_data_bitmap` makes of the bitmap.
 */
module DataBitmap {
  import opened BitmapScan
  import opened BitmapTail
  import opened ChunkMath

  type RunMap = map<nat, seq<Run>>

  function Of(runs: RunMap, k: nat): seq<Run> {
    if k in runs then runs[k] else []
  }

  // The part of a run that lies in chunk `k`.
  function Clip(r: Run, k: nat, n: nat): seq<Run> {
    var from := if r.offset < First(k, n) then First(k, n) else r.offset;
    var to := if First(k, n) + n < r.End() then First(k, n) + n else r.End();
    if from < to then [Run(from, to - from)] else []
  }

  function Clips(runs: seq<Run>, k: nat, n: nat): seq<Run> {
    if runs == [] then [] else Clips(runs[..|runs| - 1], k, n) + Clip(runs[|runs| - 1], k, n)
  }

  // Chunk by chunk, what adding a run does.
  ghost predicate Adds(runs: RunMap, runs': RunMap, r: Run, n: nat) {
    forall k: nat :: Of(runs', k) == Of(runs, k) + Clip(r, k, n)
  }

  predicate NoneEmpty(runs: RunMap) {
    forall k :: k in runs ==> runs[k] != []
  }

  // `add_run`: the run is cut at chunk boundaries.
  method AddRun(before: RunMap, r: Run, n: nat) returns (runs: RunMap)
    requires 0 < n && 0 < r.length
    ensures Adds(before, runs, r, n) && (NoneEmpty(before) ==> NoneEmpty(runs))
  {
    hide Adds, NoneEmpty;
    runs := before;
    AddsNothing(before, r.offset, n);
    var start, pos := r.offset, r.End();
    ghost var done := Run(r.offset, 0);
    while true
      invariant r.offset <= start < pos == r.End() && done == Run(r.offset, start - r.offset)
      invariant start == r.offset || start == First(Index(start, n), n)
      invariant Adds(before, runs, done, n) && (NoneEmpty(before) ==> NoneEmpty(runs))
      decreases pos - start
    {
      var chunk := Index(start, n);
      var end := if Index(pos, n) != chunk then start + (n - Rem(start, n)) else pos;
      PieceIsClip(start, pos, n);
      ghost var was := runs;
      runs := runs[chunk := Of(runs, chunk) + [Run(start, end - start)]];
      AddsNext(before, was, runs, r.offset, start, end, n);
      done := Run(r.offset, end - r.offset);
      start := end;
      if start == pos {
        break;
      }
      IndexIsUnique(start, n, chunk + 1);
    }
  }

  lemma AddsNothing(runs: RunMap, offset: nat, n: nat)
    ensures Adds(runs, runs, Run(offset, 0), n)
  {
  }

  lemma AddsNext(before: RunMap, was: RunMap, runs: RunMap, from: nat, start: nat, end: nat, n: nat)
    requires 0 < n && from <= start < end <= First(Index(start, n), n) + n
    requires start == from || start == First(Index(start, n), n)
    requires Adds(before, was, Run(from, start - from), n)
    requires runs == was[Index(start, n) := Of(was, Index(start, n)) + [Run(start, end - start)]]
    ensures Adds(before, runs, Run(from, end - from), n)
    ensures (NoneEmpty(before) ==> NoneEmpty(was)) ==> (NoneEmpty(before) ==> NoneEmpty(runs))
  {
    hide Clip;
    forall k: nat
      ensures Of(runs, k) == Of(before, k) + Clip(Run(from, end - from), k, n)
    {
      assert Of(was, k) == Of(before, k) + Clip(Run(from, start - from), k, n);
      ClipGrows(from, start, end, k, n);
    }
  }

  // How far the piece beginning at `start` goes.
  lemma PieceIsClip(start: nat, pos: nat, n: nat)
    requires 0 < n && start < pos
    ensures Index(pos, n) != Index(start, n) ==> start < start + (n - Rem(start, n)) <= pos
    ensures Index(pos, n) == Index(start, n) ==> pos < First(Index(start, n), n) + n
  {
    IndexBounds(start, n);
    IndexBounds(pos, n);
    IndexGrows(start, pos, n);
    if Index(start, n) < Index(pos, n) {
      FirstGrows(Index(start, n), Index(pos, n), n);
    }
  }

  // A piece within one chunk extends what was there of a run that reached it.
  lemma ClipGrows(from: nat, start: nat, end: nat, k: nat, n: nat)
    requires 0 < n && from <= start < end <= First(Index(start, n), n) + n
    requires start == from || start == First(Index(start, n), n)
    ensures Clip(Run(from, end - from), k, n)
         == Clip(Run(from, start - from), k, n) + (if k == Index(start, n) then [Run(start, end - start)] else [])
  {
    var c := Index(start, n);
    IndexBounds(start, n);
    if k < c {
      FirstGrows(k, c, n);
    } else if c < k {
      FirstGrows(c, k, n);
    }
  }

  lemma ClipsNext(runs: seq<Run>, i: nat, k: nat, n: nat)
    requires i < |runs|
    ensures Clips(runs[..i + 1], k, n) == Clips(runs[..i], k, n) + Clip(runs[i], k, n)
  {
    assert runs[..i + 1][..i] == runs[..i];
  }

  // `parse_data_bitmap`.
  method ParseDataBitmap(bits: seq<bool>, n: nat) returns (runs: RunMap)
    requires 0 < n && |bits| % 8 == 0
    ensures forall k: nat :: Of(runs, k) == Clips(CodeRuns(bits), k, n)
    ensures NoneEmpty(runs)
  {
    var all := ParseBitmap(bits);
    runs := map[];
    var i: nat := 0;
    CodeRunsAreSeparate(bits);
    while i < |all|
      invariant i <= |all| && NoneEmpty(runs)
      invariant forall k: nat :: Of(runs, k) == Clips(all[..i], k, n)
    {
      hide Clips, CodeRuns, Clip;
      ghost var was := runs;
      runs := AddRun(runs, all[i], n);
      forall k: nat
        ensures Of(runs, k) == Clips(all[..i + 1], k, n)
      {
        assert Of(was, k) == Clips(all[..i], k, n);
        ClipsNext(all, i, k, n);
      }
      i := i + 1;
    }
    assert all[..i] == all;
  }

  lemma ClipHas(r: Run, k: nat, n: nat, x: nat)
    requires 0 < n
    ensures InRuns(Clip(r, k, n), x) <==> r.Has(x) && Index(x, n) == k
  {
    IndexBounds(x, n);
    if First(k, n) <= x < First(k, n) + n {
      IndexIsUnique(x, n, k);
    }
    if r.Has(x) && Index(x, n) == k {
      assert Clip(r, k, n)[0].Has(x);
    }
  }

  lemma {:induction false} ClipsHave(runs: seq<Run>, k: nat, n: nat, x: nat)
    requires 0 < n
    ensures InRuns(Clips(runs, k, n), x) <==> InRuns(runs, x) && Index(x, n) == k
    decreases |runs|
  {
    if runs != [] {
      var front, r := runs[..|runs| - 1], runs[|runs| - 1];
      assert runs == front + [r];
      ClipsHave(front, k, n, x);
      ClipHas(r, k, n, x);
      RunsNext(front, r, x);
      InConcat(Clips(front, k, n), Clip(r, k, n), x);
    }
  }

  lemma InConcat(a: seq<Run>, b: seq<Run>, x: int)
    ensures InRuns(a + b, x) <==> InRuns(a, x) || InRuns(b, x)
  {
    if InRuns(a, x) {
      var i :| 0 <= i < |a| && a[i].Has(x);
      assert (a + b)[i].Has(x);
    }
    if InRuns(b, x) {
      var i :| 0 <= i < |b| && b[i].Has(x);
      assert (a + b)[|a| + i].Has(x);
    }
  }

  // The runs of one chunk, in order and inside it.
  predicate ChunkRuns(runs: seq<Run>, k: nat, n: nat) {
    Separate(runs) && forall i :: 0 <= i < |runs| ==> First(k, n) <= runs[i].offset && runs[i].End() <= First(k, n) + n
  }

  lemma {:induction false} ClipsAreChunkRuns(runs: seq<Run>, k: nat, n: nat)
    requires Separate(runs)
    ensures ChunkRuns(Clips(runs, k, n), k, n)
    ensures EndBy(Clips(runs, k, n), if runs == [] then 0 else runs[|runs| - 1].End())
    decreases |runs|
  {
    if runs != [] {
      var front, r := runs[..|runs| - 1], runs[|runs| - 1];
      ClipsAreChunkRuns(front, k, n);
      assert front != [] ==> runs[|front| - 1].End() < r.offset;
      ChunkRunsNext(Clips(front, k, n), r, if front == [] then 0 else front[|front| - 1].End(), k, n);
    }
  }

  predicate EndBy(runs: seq<Run>, end: nat) {
    forall i :: 0 <= i < |runs| ==> runs[i].End() <= end
  }

  lemma ChunkRunsNext(runs: seq<Run>, r: Run, end: nat, k: nat, n: nat)
    requires ChunkRuns(runs, k, n) && EndBy(runs, end) && (runs != [] ==> end < r.offset) && 0 < r.length
    ensures ChunkRuns(runs + Clip(r, k, n), k, n) && EndBy(runs + Clip(r, k, n), r.End())
  {
  }

  // Each chunk's list is in order and cut at the chunk's ends; and where the tail of the bitmap
  // stays in step it holds the chunk's used clusters, all of them and no others.
  lemma DataBitmapIsExact(bits: seq<bool>, k: nat, n: nat, x: nat)
    requires 0 < n && |bits| % 8 == 0 && x < |bits|
    ensures ChunkRuns(Clips(CodeRuns(bits), k, n), k, n)
    ensures TailInStep(bits) ==> InRuns(Clips(CodeRuns(bits), k, n), x) == (bits[x] && Index(x, n) == k)
  {
    ParseIsExactWhenInStep(bits);
    CodeRunsAreSeparate(bits);
    ClipsAreChunkRuns(CodeRuns(bits), k, n);
    ClipsHave(CodeRuns(bits), k, n, x);
  }

  // ----- runs that pass the device's end -----

  // The clusters that begin within the first `size` bytes.
  function ClustersIn(size: nat, cs: nat): nat
    requires 0 < cs
  {
    Index(size + cs - 1, cs)
  }

  lemma BeginsBefore(x: nat, size: nat, cs: nat)
    requires 0 < cs
    ensures x < ClustersIn(size, cs) <==> First(x, cs) < size
  {
    var i := ClustersIn(size, cs);
    IndexBounds(size + cs - 1, cs);
    if x < i {
      FirstGrows(x, i, cs);
    } else if i < x {
      FirstGrows(i, x, cs);
    }
  }

  // What `len` bytes from the start of cluster `x` on reach: whole clusters, and one more if any are left.
  lemma {:induction false} RestOfClusters(x: nat, len: nat, cs: nat)
    requires 0 < cs
    ensures x + (if Rem(len, cs) != 0 then Index(len, cs) + 1 else Index(len, cs))
         == ClustersIn(First(x, cs) + len, cs)
  {
    var i, r := Index(len, cs), Rem(len, cs);
    var q := if r != 0 then i + 1 else i;
    FirstAdds(x, q, cs);
    hide Index, Rem;
    assert First(i + 1, cs) == First(i, cs) + cs;
    hide First;
    IndexIsUnique(First(x, cs) + len + cs - 1, cs, x + q);
  }

  // No cluster begins between the two sizes of the device: all used of it, and its sectors.
  ghost predicate SameClusters(device: nat, orig: nat, cs: nat) {
    forall x: nat :: device < First(x, cs) ==> orig <= First(x, cs)
  }

  ghost predicate AllChunkRuns(runs: RunMap, n: nat) {
    forall k :: k in runs ==> ChunkRuns(runs[k], k, n)
  }

  // Cluster `x` is in a run of chunk `k`.
  predicate RunHas(runs: RunMap, k: nat, x: nat) {
    InRuns(Of(runs, k), x)
  }

  // Of the clusters in runs those before `size` are left.
  ghost predicate Cropped(runs: RunMap, runs': RunMap, size: nat) {
    forall k: nat, x: nat :: RunHas(runs', k, x) <==> RunHas(runs, k, x) && x < size
  }

  // And perhaps some of the others.
  ghost predicate Cropping(runs: RunMap, runs': RunMap, size: nat) {
    && (forall k: nat, x: nat :: RunHas(runs', k, x) ==> RunHas(runs, k, x))
    && (forall k: nat, x: nat :: RunHas(runs, k, x) && x < size ==> RunHas(runs', k, x))
  }

  lemma CroppingDone(runs: RunMap, runs': RunMap, size: nat)
    requires Cropping(runs, runs', size) && forall k: nat, x: nat :: RunHas(runs', k, x) ==> x < size
    ensures Cropped(runs, runs', size)
  {
    hide RunHas;
  }

  // In the last list the last run ends last.
  lemma LastEnds(runs: RunMap, k: nat, n: nat)
    requires AllChunkRuns(runs, n) && k in runs && runs[k] != [] && forall j :: j in runs ==> j <= k
    ensures forall j: nat, x: nat :: RunHas(runs, j, x) ==> x < runs[k][|runs[k]| - 1].End()
  {
    hide First;
    var last := runs[k][|runs[k]| - 1];
    assert ChunkRuns(runs[k], k, n);
    forall j: nat, x: nat | RunHas(runs, j, x)
      ensures x < last.End()
    {
      var i :| 0 <= i < |runs[j]| && runs[j][i].Has(x);
      assert ChunkRuns(runs[j], j, n);
      if j < k {
        FirstGrows(j, k, n);
      }
    }
  }

  lemma FrontRuns(list: seq<Run>, k: nat, n: nat)
    requires ChunkRuns(list, k, n) && list != []
    ensures ChunkRuns(list[..|list| - 1], k, n)
    ensures forall x :: InRuns(list, x) <==> InRuns(list[..|list| - 1], x) || list[|list| - 1].Has(x)
  {
    var front, r := list[..|list| - 1], list[|list| - 1];
    assert list == front + [r];
    forall x
      ensures InRuns(list, x) <==> InRuns(front, x) || r.Has(x)
    {
      RunsNext(front, r, x);
    }
  }

  // The last run goes, since it begins beyond the end.
  lemma PoppedCrops(runs0: RunMap, runs: RunMap, runs': RunMap, k: nat, n: nat, size: nat)
    requires Cropping(runs0, runs, size) && AllChunkRuns(runs, n) && NoneEmpty(runs) && k in runs
    requires size <= runs[k][|runs[k]| - 1].offset
    requires runs' == if |runs[k]| == 1 then runs - {k} else runs[k := runs[k][..|runs[k]| - 1]]
    ensures Cropping(runs0, runs', size) && AllChunkRuns(runs', n) && NoneEmpty(runs')
  {
    hide First, Separate;
    var list := runs[k];
    assert ChunkRuns(list, k, n);
    FrontRuns(list, k, n);
    assert Of(runs', k) == list[..|list| - 1];
    forall j: nat, x: nat
      ensures RunHas(runs', j, x) ==> RunHas(runs0, j, x)
      ensures RunHas(runs0, j, x) && x < size ==> RunHas(runs', j, x)
    {
      assert RunHas(runs, j, x) ==> RunHas(runs0, j, x);
      assert RunHas(runs0, j, x) && x < size ==> RunHas(runs, j, x);
    }
  }

  // Or it is cut off there.
  lemma CutCrops(runs0: RunMap, runs: RunMap, runs': RunMap, k: nat, n: nat, size: nat)
    requires Cropping(runs0, runs, size) && AllChunkRuns(runs, n) && NoneEmpty(runs) && k in runs
    requires forall j :: j in runs ==> j <= k
    requires var last := runs[k][|runs[k]| - 1];
      && last.offset < size <= last.End()
      && runs' == runs[k := runs[k][|runs[k]| - 1 := Run(last.offset, size - last.offset)]]
    ensures Cropped(runs0, runs', size) && AllChunkRuns(runs', n) && NoneEmpty(runs')
  {
    hide First;
    var list, last := runs[k], runs[k][|runs[k]| - 1];
    var front, r := list[..|list| - 1], Run(last.offset, size - last.offset);
    assert ChunkRuns(list, k, n);
    FrontRuns(list, k, n);
    assert runs'[k] == front + [r];
    assert ChunkRuns(runs'[k], k, n);
    LastEnds(runs', k, n);
    forall j: nat, x: nat
      ensures RunHas(runs', j, x) ==> RunHas(runs0, j, x)
      ensures RunHas(runs0, j, x) && x < size ==> RunHas(runs', j, x)
    {
      RunsNext(front, r, x);
      assert RunHas(runs, j, x) ==> RunHas(runs0, j, x);
      assert RunHas(runs0, j, x) && x < size ==> RunHas(runs, j, x);
    }
    CroppingDone(runs0, runs', size);
  }

  // Making sure that runs do not go beyond the end of the device: the last run of the last list is dropped
  // or shortened until it does not.
  method TrimRuns(runs0: RunMap, bound: nat, n: nat, cs: nat, device: nat, orig: nat) returns (runs: RunMap)
    requires 0 < n && 0 < cs && NoneEmpty(runs0) && AllChunkRuns(runs0, n)
    requires device <= orig && SameClusters(device, orig, cs)
    requires forall k :: k in runs0 ==> k < bound
    ensures Cropped(runs0, runs, ClustersIn(orig, cs)) && AllChunkRuns(runs, n) && NoneEmpty(runs)
    ensures forall k :: k in runs ==> k < bound
  {
    hide Cropping, Cropped, AllChunkRuns, NoneEmpty, SameClusters, First, Index;
    runs := runs0;
    CroppingNothing(runs0, ClustersIn(orig, cs));
    var k := bound;
    while 0 < k
      invariant k <= bound && forall j :: j in runs ==> j < k
      invariant Cropping(runs0, runs, ClustersIn(orig, cs)) && AllChunkRuns(runs, n) && NoneEmpty(runs)
      decreases k, if 0 < k then |Of(runs, k - 1)| else 0
    {
      if k - 1 !in runs {
        k := k - 1;
        continue;
      }
      ListIsNotEmpty(runs, k - 1);
      var list := runs[k - 1];
      var last := list[|list| - 1];
      if First(last.offset, cs) + First(last.length, cs) <= device {
        EndsInside(runs0, runs, k - 1, n, cs, device, orig);
        return;
      }
      if First(last.offset, cs) >= orig {
        BeginsBefore(last.offset, orig, cs);
        ghost var was := runs;
        runs := if |list| == 1 then runs - {k - 1} else runs[k - 1 := list[..|list| - 1]];
        PoppedCrops(runs0, was, runs, k - 1, n, ClustersIn(orig, cs));
      } else {
        var len := orig - First(last.offset, cs);
        var q := if Rem(len, cs) != 0 then Index(len, cs) + 1 else Index(len, cs);
        RestOfClusters(last.offset, len, cs);
        EndsOutside(last, cs, device, orig);
        ghost var was := runs;
        runs := runs[k - 1 := list[|list| - 1 := Run(last.offset, q)]];
        CutCrops(runs0, was, runs, k - 1, n, ClustersIn(orig, cs));
        return;
      }
    }
    NoneCropped(runs0, runs, ClustersIn(orig, cs));
  }

  lemma ListIsNotEmpty(runs: RunMap, k: nat)
    requires NoneEmpty(runs) && k in runs
    ensures runs[k] != []
  {
  }

  lemma CroppingNothing(runs: RunMap, size: nat)
    ensures Cropping(runs, runs, size)
  {
  }

  lemma NoneCropped(runs0: RunMap, runs: RunMap, size: nat)
    requires Cropping(runs0, runs, size) && forall j :: j in runs ==> j < 0
    ensures Cropped(runs0, runs, size)
  {
    assert forall k: nat, x: nat :: !RunHas(runs, k, x);
  }

  lemma EndsInside(runs0: RunMap, runs: RunMap, k: nat, n: nat, cs: nat, device: nat, orig: nat)
    requires 0 < cs && Cropping(runs0, runs, ClustersIn(orig, cs)) && AllChunkRuns(runs, n) && NoneEmpty(runs)
    requires k in runs && (forall j :: j in runs ==> j <= k) && device <= orig
    requires var last := runs[k][|runs[k]| - 1]; First(last.offset, cs) + First(last.length, cs) <= device
    ensures Cropped(runs0, runs, ClustersIn(orig, cs))
  {
    hide First, Index;
    var last := runs[k][|runs[k]| - 1];
    LastEnds(runs, k, n);
    FirstAdds(last.offset, last.length, cs);
    forall j: nat, x: nat | RunHas(runs, j, x)
      ensures x < ClustersIn(orig, cs)
    {
      FirstGrows(x, last.End(), cs);
      BeginsBefore(x, orig, cs);
    }
    CroppingDone(runs0, runs, ClustersIn(orig, cs));
  }

  // A run that ends beyond the device ends at or beyond its last cluster.
  lemma EndsOutside(last: Run, cs: nat, device: nat, orig: nat)
    requires 0 < cs && SameClusters(device, orig, cs) && device < First(last.offset, cs) + First(last.length, cs)
    requires First(last.offset, cs) < orig
    ensures last.offset < ClustersIn(orig, cs) <= last.End()
  {
    hide First, Index;
    FirstAdds(last.offset, last.length, cs);
    BeginsBefore(last.End(), orig, cs);
    BeginsBefore(last.offset, orig, cs);
    assert device < First(last.End(), cs);
  }
}
