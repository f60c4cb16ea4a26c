/**
 * The beginning of a conversion: the chunks carved from the bitmap, the runs parsed from it and cut off at
 * the end of the device. For which volumes they fit together, and that they then do.
 */
module Start {
  import opened ChunkMath
  import opened ChunkSteps
  import opened ChunkUse
  import opened ImageRollback
  import opened Joined
  import opened Protect
  import opened Room
  import opened RunLists
  import B = DataBitmap
  import Bits = BitmapScan
  import C = Conversion
  import D = DataChunks
  import P = ChunkAllocator
  import S = SpaceList
  import Tail = BitmapTail

  const SECTOR: nat := 0x1000

  // The volume: its length in whole sectors of Btrfs and as it was, its bitmap, the bytes in a cluster and
  // the clusters in a data chunk.
  datatype Volume = Volume(device: nat, orig: nat, bits: seq<bool>, cs: nat, n: nat)

  ghost predicate Geometry(v: Volume) {
    && DataChunkIs(v.n, v.cs) && Even(P.STRIPE, v.cs) && Even(v.cs, SECTOR) && Even(v.device, SECTOR)
    && P.RESERVED <= v.device <= v.orig < v.device + SECTOR && v.orig + 0x20_0000 < 0x1_0000_0000_0000_0000
    && |v.bits| % 8 == 0
  }

  // The cluster is on the device, and its bit is set.
  predicate InUse(v: Volume, x: nat)
    requires 0 < v.cs
  {
    x < |v.bits| && v.bits[x] && x < B.ClustersIn(v.orig, v.cs)
  }

  // ----- the stretches -----

  predicate HasStretch(v: Volume, j: nat) {
    First(j, v.n) < |v.bits| && First(j, P.DATA_CHUNK) < v.device
  }

  function ScannedIn(v: Volume, j: nat): nat
    requires 0 < v.cs && HasStretch(v, j)
  {
    D.Scanned(v.device, |v.bits|, v.cs, First(j, P.DATA_CHUNK), First(j, v.n))
  }

  function StretchOf(v: Volume, j: nat): D.Stretch
    requires 0 < v.cs && HasStretch(v, j)
  {
    D.Stretch(First(j, P.DATA_CHUNK), First(j, v.n), ScannedIn(v, j))
  }

  function PlanFrom(v: Volume, j: nat): seq<D.Stretch>
    requires 0 < v.cs && First(j, v.n) <= |v.bits|
  {
    D.Plan(v.device, |v.bits|, v.cs, First(j, P.DATA_CHUNK), First(j, v.n))
  }

  lemma GeometryIs(v: Volume)
    requires Geometry(v)
    ensures 0 < v.n && 0 < v.cs
  {
  }

  // A chunk holds a multiple of 32 clusters.
  lemma WholeWords(n: nat, cs: nat)
    requires DataChunkIs(n, cs) && Even(P.STRIPE, cs)
    ensures n % 32 == 0 && Index(P.DATA_CHUNK, cs) == n
  {
    hide First, Index;
    var m: nat :| P.STRIPE == First(m, cs);
    TimesStripe(0x800);
    FirstFirst(0x800, m, cs);
    FirstOrder(n, First(0x800, m), cs);
    FirstOrder(First(0x800, m), n, cs);
    FirstOf32(0x40);
    FirstFirst(0x40, 32, m);
    Times32(m);
    DivisibleTimes(0x40, First(32, m));
    IndexIsUnique(P.DATA_CHUNK, cs, n);
  }

  lemma {:induction false} TimesStripe(k: nat)
    ensures First(k, P.STRIPE) == 0x10000 * k
  {
    if 0 < k {
      TimesStripe(k - 1);
    }
  }

  lemma {:induction false} FirstOf32(k: nat)
    ensures First(k, 32) == 32 * k
  {
    if 0 < k {
      FirstOf32(k - 1);
    }
  }

  lemma Times32(m: nat)
    ensures First(32, m) == 32 * m
  {
    hide First;
    FirstOne(m);
    FirstAdds(1, 1, m);
    FirstAdds(2, 2, m);
    FirstAdds(4, 4, m);
    FirstAdds(8, 8, m);
    FirstAdds(16, 16, m);
  }

  lemma FirstOne(m: nat)
    ensures First(1, m) == m
  {
    assert First(0, m) == 0;
  }

  lemma {:induction false} DivisibleTimes(k: nat, m: nat)
    requires m % 32 == 0
    ensures First(k, m) % 32 == 0
  {
    if 0 < k {
      DivisibleTimes(k - 1, m);
    }
  }

  // A stretch that is followed by another has all its clusters looked at.
  lemma FullStretch(v: Volume, j: nat)
    requires Geometry(v) && HasStretch(v, j)
    ensures First(j + 1, v.n) <= |v.bits| && First(j + 1, P.DATA_CHUNK) <= v.device ==> ScannedIn(v, j) == v.n
    ensures |v.bits| < First(j + 1, v.n) && First(j + 1, P.DATA_CHUNK) <= v.device ==>
      First(j, v.n) + ScannedIn(v, j) == |v.bits|
    ensures ScannedIn(v, j) <= v.n && ScannedIn(v, j) % 8 == 0 && First(j, v.n) % 8 == 0
  {
    hide Index, First;
    WholeWords(v.n, v.cs);
    DivisibleTimes(j, v.n);
    JumpFirst(j, P.DATA_CHUNK);
    JumpFirst(j, v.n);
    var full := Index(D.Full(v.device, First(j, P.DATA_CHUNK)), v.cs);
    IndexGrows(D.Full(v.device, First(j, P.DATA_CHUNK)), P.DATA_CHUNK, v.cs);
    ByEights(v.n);
    ByEights(First(j, v.n));
    D.ScannedIsBytes(v.device, |v.bits|, v.cs, First(j, P.DATA_CHUNK), First(j, v.n));
    assert 8 * (full / 8) <= full <= v.n;
  }

  lemma ByEights(n: nat)
    requires n % 32 == 0
    ensures n % 8 == 0 && 8 * (n / 8) == n
  {
    var k := n / 32;
    assert n == 8 * (4 * k);
  }

  // What the plan consists of, from stretch `k` on.
  lemma {:induction false} PlanIs(v: Volume, k: nat, s: D.Stretch)
    requires Geometry(v) && First(k, v.n) <= |v.bits| && s in PlanFrom(v, k)
    ensures exists j: nat :: k <= j && HasStretch(v, j) && s == StretchOf(v, j)
    decreases v.device - First(k, P.DATA_CHUNK)
  {
    hide D.Scanned, First, Geometry;
    GeometryIs(v);
    PlanUnfolds(v, k);
    if s != StretchOf(v, k) {
      PlanIs(v, k + 1, s);
    }
  }

  // The plan from stretch `k` on.
  lemma PlanUnfolds(v: Volume, k: nat)
    requires Geometry(v) && First(k, v.n) <= |v.bits|
    ensures !HasStretch(v, k) ==> PlanFrom(v, k) == []
    ensures HasStretch(v, k) && HasStretch(v, k + 1) ==> PlanFrom(v, k) == [StretchOf(v, k)] + PlanFrom(v, k + 1)
    ensures HasStretch(v, k) && !HasStretch(v, k + 1) ==> PlanFrom(v, k) == [StretchOf(v, k)]
    ensures First(k, P.DATA_CHUNK) < First(k + 1, P.DATA_CHUNK) && First(k, v.n) < First(k + 1, v.n)
    ensures HasStretch(v, k) ==> First(k, P.DATA_CHUNK) <= v.device
    ensures HasStretch(v, k + 1) ==> First(k + 1, v.n) <= |v.bits|
  {
    hide D.Scanned;
    if HasStretch(v, k) {
      FullStretch(v, k);
      var rest := D.Plan(v.device, |v.bits|, v.cs, First(k + 1, P.DATA_CHUNK), First(k, v.n) + ScannedIn(v, k));
      assert PlanFrom(v, k) == [StretchOf(v, k)] + rest;
    }
  }

  lemma {:induction false} PlanHas(v: Volume, k: nat, j: nat)
    requires Geometry(v) && k <= j && HasStretch(v, j) && First(k, v.n) <= |v.bits|
    ensures StretchOf(v, j) in PlanFrom(v, k)
    decreases j - k
  {
    hide D.Scanned, First, Geometry;
    GeometryIs(v);
    PlanUnfolds(v, k);
    EarlierStretch(v, k, j);
    if k < j {
      EarlierStretch(v, k + 1, j);
      PlanHas(v, k + 1, j);
    }
  }

  lemma EarlierStretch(v: Volume, k: nat, j: nat)
    requires k <= j && HasStretch(v, j)
    ensures HasStretch(v, k)
  {
    if k < j {
      FirstGrows(k, j, v.n);
      FirstGrows(k, j, P.DATA_CHUNK);
    }
  }

  function PlanOf(v: Volume): seq<D.Stretch>
    requires 0 < v.cs
  {
    D.Plan(v.device, |v.bits|, v.cs, 0, 0)
  }

  lemma PlanIsOf(v: Volume, s: D.Stretch)
    requires Geometry(v)
    ensures s in PlanOf(v) <==> exists j: nat :: HasStretch(v, j) && s == StretchOf(v, j)
    ensures HasStretch(v, 0) ==> PlanOf(v) != [] && PlanOf(v)[0] == StretchOf(v, 0)
  {
    hide D.Scanned, Geometry;
    GeometryIs(v);
    FirstIsNone(v.n);
    FirstIsNone(P.DATA_CHUNK);
    PlanUnfolds(v, 0);
    if s in PlanOf(v) {
      PlanIs(v, 0, s);
    }
    if j: nat :| HasStretch(v, j) && s == StretchOf(v, j) {
      PlanHas(v, 0, j);
    }
  }

  lemma FirstIsNone(n: nat)
    ensures First(0, n) == 0
  {
  }

  // ----- what is looked at, and what is not -----

  // The part of the bitmap that stretch `j` looks at.
  function Slice(v: Volume, j: nat): seq<bool>
    requires 0 < v.cs && HasStretch(v, j)
  {
    v.bits[First(j, v.n)..First(j, v.n) + ScannedIn(v, j)]
  }

  predicate HasUsed(v: Volume, j: nat)
    requires 0 < v.cs
  {
    HasStretch(v, j) && D.UsedIn(v.bits, StretchOf(v, j)) != []
  }

  // Cluster `x` is among those its stretch looks at.
  predicate Seen(v: Volume, x: nat)
    requires 0 < v.n && 0 < v.cs
  {
    var j := Index(x, v.n);
    HasStretch(v, j) && x < First(j, v.n) + ScannedIn(v, j)
  }

  // Up to where chunks may reach into the stretch at the device's end: the end of its chunk when it has
  // used clusters, the end of a chunk that could be carved there when it has none.
  function Reach(v: Volume): nat
    requires 0 < v.cs
  {
    var l := Index(v.device, P.DATA_CHUNK);
    if HasUsed(v, l) then First(l, P.DATA_CHUNK) + D.ChunkLength(v.device, First(l, P.DATA_CHUNK))
    else if First(l + 1, P.DATA_CHUNK) <= P.RESERVED + v.device then First(l + 1, P.DATA_CHUNK)
    else 0
  }

  // The volumes this is about: cluster 0, where the boot sector is, is in use; the scans of the bitmap are in
  // step; no used run begins beyond the end of its chunk; and no used cluster that is not looked at is where a
  // chunk may be.
  ghost predicate Clean(v: Volume) {
    && Geometry(v) && v.bits != [] && v.bits[0]
    && Tail.TailInStep(v.bits) && (forall j: nat :: HasStretch(v, j) ==> Tail.TailInStep(Slice(v, j)))
    && D.AllInside(v.device, v.bits, v.cs, PlanOf(v))
    && (forall x: nat :: InUse(v, x) && !Seen(v, x) ==> Reach(v) <= First(x, v.cs))
  }

  // Only clusters of the stretch at the device's end, or beyond it, are not looked at.
  lemma UnseenIsLast(v: Volume, x: nat)
    requires Geometry(v) && x < |v.bits| && !Seen(v, x)
    ensures Index(v.device, P.DATA_CHUNK) <= Index(x, v.n)
  {
    hide D.Scanned;
    var j, l := Index(x, v.n), Index(v.device, P.DATA_CHUNK);
    IndexBounds(x, v.n);
    IndexBounds(v.device, P.DATA_CHUNK);
    if j < l {
      FirstGrows(j, l, P.DATA_CHUNK);
      assert HasStretch(v, j);
      FullStretch(v, j);
    }
  }

  lemma StretchIsNotLater(v: Volume, j: nat)
    requires HasStretch(v, j)
    ensures j <= Index(v.device, P.DATA_CHUNK)
  {
    var l := Index(v.device, P.DATA_CHUNK);
    IndexBounds(v.device, P.DATA_CHUNK);
    if l < j {
      FirstGrows(l, j, P.DATA_CHUNK);
    }
  }

  // The runs of a stretch are the used clusters it looks at.
  lemma SeenIs(v: Volume, j: nat, x: nat)
    requires Clean(v) && HasStretch(v, j) && First(j, v.n) <= x < First(j, v.n) + ScannedIn(v, j)
    ensures v.bits[x] <==> Bits.InRuns(D.UsedIn(v.bits, StretchOf(v, j)), x - First(j, v.n))
  {
    hide Tail.CodeRuns, Tail.TailInStep, D.Scanned, D.AllInside, Reach, First;
    FullStretch(v, j);
    var slice := Slice(v, j);
    Tail.ParseIsExactWhenInStep(slice);
    assert slice[x - First(j, v.n)] == v.bits[x];
  }

  lemma UnusedIsClear(v: Volume, j: nat, x: nat)
    requires Clean(v) && !HasUsed(v, j) && Index(x, v.n) == j && Seen(v, x)
    ensures !v.bits[x]
  {
    hide Clean, D.UsedIn, D.Scanned, First;
    CleanIs(v);
    IndexBounds(x, v.n);
    SeenIs(v, j, x);
  }

  lemma CleanIs(v: Volume)
    requires Clean(v)
    ensures Geometry(v) && 0 < v.n && 0 < v.cs
  {
  }

  // ----- the runs -----

  function PlainOf(list: seq<Bits.Run>): (s: seq<Alloc>)
    ensures |s| == |list|
  {
    if list == [] then [] else [Alloc(list[0].offset, list[0].length, PLAIN)] + PlainOf(list[1..])
  }

  function PlainMap(runs: B.RunMap): RunMap {
    map k | k in runs :: PlainOf(runs[k])
  }

  lemma {:induction false} PlainIsSorted(list: seq<Bits.Run>, from: nat, to: nat)
    requires Bits.Separate(list) && from <= to
    requires forall i :: 0 <= i < |list| ==> from <= list[i].offset && list[i].End() <= to
    ensures RunLists.Sorted(PlainOf(list), from, to) && Units(PlainOf(list))
    decreases |list|
  {
    if list != [] {
      assert forall i :: 0 <= i < |list[1..]| ==> list[1..][i] == list[i + 1];
      PlainIsSorted(list[1..], list[0].End(), to);
    }
  }

  lemma {:induction false} PlainAt(list: seq<Bits.Run>, i: nat)
    requires i < |list|
    ensures PlainOf(list)[i] == Alloc(list[i].offset, list[i].length, PLAIN)
    decreases i
  {
    if 0 < i {
      PlainAt(list[1..], i - 1);
    }
  }

  // Between runs there is a gap.
  lemma PlainIsJoined(list: seq<Bits.Run>)
    requires Bits.Separate(list)
    ensures JoinedList(PlainOf(list))
  {
    var plain := PlainOf(list);
    forall a, b | a in plain && b in plain
      ensures a.End() != b.offset
    {
      var i :| 0 <= i < |plain| && plain[i] == a;
      var j :| 0 <= j < |plain| && plain[j] == b;
      PlainAt(list, i);
      PlainAt(list, j);
      assert i < j ==> list[i].End() < list[j].offset;
      assert j < i ==> list[j].End() < list[i].offset;
    }
    forall a | a in plain
      ensures a.owner == PLAIN
    {
      var i :| 0 <= i < |plain| && plain[i] == a;
      PlainAt(list, i);
    }
  }

  lemma {:induction false} PlainCovers(list: seq<Bits.Run>, x: nat)
    ensures Covered(PlainOf(list), x) <==> Bits.InRuns(list, x)
    ensures OwnerOf(PlainOf(list), x) == PLAIN
    decreases |list|
  {
    if list != [] {
      PlainCovers(list[1..], x);
      assert forall i :: 0 <= i < |list[1..]| ==> list[1..][i] == list[i + 1];
      if Bits.InRuns(list, x) {
        var i :| 0 <= i < |list| && list[i].Has(x);
        assert i == 0 || list[1..][i - 1].Has(x);
      }
      if list[0].Has(x) || Bits.InRuns(list[1..], x) {
        assert list[0].Has(x) || exists i :: 0 < i < |list| && list[i].Has(x);
      }
    }
  }

  // The runs are the used clusters of the device.
  ghost predicate Parsed(v: Volume, runs: RunMap)
    requires 0 < v.n && 0 < v.cs
  {
    && RunsOk(runs, v.n) && AllUnits(runs) && AllJoined(runs)
    && (forall x: nat :: CoveredAt(runs, x, v.n) <==> InUse(v, x))
    && (forall x: nat :: OwnerAt(runs, x, v.n) == PLAIN)
  }

  lemma ParsedIs(v: Volume, parsed: B.RunMap, runs: B.RunMap)
    requires 0 < v.n && 0 < v.cs && |v.bits| % 8 == 0 && Tail.TailInStep(v.bits)
    requires forall k: nat :: B.Of(parsed, k) == B.Clips(Tail.CodeRuns(v.bits), k, v.n)
    requires B.Cropped(parsed, runs, B.ClustersIn(v.orig, v.cs)) && B.AllChunkRuns(runs, v.n)
    ensures Parsed(v, PlainMap(runs))
  {
    hide First, B.ClustersIn, Tail.CodeRuns, Tail.TailInStep, B.Clips, Bits.InRuns, Covered, OwnerOf, JoinedList;
    var plain := PlainMap(runs);
    forall k | k in plain
      ensures RunLists.Sorted(plain[k], First(k, v.n), First(k, v.n) + v.n) && Units(plain[k])
      ensures JoinedList(plain[k])
    {
      assert B.ChunkRuns(runs[k], k, v.n);
      PlainIsJoined(runs[k]);
      PlainIsSorted(runs[k], First(k, v.n), First(k, v.n) + v.n);
    }
    forall x: nat
      ensures CoveredAt(plain, x, v.n) <==> InUse(v, x)
      ensures OwnerAt(plain, x, v.n) == PLAIN
    {
      var k := Index(x, v.n);
      NoneIsPlain();
      PlainCovers(B.Of(runs, k), x);
      assert ListOf(plain, k) == PlainOf(B.Of(runs, k));
      assert B.RunHas(runs, k, x) <==> B.RunHas(parsed, k, x) && x < B.ClustersIn(v.orig, v.cs);
      BitIs(v, k, x);
    }
  }

  lemma NoneIsPlain()
    ensures PlainOf([]) == []
  {
  }

  lemma BitIs(v: Volume, k: nat, x: nat)
    requires 0 < v.n && |v.bits| % 8 == 0 && Tail.TailInStep(v.bits) && k == Index(x, v.n)
    ensures Bits.InRuns(B.Clips(Tail.CodeRuns(v.bits), k, v.n), x) <==> x < |v.bits| && v.bits[x]
  {
    if x < |v.bits| {
      B.DataBitmapIsExact(v.bits, k, v.n, x);
    } else {
      B.ClipsHave(Tail.CodeRuns(v.bits), k, v.n, x);
      Tail.CodeRunsAreSeparate(v.bits);
    }
  }

  // The last list with runs.
  lemma KeysAreFew(v: Volume, parsed: B.RunMap)
    requires 0 < v.n && B.NoneEmpty(parsed)
    requires forall k: nat :: B.Of(parsed, k) == B.Clips(Tail.CodeRuns(v.bits), k, v.n)
    ensures forall k :: k in parsed ==> k < Index(|v.bits|, v.n) + 1
    ensures B.AllChunkRuns(parsed, v.n)
  {
    hide Tail.CodeRuns, Index, First;
    var runs := Tail.CodeRuns(v.bits);
    Tail.CodeRunsAreSeparate(v.bits);
    forall k | k in parsed
      ensures k < Index(|v.bits|, v.n) + 1 && B.ChunkRuns(parsed[k], k, v.n)
    {
      assert B.Of(parsed, k) == B.Clips(runs, k, v.n);
      B.ClipsAreChunkRuns(runs, k, v.n);
      var r := parsed[k][0];
      assert First(k, v.n) <= r.offset && r.End() <= |v.bits|;
      IndexBounds(|v.bits|, v.n);
      if Index(|v.bits|, v.n) < k {
        FirstGrows(Index(|v.bits|, v.n), k, v.n);
      }
    }
  }

  // The device loses less than a sector, and clusters are whole sectors.
  lemma SectorsAreFew(v: Volume)
    requires Geometry(v)
    ensures B.SameClusters(v.device, v.orig, v.cs)
  {
    hide First;
    var q: nat :| v.cs == First(q, SECTOR);
    var d: nat :| v.device == First(d, SECTOR);
    forall x: nat | v.device < First(x, v.cs)
      ensures v.orig <= First(x, v.cs)
    {
      FirstFirst(x, q, SECTOR);
      FirstOrder(d, First(x, q), SECTOR);
      FirstGrows(d, First(x, q), SECTOR);
    }
  }

  // `parse_data_bitmap`, and the loop of `convert` that keeps the runs on the device.
  method ParseRuns(v: Volume) returns (runs: RunMap)
    requires Geometry(v) && Tail.TailInStep(v.bits)
    ensures Parsed(v, runs) && forall k :: k in runs ==> k < Index(|v.bits|, v.n) + 1
  {
    hide Tail.CodeRuns, Tail.TailInStep, B.Clips, Parsed, B.NoneEmpty, B.AllChunkRuns, B.Cropped, B.SameClusters, Index;
    var parsed := B.ParseDataBitmap(v.bits, v.n);
    KeysAreFew(v, parsed);
    SectorsAreFew(v);
    var runs' := B.TrimRuns(parsed, Index(|v.bits|, v.n) + 1, v.n, v.cs, v.device, v.orig);
    ParsedIs(v, parsed, runs');
    runs := PlainMap(runs');
  }

  // ----- the chunks -----

  lemma ChunkOf(v: Volume, c: P.Chunk) returns (j: nat)
    requires Geometry(v) && D.FromStretch(c, v.device, v.bits, v.cs, PlanOf(v))
    ensures HasUsed(v, j) && D.CarvedFrom(c, v.device, v.bits, v.cs, StretchOf(v, j))
  {
    hide D.CarvedFrom, D.UsedIn, D.Scanned, First;
    var s :| s in PlanOf(v) && D.UsedIn(v.bits, s) != [] && D.CarvedFrom(c, v.device, v.bits, v.cs, s);
    PlanIsOf(v, s);
    j :| HasStretch(v, j) && s == StretchOf(v, j);
  }

  lemma StretchIsAt(j: nat)
    ensures D.Shift(First(j, P.DATA_CHUNK)) == if j == 0 then P.RESERVED else 0
    ensures ChunkAt(j) == First(j, P.DATA_CHUNK) + D.Shift(First(j, P.DATA_CHUNK)) + P.VIRT
  {
    if 0 < j {
      FirstGrows(0, j, P.DATA_CHUNK);
    }
  }

  // A stretch's chunk is where the stretch's list expects it.
  lemma ChunkIsPlaced(v: Volume, c: P.Chunk, j: nat)
    requires Geometry(v) && HasStretch(v, j) && D.CarvedFrom(c, v.device, v.bits, v.cs, StretchOf(v, j))
    ensures PlacedIn(c, P.RESERVED + v.device, v.cs) && c.used == 0
  {
    hide First, D.Scanned, D.UsedByte;
    var addr := First(j, P.DATA_CHUNK);
    StretchIsAt(j);
    JumpFirst(j, P.DATA_CHUNK);
    EvenAt(j);
    D.StretchIsEven(v.device, addr, v.cs);
    EvenOf64K(0, v.cs);
    EvenOf64K(16, v.cs);
    EvenAdds(addr, D.Shift(addr), v.cs);
    EvenAdds(D.ChunkLength(v.device, addr), D.Shift(addr), v.cs);
  }

  lemma JumpFirst(j: nat, n: nat)
    ensures First(j + 1, n) == First(j, n) + n
  {
  }

  lemma EvenAt(j: nat)
    ensures Even(First(j, P.DATA_CHUNK), P.DATA_CHUNK)
  {
  }

  // The byte of cluster `x` that is in stretch `j`.
  lemma ByteInStretch(v: Volume, j: nat, b: nat)
    requires DataChunkIs(v.n, v.cs) && First(j, P.DATA_CHUNK) <= b
    ensures First(j, v.n) <= Index(b, v.cs)
    ensures Index(b - First(j, P.DATA_CHUNK), v.cs) == Index(b, v.cs) - First(j, v.n)
    ensures Index(Index(b, v.cs), v.n) == j <==> b < First(j + 1, P.DATA_CHUNK)
  {
    hide First, Index;
    var x, at := Index(b, v.cs), First(j, v.n);
    FirstFirst(j, v.n, v.cs);
    FirstFirst(j + 1, v.n, v.cs);
    JumpFirst(j, v.n);
    IndexBounds(b, v.cs);
    if x < at {
      FirstGrows(x, at, v.cs);
    }
    FirstAdds(at, x - at, v.cs);
    IndexIsUnique(b - First(j, P.DATA_CHUNK), v.cs, x - at);
    FirstOrder(x, at + v.n, v.cs);
    if x < at + v.n {
      IndexIsUnique(x, v.n, j);
      FirstGrows(x, at + v.n, v.cs);
    } else {
      IndexBounds(x, v.n);
      FirstOrder(at + v.n, x, v.cs);
    }
  }

  // A used cluster that is not looked at is beyond the chunk of its stretch.
  lemma UnseenIsBeyond(v: Volume, j: nat, x: nat)
    requires Clean(v) && HasUsed(v, j) && Index(x, v.n) == j && InUse(v, x) && !Seen(v, x)
    ensures First(j, P.DATA_CHUNK) + D.ChunkLength(v.device, First(j, P.DATA_CHUNK)) <= First(x, v.cs)
  {
    hide D.UsedIn, D.Scanned, D.ChunkLength, First, Index;
    UnseenIsLast(v, x);
    StretchIsNotLater(v, j);
  }

  lemma SpareIsUnused(v: Volume, c: P.Chunk, j: nat, b: nat)
    requires Clean(v) && HasUsed(v, j) && D.CarvedFrom(c, v.device, v.bits, v.cs, StretchOf(v, j)) && c.Spare(b)
    ensures !InUse(v, Index(b, v.cs))
  {
    hide Clean, D.UsedIn, D.Scanned, First, Index, InUse, Seen;
    CleanIs(v);
    var x, addr := Index(b, v.cs), First(j, P.DATA_CHUNK);
    StretchIsAt(j);
    JumpFirst(j, P.DATA_CHUNK);
    ByteInStretch(v, j, b);
    IndexBounds(b, v.cs);
    if InUse(v, x) {
      if Seen(v, x) {
        UsedIsNotSpare(v, c, j, b);
      } else {
        UnseenIsBeyond(v, j, x);
      }
      assert false;
    }
  }

  lemma UsedIsNotSpare(v: Volume, c: P.Chunk, j: nat, b: nat)
    requires Clean(v) && HasStretch(v, j) && D.CarvedFrom(c, v.device, v.bits, v.cs, StretchOf(v, j))
    requires First(j, P.DATA_CHUNK) <= b < First(j + 1, P.DATA_CHUNK)
    requires InUse(v, Index(b, v.cs)) && Seen(v, Index(b, v.cs))
    ensures !c.Spare(b)
  {
    hide Clean, D.UsedIn, D.Scanned, First, Index;
    CleanIs(v);
    ByteInStretch(v, j, b);
    SeenIs(v, j, Index(b, v.cs));
  }

  // ----- the device-wide free list -----

  // The pieces of an entry that make whole chunks.
  lemma PieceOf(s: S.Space, b: nat, j: nat)
    requires Even(s.offset, P.DATA_CHUNK) && InWhole(s, b) && j == Index(b, P.DATA_CHUNK)
    ensures s.offset <= First(j, P.DATA_CHUNK) <= b < First(j + 1, P.DATA_CHUNK) <= s.End()
  {
    hide First, Index;
    var o, w := Index(s.offset, P.DATA_CHUNK), Index(s.length, P.DATA_CHUNK);
    EvenIndex(s.offset, P.DATA_CHUNK);
    IndexBounds(b, P.DATA_CHUNK);
    IndexBounds(s.length, P.DATA_CHUNK);
    FirstAdds(o, w, P.DATA_CHUNK);
    JumpFirst(j, P.DATA_CHUNK);
    if j < o {
      FirstGrows(j, o, P.DATA_CHUNK);
    } else if o < j {
      FirstGrows(o, j, P.DATA_CHUNK);
    }
    if j + 1 < o + w {
      FirstGrows(j + 1, o + w, P.DATA_CHUNK);
    } else if o + w < j + 1 {
      FirstOrder(o + w, j, P.DATA_CHUNK);
    }
  }

  // Where a whole chunk can be carved its stretch has no chunk.
  lemma PieceIsUnused(v: Volume, chunks: seq<P.Chunk>, spaces: seq<S.Space>, s: S.Space, j: nat)
    requires Geometry(v) && s in spaces && HasStretch(v, j)
    requires D.CarvedSoFar(chunks, spaces, v.device, v.bits, v.cs, PlanOf(v), v.device + P.DATA_CHUNK)
    requires s.offset <= First(j, P.DATA_CHUNK) && First(j + 1, P.DATA_CHUNK) <= s.End() <= P.RESERVED + v.device
    ensures !HasUsed(v, j)
  {
    hide D.UsedIn, D.Scanned, First, P.ChunksApart, S.Sorted;
    if HasUsed(v, j) {
      PlanIsOf(v, StretchOf(v, j));
      var c :| c in chunks && D.CarvedFrom(c, v.device, v.bits, v.cs, StretchOf(v, j));
      PieceHasChunk(v, c, s, j);
      assert false;
    }
  }

  lemma PieceHasChunk(v: Volume, c: P.Chunk, s: S.Space, j: nat)
    requires Geometry(v) && HasStretch(v, j) && D.CarvedFrom(c, v.device, v.bits, v.cs, StretchOf(v, j))
    requires s.offset <= First(j, P.DATA_CHUNK) && First(j + 1, P.DATA_CHUNK) <= s.End() <= P.RESERVED + v.device
    ensures c.Holds(c.diskStart) && s.Has(c.diskStart)
  {
    hide D.UsedIn, D.Scanned, First;
    JumpFirst(j, P.DATA_CHUNK);
    StretchIsAt(j);
  }

  lemma LongIsUnusedAt(v: Volume, chunks: seq<P.Chunk>, spaces: seq<S.Space>, s: S.Space, b: nat)
    requires Clean(v) && s in spaces && InWhole(s, b) && Even(s.offset, P.DATA_CHUNK)
    requires D.CarvedSoFar(chunks, spaces, v.device, v.bits, v.cs, PlanOf(v), v.device + P.DATA_CHUNK)
    requires s.End() <= P.RESERVED + v.device
    ensures !InUse(v, Index(b, v.cs))
  {
    hide D.CarvedSoFar, D.UsedIn, D.Scanned, First, Index, Seen;
    var x, j := Index(b, v.cs), Index(b, P.DATA_CHUNK);
    PieceOf(s, b, j);
    ByteInStretch(v, j, b);
    JumpFirst(j, P.DATA_CHUNK);
    if InUse(v, x) {
      assert HasStretch(v, j);
      PieceIsUnused(v, chunks, spaces, s, j);
      if Seen(v, x) {
        UnusedIsClear(v, j, x);
      } else {
        UnseenIsPast(v, j, b);
      }
      assert false;
    }
  }

  lemma UnseenIsPast(v: Volume, j: nat, b: nat)
    requires Clean(v) && HasStretch(v, j) && !HasUsed(v, j) && First(j + 1, P.DATA_CHUNK) <= P.RESERVED + v.device
    requires Index(Index(b, v.cs), v.n) == j && InUse(v, Index(b, v.cs)) && !Seen(v, Index(b, v.cs))
    ensures First(j + 1, P.DATA_CHUNK) <= b
  {
    hide D.UsedIn, D.Scanned, D.AllInside, First, Index, Seen;
    var x := Index(b, v.cs);
    UnseenIsLast(v, x);
    StretchIsNotLater(v, j);
    IndexBounds(b, v.cs);
  }

  lemma StartIsApart(v: Volume, chunks: seq<P.Chunk>, spaces: seq<S.Space>, runs: RunMap)
    requires Clean(v) && Parsed(v, runs)
    requires D.CarvedSoFar(chunks, spaces, v.device, v.bits, v.cs, PlanOf(v), v.device + P.DATA_CHUNK)
    requires D.Gridded(chunks, spaces, v.device, v.bits, v.cs, PlanOf(v), v.device + P.DATA_CHUNK)
    ensures KeptApart(chunks, spaces, P.RESERVED + v.device, runs, v.n, v.cs)
    ensures forall c :: c in chunks ==> c.used == 0
  {
    hide Clean, D.UsedIn, D.Scanned, First, Index, InUse, CoveredAt, OwnerAt, P.Chunk.Spare, D.CarvedFrom, PlacedIn;
    hide RunsOk, AllUnits, S.Sorted, P.ChunksApart, D.FromStretch, Even, HasStretch;
    CleanIs(v);
    FirstIsUsed(v);
    forall c | c in chunks
      ensures PlacedIn(c, P.RESERVED + v.device, v.cs) && c.used == 0
      ensures forall b: nat :: c.Spare(b) ==> !CoveredAt(runs, Index(b, v.cs), v.n)
    {
      var j := ChunkOf(v, c);
      ChunkIsPlaced(v, c, j);
      forall b: nat | c.Spare(b)
        ensures !CoveredAt(runs, Index(b, v.cs), v.n)
      {
        SpareIsUnused(v, c, j, b);
      }
    }
    forall s, b: nat | s in spaces && InWhole(s, b)
      ensures !CoveredAt(runs, Index(b, v.cs), v.n)
    {
      var i :| 0 <= i < |spaces| && spaces[i] == s;
      S.SortedEntry(spaces, P.RESERVED, P.RESERVED + v.device, i);
      LongHasWhole(s, b);
      LongIsUnusedAt(v, chunks, spaces, s, b);
    }
  }

  lemma LongHasWhole(s: S.Space, b: nat)
    requires InWhole(s, b)
    ensures P.DATA_CHUNK <= s.length
  {
    assert First(0, P.DATA_CHUNK) == 0;
  }

  // The boot sector's cluster makes the first stretch a used one.
  lemma FirstIsUsed(v: Volume)
    requires Clean(v)
    ensures HasStretch(v, 0) && HasUsed(v, 0) && PlanOf(v) != [] && D.UsedIn(v.bits, PlanOf(v)[0]) != []
  {
    hide D.UsedIn, D.AllInside, First, Index;
    FirstIsNone(v.n);
    FirstIsNone(P.DATA_CHUNK);
    SixteenFit(v);
    SeenIs(v, 0, 0);
    PlanIsOf(v, StretchOf(v, 0));
  }

  // The reserved area holds at least sixteen clusters.
  lemma SixteenFit(v: Volume)
    requires Geometry(v) && HasStretch(v, 0) && v.bits != []
    ensures 0 < ScannedIn(v, 0)
  {
    hide First, Index;
    var full := D.Full(v.device, First(0, P.DATA_CHUNK));
    FirstIsNone(v.n);
    FirstIsNone(P.DATA_CHUNK);
    C.UnitFits(v.cs);
    Times16(v.cs);
    IndexBounds(full, v.cs);
    if Index(full, v.cs) < 16 {
      FirstGrows(Index(full, v.cs), 16, v.cs);
    }
  }

  lemma Times16(m: nat)
    ensures First(16, m) == 16 * m
  {
    hide First;
    FirstOne(m);
    FirstAdds(1, 1, m);
    FirstAdds(2, 2, m);
    FirstAdds(4, 4, m);
    FirstAdds(8, 8, m);
  }

  // ----- what is used outside the chunks -----

  // A used cluster is in a chunk, in the first megabyte, or behind all the chunks.
  ghost predicate Reachable(chunks: seq<P.Chunk>, last: nat, x: nat, cs: nat) {
    InSomeChunk(chunks, x, cs) || First(x, cs) < P.RESERVED || last <= First(x, cs)
  }

  lemma UsedIsReachable(v: Volume, chunks: seq<P.Chunk>, spaces: seq<S.Space>, last: nat, x: nat)
    requires Clean(v) && InUse(v, x)
    requires D.CarvedSoFar(chunks, spaces, v.device, v.bits, v.cs, PlanOf(v), v.device + P.DATA_CHUNK)
    requires D.Gridded(chunks, spaces, v.device, v.bits, v.cs, PlanOf(v), v.device + P.DATA_CHUNK)
    requires chunks != [] && last == D.ChunkEnd(chunks[|chunks| - 1])
    ensures Reachable(chunks, last, x, v.cs)
  {
    hide Clean, D.UsedIn, D.Scanned, First, Index, D.CarvedFrom, D.FromStretch, InSomeChunk, D.Gridded, Even;
    hide P.Consistent, LongStarts, Seen;
    CleanIs(v);
    var j := Index(x, v.n);
    var c := chunks[|chunks| - 1];
    assert c in chunks;
    var l := LastOf(v, chunks, spaces, c);
    ChunkSpan(v, c, l);
    if HasUsed(v, j) {
      PlanIsOf(v, StretchOf(v, j));
      var d :| d in chunks && D.CarvedFrom(d, v.device, v.bits, v.cs, StretchOf(v, j));
      ReachInUsed(v, chunks, d, c, j, l, x);
    } else {
      if Seen(v, x) {
        SeenHas(v, x);
        UnusedIsClear(v, j, x);
        assert false;
      }
      UnseenIsLast(v, x);
      StretchIsNotLater(v, l);
      BehindStretch(v, l, j, x);
    }
  }

  lemma SeenHas(v: Volume, x: nat)
    requires 0 < v.n && 0 < v.cs && Seen(v, x)
    ensures HasStretch(v, Index(x, v.n))
  {
  }

  lemma LastOf(v: Volume, chunks: seq<P.Chunk>, spaces: seq<S.Space>, c: P.Chunk) returns (l: nat)
    requires Geometry(v) && c in chunks
    requires D.Gridded(chunks, spaces, v.device, v.bits, v.cs, PlanOf(v), v.device + P.DATA_CHUNK)
    ensures HasUsed(v, l) && D.CarvedFrom(c, v.device, v.bits, v.cs, StretchOf(v, l))
  {
    l := ChunkOf(v, c);
  }

  // Where stretch `l`'s chunk is.
  lemma ChunkSpan(v: Volume, c: P.Chunk, l: nat)
    requires Geometry(v) && HasStretch(v, l) && D.CarvedFrom(c, v.device, v.bits, v.cs, StretchOf(v, l))
    ensures var addr := First(l, P.DATA_CHUNK);
      && c.diskStart == addr + (if l == 0 then P.RESERVED else 0) && c.offset == c.diskStart + P.VIRT
      && D.ChunkEnd(c) == addr + D.ChunkLength(v.device, addr) <= First(l + 1, P.DATA_CHUNK)
      && (First(l + 1, P.DATA_CHUNK) <= v.device ==> D.ChunkEnd(c) == First(l + 1, P.DATA_CHUNK))
      && D.ChunkEnd(c) <= v.device
  {
    hide D.Scanned, D.UsedIn, First;
    StretchIsAt(l);
    JumpFirst(l, P.DATA_CHUNK);
  }

  // A cluster of a later stretch, or beyond the last, is behind the chunk of an earlier one.
  lemma BehindStretch(v: Volume, l: nat, j: nat, x: nat)
    requires DataChunkIs(v.n, v.cs) && Index(x, v.n) == j && l < j
    ensures First(l + 1, P.DATA_CHUNK) <= First(x, v.cs)
  {
    hide First, Index;
    IndexBounds(x, v.n);
    FirstFirst(j, v.n, v.cs);
    FirstOrder(First(j, v.n), x, v.cs);
    FirstOrder(l + 1, j, P.DATA_CHUNK);
  }

  lemma ReachInUsed(v: Volume, chunks: seq<P.Chunk>, d: P.Chunk, c: P.Chunk, j: nat, l: nat, x: nat)
    requires Geometry(v) && HasStretch(v, j) && HasStretch(v, l) && Index(x, v.n) == j && d in chunks
    requires D.CarvedFrom(d, v.device, v.bits, v.cs, StretchOf(v, j))
    requires D.CarvedFrom(c, v.device, v.bits, v.cs, StretchOf(v, l))
    ensures Reachable(chunks, D.ChunkEnd(c), x, v.cs)
  {
    hide First, Index, D.CarvedFrom, D.ChunkLength, Even;
    ChunkSpan(v, d, j);
    ChunkSpan(v, c, l);
    var b := First(x, v.cs);
    StretchBytes(v, j, x);
    FirstIsNone(P.DATA_CHUNK);
    if d.diskStart <= b < D.ChunkEnd(d) {
      var i :| 0 <= i < |chunks| && chunks[i] == d;
      assert InChunk(chunks[i], x, v.cs);
    } else if D.ChunkEnd(d) <= b {
      if j < l {
        FirstOrder(j + 1, l, P.DATA_CHUNK);
      } else if l < j {
        BehindStretch(v, l, j, x);
      } else {
        assert D.ChunkEnd(c) == D.ChunkEnd(d);
      }
    }
  }

  lemma StretchBytes(v: Volume, j: nat, x: nat)
    requires DataChunkIs(v.n, v.cs) && Index(x, v.n) == j
    ensures First(j, P.DATA_CHUNK) <= First(x, v.cs) < First(j + 1, P.DATA_CHUNK)
  {
    hide First, Index;
    IndexBounds(x, v.n);
    FirstFirst(j, v.n, v.cs);
    FirstFirst(j + 1, v.n, v.cs);
    JumpFirst(j, v.n);
    FirstOrder(First(j, v.n), x, v.cs);
    FirstOrder(x, First(j + 1, v.n), v.cs);
  }

  // ----- the beginning -----

  predicate AllEndBy(chunks: seq<P.Chunk>, last: nat) {
    forall c :: c in chunks ==> D.ChunkEnd(c) <= last
  }

  function EndOfStretch(v: Volume, j: nat): nat
    requires First(j, P.DATA_CHUNK) <= v.device
  {
    First(j, P.DATA_CHUNK) + D.ChunkLength(v.device, First(j, P.DATA_CHUNK))
  }

  predicate EndsAt(v: Volume, j: nat, end: nat)
    requires 0 < v.cs
  {
    HasUsed(v, j) && end == EndOfStretch(v, j)
  }

  // The end of the last stretch with used clusters.
  ghost predicate LastEnd(v: Volume, last: nat)
    requires 0 < v.cs
  {
    (exists l: nat :: EndsAt(v, l, last)) && forall j: nat :: HasUsed(v, j) ==> EndOfStretch(v, j) <= last
  }

  lemma LastIsLatest(v: Volume, chunks: seq<P.Chunk>, spaces: seq<S.Space>, last: nat)
    requires Geometry(v) && chunks != [] && last == D.ChunkEnd(chunks[|chunks| - 1]) && AllEndBy(chunks, last)
    requires D.CarvedSoFar(chunks, spaces, v.device, v.bits, v.cs, PlanOf(v), v.device + P.DATA_CHUNK)
    requires D.Gridded(chunks, spaces, v.device, v.bits, v.cs, PlanOf(v), v.device + P.DATA_CHUNK)
    ensures LastEnd(v, last)
  {
    hide D.UsedIn, D.Scanned, First, D.CarvedFrom, D.FromStretch, P.Consistent, LongStarts, D.ChunkLength;
    var c := chunks[|chunks| - 1];
    assert c in chunks;
    var l := LastOf(v, chunks, spaces, c);
    ChunkSpan(v, c, l);
    assert EndsAt(v, l, last);
    forall j: nat | HasUsed(v, j)
      ensures EndOfStretch(v, j) <= last
    {
      PlanIsOf(v, StretchOf(v, j));
      var d :| d in chunks && D.CarvedFrom(d, v.device, v.bits, v.cs, StretchOf(v, j));
      ChunkSpan(v, d, j);
    }
  }

  // Where the last chunk ends.
  lemma LastIsEnd(v: Volume, chunks: seq<P.Chunk>, spaces: seq<S.Space>, last: nat)
    requires Clean(v) && last == (if chunks == [] then 0 else D.ChunkEnd(chunks[|chunks| - 1]))
    requires D.CarvedSoFar(chunks, spaces, v.device, v.bits, v.cs, PlanOf(v), v.device + P.DATA_CHUNK)
    requires D.Gridded(chunks, spaces, v.device, v.bits, v.cs, PlanOf(v), v.device + P.DATA_CHUNK)
    ensures chunks != [] && AllEndBy(chunks, last) && P.RESERVED <= last <= v.device && last % P.STRIPE == 0
  {
    hide Clean, D.UsedIn, D.Scanned, First, D.CarvedFrom, D.FromStretch, P.Consistent, LongStarts, D.ChunkLength;
    CleanIs(v);
    FirstIsUsed(v);
    PlanIsOf(v, StretchOf(v, 0));
    var d :| d in chunks && D.CarvedFrom(d, v.device, v.bits, v.cs, StretchOf(v, 0));
    var c := chunks[|chunks| - 1];
    assert c in chunks;
    var l := LastOf(v, chunks, spaces, c);
    ChunkSpan(v, c, l);
    ChunkSpan(v, d, 0);
    FirstIsNone(P.DATA_CHUNK);
    TimesChunk(l);
    WholeStripes(v.device, First(l, P.DATA_CHUNK));
  }

  lemma TimesChunk(k: nat)
    ensures First(k, P.DATA_CHUNK) % P.STRIPE == 0
  {
    DataChunks(k);
  }

  lemma WholeStripes(device: nat, addr: nat)
    requires addr <= device && addr % P.STRIPE == 0
    ensures (addr + D.ChunkLength(device, addr)) % P.STRIPE == 0
  {
  }

  lemma DiskFits(v: Volume)
    requires Geometry(v)
    ensures First(B.ClustersIn(v.orig, v.cs), v.cs) + P.VIRT < 0x1_0000_0000_0000_0000
    ensures P.RESERVED + v.device < 0x1_0000_0000_0000_0000
  {
    hide First, Index;
    C.UnitFits(v.cs);
    IndexBounds(v.orig + v.cs - 1, v.cs);
  }

  lemma ParsedRuns(v: Volume, runs: RunMap)
    requires 0 < v.n && 0 < v.cs && Parsed(v, runs)
    ensures RunsOk(runs, v.n) && AllUnits(runs) && AllJoined(runs)
    ensures forall x: nat :: CoveredAt(runs, x, v.n) ==>
      x < B.ClustersIn(v.orig, v.cs) && OwnerAt(runs, x, v.n) == PLAIN
    ensures forall x: nat :: Used(runs, x, v.n) <==> InUse(v, x)
  {
    hide CoveredAt, OwnerAt;
  }

  // The carved chunks and the parsed runs, put together.
  method Begin(v: Volume, disk: array<Cluster>) returns (cv: C.Conversion, last: nat)
    requires Clean(v) && disk.Length == B.ClustersIn(v.orig, v.cs)
    ensures fresh(cv) && fresh(cv.conv) && fresh(cv.planner)
    ensures cv.Protecting() && cv.cs == v.cs && cv.conv.n == v.n && cv.conv.relocs == []
    ensures cv.conv.disk == disk && cv.conv.d0 == disk[..]
    ensures forall x: nat :: Used(cv.conv.first, x, v.n) <==> InUse(v, x)
    ensures forall x: nat :: InUse(v, x) ==> Reachable(cv.planner.chunks, last, x, v.cs)
    ensures AllEndBy(cv.planner.chunks, last) && P.RESERVED <= last <= v.device && last % P.STRIPE == 0
    ensures forall k :: k in cv.conv.runs ==> k < Index(|v.bits|, v.n) + 1
    ensures cv.planner.limit == P.RESERVED + v.device && LastEnd(v, last)
    ensures D.CarvedSoFar(cv.planner.chunks, cv.planner.spaces, v.device, v.bits, v.cs, PlanOf(v),
                          v.device + P.DATA_CHUNK)
    ensures D.Gridded(cv.planner.chunks, cv.planner.spaces, v.device, v.bits, v.cs, PlanOf(v),
                      v.device + P.DATA_CHUNK)
    ensures P.EvenLists(cv.planner.chunks, cv.planner.spaces, v.cs)
  {
    hide Clean, Parsed, D.CarvedSoFar, D.Gridded, D.AllInside, D.EachCarved, D.Plan, KeptApart, Kept, CoveredAt;
    hide OwnerAt, RunsOk, AllUnits, InUse, First, Index, Even, P.EvenLists, Reachable, AllEndBy, P.Consistent;
    hide P.Accounted, Tail.TailInStep, LastEnd, AllJoined;
    CleanFacts(v);
    DiskFits(v);
    var chunks, spaces;
    chunks, spaces, last := D.CreateDataChunks(v.device, v.bits, v.cs);
    if chunks == [] {
      last := 0;
    }
    LastIsEnd(v, chunks, spaces, last);
    LastIsLatest(v, chunks, spaces, last);
    var runs := ParseRuns(v);
    ParsedRuns(v, runs);
    StartIsApart(v, chunks, spaces, runs);
    SoFarIsConsistent(v, chunks, spaces);
    var planner := new P.Planner(chunks, spaces, P.RESERVED + v.device, v.cs, false);
    var conv := new Converter(v.n, disk, runs);
    cv := new C.Conversion(v.cs, conv, planner);
    forall x: nat | InUse(v, x)
      ensures Reachable(chunks, last, x, v.cs)
    {
      UsedIsReachable(v, chunks, spaces, last, x);
    }
  }

  lemma CleanFacts(v: Volume)
    requires Clean(v)
    ensures Geometry(v) && Tail.TailInStep(v.bits) && D.AllInside(v.device, v.bits, v.cs, PlanOf(v))
  {
  }

  lemma SoFarIsConsistent(v: Volume, chunks: seq<P.Chunk>, spaces: seq<S.Space>)
    requires 0 < v.cs
    requires D.CarvedSoFar(chunks, spaces, v.device, v.bits, v.cs, PlanOf(v), v.device + P.DATA_CHUNK)
    ensures P.Consistent(chunks, spaces, P.RESERVED + v.device)
  {
  }
}
