/**
 * Volumes that show what the conditions of `Start.Clean`, `Convert.Full` and `Superblocks.UsedTwice` shut out,
 * and what they do not.
 */
module Samples {
  import opened ChunkMath
  import opened ChunkUse
  import opened Conversion
  import opened ImageRollback
  import opened Protect
  import opened RunLists
  import opened Start
  import B = DataBitmap
  import Bits = BitmapScan
  import Convert
  import D = DataChunks
  import P = ChunkAllocator
  import SB = Superblocks
  import Tail = BitmapTail

  // `d` clusters of 4 KB, no more than a data chunk has. Clusters 0 and `q` are in use.
  function TwoUsed(d: nat, q: nat): Volume {
    Volume(0x1000 * d, 0x1000 * d, seq(q + 32, i => i == 0 || i == q), 0x1000, 0x8000)
  }

  // Cluster `q` is the first that no whole byte of the chunk's bitmap is about.
  predicate Behind(d: nat, q: nat) {
    q % 32 == 0 && 288 <= q < d < q + 8 && q < 0x7000
  }

  lemma TwoUsedGeometry(d: nat, q: nat)
    requires 256 <= d < 0x1_0000_0000 && q % 32 == 0
    ensures Geometry(TwoUsed(d, q))
  {
    D.FirstOf4K(0x8000);
    D.FirstOf4K(16);
    D.FirstOf4K(1);
    D.FirstOf4K(d);
  }

  lemma OneStretchOnly(v: Volume, j: nat)
    requires v.device < P.DATA_CHUNK
    ensures HasStretch(v, j) ==> j == 0
    ensures Index(v.device, P.DATA_CHUNK) == 0
  {
    if 0 < j {
      FirstGrows(0, j, P.DATA_CHUNK);
    }
  }

  lemma LessRest(x: nat, k: nat, r: nat)
    requires x == P.STRIPE * k + r && r < P.STRIPE
    ensures x - x % P.STRIPE == P.STRIPE * k
  {
  }

  lemma InBytes(d: nat, k: nat, r: nat)
    requires d == 8 * k + r && r < 8
    ensures d / 8 == k
  {
  }

  lemma RoundedDown(d: nat, k: nat)
    requires 32 * k <= d < 32 * k + 8
    ensures 0x1000 * d - 0x1000 * d % P.STRIPE == 0x1000 * (32 * k) && 8 * (d / 8) == 32 * k
  {
    var r := d - 32 * k;
    LessRest(0x1000 * d, 2 * k, 0x1000 * r);
    InBytes(d, 4 * k, r);
  }

  lemma TwoUsedStretch(d: nat, q: nat)
    requires Behind(d, q)
    ensures var v := TwoUsed(d, q);
      && HasStretch(v, 0) && ScannedIn(v, 0) == q && D.ChunkLength(v.device, 0) == 0x1000 * q
      && First(0, v.n) == 0 && First(0, P.DATA_CHUNK) == 0
  {
    hide First, Index;
    FirstIsNone(0x8000);
    FirstIsNone(P.DATA_CHUNK);
    D.FirstOf4K(d);
    RoundedDown(d, q / 32);
    IndexIsUnique(0x1000 * d, 0x1000, d);
  }

  lemma TwoUsedRuns(d: nat, q: nat)
    requires Behind(d, q)
    ensures var v := TwoUsed(d, q);
      && HasStretch(v, 0) && HasUsed(v, 0) && Tail.TailInStep(Slice(v, 0))
      && D.Inside(0, D.ChunkLength(v.device, 0), D.UsedIn(v.bits, StretchOf(v, 0)), v.cs)
  {
    hide First, Index, D.ChunkLength, Tail.CodeRuns;
    var v := TwoUsed(d, q);
    TwoUsedStretch(d, q);
    var slice := Slice(v, 0);
    assert |slice| == q;
    Tail.ParseIsExactWhenInStep(slice);
    var runs := Tail.CodeRuns(slice);
    assert slice[0] && Bits.InRuns(runs, 0);
    var last := runs[|runs| - 1];
    Tail.CodeRunsAreSeparate(slice);
    assert last.Has(last.offset) && Bits.InRuns(runs, last.offset);
    assert slice[last.offset] && last.offset == 0;
    D.FirstOf4K(0);
  }

  lemma TwoUsedUnseen(d: nat, q: nat, x: nat)
    requires Behind(d, q) && InUse(TwoUsed(d, q), x) && !Seen(TwoUsed(d, q), x)
    ensures Reach(TwoUsed(d, q)) <= First(x, 0x1000)
  {
    hide First, Index, HasUsed, HasStretch, D.ChunkLength, D.Scanned;
    var v := TwoUsed(d, q);
    TwoUsedStretch(d, q);
    TwoUsedRuns(d, q);
    OneStretchOnly(v, 0);
    IndexIsUnique(x, v.n, 0);
    assert x == q;
    D.FirstOf4K(q);
  }

  lemma TwoUsedIsClean(d: nat, q: nat)
    requires Behind(d, q)
    ensures Clean(TwoUsed(d, q)) && InUse(TwoUsed(d, q), q)
  {
    hide First, Index, Tail.TailInStep, D.Inside, Reach, InUse, Seen, Geometry, D.UsedIn, D.ChunkLength;
    var v := TwoUsed(d, q);
    TwoUsedGeometry(d, q);
    TwoUsedStretch(d, q);
    TwoUsedRuns(d, q);
    WholeWordsInStep(v.bits);
    forall j: nat | HasStretch(v, j)
      ensures Tail.TailInStep(Slice(v, j))
    {
      OneStretchOnly(v, j);
    }
    forall s | s in PlanOf(v) && D.UsedIn(v.bits, s) != []
      ensures s.addr <= v.device && D.Inside(s.addr, D.ChunkLength(v.device, s.addr), D.UsedIn(v.bits, s), v.cs)
    {
      PlanIsOf(v, s);
      var j: nat :| HasStretch(v, j) && s == StretchOf(v, j);
      OneStretchOnly(v, j);
    }
    forall x: nat | InUse(v, x) && !Seen(v, x)
      ensures Reach(v) <= First(x, v.cs)
    {
      TwoUsedUnseen(d, q, x);
    }
    SecondIsUsed(d, q);
  }

  lemma WholeWordsInStep(bits: seq<bool>)
    requires |bits| % 32 == 0
    ensures Tail.TailInStep(bits)
  {
  }

  lemma SecondIsUsed(d: nat, q: nat)
    requires Behind(d, q)
    ensures InUse(TwoUsed(d, q), q)
  {
    hide Index;
    D.FirstOf4K(q);
    B.BeginsBefore(q, 0x1000 * d, 0x1000);
  }

  // A conversion can begin though a cluster behind the only chunk is in use, in what the device-wide free list
  // keeps of the device.
  lemma UsedBehindTheChunk()
    ensures var v := TwoUsed(289, 288);
      && v.device == 0x12_1000 && Clean(v) && InUse(v, 288) && First(288, v.cs) == 0x12_0000 && LastEnd(v, 0x12_0000)
  {
    hide First, Index, Clean, InUse, D.ChunkLength, HasStretch;
    var v := TwoUsed(289, 288);
    TwoUsedIsClean(289, 288);
    TwoUsedEnd(289, 288);
    D.FirstOf4K(288);
  }

  lemma TwoUsedEnd(d: nat, q: nat)
    requires Behind(d, q)
    ensures forall last: nat :: LastEnd(TwoUsed(d, q), last) <==> last == 0x1000 * q
  {
    hide First, Index, D.ChunkLength, D.UsedIn, D.Scanned;
    var v := TwoUsed(d, q);
    TwoUsedStretch(d, q);
    TwoUsedRuns(d, q);
    forall last: nat
      ensures LastEnd(v, last) <==> last == 0x1000 * q
    {
      forall j: nat | HasStretch(v, j)
        ensures j == 0
      {
        OneStretchOnly(v, j);
      }
      assert HasUsed(v, 0) && EndOfStretch(v, 0) == 0x1000 * q;
      if last == 0x1000 * q {
        assert EndsAt(v, 0, last);
      }
    }
  }

  // The second superblock is behind the only chunk, in a cluster that is in use. It is asked for twice.
  lemma StripeIsAskedTwice(first: RunMap)
    requires forall x: nat :: Used(first, x, 0x8000) <==> InUse(TwoUsed(0x4002, 0x4000), x)
    ensures Clean(TwoUsed(0x4002, 0x4000)) && LastEnd(TwoUsed(0x4002, 0x4000), 0x400_0000)
    ensures SB.UsedTwice(0x400_2000, 0x400_0000, false, 0x1000, first, 0x8000)
  {
    hide First, Index, Clean, InUse, Used, LastEnd, SB.Stripes, SB.TailAsked, Even;
    TwoUsedIsClean(0x4002, 0x4000);
    TwoUsedEnd(0x4002, 0x4000);
    TwoUsedGeometry(0x4002, 0x4000);
    D.FirstOf4K(0x4000);
    SB.StripesHave(0x400_2000, |P.SUPERBLOCKS|, 0x1000, 0x4000);
    assert SB.HasSuperblock(0x400_2000, 1) && SB.StripeHas(1, First(0x4000, 0x1000));
    SB.TailHas(0x400_2000, 0x400_0000, false, 0x1000, 0x4000);
    D.FirstOf4K(0x4002);
    IndexIsUnique(0x400_2000, 0x1000, 0x4002);
  }

  // So it is not done.
  method ConvertStripeTwice(disk: array<Cluster>) returns (o: Step)
    requires disk.Length == B.ClustersIn(0x400_2000, 0x1000)
    modifies disk
    ensures o in {NoSpace, PastEnd, Again}
  {
    hide First, Index, Clean, InUse, Used, LastEnd, SB.UsedTwice, B.ClustersIn, Convert.Full;
    var v := TwoUsed(0x4002, 0x4000);
    TwoUsedIsClean(0x4002, 0x4000);
    TwoUsedEnd(0x4002, 0x4000);
    var cv, last;
    cv, o, last := Convert.Prepare(v, disk);
    StripeIsAskedTwice(cv.conv.first);
  }

  // Two data chunks' worth of 4 KB clusters, those of the first all in use.
  function FirstHalf(): Volume {
    Volume(0x1000_0000, 0x1000_0000, seq(0x1_0000, i => i < 0x8000), 0x1000, 0x8000)
  }

  lemma FirstHalfStretches(j: nat)
    ensures HasStretch(FirstHalf(), j) <==> j < 2
    ensures j < 2 ==> ScannedIn(FirstHalf(), j) == 0x8000 && First(j, 0x8000) == 0x8000 * j
    ensures j < 2 ==> First(j, P.DATA_CHUNK) == P.DATA_CHUNK * j
    ensures D.ChunkLength(0x1000_0000, 0) == P.DATA_CHUNK
  {
    hide Index;
    D.FirstOf4K(0x8000);
    IndexIsUnique(P.DATA_CHUNK, 0x1000, 0x8000);
    assert First(1, 0x8000) == 0x8000 && First(1, P.DATA_CHUNK) == P.DATA_CHUNK;
    assert First(2, P.DATA_CHUNK) == 0x1000_0000;
    if 2 < j {
      FirstGrows(2, j, P.DATA_CHUNK);
    }
  }

  // The scan of whole words that are all set, and of ones that are all clear.
  lemma UniformRuns(bits: seq<bool>, v: bool)
    requires |bits| % 32 == 0 && bits != [] && forall i :: 0 <= i < |bits| ==> bits[i] == v
    ensures Tail.CodeRuns(bits) == [] <==> !v
    ensures D.LastStart(Tail.CodeRuns(bits)) < |bits|
  {
    hide Tail.CodeRuns, Bits.Separate;
    WholeWordsInStep(bits);
    Tail.ParseIsExactWhenInStep(bits);
    Tail.CodeRunsAreSeparate(bits);
    var runs := Tail.CodeRuns(bits);
    assert Bits.InRuns(runs, 0) <==> v;
    assert runs != [] ==> runs[0].Has(runs[0].offset) && Bits.InRuns(runs, runs[0].offset);
  }

  lemma FirstHalfSlice(j: nat)
    requires j < 2
    ensures HasStretch(FirstHalf(), j) && |Slice(FirstHalf(), j)| == 0x8000
    ensures forall i :: 0 <= i < 0x8000 ==> Slice(FirstHalf(), j)[i] == (j == 0)
    ensures D.UsedIn(FirstHalf().bits, StretchOf(FirstHalf(), j)) == Tail.CodeRuns(Slice(FirstHalf(), j))
  {
    hide First, Index, Tail.CodeRuns, D.Scanned;
    FirstHalfStretches(j);
    FirstHalfFits(j);
  }

  lemma FirstHalfFits(j: nat)
    requires j < 2
    ensures 0x8000 * j + 0x8000 <= |FirstHalf().bits|
  {
  }

  lemma FirstHalfRuns(j: nat)
    requires j < 2
    ensures var v := FirstHalf();
      && HasStretch(v, j) && Tail.TailInStep(Slice(v, j)) && (HasUsed(v, j) <==> j == 0)
      && D.LastStart(D.UsedIn(v.bits, StretchOf(v, j))) < 0x8000
  {
    hide First, Index, Tail.CodeRuns, Slice, HasStretch, D.UsedIn, StretchOf, Tail.TailInStep, D.LastStart;
    FirstHalfSlice(j);
    WholeWordsInStep(Slice(FirstHalf(), j));
    UniformRuns(Slice(FirstHalf(), j), j == 0);
  }

  lemma FirstHalfIsSeen(x: nat)
    requires x < 0x1_0000
    ensures Seen(FirstHalf(), x)
  {
    hide Index, D.Scanned;
    var j := if x < 0x8000 then 0 else 1;
    FirstHalfStretches(j);
    IndexIsUnique(x, 0x8000, j);
  }

  lemma FirstHalfIsClean()
    ensures Clean(FirstHalf())
  {
    hide First, Index, Tail.TailInStep, Seen, Geometry, D.UsedIn, D.ChunkLength, Reach;
    var v := FirstHalf();
    FirstHalfGeometry();
    WholeWordsInStep(v.bits);
    forall j: nat | HasStretch(v, j)
      ensures Tail.TailInStep(Slice(v, j))
    {
      FirstHalfStretches(j);
      FirstHalfRuns(j);
    }
    forall s | s in PlanOf(v) && D.UsedIn(v.bits, s) != []
      ensures s.addr <= v.device && D.Inside(s.addr, D.ChunkLength(v.device, s.addr), D.UsedIn(v.bits, s), v.cs)
    {
      PlanIsOf(v, s);
      var j: nat :| HasStretch(v, j) && s == StretchOf(v, j);
      FirstHalfStretches(j);
      FirstHalfRuns(j);
      D.FirstOf4K(D.LastStart(D.UsedIn(v.bits, s)));
    }
    forall x: nat | InUse(v, x)
      ensures Seen(v, x)
    {
      FirstHalfIsSeen(x);
    }
  }

  lemma FirstHalfGeometry()
    ensures Geometry(FirstHalf())
  {
    D.FirstOf4K(0x8000);
    D.FirstOf4K(16);
    D.FirstOf4K(1);
    D.FirstOf4K(0x1_0000);
  }

  lemma FirstHalfIsFull()
    ensures Convert.Full(FirstHalf(), P.DATA_CHUNK)
    ensures forall last: nat :: LastEnd(FirstHalf(), last) <==> last == P.DATA_CHUNK
  {
    hide First, Index, D.ChunkLength, D.UsedIn, D.Scanned;
    var v := FirstHalf();
    forall x: nat
      ensures InUse(v, x) <==> First(x, v.cs) < P.DATA_CHUNK
    {
      D.FirstOf4K(x);
      B.BeginsBefore(x, v.orig, v.cs);
    }
    forall last: nat
      ensures LastEnd(v, last) <==> last == P.DATA_CHUNK
    {
      FirstHalfStretches(0);
      FirstHalfRuns(0);
      forall j: nat | HasUsed(v, j)
        ensures j == 0
      {
        FirstHalfStretches(j);
        FirstHalfRuns(j);
      }
      if last == P.DATA_CHUNK {
        assert EndsAt(v, 0, last);
      }
    }
  }

  // With the only chunk full there is room for the copies only behind it, where they are protected again.
  method ConvertFullChunk(disk: array<Cluster>) returns (o: Step)
    requires disk.Length == B.ClustersIn(0x1000_0000, 0x1000)
    modifies disk
    ensures o in {NoSpace, PastEnd, Again}
  {
    hide First, Index, Clean, InUse, Used, LastEnd, SB.UsedTwice, B.ClustersIn, Convert.Full;
    FirstHalfIsClean();
    FirstHalfIsFull();
    var cv, last;
    cv, o, last := Convert.Prepare(FirstHalf(), disk);
  }

  // A chunk has no bytes exactly when what is left of the device, beyond the first megabyte, is less than 64 KB.
  lemma ChunkIsEmptyWhen(v: Volume, c: P.Chunk, j: nat)
    requires 0 < v.cs && HasStretch(v, j) && D.CarvedFrom(c, v.device, v.bits, v.cs, StretchOf(v, j))
    ensures c.length == 0
       <==> v.device - First(j, P.DATA_CHUNK) < P.STRIPE + if j == 0 then P.RESERVED else 0
  {
    hide D.UsedByte, D.UsedIn, D.Scanned, First;
    StretchIsAt(j);
  }

  // A data chunk and eight more clusters of 4 KB, the first of which is in use.
  function EightMore(): Volume {
    Volume(0x800_8000, 0x800_8000, seq(0x8020, i => i == 0 || i == 0x8000), 0x1000, 0x8000)
  }

  // Its second chunk, if there is one, has no bytes; and there is one.
  lemma SecondChunkIsEmpty(c: P.Chunk)
    ensures HasUsed(EightMore(), 1) && D.CanCarve(0x800_8000, EightMore().bits, 0x1000, StretchOf(EightMore(), 1))
    ensures D.CarvedFrom(c, 0x800_8000, EightMore().bits, 0x1000, StretchOf(EightMore(), 1)) ==> c.length == 0
  {
    hide First, Index, Tail.CodeRuns, D.CarvedFrom;
    var v := EightMore();
    FirstOne(0x8000);
    FirstOne(P.DATA_CHUNK);
    FirstIsNone(0x1000);
    D.FirstOf4K(8);
    IndexIsUnique(0x8000, 0x1000, 8);
    var slice := Slice(v, 1);
    assert slice == [true] + seq(7, _ => false);
    FirstOfEight(slice);
    if D.CarvedFrom(c, v.device, v.bits, v.cs, StretchOf(v, 1)) {
      ChunkIsEmptyWhen(v, c, 1);
    }
  }

  lemma FirstOfEight(bits: seq<bool>)
    requires |bits| == 8 && forall i :: 0 <= i < 8 ==> bits[i] == (i == 0)
    ensures Tail.CodeRuns(bits) != [] && D.LastStart(Tail.CodeRuns(bits)) == 0
  {
    hide Tail.CodeRuns, Bits.Separate;
    EightInStep(bits);
    Tail.ParseIsExactWhenInStep(bits);
    Tail.CodeRunsAreSeparate(bits);
    var runs := Tail.CodeRuns(bits);
    assert Bits.InRuns(runs, 0);
    var last := runs[|runs| - 1];
    assert last.Has(last.offset) && Bits.InRuns(runs, last.offset);
  }

  lemma EightInStep(bits: seq<bool>)
    requires |bits| == 8 && bits[0]
    ensures Tail.TailInStep(bits)
  {
    assert Tail.WordsOf(bits) == 0 && bits[0..] == bits && bits[..8] == bits;
    assert !Tail.Uniform(bits, false);
  }
}
