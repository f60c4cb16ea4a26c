/**
 * What is beyond a file's valid data: the mappings that end there, and the zeroing in the last cluster.
 */
module ValidData {
  import opened ChunkMath
  import opened ImageRollback
  import B = DataBitmap
  import D = DataChunks
  import M = Mappings

  const SECTOR: nat := 0x1000

  // What the mappings reach up to.
  function EndOf(maps: seq<M.Mapping>): nat {
    if maps == [] then 0 else maps[|maps| - 1].vcn + maps[|maps| - 1].length
  }

  // The sparse mapping that fills what is missing up to cluster `v` of the file.
  function Filling(maps: seq<M.Mapping>, v: nat): seq<M.Mapping> {
    if maps != [] && EndOf(maps) < v then [M.Mapping(0, EndOf(maps), v - EndOf(maps))] else []
  }

  // The mappings cut off after `v` clusters, of `a` the file has: they are made up to `a` by a sparse one first.
  // No mapping read from the file reaches beyond `v`, so none of them is cut.
  method CutMappings(maps0: seq<M.Mapping>, v: nat, a: nat) returns (maps: seq<M.Mapping>, end: nat)
    requires v <= a
    ensures end == v
    ensures EndOf(maps0) <= v ==> maps == maps0 + Filling(maps0, v)
  {
    maps, end := maps0, a;
    if maps != [] && EndOf(maps) < end {
      maps := maps + [M.Mapping(0, EndOf(maps), end - EndOf(maps))];
    }
    while v < end
      invariant v <= end
      invariant EndOf(maps0) <= v ==>
        (end == a && maps == maps0 + Filling(maps0, a)) || (end == v && maps == maps0 + Filling(maps0, v))
      decreases |maps|
    {
      if maps == [] {
        end := v;
        break;
      }
      var m := maps[|maps| - 1];
      if m.length > end - v {
        maps := maps[..|maps| - 1] + [m.(length := m.length - (end - v))];
        end := v;
        break;
      }
      end, maps := end - m.length, maps[..|maps| - 1];
    }
  }

  // The cluster in which the valid data ends: none when it fills its clusters, and none to be found without a
  // mapping.
  datatype Tail = Whole | Missing | At(cluster: nat)

  method TailOf(maps0: seq<M.Mapping>, vdl: nat, size: nat, cs: nat) returns (maps: seq<M.Mapping>, t: Tail)
    requires 0 < cs && vdl < size && M.InOrder(maps0) && EndOf(maps0) <= B.ClustersIn(vdl, cs)
    ensures maps == maps0 + Filling(maps0, B.ClustersIn(vdl, cs))
    ensures t == Whole <==> Rem(vdl, cs) == 0
    ensures t == Missing <==> Rem(vdl, cs) != 0 && maps0 == []
    ensures t.At? ==> maps0 != [] && var e, v := EndOf(maps0), B.ClustersIn(vdl, cs);
      if e == v then t.cluster == maps0[|maps0| - 1].lcn + maps0[|maps0| - 1].length - 1
      else t.cluster == v - e - 1
  {
    hide B.ClustersIn, First;
    RoundedUp(vdl, size, cs);
    var end;
    maps, end := CutMappings(maps0, B.ClustersIn(vdl, cs), B.ClustersIn(size, cs));
    if vdl < First(end, cs) {
      if maps == [] {
        t := Missing;
      } else {
        var m := maps[|maps| - 1];
        t := At(m.lcn + m.length - 1);
      }
    } else {
      t := Whole;
    }
  }

  lemma RoundedUp(vdl: nat, size: nat, cs: nat)
    requires 0 < cs && vdl < size
    ensures B.ClustersIn(vdl, cs) <= B.ClustersIn(size, cs)
    ensures vdl < First(B.ClustersIn(vdl, cs), cs) <==> Rem(vdl, cs) != 0
  {
    hide First;
    var v, i := B.ClustersIn(vdl, cs), Index(vdl, cs);
    IndexGrows(vdl + cs - 1, size + cs - 1, cs);
    B.BeginsBefore(i, vdl, cs);
    B.BeginsBefore(i + 1, vdl, cs);
    IndexBounds(vdl, cs);
    Next(i, cs);
    if v < i {
      FirstGrows(v, i, cs);
    }
  }

  lemma Next(i: nat, cs: nat)
    ensures First(i + 1, cs) == First(i, cs) + cs
  {
  }

  // The bytes from `from` to `to` made zero.
  function Zeroed(c: Cluster, from: nat, to: nat): (z: Cluster)
    ensures |z| == |c|
  {
    seq(|c|, i requires 0 <= i < |c| => if from <= i < to then 0 else c[i])
  }

  // From the end of the valid data to the end of its sector.
  function SectorEnd(vdl: nat, cs: nat): nat
    requires 0 < cs
  {
    First(Index(Rem(vdl, cs), SECTOR) + 1, SECTOR)
  }

  // A cluster's bytes from number `at` on are zero in the 4 KB sector that byte is in; all others are as they were.
  predicate SectorZeroed(c: Cluster, z: Cluster, at: nat) {
    && |z| == |c|
    && forall i :: 0 <= i < |c| ==> z[i] == if at <= i && Index(i, 0x1000) == Index(at, 0x1000) then 0 else c[i]
  }

  lemma ZeroedToSectorEnd(c: Cluster, vdl: nat, cs: nat)
    requires 0 < cs
    ensures SectorZeroed(c, Zeroed(c, Rem(vdl, cs), SectorEnd(vdl, cs)), Rem(vdl, cs))
  {
    hide First, Index;
    var at := Rem(vdl, cs);
    var s := Index(at, SECTOR);
    Next(s, SECTOR);
    IndexBounds(at, SECTOR);
    forall i | 0 <= i < |c| && at <= i
      ensures i < SectorEnd(vdl, cs) <==> Index(i, 0x1000) == s
    {
      if i < First(s + 1, SECTOR) {
        IndexIsUnique(i, SECTOR, s);
      } else {
        IndexBounds(i, SECTOR);
      }
    }
  }

  lemma ZeroedIsSame(c: Cluster, from: nat, to: nat)
    ensures Zeroed(c, from, to) == c <==> forall i :: 0 <= i < |c| && from <= i < to ==> c[i] == 0
  {
    if Zeroed(c, from, to) == c {
      forall i | 0 <= i < |c| && from <= i < to
        ensures c[i] == 0
      {
        assert Zeroed(c, from, to)[i] == 0;
      }
    }
  }

  // A file of one cluster on disk and a sparse part, in which its valid data ends: the write goes to cluster 4095 of
  // the device, whoever has that.
  method StrayWrite() returns (t: Tail)
    ensures t == At(4095)
  {
    hide First, Index;
    D.FirstOf4K(4096);
    D.FirstOf4K(4097);
    IndexIsUnique(0x100_0010, 0x1000, 4096);
    IndexIsUnique(0x100_100F, 0x1000, 4097);
    var maps;
    maps, t := TailOf([M.Mapping(1000, 0, 1)], 0x100_0010, 0x100_2000, 0x1000);
  }
}
