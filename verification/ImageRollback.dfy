/**
 * Protecting clusters, the image file that stands for the old volume, and rolling back from it.
 */
module ImageRollback {
  import opened ChunkMath
  import opened RunLists
  import Bitstream

  type Cluster = seq<Bitstream.byte>

  datatype Reloc = Reloc(old': nat, length: nat, new': nat)

  // An EXTENT_DATA item of the image, in clusters: its place in the image, where it is on disk,
  // and its length.
  datatype Extent = Extent(off: nat, phys: nat, len: nat) {
    predicate Has(x: int) {
      off <= x < off + len
    }
  }

  // The runs the image refers to.
  predicate InImage(a: Alloc) {
    !a.owner.relocated && !a.owner.notInImg
  }

  predicate IsDummy(a: Alloc) {
    a.owner.inode == DUMMY
  }

  predicate HasReloc(relocs: seq<Reloc>, old': nat) {
    exists i :: 0 <= i < |relocs| && relocs[i].old' == old'
  }

  function FindReloc(relocs: seq<Reloc>, old': nat): (i: nat)
    requires HasReloc(relocs, old')
    ensures i < |relocs| && relocs[i].old' == old'
    ensures forall j :: 0 <= j < i ==> relocs[j].old' != old'
  {
    if relocs[0].old' == old' then 0 else
      assert HasReloc(relocs[1..], old') by {
        var i :| 0 <= i < |relocs| && relocs[i].old' == old';
        assert relocs[1..][i - 1].old' == old';
      }
      1 + FindReloc(relocs[1..], old')
  }

  predicate DummiesHaveRelocs(list: seq<Alloc>, relocs: seq<Reloc>) {
    forall i :: 0 <= i < |list| && InImage(list[i]) && IsDummy(list[i]) ==> HasReloc(relocs, list[i].offset)
  }

  function ExtentOf(a: Alloc, relocs: seq<Reloc>): Extent
    requires IsDummy(a) ==> HasReloc(relocs, a.offset)
  {
    Extent(a.offset, if IsDummy(a) then relocs[FindReloc(relocs, a.offset)].new' else a.offset, a.length)
  }

  function ExtentsOf(list: seq<Alloc>, relocs: seq<Reloc>): seq<Extent>
    requires DummiesHaveRelocs(list, relocs)
  {
    if list == [] then []
    else
      var front, a := list[..|list| - 1], list[|list| - 1];
      ExtentsOf(front, relocs) + if InImage(a) then [ExtentOf(a, relocs)] else []
  }

  function ImageExtents(runs: RunMap, relocs: seq<Reloc>, chunks: nat): seq<Extent>
    requires forall k :: k in runs ==> DummiesHaveRelocs(runs[k], relocs)
  {
    if chunks == 0 then [] else ImageExtents(runs, relocs, chunks - 1) + ExtentsOf(ListOf(runs, chunks - 1), relocs)
  }

  // The extents of one chunk's runs, as `create_image` adds them. The address it last used
  // stays in `phys` from one run to the next.
  method CreateExtents(list: seq<Alloc>, relocs: seq<Reloc>, last: nat) returns (extents: seq<Extent>, phys: nat)
    requires DummiesHaveRelocs(list, relocs)
    ensures extents == ExtentsOf(list, relocs)
  {
    extents, phys := [], last;
    var i: nat := 0;
    while i < |list|
      invariant i <= |list| && extents == ExtentsOf(list[..i], relocs)
    {
      var run := list[i];
      assert list[..i + 1][..i] == list[..i];
      if !run.owner.relocated && !run.owner.notInImg {
        if run.owner.inode == DUMMY {
          var j: nat := 0;
          while j < |relocs| && relocs[j].old' != run.offset
            invariant j <= |relocs| && forall l :: 0 <= l < j ==> relocs[l].old' != run.offset
          {
            j := j + 1;
          }
          if j < |relocs| {
            phys := relocs[j].new';
          }
          assert HasReloc(relocs, run.offset);
          assert j == FindReloc(relocs, run.offset);
        } else {
          phys := run.offset;
        }
        extents := extents + [Extent(run.offset, phys, run.length)];
      }
      i := i + 1;
    }
    assert list[..i] == list;
  }

  // `create_image`, over the chunks in order.
  method CreateImage(runs: RunMap, relocs: seq<Reloc>, chunks: nat) returns (extents: seq<Extent>)
    requires forall k :: k in runs ==> DummiesHaveRelocs(runs[k], relocs)
    ensures extents == ImageExtents(runs, relocs, chunks)
  {
    extents := [];
    var phys, k: nat := 0, 0;
    while k < chunks
      invariant k <= chunks && extents == ImageExtents(runs, relocs, k)
    {
      var more;
      more, phys := CreateExtents(ListOf(runs, k), relocs, phys);
      extents, k := extents + more, k + 1;
    }
  }

  // Extents that `rollback` writes back: all but the ones already in place.
  predicate Moved(e: Extent) {
    e.off != e.phys
  }

  predicate OnDisk(extents: seq<Extent>, size: nat) {
    forall e :: e in extents ==> e.off + e.len <= size && e.phys + e.len <= size
  }

  // No two extents cover the same place in the image.
  predicate Disjoint(extents: seq<Extent>) {
    forall i, j :: 0 <= i < j < |extents| ==>
      extents[i].off + extents[i].len <= extents[j].off || extents[j].off + extents[j].len <= extents[i].off
  }

  // The moved extent that covers `x`, if any, says where its content is now.
  predicate MovedAt(extents: seq<Extent>, x: nat) {
    exists e :: e in extents && Moved(e) && e.Has(x)
  }

  // Cluster `x` is back from where its extent was, or has stayed.
  ghost predicate BackAt(before: seq<Cluster>, after: seq<Cluster>, extents: seq<Extent>, x: nat)
    requires x < |before| == |after|
  {
    && (forall e :: e in extents && Moved(e) && e.Has(x) ==>
          e.phys + (x - e.off) < |before| && after[x] == before[e.phys + (x - e.off)])
    && (!MovedAt(extents, x) ==> after[x] == before[x])
  }

  ghost predicate RolledBack(before: seq<Cluster>, after: seq<Cluster>, extents: seq<Extent>) {
    |before| == |after| && forall x: nat :: x < |before| ==> BackAt(before, after, extents, x)
  }

  datatype Saved = Saved(off: nat, data: seq<Cluster>)

  // What is read for the extents that have moved.
  function Save(extents: seq<Extent>, disk: seq<Cluster>): (s: seq<Saved>)
    requires OnDisk(extents, |disk|)
  {
    if extents == [] then []
    else
      var front, e := extents[..|extents| - 1], extents[|extents| - 1];
      Save(front, disk) + if Moved(e) then [Saved(e.off, disk[e.phys..e.phys + e.len])] else []
  }

  function Overlaid(d: seq<Cluster>, w: Saved): (r: seq<Cluster>)
    ensures |r| == |d|
    ensures forall x :: 0 <= x < |d| ==> r[x] == if w.off <= x < w.off + |w.data| then w.data[x - w.off] else d[x]
  {
    seq(|d|, x requires 0 <= x < |d| => if w.off <= x < w.off + |w.data| then w.data[x - w.off] else d[x])
  }

  function Written(d: seq<Cluster>, saved: seq<Saved>): (r: seq<Cluster>)
    ensures |r| == |d|
  {
    if saved == [] then d else Overlaid(Written(d, saved[..|saved| - 1]), saved[|saved| - 1])
  }

  predicate SavedOnDisk(saved: seq<Saved>, size: nat) {
    forall w :: w in saved ==> w.off + |w.data| <= size
  }

  method WriteOne(disk: array<Cluster>, w: Saved)
    requires w.off + |w.data| <= disk.Length
    modifies disk
    ensures disk[..] == Overlaid(old(disk[..]), w)
  {
    ghost var before := disk[..];
    var i: nat := 0;
    while i < |w.data|
      invariant i <= |w.data|
      invariant forall x :: 0 <= x < disk.Length ==>
        disk[x] == if w.off <= x < w.off + i then w.data[x - w.off] else before[x]
    {
      disk[w.off + i] := w.data[i];
      i := i + 1;
    }
  }

  // `rollback`: everything is read before anything is written.
  method Rollback(disk: array<Cluster>, extents: seq<Extent>)
    requires OnDisk(extents, disk.Length) && Disjoint(extents)
    modifies disk
    ensures RolledBack(old(disk[..]), disk[..], extents)
  {
    ghost var before := disk[..];
    var saved := ReadMoved(disk, extents);
    SavedFits(extents, before);
    var i: nat := 0;
    while i < |saved|
      invariant i <= |saved| && disk[..] == Written(before, saved[..i])
    {
      assert saved[..i + 1][..i] == saved[..i] && saved[i] in saved;
      WriteOne(disk, saved[i]);
      i := i + 1;
    }
    assert saved[..i] == saved;
    WrittenIsRolledBack(extents, before);
  }

  method ReadMoved(disk: array<Cluster>, extents: seq<Extent>) returns (saved: seq<Saved>)
    requires OnDisk(extents, disk.Length)
    ensures saved == Save(extents, disk[..])
  {
    saved := [];
    var i: nat := 0;
    while i < |extents|
      invariant i <= |extents| && OnDisk(extents[..i], disk.Length) && saved == Save(extents[..i], disk[..])
    {
      var e := extents[i];
      assert e in extents;
      assert extents[..i + 1][..i] == extents[..i] && extents[..i + 1] == extents[..i] + [e];
      if e.off == e.phys {
        i := i + 1;
        continue;
      }
      saved := saved + [Saved(e.off, disk[e.phys..e.phys + e.len])];
      i := i + 1;
    }
    assert extents[..i] == extents;
  }

  lemma {:induction false} SavedFits(extents: seq<Extent>, disk: seq<Cluster>)
    requires OnDisk(extents, |disk|)
    ensures SavedOnDisk(Save(extents, disk), |disk|)
    decreases |extents|
  {
    if extents != [] {
      assert extents[|extents| - 1] in extents;
      SavedFits(extents[..|extents| - 1], disk);
    }
  }

  // Every moved extent's clusters come back from where they were, whatever lay where first; and
  // nothing else changes.
  lemma {:induction false} WrittenIsRolledBack(extents: seq<Extent>, before: seq<Cluster>)
    requires OnDisk(extents, |before|) && Disjoint(extents)
    ensures RolledBack(before, Written(before, Save(extents, before)), extents)
    decreases |extents|
  {
    if extents != [] {
      var front, e := extents[..|extents| - 1], extents[|extents| - 1];
      assert e in extents && extents == front + [e];
      WrittenIsRolledBack(front, before);
      var mid, after := Written(before, Save(front, before)), Written(before, Save(extents, before));
      WrittenNext(front, e, before);
      forall x: nat | x < |before|
        ensures BackAt(before, after, extents, x)
      {
        assert BackAt(before, mid, front, x);
        BackNext(front, e, before, mid, after, x);
      }
    }
  }

  lemma WrittenNext(front: seq<Extent>, e: Extent, before: seq<Cluster>)
    requires OnDisk(front + [e], |before|)
    ensures e.phys + e.len <= |before| && OnDisk(front, |before|)
    ensures Written(before, Save(front + [e], before))
         == if Moved(e)
            then Overlaid(Written(before, Save(front, before)), Saved(e.off, before[e.phys..e.phys + e.len]))
            else Written(before, Save(front, before))
  {
    hide Written, Save, OnDisk;
    OnDiskFront(front, e, |before|);
    SaveNext(front, e, before);
    var s := Save(front, before);
    if Moved(e) {
      WrittenLast(before, s, Saved(e.off, before[e.phys..e.phys + e.len]));
    } else {
      assert s + [] == s;
    }
  }

  lemma OnDiskFront(front: seq<Extent>, e: Extent, size: nat)
    requires OnDisk(front + [e], size)
    ensures OnDisk(front, size) && e.off + e.len <= size && e.phys + e.len <= size
  {
    var all := front + [e];
    assert all[|front|] == e && e in all;
    assert forall f :: f in front ==> f in all;
  }

  lemma SaveNext(front: seq<Extent>, e: Extent, before: seq<Cluster>)
    requires OnDisk(front + [e], |before|) && OnDisk(front, |before|) && e.phys + e.len <= |before|
    ensures Save(front + [e], before)
         == Save(front, before) + if Moved(e) then [Saved(e.off, before[e.phys..e.phys + e.len])] else []
  {
    hide OnDisk, Moved;
    var all := front + [e];
    assert all != [] && all[..|all| - 1] == front && all[|all| - 1] == e;
  }

  lemma WrittenLast(d: seq<Cluster>, saved: seq<Saved>, w: Saved)
    ensures Written(d, saved + [w]) == Overlaid(Written(d, saved), w)
  {
    assert (saved + [w])[..|saved|] == saved;
  }

  lemma MovedNext(front: seq<Extent>, e: Extent, x: nat)
    ensures MovedAt(front + [e], x) <==> MovedAt(front, x) || (Moved(e) && e.Has(x))
  {
    var all := front + [e];
    if MovedAt(front, x) {
      var f :| f in front && Moved(f) && f.Has(x);
      assert f in all;
    }
    assert all[|front|] == e && e in all;
  }

  lemma OnlyOneHas(front: seq<Extent>, e: Extent, x: nat)
    requires Disjoint(front + [e]) && e.Has(x)
    ensures forall f :: f in front ==> !f.Has(x)
  {
    var all := front + [e];
    forall f | f in front
      ensures !f.Has(x)
    {
      var i :| 0 <= i < |front| && front[i] == f;
      assert all[i] == f && all[|front|] == e;
    }
  }

  lemma BackNext(front: seq<Extent>, e: Extent, before: seq<Cluster>, mid: seq<Cluster>, after: seq<Cluster>, x: nat)
    requires x < |before| == |mid| == |after| && Disjoint(front + [e]) && BackAt(before, mid, front, x)
    requires e.phys + e.len <= |before|
    requires after == if Moved(e) then Overlaid(mid, Saved(e.off, before[e.phys..e.phys + e.len])) else mid
    ensures BackAt(before, after, front + [e], x)
  {
    hide MovedAt, Disjoint;
    MovedNext(front, e, x);
    assert forall f :: f in front + [e] <==> f in front || f == e;
    if Moved(e) && e.Has(x) {
      OnlyOneHas(front, e, x);
      assert after[x] == before[e.phys..e.phys + e.len][x - e.off] == before[e.phys + (x - e.off)];
    } else {
      assert after[x] == mid[x];
    }
  }
}
