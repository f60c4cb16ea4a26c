/**
 * Converting and rolling back: what may happen to the volume between the two, and that the
 * volume's used clusters are what they were.
 */
module Protect {
  import opened ChunkMath
  import opened RunLists
  import opened ImageRollback

  // Cluster `x` was in use on the old volume.
  predicate Used(first: RunMap, x: nat, n: nat)
    requires 0 < n
  {
    CoveredAt(first, x, n)
  }

  // A relocation: the original is protected, and its content is at the new place.
  ghost predicate RelocOk(r: Reloc, runs: RunMap, disk: seq<Cluster>, first: RunMap, d0: seq<Cluster>, n: nat)
    requires 0 < n && |disk| == |d0|
  {
    && r.length == 1 && Used(first, r.old', n) && r.old' < |disk| && r.new' < |disk|
    && OwnerAt(runs, r.old', n).inode == DUMMY
    && CoveredAt(runs, r.new', n) && OwnerAt(runs, r.new', n).relocated && !Used(first, r.new', n)
    && disk[r.new'] == d0[r.old']
  }

  predicate DistinctRelocs(relocs: seq<Reloc>) {
    forall i, j :: 0 <= i < j < |relocs| ==> relocs[i].old' != relocs[j].old' && relocs[i].new' != relocs[j].new'
  }

  // A used cluster is where it was, or protected with a copy elsewhere.
  ghost predicate UsedOk(x: nat, runs: RunMap, relocs: seq<Reloc>, disk: seq<Cluster>, d0: seq<Cluster>, n: nat)
    requires 0 < n && |disk| == |d0|
  {
    && x < |disk| && CoveredAt(runs, x, n) && !OwnerAt(runs, x, n).relocated && !OwnerAt(runs, x, n).notInImg
    && (if OwnerAt(runs, x, n).inode == DUMMY then HasReloc(relocs, x) else disk[x] == d0[x])
  }

  // What holds from the scan of the bitmap to the end of the conversion.
  ghost predicate Kept(runs: RunMap, relocs: seq<Reloc>, disk: seq<Cluster>, first: RunMap, d0: seq<Cluster>, n: nat)
    requires 0 < n
  {
    && RunsOk(runs, n) && AllUnits(runs) && |disk| == |d0| && DistinctRelocs(relocs)
    && (forall x: nat :: Used(first, x, n) ==> UsedOk(x, runs, relocs, disk, d0, n))
    && (forall x: nat :: CoveredAt(runs, x, n) && !Used(first, x, n) ==>
         OwnerAt(runs, x, n).relocated || OwnerAt(runs, x, n).notInImg)
    && (forall r :: r in relocs ==> RelocOk(r, runs, disk, first, d0, n))
    && (forall x: nat :: CoveredAt(runs, x, n) && OwnerAt(runs, x, n).relocated ==> HasNew(relocs, x))
  }

  predicate HasNew(relocs: seq<Reloc>, x: nat) {
    exists i :: 0 <= i < |relocs| && relocs[i].new' == x
  }

  function FindNew(relocs: seq<Reloc>, x: nat): (i: nat)
    requires HasNew(relocs, x)
    ensures i < |relocs| && relocs[i].new' == x
    ensures forall j :: 0 <= j < i ==> relocs[j].new' != x
  {
    if relocs[0].new' == x then 0 else
      assert HasNew(relocs[1..], x) by {
        var i :| 0 <= i < |relocs| && relocs[i].new' == x;
        assert relocs[1..][i - 1].new' == x;
      }
      1 + FindNew(relocs[1..], x)
  }

  // At the start every used cluster is in a plain run.
  lemma KeptAtFirst(first: RunMap, d0: seq<Cluster>, n: nat)
    requires 0 < n && RunsOk(first, n) && AllUnits(first)
    requires forall x: nat :: CoveredAt(first, x, n) ==> x < |d0| && OwnerAt(first, x, n) == PLAIN
    ensures Kept(first, [], d0, first, d0, n)
  {
  }

  predicate MayWrite(o: Owner) {
    !o.relocated && (o.inode == DUMMY || o.notInImg)
  }

  predicate MayGive(o: Owner) {
    !o.notInImg && o.inode != DUMMY
  }

  // A write to a cluster that is protected, or in no run, or new file data.
  lemma WriteKeeps(runs: RunMap, relocs: seq<Reloc>, disk: seq<Cluster>, first: RunMap, d0: seq<Cluster>, n: nat,
                   x: nat, data: Cluster)
    requires 0 < n && Kept(runs, relocs, disk, first, d0, n) && x < |disk|
    requires CoveredAt(runs, x, n) ==> MayWrite(OwnerAt(runs, x, n))
    ensures Kept(runs, relocs, disk[x := data], first, d0, n)
  {
    hide RunsOk, AllUnits, CoveredAt, OwnerAt, HasReloc;
    var disk' := disk[x := data];
    forall y: nat | Used(first, y, n)
      ensures UsedOk(y, runs, relocs, disk', d0, n)
    {
      assert UsedOk(y, runs, relocs, disk, d0, n);
    }
    forall r | r in relocs
      ensures RelocOk(r, runs, disk', first, d0, n)
    {
      assert RelocOk(r, runs, disk, first, d0, n);
    }
  }

  // The cluster of the old volume whose content is at `x`.
  function OldOf(relocs: seq<Reloc>, x: nat): nat {
    if HasNew(relocs, x) then relocs[FindNew(relocs, x)].old' else x
  }

  // The content at `x` is that of a cluster of the old volume.
  predicate HoldsOld(relocs: seq<Reloc>, first: RunMap, n: nat, x: nat)
    requires 0 < n
  {
    HasNew(relocs, x) || (Used(first, x, n) && !HasReloc(relocs, x))
  }

  // Changing such content is to change the old volume.
  lemma ChangeKeeps(runs: RunMap, relocs: seq<Reloc>, disk: seq<Cluster>, first: RunMap, d0: seq<Cluster>, n: nat,
                    x: nat, data: Cluster)
    requires 0 < n && Kept(runs, relocs, disk, first, d0, n) && x < |disk| && HoldsOld(relocs, first, n, x)
    ensures OldOf(relocs, x) < |d0| && disk[x] == d0[OldOf(relocs, x)]
    ensures Used(first, OldOf(relocs, x), n)
    ensures Kept(runs, relocs, disk[x := data], first, d0[OldOf(relocs, x) := data], n)
  {
    hide RunsOk, AllUnits, CoveredAt, OwnerAt;
    var o := OldOf(relocs, x);
    ChangedAt(runs, relocs, disk, first, d0, n, x);
    var disk', d0' := disk[x := data], d0[o := data];
    forall y: nat | Used(first, y, n)
      ensures UsedOk(y, runs, relocs, disk', d0', n)
    {
      assert UsedOk(y, runs, relocs, disk, d0, n);
      if y == o && y != x {
        MovedIsDummyAt(runs, relocs, disk, first, d0, n, relocs[FindNew(relocs, x)]);
      }
    }
    forall i | 0 <= i < |relocs|
      ensures RelocOk(relocs[i], runs, disk', first, d0', n)
    {
      assert relocs[i] in relocs && RelocOk(relocs[i], runs, disk, first, d0, n);
      if HasNew(relocs, x) && i != FindNew(relocs, x) {
        var j := FindNew(relocs, x);
        assert relocs[if i < j then i else j].new' != relocs[if i < j then j else i].new';
      }
      assert HasReloc(relocs, relocs[i].old') && HasNew(relocs, relocs[i].new');
    }
    forall r | r in relocs
      ensures RelocOk(r, runs, disk', first, d0', n)
    {
      var i :| 0 <= i < |relocs| && relocs[i] == r;
    }
  }

  lemma MovedIsDummyAt(runs: RunMap, relocs: seq<Reloc>, disk: seq<Cluster>, first: RunMap, d0: seq<Cluster>, n: nat,
                       r: Reloc)
    requires 0 < n && Kept(runs, relocs, disk, first, d0, n) && r in relocs
    ensures OwnerAt(runs, r.old', n).inode == DUMMY
  {
    hide RunsOk, AllUnits, CoveredAt, OwnerAt;
    assert RelocOk(r, runs, disk, first, d0, n);
  }

  lemma ChangedAt(runs: RunMap, relocs: seq<Reloc>, disk: seq<Cluster>, first: RunMap, d0: seq<Cluster>, n: nat, x: nat)
    requires 0 < n && Kept(runs, relocs, disk, first, d0, n) && x < |disk| && HoldsOld(relocs, first, n, x)
    ensures OldOf(relocs, x) < |d0| && disk[x] == d0[OldOf(relocs, x)]
    ensures Used(first, OldOf(relocs, x), n) && (HasNew(relocs, x) ==> !Used(first, x, n))
  {
    hide RunsOk, AllUnits, CoveredAt, OwnerAt;
    if HasNew(relocs, x) {
      var r := relocs[FindNew(relocs, x)];
      assert r in relocs && RelocOk(r, runs, disk, first, d0, n);
    } else {
      assert UsedOk(x, runs, relocs, disk, d0, n);
    }
  }

  // Giving clusters to a file, or to none: what `split_runs` does keeps it, as long as no
  // protected cluster, copy or new file data is in the range.
  lemma GiveKeeps(runs: RunMap, runs': RunMap, relocs: seq<Reloc>, disk: seq<Cluster>, first: RunMap,
                  d0: seq<Cluster>, n: nat,
                  from: nat, to: nat, inode: nat, fileOffset: nat)
    requires 0 < n && Kept(runs, relocs, disk, first, d0, n) && RunsOk(runs', n) && AllUnits(runs')
    requires from < to && Given(runs, runs', n, from, to, inode, fileOffset) && inode != DUMMY
    requires forall x: nat :: from <= x < to && CoveredAt(runs, x, n) ==> MayGive(OwnerAt(runs, x, n))
    ensures Kept(runs', relocs, disk, first, d0, n)
  {
    forall x: nat
      ensures OwnerAt(runs', x, n).relocated == OwnerAt(runs, x, n).relocated || !CoveredAt(runs, x, n)
      ensures CoveredAt(runs, x, n) && !(from <= x < to) ==>
        OwnerAt(runs', x, n) == OwnerAt(runs, x, n)
        || (OwnerAt(runs, x, n) == OwnerAt(runs, from, n) && OwnerAt(runs', x, n) == PLAIN)
      ensures LeftOver(runs, runs', x, n, from) ==> CoveredAt(runs, from, n)
    {
      GiveAt(runs, runs', n, from, to, inode, fileOffset, x);
    }
  }

  lemma GiveAt(runs: RunMap, runs': RunMap, n: nat, from: nat, to: nat, inode: nat, fileOffset: nat, x: nat)
    requires 0 < n && AllUnits(runs) && RunsOk(runs, n) && from < to
    requires Given(runs, runs', n, from, to, inode, fileOffset)
    ensures CoveredAt(runs, x, n) ==> OwnerAt(runs', x, n).relocated == OwnerAt(runs, x, n).relocated
    ensures LeftOver(runs, runs', x, n, from) ==> CoveredAt(runs, from, n)
  {
    if LeftOver(runs, runs', x, n, from) {
      var list := ListOf(runs, Index(x, n));
      var a :| a in list && a.Has(x) && a.Has(from) && a.owner == OwnerOf(list, x);
      assert a.length == 1 ==> x == from;
      HasIsCovered(list, a, from);
    }
  }

  lemma {:induction false} HasIsCovered(list: seq<Alloc>, a: Alloc, x: nat)
    requires a in list && a.Has(x)
    ensures Covered(list, x)
    decreases |list|
  {
    if a != list[0] {
      HasIsCovered(list[1..], a, x);
    }
  }

  // Not protected yet, not a copy, not new file data.
  predicate Protectable(o: Owner) {
    o.inode != DUMMY && !o.relocated && !o.notInImg
  }

  // Protecting cluster `c`: its run is given to the dummy inode, its content copied to `t`, and
  // `t` entered as a relocated run.
  lemma ProtectKeeps(runs: RunMap, split: RunMap, runs': RunMap, relocs: seq<Reloc>, disk: seq<Cluster>, first: RunMap,
                     d0: seq<Cluster>, n: nat, c: nat, t: nat)
    requires 0 < n && Kept(runs, relocs, disk, first, d0, n)
    requires CoveredAt(runs, c, n) && Protectable(OwnerAt(runs, c, n))
    requires Given(runs, split, n, c, c + 1, DUMMY, 0)
    requires t < |disk| && !CoveredAt(runs, t, n) && RunsOk(runs', n) && AllUnits(runs')
    requires Entered(split, runs', CopyOf(t), n)
    ensures c < |disk| && Kept(runs', relocs + [Reloc(c, 1, t)], disk[t := disk[c]], first, d0, n)
    ensures OwnerAt(runs', c, n).inode == DUMMY
  {
    hide RunsOk, AllUnits, CoveredAt, OwnerAt, HasReloc, SameRun;
    var r := Reloc(c, 1, t);
    var relocs', disk' := relocs + [r], disk[t := disk[c]];
    assert UsedOk(c, runs, relocs, disk, d0, n);
    forall x: nat
      ensures CoveredAt(runs', x, n) <==> CoveredAt(runs, x, n) || x == t
      ensures x != c && x != t && OwnerAt(runs', x, n) != OwnerAt(runs, x, n) ==>
        OwnerAt(runs', x, n) == PLAIN && OwnerAt(runs, x, n) == OwnerAt(runs, c, n)
    {
      assert CoveredAt(split, x, n) <==> CoveredAt(runs, x, n);
    }
    assert OwnerAt(runs', c, n) == Owner(DUMMY, 0, false, false) && OwnerAt(runs', t, n) == Owner(0, 0, true, false);
    MoreRelocs(relocs, r);
    forall x: nat | Used(first, x, n)
      ensures UsedOk(x, runs', relocs', disk', d0, n)
    {
      assert UsedOk(x, runs, relocs, disk, d0, n);
    }
    forall q | q in relocs
      ensures RelocOk(q, runs', disk', first, d0, n) && q.old' != c && q.new' != t
    {
      assert RelocOk(q, runs, disk, first, d0, n);
    }
    assert RelocOk(r, runs', disk', first, d0, n);
    assert DistinctRelocs(relocs');
  }

  lemma MoreRelocs(relocs: seq<Reloc>, r: Reloc)
    ensures forall x: nat :: HasReloc(relocs + [r], x) <==> HasReloc(relocs, x) || r.old' == x
    ensures forall x: nat :: HasNew(relocs, x) || r.new' == x ==> HasNew(relocs + [r], x)
  {
    var all := relocs + [r];
    assert all[|relocs|] == r;
    forall x: nat | HasReloc(relocs, x)
      ensures HasReloc(all, x)
    {
      var i :| 0 <= i < |relocs| && relocs[i].old' == x;
      assert all[i].old' == x;
    }
    forall x: nat | HasNew(relocs, x)
      ensures HasNew(all, x)
    {
      var i :| 0 <= i < |relocs| && relocs[i].new' == x;
      assert all[i].new' == x;
    }
  }

  // The run that stands for a copy at `t`.
  function CopyOf(t: nat): Alloc {
    Alloc(t, 1, Owner(0, 0, true, false))
  }

  // A run, and nothing else, has been entered.
  ghost predicate Entered(runs: RunMap, runs': RunMap, a: Alloc, n: nat)
    requires 0 < n
  {
    && (forall x: nat :: CoveredAt(runs', x, n) <==> CoveredAt(runs, x, n) || a.Has(x))
    && (forall x: nat :: OwnerAt(runs', x, n) == if a.Has(x) then a.owner else OwnerAt(runs, x, n))
  }

  // It went into the list of its chunk.
  predicate IsPutIn(runs: RunMap, runs': RunMap, a: Alloc, n: nat)
    requires 0 < n
  {
    runs' == runs[Index(a.offset, n) := Put(ListOf(runs, Index(a.offset, n)), a)]
  }

  // The clusters of a run are in no run yet, and in one chunk.
  ghost predicate Enterable(runs: RunMap, a: Alloc, n: nat)
    requires 0 < n
  {
    && 0 < a.length && a.End() <= First(Index(a.offset, n), n) + n
    && (forall x: nat :: a.Has(x) ==> !CoveredAt(runs, x, n))
    && (a.owner.inode == DUMMY || a.owner.relocated ==> a.length == 1)
  }

  // Before the first run that begins later.
  function Place(list: seq<Alloc>, at: nat): (i: nat)
    ensures i <= |list|
    ensures forall j :: 0 <= j < i ==> list[j].offset <= at
    ensures i < |list| ==> at < list[i].offset
  {
    if list == [] || at < list[0].offset then 0 else 1 + Place(list[1..], at)
  }

  function Put(list: seq<Alloc>, a: Alloc): seq<Alloc> {
    if list == [] || a.offset < list[0].offset then [a] + list else [list[0]] + Put(list[1..], a)
  }

  lemma {:induction false} PutIsPlaced(list: seq<Alloc>, a: Alloc)
    ensures Put(list, a) == list[..Place(list, a.offset)] + [a] + list[Place(list, a.offset)..]
  {
    if list != [] && list[0].offset <= a.offset {
      PutIsPlaced(list[1..], a);
      var i := Place(list[1..], a.offset);
      assert list[..i + 1] == [list[0]] + list[1..][..i];
    }
  }

  lemma {:induction false} PutKeeps(list: seq<Alloc>, a: Alloc, from: nat, to: nat)
    requires RunLists.Sorted(list, from, to) && 0 < a.length && from <= a.offset && a.End() <= to
    requires forall x: nat :: a.Has(x) ==> !Covered(list, x)
    ensures RunLists.Sorted(Put(list, a), from, to)
    decreases |list|
  {
    if list != [] {
      assert Covered(list, list[0].offset);
      assert list[0].offset <= a.offset ==> list[0].End() <= a.offset by {
        assert !Covered(list, a.offset);
      }
    }
    if list == [] || a.offset < list[0].offset {
      assert ([a] + list)[1..] == list;
    } else {
      PutKeeps(list[1..], a, list[0].End(), to);
      assert ([list[0]] + Put(list[1..], a))[1..] == Put(list[1..], a);
    }
  }

  lemma {:induction false} PutOwners(list: seq<Alloc>, a: Alloc, x: nat)
    requires forall y: nat :: a.Has(y) ==> !Covered(list, y)
    ensures Covered(Put(list, a), x) <==> Covered(list, x) || a.Has(x)
    ensures OwnerOf(Put(list, a), x) == if a.Has(x) then a.owner else OwnerOf(list, x)
    decreases |list|
  {
    if list == [] || a.offset < list[0].offset {
      assert ([a] + list)[1..] == list;
    } else {
      PutOwners(list[1..], a, x);
      assert ([list[0]] + Put(list[1..], a))[1..] == Put(list[1..], a);
    }
  }

  lemma {:induction false} PutHas(list: seq<Alloc>, a: Alloc)
    ensures forall b :: b in Put(list, a) <==> b in list || b == a
    decreases |list|
  {
    if list != [] && list[0].offset <= a.offset {
      PutHas(list[1..], a);
    }
  }

  // The end of `protect_cluster`: the copy is entered where its offset puts it.
  method EnterCopy(before: RunMap, t: nat, n: nat) returns (runs: RunMap)
    requires 0 < n && RunsOk(before, n) && AllUnits(before) && !CoveredAt(before, t, n)
    ensures RunsOk(runs, n) && AllUnits(runs) && Entered(before, runs, CopyOf(t), n)
    ensures IsPutIn(before, runs, CopyOf(t), n)
  {
    hide RunsOk, AllUnits, Entered, Put;
    var chunk := Index(t, n);
    var a := CopyOf(t);
    IndexBounds(t, n);
    var list := ListOf(before, chunk);
    var i: nat := 0;
    while i < |list| && list[i].offset <= t
      invariant i <= |list| && forall j :: 0 <= j < i ==> list[j].offset <= t
    {
      i := i + 1;
    }
    assert i == Place(list, t);
    runs := before[chunk := list[..i] + [a] + list[i..]];
    PutIsPlaced(list, a);
    RunEntered(before, runs, a, n);
  }

  lemma RunEntered(before: RunMap, runs: RunMap, a: Alloc, n: nat)
    requires 0 < n && RunsOk(before, n) && AllUnits(before) && Enterable(before, a, n) && IsPutIn(before, runs, a, n)
    ensures RunsOk(runs, n) && AllUnits(runs) && Entered(before, runs, a, n)
  {
    hide RunLists.Sorted, Covered, OwnerOf, Put, First;
    var chunk := Index(a.offset, n);
    var list := ListOf(before, chunk);
    IndexBounds(a.offset, n);
    NoneSorted(chunk, n);
    forall x: nat | a.Has(x)
      ensures Index(x, n) == chunk && !Covered(list, x)
    {
      IndexIsUnique(x, n, chunk);
      assert !CoveredAt(before, x, n);
    }
    PutKeeps(list, a, First(chunk, n), First(chunk, n) + n);
    PutHas(list, a);
    forall x: nat
      ensures CoveredAt(runs, x, n) <==> CoveredAt(before, x, n) || a.Has(x)
      ensures OwnerAt(runs, x, n) == if a.Has(x) then a.owner else OwnerAt(before, x, n)
    {
      PutOwners(list, a, x);
    }
  }

  // The run of newly written file data is entered before the first run beyond it.
  method EnterData(before: RunMap, a: Alloc, n: nat) returns (runs: RunMap)
    requires 0 < n && RunsOk(before, n) && AllUnits(before) && Enterable(before, a, n)
    ensures RunsOk(runs, n) && AllUnits(runs) && Entered(before, runs, a, n) && IsPutIn(before, runs, a, n)
  {
    hide RunsOk, AllUnits, Entered, Put, Enterable;
    var chunk := Index(a.offset, n);
    var list := ListOf(before, chunk);
    var i: nat := 0;
    while i < |list| && list[i].offset < a.End()
      invariant i <= |list| && forall j :: 0 <= j < i ==> list[j].offset < a.End()
    {
      i := i + 1;
    }
    runs := before[chunk := list[..i] + [a] + list[i..]];
    DataPlace(before, a, n, i);
    PutIsPlaced(list, a);
    RunEntered(before, runs, a, n);
  }

  // Since no run lies in the range, the first that begins beyond its end is the first beyond its start.
  lemma DataPlace(before: RunMap, a: Alloc, n: nat, i: nat)
    requires 0 < n && RunsOk(before, n) && Enterable(before, a, n)
    requires var list := ListOf(before, Index(a.offset, n));
      && i <= |list| && (forall j :: 0 <= j < i ==> list[j].offset < a.End())
      && (i < |list| ==> a.End() <= list[i].offset)
    ensures i == Place(ListOf(before, Index(a.offset, n)), a.offset)
  {
    hide RunLists.Sorted, Covered, First;
    var list, chunk := ListOf(before, Index(a.offset, n)), Index(a.offset, n);
    forall j | 0 <= j < i
      ensures list[j].offset <= a.offset
    {
      BeginsCovered(before, n, chunk, j);
      assert CoveredAt(before, list[j].offset, n);
    }
    PlaceIs(list, a.offset, i);
  }

  lemma BeginsCovered(runs: RunMap, n: nat, k: nat, j: nat)
    requires 0 < n && RunsOk(runs, n) && j < |ListOf(runs, k)|
    ensures CoveredAt(runs, ListOf(runs, k)[j].offset, n)
  {
    var list := ListOf(runs, k);
    SortedParts(list, First(k, n), First(k, n) + n, j);
    IndexIsUnique(list[j].offset, n, k);
    HasIsCovered(list, list[j], list[j].offset);
  }

  lemma {:induction false} PlaceIs(list: seq<Alloc>, at: nat, i: nat)
    requires i <= |list| && (forall j :: 0 <= j < i ==> list[j].offset <= at) && (i < |list| ==> at < list[i].offset)
    ensures i == Place(list, at)
  {
    if 0 < i {
      PlaceIs(list[1..], at, i - 1);
    }
  }

  // New file data, in clusters that were in no run.
  lemma DataKeeps(runs: RunMap, runs': RunMap, relocs: seq<Reloc>, disk: seq<Cluster>, first: RunMap, d0: seq<Cluster>,
                  n: nat, a: Alloc)
    requires 0 < n && Kept(runs, relocs, disk, first, d0, n) && RunsOk(runs', n) && AllUnits(runs')
    requires Enterable(runs, a, n) && Entered(runs, runs', a, n)
    requires a.owner.notInImg && !a.owner.relocated && a.owner.inode != DUMMY
    ensures Kept(runs', relocs, disk, first, d0, n)
  {
    hide RunsOk, AllUnits, CoveredAt, OwnerAt, HasReloc;
    forall x: nat | Used(first, x, n)
      ensures UsedOk(x, runs', relocs, disk, d0, n)
    {
      assert UsedOk(x, runs, relocs, disk, d0, n);
    }
    forall r | r in relocs
      ensures RelocOk(r, runs', disk, first, d0, n)
    {
      assert RelocOk(r, runs, disk, first, d0, n);
      assert CoveredAt(runs, r.old', n) by {
        assert UsedOk(r.old', runs, relocs, disk, d0, n);
      }
    }
  }

  lemma KeptRuns(runs: RunMap, relocs: seq<Reloc>, disk: seq<Cluster>, first: RunMap, d0: seq<Cluster>, n: nat)
    requires 0 < n && Kept(runs, relocs, disk, first, d0, n)
    ensures RunsOk(runs, n) && AllUnits(runs) && |disk| == |d0|
  {
  }

  lemma TouchedOne(runs: RunMap, n: nat, c: nat)
    requires 0 < n
    ensures Touched(runs, n, c, c + 1) <==> CoveredAt(runs, c, n)
    ensures 1 <= n - Rem(c, n)
  {
  }

  lemma GivenCovers(runs: RunMap, runs': RunMap, n: nat, from: nat, to: nat, inode: nat, fileOffset: nat)
    requires 0 < n && Given(runs, runs', n, from, to, inode, fileOffset)
    ensures forall x: nat :: CoveredAt(runs', x, n) <==> CoveredAt(runs, x, n)
  {
  }

  // One cluster cut out for the dummy inode, one run for the copy.
  ghost predicate ProtectedIn(runs: RunMap, runs': RunMap, cluster: nat, target: nat, n: nat)
    requires 0 < n
  {
    exists split: RunMap ::
      IsCutIn(runs, split, Index(cluster, n), cluster, 1, DUMMY, 0) && IsPutIn(split, runs', CopyOf(target), n)
  }

  // The run lists' part of `protect_cluster`.
  method MoveAway(runs: RunMap, n: nat, c: nat, t: nat, ghost relocs: seq<Reloc>, ghost disk: seq<Cluster>,
                  ghost first: RunMap, ghost d0: seq<Cluster>)
    returns (done: bool, entered: RunMap)
    requires 0 < n && Kept(runs, relocs, disk, first, d0, n) && t < |disk| && !CoveredAt(runs, t, n)
    requires CoveredAt(runs, c, n) ==> Protectable(OwnerAt(runs, c, n))
    ensures done == CoveredAt(runs, c, n)
    ensures done ==> c < |disk| && Kept(entered, relocs + [Reloc(c, 1, t)], disk[t := disk[c]], first, d0, n)
    ensures done ==> OwnerAt(entered, c, n).inode == DUMMY && ProtectedIn(runs, entered, c, t, n)
  {
    hide Kept, Given, RunsOk, AllUnits, Entered, CoveredAt, OwnerAt, Touched, IsCutIn, IsPutIn;
    KeptRuns(runs, relocs, disk, first, d0, n);
    var split, o := SplitRuns(runs, n, c, 1, DUMMY, 0);
    TouchedOne(runs, n, c);
    done := o == Changed;
    entered := runs;
    if done {
      GivenCovers(runs, split, n, c, c + 1, DUMMY, 0);
      entered := EnterCopy(split, t, n);
      ProtectKeeps(runs, split, entered, relocs, disk, first, d0, n, c, t);
    }
  }

  class Converter {
    const n: nat
    const disk: array<Cluster>
    var runs: RunMap
    var relocs: seq<Reloc>
    ghost const first: RunMap     // the runs of the old volume
    ghost var d0: seq<Cluster>    // and its contents

    ghost predicate Valid()
      reads this, disk
    {
      0 < n && Kept(runs, relocs, disk[..], first, d0, n)
    }

    constructor (n: nat, disk: array<Cluster>, runs: RunMap)
      requires 0 < n && RunsOk(runs, n) && AllUnits(runs)
      requires forall x: nat :: CoveredAt(runs, x, n) ==> x < disk.Length && OwnerAt(runs, x, n) == PLAIN
      ensures Valid() && this.disk == disk && first == runs && d0 == disk[..] && this.n == n && this.runs == runs
      ensures relocs == []
    {
      this.n, this.disk, this.runs, this.relocs := n, disk, runs, [];
      this.first, this.d0 := runs, disk[..];
      new;
      KeptAtFirst(runs, disk[..], n);
    }

    // `protect_cluster`, with the place the allocator gives.
    method ProtectCluster(cluster: nat, target: nat) returns (done: bool)
      requires Valid() && target < disk.Length && !CoveredAt(runs, target, n)
      requires CoveredAt(runs, cluster, n) ==> Protectable(OwnerAt(runs, cluster, n))
      modifies `runs, `relocs, disk
      ensures Valid() && done == old(CoveredAt(runs, cluster, n))
      ensures !done ==> relocs == old(relocs) && disk[..] == old(disk[..])
      ensures done ==> relocs == old(relocs) + [Reloc(cluster, 1, target)]
      ensures done ==> cluster < disk.Length && disk[..] == old(disk[..])[target := old(disk[..])[cluster]]
      ensures done ==> OwnerAt(runs, cluster, n).inode == DUMMY
      ensures done ==> ProtectedIn(old(runs), runs, cluster, target, n)
      ensures !done ==> runs == old(runs)
    {
      hide Kept, CoveredAt, OwnerAt, ProtectedIn;
      ghost var disk0 := disk[..];
      var entered;
      done, entered := MoveAway(runs, n, cluster, target, relocs, disk0, first, d0);
      if done {
        disk[target] := disk[cluster];
        assert disk[..] == disk0[target := disk0[cluster]];
        relocs := relocs + [Reloc(cluster, 1, target)];
        runs := entered;
      }
    }

    // A later write: to a protected original, to a cluster in no run, or to new file data.
    method Write(x: nat, data: Cluster)
      requires Valid() && x < disk.Length && (CoveredAt(runs, x, n) ==> MayWrite(OwnerAt(runs, x, n)))
      modifies disk
      ensures Valid() && disk[..] == old(disk[..])[x := data]
    {
      ghost var disk0 := disk[..];
      WriteKeeps(runs, relocs, disk[..], first, d0, n, x, data);
      disk[x] := data;
      assert disk[..] == disk0[x := data];
    }

    // A write to what is still content of the old volume: what rolling back restores is the old volume so changed.
    method Change(x: nat, data: Cluster)
      requires Valid() && x < disk.Length && HoldsOld(relocs, first, n, x)
      modifies disk, `d0
      ensures Valid() && disk[..] == old(disk[..])[x := data]
      ensures OldOf(relocs, x) < |old(d0)| && d0 == old(d0)[OldOf(relocs, x) := data]
      ensures old(disk[x]) == old(d0)[OldOf(relocs, x)] && Used(first, OldOf(relocs, x), n)
    {
      hide Kept, HoldsOld;
      ghost var disk0 := disk[..];
      ChangeKeeps(runs, relocs, disk0, first, d0, n, x, data);
      disk[x] := data;
      d0 := d0[OldOf(relocs, x) := data];
      assert disk[..] == disk0[x := data];
    }

    // Giving a range to a file: `split_runs` as `process_mappings` calls it.
    method Give(offset: nat, length: nat, inode: nat, fileOffset: nat) returns (o: Outcome)
      requires Valid() && 0 < length && inode != DUMMY
      requires forall x: nat :: offset <= x < offset + length && CoveredAt(runs, x, n) ==> MayGive(OwnerAt(runs, x, n))
      modifies `runs
      ensures o != Corrupt ==> Valid() && Given(old(runs), runs, n, offset, offset + length, inode, fileOffset)
      ensures o != Corrupt ==> (o == Changed <==> old(Touched(runs, n, offset, offset + length)))
      ensures o == Corrupt && length <= n - Rem(offset, n) ==>
        SplitOf(ListOf(old(runs), Index(offset, n)), offset, length, inode, fileOffset) == Partial
      ensures o == Changed && length <= n - Rem(offset, n) ==>
        IsCutIn(old(runs), runs, Index(offset, n), offset, length, inode, fileOffset)
    {
      var given;
      given, o := SplitRuns(runs, n, offset, length, inode, fileOffset);
      if o != Corrupt {
        GiveKeeps(runs, given, relocs, disk[..], first, d0, n, offset, offset + length, inode, fileOffset);
        runs := given;
      }
    }

    // New file data: it has been written to clusters in no run, and now gets one.
    method Enter(lcn: nat, length: nat, inode: nat, fileOffset: nat)
      requires Valid() && inode != DUMMY
      requires Enterable(runs, Alloc(lcn, length, Owner(inode, fileOffset, false, true)), n)
      modifies `runs
      ensures Valid()
      ensures IsPutIn(old(runs), runs, Alloc(lcn, length, Owner(inode, fileOffset, false, true)), n)
      ensures Entered(old(runs), runs, Alloc(lcn, length, Owner(inode, fileOffset, false, true)), n)
    {
      var a := Alloc(lcn, length, Owner(inode, fileOffset, false, true));
      var entered := EnterData(runs, a, n);
      DataKeeps(runs, entered, relocs, disk[..], first, d0, n, a);
      runs := entered;
    }
  }
}
