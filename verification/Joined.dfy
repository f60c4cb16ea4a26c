/**
 * Runs that no file owns and that have not been moved never touch each other: so a range of such clusters lies in
 * one run, and `split_runs` can give it away. Nor is a copy ever protected.
 */
module Joined {
  import opened ChunkMath
  import opened Protect
  import opened RunLists

  // No file's, not a copy and not new data.
  predicate Loose(o: Owner) {
    o.inode == 0 && !o.relocated && !o.notInImg
  }

  predicate JoinedList(list: seq<Alloc>) {
    && (forall a, b :: a in list && b in list && Loose(a.owner) && Loose(b.owner) ==> a.End() != b.offset)
    && (forall a :: a in list && a.owner.relocated ==> a.owner.inode != DUMMY)
  }

  predicate AllJoined(runs: RunMap) {
    forall k :: k in runs ==> JoinedList(runs[k])
  }

  // Entries that share a cluster are the same.
  lemma {:induction false} SameEntry(list: seq<Alloc>, from: nat, to: nat, a: Alloc, b: Alloc, x: nat)
    requires RunLists.Sorted(list, from, to) && a in list && b in list && a.Has(x) && b.Has(x)
    ensures a == b
    decreases |list|
  {
    var rest := list[1..];
    if a in rest && b in rest {
      SameEntry(rest, list[0].End(), to, a, b, x);
    } else if a in rest {
      LaterStartsLater(rest, list[0].End(), to, a);
    } else if b in rest {
      LaterStartsLater(rest, list[0].End(), to, b);
    }
  }

  // An entry does not end inside another.
  lemma EndsOutside(list: seq<Alloc>, from: nat, to: nat, a: Alloc, h: Alloc)
    requires RunLists.Sorted(list, from, to) && a in list && h in list && a != h
    ensures !(h.offset < a.End() <= h.End()) && !(h.offset <= a.offset < h.End())
  {
    LaterStartsLater(list, from, to, a);
    if h.offset < a.End() <= h.End() {
      var x := if a.offset < h.offset then h.offset else a.End() - 1;
      SameEntry(list, from, to, a, h, x);
    }
    if h.offset <= a.offset < h.End() {
      SameEntry(list, from, to, a, h, a.offset);
    }
  }

  // Giving part of a run to someone keeps it.
  lemma SplitKeepsJoined(list: seq<Alloc>, offset: nat, length: nat, inode: nat, fileOffset: nat, from: nat, to: nat)
    requires RunLists.Sorted(list, from, to) && JoinedList(list) && 0 < length && inode != 0
    requires SplitOf(list, offset, length, inode, fileOffset).Cut?
    requires SplitOf(list, offset, length, 0, 0) != Untouched
    requires Loose(Hit(list, offset, length).owner) || Hit(list, offset, length).length == 1
    requires Hit(list, offset, length).owner.relocated ==> inode != DUMMY
    ensures JoinedList(SplitOf(list, offset, length, inode, fileOffset).list)
  {
    var h, list' := Hit(list, offset, length), SplitOf(list, offset, length, inode, fileOffset).list;
    HitIsThere(list, offset, length);
    LaterStartsLater(list, from, to, h);
    forall a, b | a in list' && b in list' && Loose(a.owner) && Loose(b.owner)
      ensures a.End() != b.offset
    {
      SplitEntries(list, offset, length, inode, fileOffset, a, from, to);
      SplitEntries(list, offset, length, inode, fileOffset, b, from, to);
      if a in list && a != h {
        EndsOutside(list, from, to, a, h);
      }
      if b in list && b != h {
        EndsOutside(list, from, to, b, h);
      }
    }
    forall a | a in list' && a.owner.relocated
      ensures a.owner.inode != DUMMY
    {
      SplitEntries(list, offset, length, inode, fileOffset, a, from, to);
    }
  }

  // So does entering a run that is a copy or new data.
  lemma PutKeepsJoined(list: seq<Alloc>, a: Alloc)
    requires JoinedList(list) && !Loose(a.owner) && (a.owner.relocated ==> a.owner.inode != DUMMY)
    ensures JoinedList(Put(list, a))
  {
    PutHas(list, a);
  }

  // The entry a covered cluster is in.
  lemma {:induction false} EntryAt(list: seq<Alloc>, x: nat) returns (a: Alloc)
    requires Covered(list, x)
    ensures a in list && a.Has(x) && a.owner == OwnerOf(list, x)
    decreases |list|
  {
    if list[0].Has(x) {
      a := list[0];
    } else {
      a := EntryAt(list[1..], x);
    }
  }

  predicate LooseRange(list: seq<Alloc>, offset: nat, length: nat) {
    forall x: nat :: offset <= x < offset + length ==> Covered(list, x) && Loose(OwnerOf(list, x))
  }

  // Where a loose run ends, inside a loose range, another one begins.
  lemma NextIsLoose(list: seq<Alloc>, offset: nat, length: nat, from: nat, to: nat)
    requires RunLists.Sorted(list, from, to) && list != [] && LooseRange(list, offset, length)
    requires list[0].Has(offset) && list[0].End() < offset + length
    ensures !JoinedList(list)
  {
    var r, rest := list[0], list[1..];
    assert Covered(list, offset) && Covered(list, r.End());
    var b := EntryAt(rest, r.End());
    LaterStartsLater(rest, r.End(), to, b);
    assert OwnerOf(list, r.End()) == b.owner && b in list && r in list;
  }

  // A range of loose clusters is in one run.
  lemma {:induction false} LooseIsCut(list: seq<Alloc>, offset: nat, length: nat, from: nat, to: nat)
    requires RunLists.Sorted(list, from, to) && JoinedList(list) && 0 < length && LooseRange(list, offset, length)
    ensures SplitOf(list, offset, length, 0, 0).Cut?
    decreases |list|
  {
    assert Covered(list, offset);
    var r, rest := list[0], list[1..];
    SortedBounds(rest, r.End(), to, offset);
    if Overlaps(r, offset, length) {
      if r.End() < offset + length {
        NextIsLoose(list, offset, length, from, to);
      }
    } else {
      forall x: nat | offset <= x < offset + length
        ensures Covered(rest, x) && Loose(OwnerOf(rest, x))
      {
        assert Covered(list, x);
      }
      LooseIsCut(rest, offset, length, r.End(), to);
    }
  }

  // One cluster is always in one run.
  lemma {:induction false} OneIsCut(list: seq<Alloc>, offset: nat)
    requires Covered(list, offset)
    ensures SplitOf(list, offset, 1, 0, 0).Cut?
    decreases |list|
  {
    if !Overlaps(list[0], offset, 1) {
      OneIsCut(list[1..], offset);
    }
  }

  // ----- all the lists -----

  // What is given away is loose, or a single cluster.
  lemma CutKeepsJoined(runs: RunMap, runs': RunMap, n: nat, offset: nat, length: nat, inode: nat, fileOffset: nat)
    requires 0 < n && RunsOk(runs, n) && AllUnits(runs) && AllJoined(runs) && 0 < length && inode != 0
    requires IsCutIn(runs, runs', Index(offset, n), offset, length, inode, fileOffset)
    requires CoveredAt(runs, offset, n) ==> MayGive(OwnerAt(runs, offset, n)) && OwnerAt(runs, offset, n).inode == 0
    requires CoveredAt(runs, offset, n) && OwnerAt(runs, offset, n).relocated ==> inode != DUMMY
    ensures AllJoined(runs')
  {
    hide First, JoinedList, Units, RunLists.Sorted;
    var k := Index(offset, n);
    var list := runs[k];
    SplitOwners(list, offset, length, inode, fileOffset, First(k, n), First(k, n) + n, offset);
    HitIsThere(list, offset, length);
    HitIsUnit(list, Hit(list, offset, length));
    SplitKeepsJoined(list, offset, length, inode, fileOffset, First(k, n), First(k, n) + n);
  }

  lemma HitIsUnit(list: seq<Alloc>, h: Alloc)
    requires Units(list) && h in list
    ensures h.owner.relocated ==> h.length == 1
  {
  }

  lemma PutInKeepsJoined(runs: RunMap, runs': RunMap, a: Alloc, n: nat)
    requires 0 < n && AllJoined(runs) && !Loose(a.owner) && IsPutIn(runs, runs', a, n)
    requires a.owner.relocated ==> a.owner.inode != DUMMY
    ensures AllJoined(runs')
  {
    hide JoinedList;
    NoneIsJoined();
    PutKeepsJoined(ListOf(runs, Index(a.offset, n)), a);
  }

  lemma NoneIsJoined()
    ensures JoinedList([])
  {
  }

  // `protect_cluster`.
  lemma ProtectKeepsJoined(runs: RunMap, runs': RunMap, cluster: nat, target: nat, n: nat)
    requires 0 < n && RunsOk(runs, n) && AllUnits(runs) && AllJoined(runs)
    requires ProtectedIn(runs, runs', cluster, target, n)
    requires Protectable(OwnerAt(runs, cluster, n)) && OwnerAt(runs, cluster, n).inode == 0
    ensures AllJoined(runs')
  {
    hide AllJoined, RunsOk, AllUnits, OwnerAt, IsCutIn, IsPutIn;
    var split: RunMap :| IsCutIn(runs, split, Index(cluster, n), cluster, 1, DUMMY, 0)
      && IsPutIn(split, runs', CopyOf(target), n);
    CutKeepsJoined(runs, split, n, cluster, 1, DUMMY, 0);
    PutInKeepsJoined(split, runs', CopyOf(target), n);
  }

  // Clusters in use that are loose, or a single one.
  predicate CanGive(runs: RunMap, n: nat, offset: nat, length: nat)
    requires 0 < n
  {
    && (forall x: nat :: offset <= x < offset + length ==> CoveredAt(runs, x, n))
    && (length == 1 || forall x: nat :: offset <= x < offset + length ==> Loose(OwnerAt(runs, x, n)))
  }

  // In each chunk they are in one run.
  lemma CanBeCut(runs: RunMap, n: nat, offset: nat, length: nat)
    requires 0 < n && RunsOk(runs, n) && AllJoined(runs) && 0 < length <= n - Rem(offset, n)
    requires CanGive(runs, n, offset, length)
    ensures SplitOf(ListOf(runs, Index(offset, n)), offset, length, 0, 0).Cut?
  {
    hide First, JoinedList, RunLists.Sorted, Loose, Index;
    var k := Index(offset, n);
    IndexBounds(offset, n);
    assert CoveredAt(runs, offset, n);
    assert k in runs && Covered(runs[k], offset);
    forall x: nat | offset <= x < offset + length
      ensures Covered(runs[k], x) && (1 < length ==> Loose(OwnerOf(runs[k], x)))
    {
      IndexIsUnique(x, n, k);
      assert CoveredAt(runs, x, n) && OwnerAt(runs, x, n) == OwnerOf(ListOf(runs, k), x);
    }
    if length == 1 {
      OneIsCut(runs[k], offset);
    } else {
      LooseIsCut(runs[k], offset, length, First(k, n), First(k, n) + n);
    }
  }
}
