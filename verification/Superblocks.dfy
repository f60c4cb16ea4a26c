/**
 * Protecting the superblocks, the first megabyte and everything behind the chunks: `protect_superblocks`.
 * When it ends all that is used outside the chunks is protected; and when it cannot end.
 */
module Superblocks {
  import opened ChunkMath
  import opened ChunkSteps
  import opened ChunkUse
  import opened Conversion
  import opened ExtentItems
  import opened ImageRollback
  import opened Protect
  import opened Room
  import opened RunLists
  import D = DataChunks
  import P = ChunkAllocator
  import S = SpaceList
  import Start

  // ----- the clusters that are asked for -----

  // One after the other.
  function Clusters(from: nat, to: nat): (s: seq<nat>)
    ensures |s| == if from <= to then to - from else 0
    ensures forall i :: 0 <= i < |s| ==> s[i] == from + i
  {
    if from <= to then seq(to - from, i => from + i) else []
  }

  lemma ClustersHave(from: nat, to: nat, x: nat)
    ensures x in Clusters(from, to) <==> from <= x < to
  {
    if from <= x < to {
      assert Clusters(from, to)[x - from] == x;
    }
  }

  lemma ClustersNext(from: nat, to: nat)
    requires from <= to
    ensures Clusters(from, to + 1) == Clusters(from, to) + [to]
  {
  }

  // The device holds superblock `i`, which is not the first.
  predicate HasSuperblock(device: nat, i: nat) {
    1 <= i < |P.SUPERBLOCKS| && P.SUPERBLOCKS[i] + Start.SECTOR <= device
  }

  // The stripes of the superblocks from the second to number `k`.
  function Stripes(device: nat, k: nat, cs: nat): seq<nat>
    requires 0 < cs && k <= |P.SUPERBLOCKS|
  {
    if k <= 1 then []
    else Stripes(device, k - 1, cs)
         + if HasSuperblock(device, k - 1)
           then Clusters(Index(P.SUPERBLOCKS[k - 1], cs), Index(P.SUPERBLOCKS[k - 1] + P.STRIPE, cs)) else []
  }

  // In front of the loop over what is behind the chunks; `cut` says whether the device ends in part of a sector.
  function FrontAsked(device: nat, cut: bool, cs: nat): seq<nat>
    requires 0 < cs
  {
    Stripes(device, |P.SUPERBLOCKS|, cs) + Clusters(0, Index(P.RESERVED, cs))
    + if cut then [Index(device, cs)] else []
  }

  function TailEnd(device: nat, cut: bool, cs: nat): nat
    requires 0 < cs
  {
    if cut then Index(device, cs) else Index(device, cs) + 1
  }

  function TailAsked(device: nat, last: nat, cut: bool, cs: nat): seq<nat>
    requires 0 < cs
  {
    if last < device then Clusters(Index(last, cs), TailEnd(device, cut, cs)) else []
  }

  function Asked(device: nat, last: nat, cut: bool, cs: nat): seq<nat>
    requires 0 < cs
  {
    FrontAsked(device, cut, cs) + TailAsked(device, last, cut, cs)
  }

  // How many of them are in use.
  function UsedAmong(asked: seq<nat>, first: RunMap, n: nat): nat
    requires 0 < n
  {
    if asked == [] then 0
    else UsedAmong(asked[..|asked| - 1], first, n) + if Used(first, asked[|asked| - 1], n) then 1 else 0
  }

  lemma UsedNext(asked: seq<nat>, x: nat, first: RunMap, n: nat)
    requires 0 < n
    ensures UsedAmong(asked + [x], first, n) == UsedAmong(asked, first, n) + if Used(first, x, n) then 1 else 0
  {
    assert (asked + [x])[..|asked|] == asked;
  }

  lemma {:induction false} UsedMore(asked: seq<nat>, more: seq<nat>, first: RunMap, n: nat)
    requires 0 < n
    ensures UsedAmong(asked, first, n) <= UsedAmong(asked + more, first, n)
    ensures (forall x :: x in more ==> !Used(first, x, n)) ==>
      UsedAmong(asked + more, first, n) == UsedAmong(asked, first, n)
    decreases |more|
  {
    if more == [] {
      assert asked + more == asked;
    } else {
      var front, x := more[..|more| - 1], more[|more| - 1];
      UsedMore(asked, front, first, n);
      UsedNext(asked + front, x, first, n);
      assert asked + more == (asked + front) + [x];
    }
  }

  // ----- what is true after each -----

  // Copies are only made behind the chunks there were when there is no other room.
  ghost predicate Behind(chunks0: seq<P.Chunk>, spaces0: seq<S.Space>, chunks: seq<P.Chunk>, spaces: seq<S.Space>,
                         relocs: seq<Reloc>, last: nat, cs: nat)
    requires 0 < cs
  {
    LongBehind(spaces0, last) ==>
      && LongBehind(spaces, last)
      && (|chunks0| < |chunks| ==> exists r :: r in relocs && last <= First(r.new', cs))
  }

  // As long as no chunk has been made each copy has taken one of the free clusters there were.
  predicate Rooms(chunks0: seq<P.Chunk>, chunks: seq<P.Chunk>, relocs: seq<Reloc>, cs: nat)
    requires 0 < cs
  {
    |chunks| == |chunks0| ==> Slots(chunks, cs) + |relocs| == Slots(chunks0, cs)
  }

  // Each cluster asked for that is in use has been moved, and no other.
  ghost predicate Moved(first: RunMap, n: nat, relocs: seq<Reloc>, asked: seq<nat>)
    requires 0 < n
  {
    && (forall x: nat :: x in asked && Used(first, x, n) ==> HasReloc(relocs, x))
    && (forall r :: r in relocs ==> r.old' in asked)
    && |relocs| == UsedAmong(asked, first, n)
  }

  ghost predicate Progress(cv: Conversion, asked: seq<nat>, chunks0: seq<P.Chunk>, spaces0: seq<S.Space>, last: nat)
    reads cv, cv.conv, cv.conv.disk, cv.planner
  {
    && cv.Protecting() && 0 < cv.cs && 0 < cv.conv.n && P.GroupsKept(chunks0, cv.planner.chunks)
    && Moved(cv.conv.first, cv.conv.n, cv.conv.relocs, asked)
    && Rooms(chunks0, cv.planner.chunks, cv.conv.relocs, cv.cs)
    && Behind(chunks0, spaces0, cv.planner.chunks, cv.planner.spaces, cv.conv.relocs, last, cv.cs)
  }

  lemma MovedSkip(first: RunMap, n: nat, relocs: seq<Reloc>, asked: seq<nat>, x: nat)
    requires 0 < n && Moved(first, n, relocs, asked) && !Used(first, x, n)
    ensures Moved(first, n, relocs, asked + [x])
  {
    UsedNext(asked, x, first, n);
  }

  lemma MovedNext(first: RunMap, n: nat, relocs: seq<Reloc>, asked: seq<nat>, x: nat, t: nat)
    requires 0 < n && Moved(first, n, relocs, asked) && Used(first, x, n)
    ensures Moved(first, n, relocs + [Reloc(x, 1, t)], asked + [x])
  {
    hide Used, HasReloc;
    UsedNext(asked, x, first, n);
    MoreRelocs(relocs, Reloc(x, 1, t));
  }

  lemma RoomsNext(chunks0: seq<P.Chunk>, chunks: seq<P.Chunk>, spaces: seq<S.Space>, chunks': seq<P.Chunk>,
                  spaces': seq<S.Space>, relocs: seq<Reloc>, r: Reloc, cs: nat)
    requires 0 < cs && |chunks0| <= |chunks| && Rooms(chunks0, chunks, relocs, cs)
    requires RoomUsed(chunks, spaces, chunks', spaces', First(r.new', cs), cs)
    ensures Rooms(chunks0, chunks', relocs + [r], cs)
  {
    hide Slots, LongBehind, LongBefore;
  }

  lemma BehindNext(chunks0: seq<P.Chunk>, spaces0: seq<S.Space>, chunks: seq<P.Chunk>, spaces: seq<S.Space>,
                   chunks': seq<P.Chunk>, spaces': seq<S.Space>, relocs: seq<Reloc>, r: Reloc, last: nat, cs: nat)
    requires 0 < cs && |chunks0| <= |chunks| && Behind(chunks0, spaces0, chunks, spaces, relocs, last, cs)
    requires RoomUsed(chunks, spaces, chunks', spaces', First(r.new', cs), cs)
    ensures Behind(chunks0, spaces0, chunks', spaces', relocs + [r], last, cs)
  {
    hide Slots, First;
    if LongBehind(spaces0, last) {
      assert r in relocs + [r];
      if |chunks0| < |chunks| {
        var q :| q in relocs && last <= First(q.new', cs);
        assert q in relocs + [r];
      }
    }
  }

  // A cluster in use, and only such a one, can be protected, once.
  lemma UsedIsCovered(cv: Conversion, x: nat)
    requires cv.Protecting() && 0 < cv.conv.n
    ensures Used(cv.conv.first, x, cv.conv.n) ==> CoveredAt(cv.conv.runs, x, cv.conv.n)
    ensures CoveredAt(cv.conv.runs, x, cv.conv.n) && Protectable(OwnerAt(cv.conv.runs, x, cv.conv.n)) ==>
      Used(cv.conv.first, x, cv.conv.n)
    ensures CoveredAt(cv.conv.runs, x, cv.conv.n) && !Protectable(OwnerAt(cv.conv.runs, x, cv.conv.n)) ==>
      HasReloc(cv.conv.relocs, x) || HasNew(cv.conv.relocs, x)
    ensures HasReloc(cv.conv.relocs, x) || HasNew(cv.conv.relocs, x) ==>
      CoveredAt(cv.conv.runs, x, cv.conv.n) && !Protectable(OwnerAt(cv.conv.runs, x, cv.conv.n))
  {
    var c := cv.conv;
    KeptCovers(c.runs, c.relocs, c.disk[..], c.first, c.d0, c.n, x);
    if CoveredAt(c.runs, x, c.n) {
      NoNewData(c.runs, c.n, x);
    }
  }

  lemma KeptCovers(runs: RunMap, relocs: seq<Reloc>, disk: seq<Cluster>, first: RunMap, d0: seq<Cluster>, n: nat,
                   x: nat)
    requires 0 < n && Kept(runs, relocs, disk, first, d0, n)
    ensures Used(first, x, n) ==> CoveredAt(runs, x, n) && !OwnerAt(runs, x, n).relocated
    ensures CoveredAt(runs, x, n) && !OwnerAt(runs, x, n).relocated && !OwnerAt(runs, x, n).notInImg ==>
      Used(first, x, n)
    ensures CoveredAt(runs, x, n) && OwnerAt(runs, x, n).relocated ==> HasNew(relocs, x)
    ensures CoveredAt(runs, x, n) && Used(first, x, n) && OwnerAt(runs, x, n).inode == DUMMY ==> HasReloc(relocs, x)
    ensures HasReloc(relocs, x) ==> CoveredAt(runs, x, n) && OwnerAt(runs, x, n).inode == DUMMY
    ensures HasNew(relocs, x) ==> CoveredAt(runs, x, n) && OwnerAt(runs, x, n).relocated
  {
    hide CoveredAt, OwnerAt, RunsOk, AllUnits;
    if Used(first, x, n) {
      assert UsedOk(x, runs, relocs, disk, d0, n);
    }
    if HasReloc(relocs, x) {
      var i :| 0 <= i < |relocs| && relocs[i].old' == x;
      assert relocs[i] in relocs && RelocOk(relocs[i], runs, disk, first, d0, n);
      assert UsedOk(x, runs, relocs, disk, d0, n);
    }
    if HasNew(relocs, x) {
      var i :| 0 <= i < |relocs| && relocs[i].new' == x;
      assert relocs[i] in relocs && RelocOk(relocs[i], runs, disk, first, d0, n);
    }
  }

  // ----- one cluster -----

  // The chunks there were have room for one more copy, and lie on the device.
  ghost predicate CanGo(cv: Conversion, chunks0: seq<P.Chunk>)
    reads cv, cv.conv, cv.planner
  {
    0 < cv.cs && |cv.planner.chunks| == |chunks0| && 0 < Slots(cv.planner.chunks, cv.cs)
    && !EndsBeyond(cv.planner.chunks, First(cv.conv.disk.Length, cv.cs))
  }

  // `Again` when the cluster is protected already or holds a copy.
  method ProtectOne(cv: Conversion, x: nat, ghost asked: seq<nat>, ghost chunks0: seq<P.Chunk>,
                    ghost spaces0: seq<S.Space>, ghost last: nat)
    returns (o: Step)
    requires Progress(cv, asked, chunks0, spaces0, last)
    modifies cv.planner, cv.conv`runs, cv.conv`relocs, cv.conv.disk
    ensures o in {Done, NoSpace, PastEnd, Again}
    ensures o == Done ==> Progress(cv, asked + [x], chunks0, spaces0, last)
    ensures o == Done ==> old(cv.conv.relocs) <= cv.conv.relocs && !HasNew(cv.conv.relocs, x)
    ensures o == Again <==> old(HasReloc(cv.conv.relocs, x) || HasNew(cv.conv.relocs, x))
    ensures o == NoSpace || o == PastEnd ==> old(Used(cv.conv.first, x, cv.conv.n) && !CanGo(cv, chunks0))
    ensures o == Again ==> Progress(cv, asked, chunks0, spaces0, last)
    ensures o == Done && old(!Used(cv.conv.first, x, cv.conv.n) || CanGo(cv, chunks0)) ==>
      |cv.planner.chunks| == |old(cv.planner.chunks)|
  {
    hide Moved, Rooms, Behind, P.GroupsKept, CoveredAt, OwnerAt, Used, HasReloc, HasNew, Slots, RoomUsed, EndsBeyond;
    hide P.NoFit, Protectable;
    UsedIsCovered(cv, x);
    P.GroupsKeptSelf(cv.planner.chunks);
    if CoveredAt(cv.conv.runs, x, cv.conv.n) && !Protectable(OwnerAt(cv.conv.runs, x, cv.conv.n)) {
      return Again;
    }
    ghost var chunks, spaces, relocs := cv.planner.chunks, cv.planner.spaces, cv.conv.relocs;
    ghost var target;
    o, target := cv.ProtectCluster(x);
    if o == Skipped {
      MovedSkip(cv.conv.first, cv.conv.n, relocs, asked, x);
      o := Done;
    } else if o == Done {
      OnlyOneNew(relocs, Reloc(x, 1, target), x);
      MovedNext(cv.conv.first, cv.conv.n, relocs, asked, x, target);
      LengthKept(chunks0, chunks);
      RoomsNext(chunks0, chunks, spaces, cv.planner.chunks, cv.planner.spaces, relocs, Reloc(x, 1, target), cv.cs);
      BehindNext(chunks0, spaces0, chunks, spaces, cv.planner.chunks, cv.planner.spaces, relocs,
                 Reloc(x, 1, target), last, cv.cs);
      P.GroupsKeptOn(chunks0, chunks, cv.planner.chunks);
      RoomStays(chunks, spaces, cv.planner.chunks, cv.planner.spaces, First(target, cv.cs), cv.cs);
    } else {
      NoFitIsNoSlots(chunks, cv.cs);
    }
  }

  lemma RoomStays(chunks: seq<P.Chunk>, spaces: seq<S.Space>, chunks': seq<P.Chunk>, spaces': seq<S.Space>, at: nat,
                  cs: nat)
    requires 0 < cs && RoomUsed(chunks, spaces, chunks', spaces', at, cs)
    ensures 0 < Slots(chunks, cs) ==> |chunks'| == |chunks|
  {
    hide Slots, LongBehind, LongBefore;
  }

  lemma OnlyOneNew(relocs: seq<Reloc>, r: Reloc, x: nat)
    requires r.new' != x && !HasNew(relocs, x)
    ensures !HasNew(relocs + [r], x)
  {
    var all := relocs + [r];
    forall i | 0 <= i < |all|
      ensures all[i].new' != x
    {
      if i < |relocs| {
        assert relocs[i].new' != x;
      }
    }
  }

  lemma LengthKept(chunks: seq<P.Chunk>, chunks': seq<P.Chunk>)
    requires P.GroupsKept(chunks, chunks')
    ensures |chunks| <= |chunks'|
  {
  }

  // ----- a range of clusters -----

  predicate NoRepeats(s: seq<nat>) {
    forall i, j :: 0 <= i < j < |s| ==> s[i] != s[j]
  }

  // No cluster in use comes twice.
  ghost predicate UsedOnce(s: seq<nat>, first: RunMap, n: nat)
    requires 0 < n
  {
    forall i, j :: 0 <= i < j < |s| && s[i] == s[j] ==> !Used(first, s[i], n)
  }

  // A copy may be made in this cluster.
  predicate MayHoldCopy(chunks: seq<P.Chunk>, x: nat, cs: nat) {
    InSomeChunk(chunks, x, cs) && CopyAt(First(x, cs))
  }

  // Why all can be protected: there is room, no cluster in use is asked for twice, and no copy is made in any.
  ghost predicate Smooth(chunks0: seq<P.Chunk>, all: seq<nat>, first: RunMap, n: nat, cs: nat, size: nat)
    requires 0 < n && 0 < cs
  {
    && UsedAmong(all, first, n) <= Slots(chunks0, cs) && UsedOnce(all, first, n) && !EndsBeyond(chunks0, size)
    && forall x: nat :: x in all ==> !MayHoldCopy(chunks0, x, cs)
  }

  lemma NotTwice(all: seq<nat>, asked: seq<nat>, x: nat, first: RunMap, n: nat)
    requires 0 < n && UsedOnce(all, first, n) && asked + [x] <= all
    ensures Used(first, x, n) ==> x !in asked
  {
    hide Used;
    if Used(first, x, n) {
      assert all[|asked|] == (asked + [x])[|asked|];
      forall i | 0 <= i < |asked|
        ensures asked[i] != x
      {
        assert all[i] == (asked + [x])[i];
      }
    }
  }

  lemma MovedIsUsed(cv: Conversion, x: nat)
    requires cv.Protecting() && 0 < cv.conv.n && HasReloc(cv.conv.relocs, x)
    ensures Used(cv.conv.first, x, cv.conv.n)
  {
    var c := cv.conv;
    var i :| 0 <= i < |c.relocs| && c.relocs[i].old' == x;
    assert c.relocs[i] in c.relocs && RelocOk(c.relocs[i], c.runs, c.disk[..], c.first, c.d0, c.n);
  }

  lemma SameChunks(chunks0: seq<P.Chunk>, chunks: seq<P.Chunk>, x: nat, size: nat, cs: nat)
    requires P.GroupsKept(chunks0, chunks) && |chunks| == |chunks0|
    ensures InSomeChunk(chunks, x, cs) ==> InSomeChunk(chunks0, x, cs)
    ensures EndsBeyond(chunks, size) ==> EndsBeyond(chunks0, size)
  {
    hide First;
    if InSomeChunk(chunks, x, cs) {
      var i :| 0 <= i < |chunks| && InChunk(chunks[i], x, cs);
      assert P.SameGroup(chunks0[i], chunks[i]) && InChunk(chunks0[i], x, cs);
    }
    if EndsBeyond(chunks, size) {
      var c :| c in chunks && size < c.diskStart + c.length;
      var i :| 0 <= i < |chunks| && chunks[i] == c;
      assert P.SameGroup(chunks0[i], c) && chunks0[i] in chunks0;
    }
  }

  lemma MovedIsAsked(cv: Conversion, asked: seq<nat>, chunks0: seq<P.Chunk>, spaces0: seq<S.Space>, last: nat, x: nat)
    requires Progress(cv, asked, chunks0, spaces0, last)
    ensures HasReloc(cv.conv.relocs, x) ==> x in asked && Used(cv.conv.first, x, cv.conv.n)
  {
    hide Used, Behind, P.GroupsKept, Slots;
    if HasReloc(cv.conv.relocs, x) {
      MovedIsUsed(cv, x);
      var i :| 0 <= i < |cv.conv.relocs| && cv.conv.relocs[i].old' == x;
      assert cv.conv.relocs[i] in cv.conv.relocs;
    }
  }

  // Then the next one can be.
  lemma NextGoes(cv: Conversion, asked: seq<nat>, x: nat, all: seq<nat>, chunks0: seq<P.Chunk>, spaces0: seq<S.Space>,
                 last: nat)
    requires Progress(cv, asked, chunks0, spaces0, last) && |cv.planner.chunks| == |chunks0|
    requires Smooth(chunks0, all, cv.conv.first, cv.conv.n, cv.cs, First(cv.conv.disk.Length, cv.cs))
    requires asked + [x] <= all
    ensures Used(cv.conv.first, x, cv.conv.n) ==> CanGo(cv, chunks0)
    ensures !HasReloc(cv.conv.relocs, x) && !HasNew(cv.conv.relocs, x)
  {
    hide Used, Behind, P.GroupsKept, Slots, EndsBeyond, InSomeChunk, CopyAt, First, UsedAmong;
    NotTwice(all, asked, x, cv.conv.first, cv.conv.n);
    MovedIsAsked(cv, asked, chunks0, spaces0, last, x);
    SameChunks(chunks0, cv.planner.chunks, x, First(cv.conv.disk.Length, cv.cs), cv.cs);
    UsedNext(asked, x, cv.conv.first, cv.conv.n);
    UsedMore(asked + [x], all[|asked| + 1..], cv.conv.first, cv.conv.n);
    assert all == (asked + [x]) + all[|asked| + 1..];
    assert x in all;
    forall i | 0 <= i < |cv.conv.relocs|
      ensures cv.conv.relocs[i].new' != x
    {
      var r := cv.conv.relocs[i];
      assert r in cv.conv.relocs && InSomeChunk(cv.planner.chunks, r.new', cv.cs);
      SameChunks(chunks0, cv.planner.chunks, r.new', 0, cv.cs);
      assert MayHoldCopy(chunks0, r.new', cv.cs);
    }
  }

  // No copy is in the range, and nothing in it has been moved.
  predicate NoneMovedIn(relocs: seq<Reloc>, from: nat, to: nat) {
    forall r :: r in relocs ==> !(from <= r.new' < to) && !(from <= r.old' < to)
  }

  lemma NoneMovedNext(relocs: seq<Reloc>, from: nat, to: nat)
    requires NoneMovedIn(relocs, from, to) && !HasNew(relocs, to) && !HasReloc(relocs, to)
    ensures NoneMovedIn(relocs, from, to + 1)
  {
    forall r | r in relocs
      ensures !(from <= r.new' < to + 1) && !(from <= r.old' < to + 1)
    {
      var i :| 0 <= i < |relocs| && relocs[i] == r;
      assert relocs[i].new' != to && relocs[i].old' != to;
    }
  }

  lemma PrefixHas(relocs: seq<Reloc>, relocs': seq<Reloc>, x: nat)
    requires relocs <= relocs'
    ensures HasNew(relocs, x) ==> HasNew(relocs', x)
    ensures HasReloc(relocs, x) ==> HasReloc(relocs', x)
  {
    if i :| 0 <= i < |relocs| && relocs[i].new' == x {
      assert relocs'[i].new' == x;
    }
    if i :| 0 <= i < |relocs| && relocs[i].old' == x {
      assert relocs'[i].old' == x;
    }
  }

  // One cluster after the other. That it is done means that no copy, and nothing moved, was in the range when
  // it began.
  method ProtectRange(cv: Conversion, from: nat, to: nat, ghost asked: seq<nat>, ghost all: seq<nat>,
                      ghost chunks0: seq<P.Chunk>, ghost spaces0: seq<S.Space>, ghost last: nat)
    returns (o: Step)
    requires Progress(cv, asked, chunks0, spaces0, last) && asked + Clusters(from, to) <= all
    modifies cv.planner, cv.conv`runs, cv.conv`relocs, cv.conv.disk
    ensures o in {Done, NoSpace, PastEnd, Again}
    ensures o == Done ==> Progress(cv, asked + Clusters(from, to), chunks0, spaces0, last)
    ensures o == Done ==> old(cv.conv.relocs) <= cv.conv.relocs && NoneMovedIn(old(cv.conv.relocs), from, to)
    ensures Smooth(chunks0, all, cv.conv.first, cv.conv.n, cv.cs, First(cv.conv.disk.Length, cv.cs)) ==>
      |old(cv.planner.chunks)| == |chunks0| ==> o == Done && |cv.planner.chunks| == |chunks0|
  {
    hide Progress, Smooth, HasReloc, HasNew, Used, CanGo, NoneMovedIn;
    o := Done;
    var i := from;
    ProgressIs(cv, asked, chunks0, spaces0, last);
    ghost var smooth := Smooth(chunks0, all, cv.conv.first, cv.conv.n, cv.cs, First(cv.conv.disk.Length, cv.cs))
                        && |cv.planner.chunks| == |chunks0|;
    assert asked + Clusters(from, from) == asked;
    NoneMovedAtFirst(cv.conv.relocs, from);
    while i < to
      invariant from <= i && (i <= to || i == from)
      invariant o == Done && Progress(cv, asked + Clusters(from, i), chunks0, spaces0, last)
      invariant old(cv.conv.relocs) <= cv.conv.relocs && NoneMovedIn(old(cv.conv.relocs), from, i)
      invariant smooth ==> |cv.planner.chunks| == |chunks0|
    {
      ghost var was := cv.conv.relocs;
      ClustersNext(from, i);
      assert asked + Clusters(from, i + 1) == (asked + Clusters(from, i)) + [i];
      PrefixOf(asked, from, i + 1, to, all);
      if smooth {
        NextGoes(cv, asked + Clusters(from, i), i, all, chunks0, spaces0, last);
      }
      o := ProtectOne(cv, i, asked + Clusters(from, i), chunks0, spaces0, last);
      if o != Done {
        return;
      }
      PrefixHas(old(cv.conv.relocs), was, i);
      NoneMovedNext(old(cv.conv.relocs), from, i);
      i := i + 1;
    }
    if to < from {
      NoneMovedInNone(old(cv.conv.relocs), from, to);
      assert Clusters(from, to) == [] == Clusters(from, i);
    }
  }

  lemma ProgressIs(cv: Conversion, asked: seq<nat>, chunks0: seq<P.Chunk>, spaces0: seq<S.Space>, last: nat)
    requires Progress(cv, asked, chunks0, spaces0, last)
    ensures cv.Protecting() && 0 < cv.cs && 0 < cv.conv.n
  {
  }

  lemma NoneMovedAtFirst(relocs: seq<Reloc>, from: nat)
    ensures NoneMovedIn(relocs, from, from)
  {
  }

  lemma NoneMovedInNone(relocs: seq<Reloc>, from: nat, to: nat)
    requires to < from
    ensures NoneMovedIn(relocs, from, to)
  {
  }

  lemma PrefixOf(asked: seq<nat>, from: nat, i: nat, to: nat, all: seq<nat>)
    requires from <= i <= to && asked + Clusters(from, to) <= all
    ensures asked + Clusters(from, i) <= all
  {
    assert Clusters(from, i) == Clusters(from, to)[..i - from];
    var a := asked + Clusters(from, i);
    assert a == all[..|a|];
  }

  // ----- what is asked for, by address -----

  predicate StripeHas(i: nat, b: nat) {
    i < |P.SUPERBLOCKS| && P.SUPERBLOCKS[i] <= b < P.SUPERBLOCKS[i] + P.STRIPE
  }

  // A multiple of 64 KB is where a cluster begins.
  lemma Multiple(b: nat, x: nat, cs: nat)
    requires 0 < cs && Even(P.STRIPE, cs) && b % P.STRIPE == 0
    ensures Index(b, cs) <= x <==> b <= First(x, cs)
    ensures First(Index(b, cs), cs) == b
  {
    hide Index, First, Even;
    EvenOf64K(b / P.STRIPE, cs);
    EvenIndex(b, cs);
    FirstOrder(Index(b, cs), x, cs);
  }

  lemma SuperblocksAreMultiples(i: nat)
    requires i < |P.SUPERBLOCKS|
    ensures P.SUPERBLOCKS[i] % P.STRIPE == 0 && (P.SUPERBLOCKS[i] + P.STRIPE) % P.STRIPE == 0
  {
  }

  lemma {:induction false} StripesHave(device: nat, k: nat, cs: nat, x: nat)
    requires 0 < cs && Even(P.STRIPE, cs) && k <= |P.SUPERBLOCKS|
    ensures x in Stripes(device, k, cs)
       <==> exists i: nat :: i < k && HasSuperblock(device, i) && StripeHas(i, First(x, cs))
    decreases k
  {
    hide Index, First, Even;
    if 1 < k {
      StripesHave(device, k - 1, cs, x);
      var b := P.SUPERBLOCKS[k - 1];
      SuperblocksAreMultiples(k - 1);
      Multiple(b, x, cs);
      Multiple(b + P.STRIPE, x, cs);
      ClustersHave(Index(b, cs), Index(b + P.STRIPE, cs), x);
    }
  }

  lemma TailHas(device: nat, last: nat, cut: bool, cs: nat, x: nat)
    requires 0 < cs && Even(P.STRIPE, cs) && last % P.STRIPE == 0
    ensures x in TailAsked(device, last, cut, cs)
       <==> last < device && last <= First(x, cs) && x < TailEnd(device, cut, cs)
  {
    hide Index, First, Even;
    Multiple(last, x, cs);
    ClustersHave(Index(last, cs), TailEnd(device, cut, cs), x);
  }

  lemma FrontHas(device: nat, cut: bool, cs: nat, x: nat)
    requires 0 < cs && Even(P.STRIPE, cs)
    ensures x in FrontAsked(device, cut, cs)
       <==> x in Stripes(device, |P.SUPERBLOCKS|, cs) || First(x, cs) < P.RESERVED || (cut && x == Index(device, cs))
  {
    hide Index, First, Even, Stripes;
    Multiple(P.RESERVED, x, cs);
    ClustersHave(0, Index(P.RESERVED, cs), x);
  }

  // Some superblock that is protected is behind the chunks, or at their end.
  predicate StripeBehind(device: nat, last: nat) {
    exists i: nat :: i < |P.SUPERBLOCKS| && HasSuperblock(device, i) && last <= P.SUPERBLOCKS[i]
  }

  predicate NoneIn(a: seq<nat>, b: seq<nat>) {
    forall x: nat :: x in a ==> x !in b
  }

  lemma NoRepeatsConcat(a: seq<nat>, b: seq<nat>)
    ensures NoRepeats(a + b) <==> NoRepeats(a) && NoRepeats(b) && NoneIn(a, b)
  {
    var s := a + b;
    if NoRepeats(s) {
      forall i, j | 0 <= i < j < |a|
        ensures a[i] != a[j]
      {
        assert s[i] == a[i] && s[j] == a[j];
      }
      forall i, j | 0 <= i < j < |b|
        ensures b[i] != b[j]
      {
        assert s[|a| + i] == b[i] && s[|a| + j] == b[j];
      }
      forall x: nat | x in a
        ensures x !in b
      {
        var i :| 0 <= i < |a| && a[i] == x;
        forall j | 0 <= j < |b|
          ensures b[j] != x
        {
          assert s[i] == x && s[|a| + j] == b[j];
        }
      }
    }
    if NoRepeats(a) && NoRepeats(b) && NoneIn(a, b) {
      forall i, j | 0 <= i < j < |s|
        ensures s[i] != s[j]
      {
        assert i < |a| ==> s[i] in a;
        assert |a| <= j ==> s[j] in b;
      }
    }
  }

  lemma {:induction false} StripesOnce(device: nat, k: nat, cs: nat)
    requires 0 < cs && Even(P.STRIPE, cs) && k <= |P.SUPERBLOCKS|
    ensures NoRepeats(Stripes(device, k, cs))
    decreases k
  {
    hide Index, First, Even, NoRepeats;
    OnceOfNone();
    if 1 < k {
      StripesOnce(device, k - 1, cs);
      var b := P.SUPERBLOCKS[k - 1];
      var next := if HasSuperblock(device, k - 1) then Clusters(Index(b, cs), Index(b + P.STRIPE, cs)) else [];
      ClustersOnce(Index(b, cs), Index(b + P.STRIPE, cs));
      SuperblocksAreMultiples(k - 1);
      forall x: nat | x in Stripes(device, k - 1, cs)
        ensures x !in next
      {
        StripesHave(device, k - 1, cs, x);
        Multiple(b, x, cs);
        ClustersHave(Index(b, cs), Index(b + P.STRIPE, cs), x);
      }
      NoRepeatsConcat(Stripes(device, k - 1, cs), next);
    }
  }

  lemma OnceOfNone()
    ensures NoRepeats([])
  {
  }

  lemma ClustersOnce(from: nat, to: nat)
    ensures NoRepeats(Clusters(from, to))
  {
  }

  lemma OneOnce(x: nat)
    ensures NoRepeats([x])
  {
  }

  // The device's end, in clusters.
  lemma EndOf(device: nat, cs: nat)
    requires 0 < cs
    ensures First(Index(device, cs), cs) <= device < First(Index(device, cs), cs) + cs
  {
    IndexBounds(device, cs);
  }

  // A stripe's last cluster does not reach into what is behind it.
  lemma EndInStripe(device: nat, last: nat, cs: nat, i: nat)
    requires 0 < cs && Even(P.STRIPE, cs) && last % P.STRIPE == 0 && last <= device
    requires HasSuperblock(device, i) && StripeHas(i, First(Index(device, cs), cs))
    ensures last <= P.SUPERBLOCKS[i]
  {
    hide Index, First, Even;
    var b := P.SUPERBLOCKS[i] + P.STRIPE;
    EndOf(device, cs);
    SuperblocksAreMultiples(i);
    Multiple(b, Index(device, cs), cs);
    FirstGrows(Index(device, cs), Index(b, cs), cs);
  }

  // No cluster is asked for twice exactly when no superblock that is protected is behind the chunks.
  lemma AskedOnce(device: nat, last: nat, cut: bool, cs: nat)
    requires 0 < cs && Even(P.STRIPE, cs) && P.RESERVED <= last <= device && last % P.STRIPE == 0
    ensures NoRepeats(Asked(device, last, cut, cs)) <==> !StripeBehind(device, last)
  {
    hide Index, First, Even, NoRepeats, Stripes;
    var stripes, mega := Stripes(device, |P.SUPERBLOCKS|, cs), Clusters(0, Index(P.RESERVED, cs));
    var end, tail := if cut then [Index(device, cs)] else [], TailAsked(device, last, cut, cs);
    StripesOnce(device, |P.SUPERBLOCKS|, cs);
    ClustersOnce(0, Index(P.RESERVED, cs));
    OnceOfNone();
    OneOnce(Index(device, cs));
    ClustersOnce(Index(last, cs), TailEnd(device, cut, cs));
    NoRepeatsConcat(stripes, mega);
    NoRepeatsConcat(stripes + mega, end);
    NoRepeatsConcat(stripes + mega + end, tail);
    MegaIsApart(device, last, cut, cs);
    if StripeBehind(device, last) {
      var i: nat :| i < |P.SUPERBLOCKS| && HasSuperblock(device, i) && last <= P.SUPERBLOCKS[i];
      TwiceAt(device, last, cut, cs, i);
    } else {
      StripesApart(device, last, cut, cs);
    }
  }

  // A cluster in use is asked for twice: it is in a superblock's stripe, and behind the chunks.
  ghost predicate UsedTwice(device: nat, last: nat, cut: bool, cs: nat, first: RunMap, n: nat)
    requires 0 < cs && 0 < n
  {
    exists x: nat :: x in Stripes(device, |P.SUPERBLOCKS|, cs) && Used(first, x, n)
      && (x in TailAsked(device, last, cut, cs) || (cut && x == Index(device, cs)))
  }

  lemma UsedOnceConcat(a: seq<nat>, b: seq<nat>, first: RunMap, n: nat)
    requires 0 < n && UsedOnce(a, first, n) && UsedOnce(b, first, n)
    requires forall x: nat :: x in a && x in b ==> !Used(first, x, n)
    ensures UsedOnce(a + b, first, n)
  {
    hide Used;
    var s := a + b;
    forall i, j | 0 <= i < j < |s| && s[i] == s[j]
      ensures !Used(first, s[i], n)
    {
      assert i < |a| ==> s[i] in a;
      assert |a| <= j ==> s[j] in b;
    }
  }

  lemma OnceIsUsedOnce(s: seq<nat>, first: RunMap, n: nat)
    requires 0 < n && NoRepeats(s)
    ensures UsedOnce(s, first, n)
  {
  }

  lemma AskedUsedOnce(device: nat, last: nat, cut: bool, cs: nat, first: RunMap, n: nat)
    requires 0 < cs && 0 < n && Even(P.STRIPE, cs) && P.RESERVED <= last <= device && last % P.STRIPE == 0
    requires !UsedTwice(device, last, cut, cs, first, n)
    ensures UsedOnce(Asked(device, last, cut, cs), first, n)
  {
    hide Index, First, Even, NoRepeats, Stripes, Used, UsedOnce, TailAsked;
    var stripes, mega := Stripes(device, |P.SUPERBLOCKS|, cs), Clusters(0, Index(P.RESERVED, cs));
    var end, tail := if cut then [Index(device, cs)] else [], TailAsked(device, last, cut, cs);
    StripesOnce(device, |P.SUPERBLOCKS|, cs);
    ClustersOnce(0, Index(P.RESERVED, cs));
    OnceOfNone();
    OneOnce(Index(device, cs));
    TailOnce(device, last, cut, cs);
    OnceIsUsedOnce(stripes, first, n);
    OnceIsUsedOnce(mega, first, n);
    OnceIsUsedOnce(end, first, n);
    OnceIsUsedOnce(tail, first, n);
    MegaIsApart(device, last, cut, cs);
    UsedOnceConcat(stripes, mega, first, n);
    UsedOnceConcat(stripes + mega, end, first, n);
    UsedOnceConcat(stripes + mega + end, tail, first, n);
  }

  lemma TailOnce(device: nat, last: nat, cut: bool, cs: nat)
    requires 0 < cs
    ensures NoRepeats(TailAsked(device, last, cut, cs))
  {
  }

  lemma MegaIsApart(device: nat, last: nat, cut: bool, cs: nat)
    requires 0 < cs && Even(P.STRIPE, cs) && P.RESERVED <= last <= device && last % P.STRIPE == 0
    ensures NoneIn(Stripes(device, |P.SUPERBLOCKS|, cs), Clusters(0, Index(P.RESERVED, cs)))
    ensures Index(device, cs) !in Clusters(0, Index(P.RESERVED, cs))
    ensures NoneIn(Clusters(0, Index(P.RESERVED, cs)), TailAsked(device, last, cut, cs))
    ensures cut ==> Index(device, cs) !in TailAsked(device, last, cut, cs)
  {
    hide Index, First, Even, Stripes, TailAsked;
    forall x: nat
      ensures x in Stripes(device, |P.SUPERBLOCKS|, cs) ==> x !in Clusters(0, Index(P.RESERVED, cs))
      ensures x in Clusters(0, Index(P.RESERVED, cs)) ==> x !in TailAsked(device, last, cut, cs)
    {
      StripesHave(device, |P.SUPERBLOCKS|, cs, x);
      Multiple(P.RESERVED, x, cs);
      ClustersHave(0, Index(P.RESERVED, cs), x);
      TailHas(device, last, cut, cs, x);
    }
    IndexGrows(P.RESERVED, device, cs);
    ClustersHave(0, Index(P.RESERVED, cs), Index(device, cs));
    TailHas(device, last, cut, cs, Index(device, cs));
  }

  lemma StripesApart(device: nat, last: nat, cut: bool, cs: nat)
    requires 0 < cs && Even(P.STRIPE, cs) && P.RESERVED <= last <= device && last % P.STRIPE == 0
    requires !StripeBehind(device, last)
    ensures NoneIn(Stripes(device, |P.SUPERBLOCKS|, cs), TailAsked(device, last, cut, cs))
    ensures Index(device, cs) !in Stripes(device, |P.SUPERBLOCKS|, cs)
  {
    hide Index, First, Even, Stripes, TailAsked;
    forall x: nat | x in Stripes(device, |P.SUPERBLOCKS|, cs)
      ensures x !in TailAsked(device, last, cut, cs) && x != Index(device, cs)
    {
      StripesHave(device, |P.SUPERBLOCKS|, cs, x);
      var i: nat :| i < |P.SUPERBLOCKS| && HasSuperblock(device, i) && StripeHas(i, First(x, cs));
      SuperblocksAreMultiples(i);
      TailHas(device, last, cut, cs, x);
      if x == Index(device, cs) {
        EndInStripe(device, last, cs, i);
      }
    }
  }

  // The first cluster of such a stripe is asked for again.
  lemma TwiceAt(device: nat, last: nat, cut: bool, cs: nat, i: nat)
    requires 0 < cs && Even(P.STRIPE, cs) && P.RESERVED <= last <= device && last % P.STRIPE == 0
    requires HasSuperblock(device, i) && last <= P.SUPERBLOCKS[i]
    ensures var x := Index(P.SUPERBLOCKS[i], cs);
      && x in Stripes(device, |P.SUPERBLOCKS|, cs)
      && (x in TailAsked(device, last, cut, cs) || (cut && x == Index(device, cs)))
  {
    hide Index, First, Even, Stripes, TailAsked;
    var x := Index(P.SUPERBLOCKS[i], cs);
    SuperblocksAreMultiples(i);
    Multiple(P.SUPERBLOCKS[i], x, cs);
    StripesHave(device, |P.SUPERBLOCKS|, cs, x);
    TailHas(device, last, cut, cs, x);
    IndexGrows(P.SUPERBLOCKS[i], device, cs);
  }

  // ----- the whole -----

  // How the device, its last chunk and its used clusters lie: a used cluster is in a chunk, in the first
  // megabyte or behind the chunks, and none begins behind the device's whole sectors unless it is cut.
  ghost predicate Lies(cv: Conversion, device: nat, last: nat, cut: bool)
    reads cv, cv.conv, cv.planner
  {
    && 0 < cv.cs && 0 < cv.conv.n && P.RESERVED <= last <= device && last % P.STRIPE == 0
    && Start.AllEndBy(cv.planner.chunks, last) && device <= First(cv.conv.disk.Length, cv.cs)
    && cv.conv.disk.Length <= Index(device, cv.cs) + 1
    && (cut || forall x: nat :: x < cv.conv.disk.Length ==> First(x, cv.cs) < device)
    && (forall x: nat :: Used(cv.conv.first, x, cv.conv.n) ==>
          Start.Reachable(cv.planner.chunks, last, x, cv.cs))
  }

  // The chunks have a free cluster for each cluster asked for that is in use.
  ghost predicate Enough(cv: Conversion, device: nat, last: nat, cut: bool)
    reads cv, cv.conv, cv.planner
  {
    0 < cv.cs && 0 < cv.conv.n
    && UsedAmong(Asked(device, last, cut, cv.cs), cv.conv.first, cv.conv.n) <= Slots(cv.planner.chunks, cv.cs)
  }

  // They do not even have one for each of those in front of the last chunk's end, and all the room for further
  // chunks is behind it.
  ghost predicate OnlyBehind(cv: Conversion, device: nat, last: nat, cut: bool)
    reads cv, cv.conv, cv.planner
  {
    && 0 < cv.cs && 0 < cv.conv.n && last < device && LongBehind(cv.planner.spaces, last)
    && Slots(cv.planner.chunks, cv.cs) < UsedAmong(FrontAsked(device, cut, cv.cs), cv.conv.first, cv.conv.n)
  }

  lemma ProgressStart(cv: Conversion, last: nat)
    requires cv.Protecting() && cv.conv.relocs == []
    ensures Progress(cv, [], cv.planner.chunks, cv.planner.spaces, last)
  {
    P.GroupsKeptSelf(cv.planner.chunks);
  }

  // Nothing stands in the way.
  lemma IsSmooth(cv: Conversion, device: nat, last: nat, cut: bool)
    requires cv.Protecting() && Lies(cv, device, last, cut) && Enough(cv, device, last, cut)
    requires !UsedTwice(device, last, cut, cv.cs, cv.conv.first, cv.conv.n)
    ensures Smooth(cv.planner.chunks, Asked(device, last, cut, cv.cs), cv.conv.first, cv.conv.n, cv.cs,
                   First(cv.conv.disk.Length, cv.cs))
  {
    hide Asked, Stripes, Used, UsedAmong, Slots, First, Index, UsedOnce, UsedTwice, HasSuperblock;
    cv.PlainFacts();
    AskedUsedOnce(device, last, cut, cv.cs, cv.conv.first, cv.conv.n);
    forall x: nat | x in Asked(device, last, cut, cv.cs)
      ensures !MayHoldCopy(cv.planner.chunks, x, cv.cs)
    {
      AskedHoldsNone(cv, device, last, cut, x);
    }
  }

  lemma AskedHoldsNone(cv: Conversion, device: nat, last: nat, cut: bool, x: nat)
    requires cv.Protecting() && Lies(cv, device, last, cut) && x in Asked(device, last, cut, cv.cs)
    ensures !MayHoldCopy(cv.planner.chunks, x, cv.cs)
  {
    hide Stripes, FrontAsked, TailAsked, Used, UsedAmong, Slots, First, Index, Kept, FilesMatch, NewDataOwned;
    hide KeptApart, P.Accounted, NoneOwned, AllTallied, Even, CopiesHeld;
    cv.PlainFacts();
    FrontHas(device, cut, cv.cs, x);
    TailHas(device, last, cut, cv.cs, x);
    StripesHave(device, |P.SUPERBLOCKS|, cv.cs, x);
    if i: nat :| i < |P.SUPERBLOCKS| && HasSuperblock(device, i) && StripeHas(i, First(x, cv.cs)) {
      assert P.InStripeOf(i, First(x, cv.cs));
    } else if P.RESERVED <= First(x, cv.cs) {
      BehindLast(cv, device, last, x);
    }
  }

  lemma BehindLast(cv: Conversion, device: nat, last: nat, x: nat)
    requires cv.Protecting() && 0 < cv.cs && 0 < cv.conv.n && Start.AllEndBy(cv.planner.chunks, last)
    requires last <= First(x, cv.cs) || (x == Index(device, cv.cs) && last <= device && last % P.STRIPE == 0)
    ensures !InSomeChunk(cv.planner.chunks, x, cv.cs)
  {
    hide Kept, FilesMatch, NewDataOwned, KeptApart, P.Accounted, NoneOwned, AllTallied, Even, CopiesHeld, First, Index;
    cv.PlainFacts();
    Multiple0(cv, device, last, x);
    var p := cv.planner;
    ApartOffsets(p.chunks, p.spaces, p.limit, cv.conv.runs, cv.conv.n, cv.cs);
    forall i | 0 <= i < |p.chunks|
      ensures !InChunk(p.chunks[i], x, cv.cs)
    {
      assert p.chunks[i] in p.chunks;
    }
  }

  lemma Multiple0(cv: Conversion, device: nat, last: nat, x: nat)
    requires 0 < cv.cs && Even(P.STRIPE, cv.cs)
    requires last <= First(x, cv.cs) || (x == Index(device, cv.cs) && last <= device && last % P.STRIPE == 0)
    ensures last <= First(x, cv.cs)
  {
    hide First, Index, Even;
    if First(x, cv.cs) < last {
      Multiple(last, x, cv.cs);
      IndexGrows(last, device, cv.cs);
    }
  }

  // The stripes, up to the first superblock that is not on the device.
  method ProtectStripes(cv: Conversion, device: nat, ghost all: seq<nat>, ghost chunks0: seq<P.Chunk>,
                        ghost spaces0: seq<S.Space>, ghost last: nat)
    returns (o: Step)
    requires Progress(cv, [], chunks0, spaces0, last) && Start.SECTOR <= device
    requires Stripes(device, |P.SUPERBLOCKS|, cv.cs) <= all
    modifies cv.planner, cv.conv`runs, cv.conv`relocs, cv.conv.disk
    ensures o in {Done, NoSpace, PastEnd, Again}
    ensures o == Done ==> Progress(cv, Stripes(device, |P.SUPERBLOCKS|, cv.cs), chunks0, spaces0, last)
    ensures Smooth(chunks0, all, cv.conv.first, cv.conv.n, cv.cs, First(cv.conv.disk.Length, cv.cs)) ==>
      |old(cv.planner.chunks)| == |chunks0| ==> o == Done && |cv.planner.chunks| == |chunks0|
  {
    hide Progress, Smooth, Stripes, NoneMovedIn, Index, First;
    ProgressIs(cv, [], chunks0, spaces0, last);
    ghost var smooth := Smooth(chunks0, all, cv.conv.first, cv.conv.n, cv.cs, First(cv.conv.disk.Length, cv.cs))
                        && |cv.planner.chunks| == |chunks0|;
    o := Done;
    var i: nat := 1;
    NoStripes(device, cv.cs);
    while i < |P.SUPERBLOCKS|
      invariant 1 <= i <= |P.SUPERBLOCKS| && o == Done
      invariant Progress(cv, Stripes(device, i, cv.cs), chunks0, spaces0, last)
      invariant smooth ==> |cv.planner.chunks| == |chunks0|
    {
      if P.SUPERBLOCKS[i] > device - Start.SECTOR {
        NoMoreStripes(device, i, cv.cs);
        return;
      }
      NextStripe(device, i, cv.cs);
      o := ProtectRange(cv, Index(P.SUPERBLOCKS[i], cv.cs), Index(P.SUPERBLOCKS[i] + P.STRIPE, cv.cs),
                        Stripes(device, i, cv.cs), all, chunks0, spaces0, last);
      if o != Done {
        return;
      }
      i := i + 1;
    }
  }

  lemma NoStripes(device: nat, cs: nat)
    requires 0 < cs
    ensures Stripes(device, 1, cs) == []
  {
  }

  lemma NextStripe(device: nat, i: nat, cs: nat)
    requires 0 < cs && 1 <= i < |P.SUPERBLOCKS| && HasSuperblock(device, i)
    ensures Stripes(device, i + 1, cs)
         == Stripes(device, i, cs) + Clusters(Index(P.SUPERBLOCKS[i], cs), Index(P.SUPERBLOCKS[i] + P.STRIPE, cs))
    ensures Stripes(device, i + 1, cs) <= Stripes(device, |P.SUPERBLOCKS|, cs)
  {
    hide Index, Clusters;
    MoreStripes(device, i + 1, |P.SUPERBLOCKS|, cs);
  }

  lemma {:induction false} MoreStripes(device: nat, i: nat, k: nat, cs: nat)
    requires 0 < cs && 1 <= i <= k <= |P.SUPERBLOCKS|
    ensures Stripes(device, i, cs) <= Stripes(device, k, cs)
    decreases k
  {
    hide Index, Clusters;
    if i < k {
      MoreStripes(device, i, k - 1, cs);
    }
  }

  // The superblocks rise.
  lemma NoMoreStripes(device: nat, i: nat, cs: nat)
    requires 0 < cs && 1 <= i < |P.SUPERBLOCKS| && !HasSuperblock(device, i)
    ensures Stripes(device, |P.SUPERBLOCKS|, cs) == Stripes(device, i, cs)
  {
    NoneFrom(device, i, |P.SUPERBLOCKS|, cs);
  }

  lemma {:induction false} NoneFrom(device: nat, i: nat, k: nat, cs: nat)
    requires 0 < cs && 1 <= i <= k <= |P.SUPERBLOCKS| && forall j: nat :: i <= j < k ==> !HasSuperblock(device, j)
    ensures Stripes(device, k, cs) == Stripes(device, i, cs)
    decreases k
  {
    hide Index, Clusters;
    if i < k {
      NoneFrom(device, i, k - 1, cs);
      assert Stripes(device, k, cs) == Stripes(device, k - 1, cs) + [];
    }
  }

  // What is left outside the chunks is protected.
  lemma AllOutside(cv: Conversion, device: nat, last: nat, cut: bool, chunks0: seq<P.Chunk>, spaces0: seq<S.Space>)
    requires 0 < cv.cs && 0 < cv.conv.n && Progress(cv, Asked(device, last, cut, cv.cs), chunks0, spaces0, last)
    requires P.RESERVED <= last <= device && last % P.STRIPE == 0 && cv.conv.disk.Length <= Index(device, cv.cs) + 1
    requires cut || forall x: nat :: x < cv.conv.disk.Length ==> First(x, cv.cs) < device
    requires forall x: nat :: Used(cv.conv.first, x, cv.conv.n) ==> Start.Reachable(chunks0, last, x, cv.cs)
    ensures OutsideProtected(cv.planner.chunks, cv.conv.runs, cv.conv.n, cv.cs)
  {
    hide Progress, Used, CoveredAt, OwnerAt, InSomeChunk, First, Index, Asked, P.GroupsKept;
    ProgressIs(cv, Asked(device, last, cut, cv.cs), chunks0, spaces0, last);
    forall x: nat | CoveredAt(cv.conv.runs, x, cv.conv.n) && OwnerAt(cv.conv.runs, x, cv.conv.n).inode != DUMMY
      ensures InSomeChunk(cv.planner.chunks, x, cv.cs)
    {
      UsedIsCovered(cv, x);
      LiveIsUsed(cv, x);
      if Used(cv.conv.first, x, cv.conv.n) {
        KeptInChunk(cv, Asked(device, last, cut, cv.cs), chunks0, spaces0, last, x);
        if last <= First(x, cv.cs) || First(x, cv.cs) < P.RESERVED {
          OutsideIsAsked(cv, device, last, cut, x);
        }
      }
    }
  }

  // In use and not protected: a copy, which is in a chunk, or a cluster of the old volume that has not been moved.
  lemma LiveIsUsed(cv: Conversion, x: nat)
    requires cv.Protecting() && 0 < cv.conv.n && CoveredAt(cv.conv.runs, x, cv.conv.n)
    requires OwnerAt(cv.conv.runs, x, cv.conv.n).inode != DUMMY
    ensures InSomeChunk(cv.planner.chunks, x, cv.cs)
         || (Used(cv.conv.first, x, cv.conv.n) && x < cv.conv.disk.Length && !HasReloc(cv.conv.relocs, x))
  {
    hide CoveredAt, OwnerAt, InSomeChunk, KeptApart, P.Accounted, FilesMatch, NewDataOwned, AllTallied, P.WasGiven;
    var c := cv.conv;
    KeptCovers(c.runs, c.relocs, c.disk[..], c.first, c.d0, c.n, x);
    NoNewData(c.runs, c.n, x);
    if HasNew(c.relocs, x) {
      var i :| 0 <= i < |c.relocs| && c.relocs[i].new' == x;
      assert c.relocs[i] in c.relocs;
    } else {
      assert UsedOk(x, c.runs, c.relocs, c.disk[..], c.d0, c.n);
    }
  }

  lemma KeptInChunk(cv: Conversion, asked: seq<nat>, chunks0: seq<P.Chunk>, spaces0: seq<S.Space>, last: nat, x: nat)
    requires Progress(cv, asked, chunks0, spaces0, last) && Used(cv.conv.first, x, cv.conv.n)
    ensures InSomeChunk(chunks0, x, cv.cs) ==> InSomeChunk(cv.planner.chunks, x, cv.cs)
    ensures x in asked ==> HasReloc(cv.conv.relocs, x)
  {
    hide InSomeChunk, Used, HasReloc;
    if InSomeChunk(chunks0, x, cv.cs) {
      StillInChunk(chunks0, cv.planner.chunks, x, cv.cs);
    }
  }

  lemma OutsideIsAsked(cv: Conversion, device: nat, last: nat, cut: bool, x: nat)
    requires cv.Protecting() && 0 < cv.cs && P.RESERVED <= last <= device && last % P.STRIPE == 0
    requires last <= First(x, cv.cs) || First(x, cv.cs) < P.RESERVED
    requires x <= Index(device, cv.cs) && (cut || First(x, cv.cs) < device)
    ensures x in Asked(device, last, cut, cv.cs)
  {
    hide Kept, FilesMatch, NewDataOwned, KeptApart, P.Accounted, NoneOwned, AllTallied, Even, CopiesHeld, First, Index;
    hide FrontAsked, TailAsked, Stripes;
    cv.PlainFacts();
    FrontHas(device, cut, cv.cs, x);
    TailHas(device, last, cut, cv.cs, x);
    EndOf(device, cv.cs);
    FirstOrder(x, Index(device, cv.cs), cv.cs);
  }

  // Without room in the chunks a copy was made behind them.
  lemma CopyIsBehind(cv: Conversion, device: nat, last: nat, cut: bool, chunks0: seq<P.Chunk>, spaces0: seq<S.Space>)
    requires 0 < cv.cs && 0 < cv.conv.n && LongBehind(spaces0, last)
    requires Progress(cv, FrontAsked(device, cut, cv.cs), chunks0, spaces0, last)
    requires Slots(chunks0, cv.cs) < UsedAmong(FrontAsked(device, cut, cv.cs), cv.conv.first, cv.conv.n)
    requires last % P.STRIPE == 0 && (cut ==> !HasNew(cv.conv.relocs, Index(device, cv.cs)))
    requires cv.conv.disk.Length <= Index(device, cv.cs) + 1
    ensures !NoneMovedIn(cv.conv.relocs, Index(last, cv.cs), TailEnd(device, cut, cv.cs))
  {
    hide Used, UsedAmong, Slots, LongBehind, FrontAsked, TailAsked, First, Index, Kept, KeptApart, Moved, Even;
    hide FilesMatch, NewDataOwned, P.Accounted, NoneOwned, AllTallied, CopiesHeld;
    cv.PlainFacts();
    MovedCount(cv.conv.first, cv.conv.n, cv.conv.relocs, FrontAsked(device, cut, cv.cs));
    LengthKept(chunks0, cv.planner.chunks);
    var r :| r in cv.conv.relocs && last <= First(r.new', cv.cs);
    Multiple(last, r.new', cv.cs);
    CopyOnDisk(cv, r);
    var i :| 0 <= i < |cv.conv.relocs| && cv.conv.relocs[i] == r;
    assert HasNew(cv.conv.relocs, r.new');
  }

  lemma MovedCount(first: RunMap, n: nat, relocs: seq<Reloc>, asked: seq<nat>)
    requires 0 < n && Moved(first, n, relocs, asked)
    ensures |relocs| == UsedAmong(asked, first, n)
  {
  }

  lemma CopyOnDisk(cv: Conversion, r: Reloc)
    requires cv.Protecting() && 0 < cv.conv.n && r in cv.conv.relocs
    ensures r.new' < cv.conv.disk.Length
  {
    var c := cv.conv;
    assert RelocOk(r, c.runs, c.disk[..], c.first, c.d0, c.n);
  }

  // `protect_superblocks`. When it is done, all that is used outside the chunks is protected. It is done when
  // the chunks have room for all the copies and no cluster in use is asked for twice. It is not when one is;
  // nor when they have none for those in front of the last one's end and all other room is behind it, for then
  // it comes to its own copies.
  method ProtectSuperblocks(cv: Conversion, device: nat, last: nat, cut: bool) returns (o: Step)
    requires cv.Protecting() && cv.conv.relocs == [] && Lies(cv, device, last, cut)
    modifies cv.planner, cv.conv`runs, cv.conv`relocs, cv.conv.disk
    ensures o in {Done, NoSpace, PastEnd, Again}
    ensures o == Done ==> cv.Protecting() && OutsideProtected(cv.planner.chunks, cv.conv.runs, cv.conv.n, cv.cs)
    ensures old(Enough(cv, device, last, cut)) && !UsedTwice(device, last, cut, cv.cs, cv.conv.first, cv.conv.n) ==>
      o == Done
    ensures UsedTwice(device, last, cut, cv.cs, cv.conv.first, cv.conv.n) ==> o != Done
    ensures old(OnlyBehind(cv, device, last, cut)) ==> o != Done
  {
    hide Progress, Smooth, Stripes, NoneMovedIn, Index, First, Used, HasReloc, HasNew, UsedAmong, Slots, LongBehind;
    hide UsedTwice, OutsideProtected, TailEnd, CanGo, Start.Reachable, Start.AllEndBy, cv.Protecting;
    ghost var chunks0, spaces0, all := cv.planner.chunks, cv.planner.spaces, Asked(device, last, cut, cv.cs);
    ghost var twice := UsedTwice(device, last, cut, cv.cs, cv.conv.first, cv.conv.n);
    ghost var smooth := Enough(cv, device, last, cut) && !twice;
    ghost var stuck := OnlyBehind(cv, device, last, cut);
    if smooth {
      IsSmooth(cv, device, last, cut);
    }
    ProgressStart(cv, last);
    AskedParts(device, last, cut, cv.cs);
    o := ProtectStripes(cv, device, all, chunks0, spaces0, last);
    if o != Done {
      return;
    }
    ghost var asked := Stripes(device, |P.SUPERBLOCKS|, cv.cs);
    ghost var x: nat := 0;
    if twice {
      x := TwiceIsMoved(cv, device, last, cut, chunks0, spaces0);
    }
    ghost var relocs := cv.conv.relocs;
    o := ProtectRange(cv, 0, Index(P.RESERVED, cv.cs), asked, all, chunks0, spaces0, last);
    if o != Done {
      return;
    }
    asked := asked + Clusters(0, Index(P.RESERVED, cv.cs));
    if cut {
      PrefixHas(relocs, cv.conv.relocs, x);
      if smooth {
        NextGoes(cv, asked, Index(device, cv.cs), all, chunks0, spaces0, last);
      }
      o := ProtectOne(cv, Index(device, cv.cs), asked, chunks0, spaces0, last);
      if o != Done {
        return;
      }
    }
    asked := FrontAsked(device, cut, cv.cs);
    assert Progress(cv, asked, chunks0, spaces0, last);
    if last < device {
      if stuck {
        CopyIsBehind(cv, device, last, cut, chunks0, spaces0);
      }
      if twice {
        MovedIsIn(relocs, cv.conv.relocs, x, device, last, cut, cv.cs);
      }
      o := ProtectRange(cv, Index(last, cv.cs), TailEnd(device, cut, cv.cs), asked, all, chunks0, spaces0, last);
      if o != Done {
        return;
      }
    }
    ProgressIs(cv, all, chunks0, spaces0, last);
    AllOutside(cv, device, last, cut, chunks0, spaces0);
  }

  // The cluster that is asked for twice has been moved the first time.
  lemma TwiceIsMoved(cv: Conversion, device: nat, last: nat, cut: bool, chunks0: seq<P.Chunk>, spaces0: seq<S.Space>)
    returns (x: nat)
    requires 0 < cv.cs && 0 < cv.conv.n && UsedTwice(device, last, cut, cv.cs, cv.conv.first, cv.conv.n)
    requires Progress(cv, Stripes(device, |P.SUPERBLOCKS|, cv.cs), chunks0, spaces0, last)
    ensures HasReloc(cv.conv.relocs, x)
    ensures x in TailAsked(device, last, cut, cv.cs) || (cut && x == Index(device, cv.cs))
  {
    hide Stripes, Used, HasReloc, TailAsked;
    x :| x in Stripes(device, |P.SUPERBLOCKS|, cv.cs) && Used(cv.conv.first, x, cv.conv.n)
      && (x in TailAsked(device, last, cut, cv.cs) || (cut && x == Index(device, cv.cs)));
  }

  lemma MovedIsIn(relocs: seq<Reloc>, relocs': seq<Reloc>, x: nat, device: nat, last: nat, cut: bool, cs: nat)
    requires 0 < cs && relocs <= relocs' && HasReloc(relocs, x)
    ensures x in TailAsked(device, last, cut, cs) ==>
      !NoneMovedIn(relocs', Index(last, cs), TailEnd(device, cut, cs))
  {
    hide Index, TailEnd;
    var i :| 0 <= i < |relocs| && relocs[i].old' == x;
    assert relocs'[i].old' == x && relocs'[i] in relocs';
    ClustersHave(Index(last, cs), TailEnd(device, cut, cs), x);
  }

  lemma AskedParts(device: nat, last: nat, cut: bool, cs: nat)
    requires 0 < cs
    ensures var all, stripes := Asked(device, last, cut, cs), Stripes(device, |P.SUPERBLOCKS|, cs);
      && stripes <= all && stripes + Clusters(0, Index(P.RESERVED, cs)) <= all
      && (cut ==> stripes + Clusters(0, Index(P.RESERVED, cs)) + [Index(device, cs)] <= all)
      && (cut ==> stripes + Clusters(0, Index(P.RESERVED, cs)) + [Index(device, cs)] == FrontAsked(device, cut, cs))
      && (!cut ==> stripes + Clusters(0, Index(P.RESERVED, cs)) == FrontAsked(device, cut, cs))
      && (last < device ==>
            FrontAsked(device, cut, cs) + Clusters(Index(last, cs), TailEnd(device, cut, cs)) == all)
      && (last >= device ==> FrontAsked(device, cut, cs) == all)
  {
    hide Stripes, Index, Clusters, TailEnd;
    var stripes, mega := Stripes(device, |P.SUPERBLOCKS|, cs), Clusters(0, Index(P.RESERVED, cs));
    assert stripes + mega + [] == stripes + mega;
    assert FrontAsked(device, cut, cs) + [] == FrontAsked(device, cut, cs);
  }
}
