/**
 * A chunk's count of used bytes, kept in 64 bits. Protecting a cluster subtracts it before
 * anything has been added, so the count wraps; adding up the runs afterwards brings it back.
 */
module UsedBytes {
  import opened ChunkMath
  import opened RunLists

  // The chunk's clusters are the `len` from `lo` on.
  predicate StartsIn(r: Alloc, lo: nat, len: nat) {
    lo <= r.offset < lo + len
  }

  function Clusters(list: seq<Alloc>, lo: nat, len: nat): nat {
    if list == [] then 0 else Clusters(list[1..], lo, len) + if StartsIn(list[0], lo, len) then list[0].length else 0
  }

  function DummyClusters(list: seq<Alloc>, lo: nat, len: nat): nat {
    if list == [] then 0
    else DummyClusters(list[1..], lo, len) + if StartsIn(list[0], lo, len) && list[0].owner.inode == DUMMY
                                             then list[0].length else 0
  }

  // The test of `calc_used_space`: the distance from the chunk's start, in bytes and modulo 2^64,
  // is less than its length.
  lemma StartsInIsTested(offset: nat, lo: nat, len: nat, cs: nat)
    requires 0 < cs && First(lo + len, cs) < 0x1_0000_0000_0000_0000 && First(offset, cs) < 0x1_0000_0000_0000_0000
    ensures Wrap(First(offset, cs) - First(lo, cs)) < First(len, cs) <==> lo <= offset < lo + len
  {
    FirstAdds(lo, len, cs);
    if lo <= offset {
      FirstAdds(lo, offset - lo, cs);
      if offset < lo + len {
        FirstGrows(offset, lo + len, cs);
      } else if lo + len < offset {
        FirstGrows(lo + len, offset, cs);
      }
    } else {
      FirstGrows(offset, lo, cs);
      assert Wrap(First(offset, cs) - First(lo, cs)) == First(offset, cs) - First(lo, cs) + 0x1_0000_0000_0000_0000;
    }
  }

  predicate InReach(list: seq<Alloc>, cs: nat) {
    forall r :: r in list ==> First(r.offset, cs) < 0x1_0000_0000_0000_0000
  }

  // `calc_used_space` for one chunk and its list of runs.
  method CalcUsed(used: nat, list: seq<Alloc>, lo: nat, len: nat, cs: nat) returns (u: nat)
    requires 0 < cs && First(lo + len, cs) < 0x1_0000_0000_0000_0000 && InReach(list, cs)
    requires used < 0x1_0000_0000_0000_0000
    ensures u == Wrap(used + First(Clusters(list, lo, len), cs))
  {
    u := used;
    var i: nat := 0;
    ghost var rest, sum: nat := list, 0;
    WrapSmall(used);
    while i < |list|
      invariant i <= |list| && rest == list[i..] && u == Wrap(used + First(sum, cs)) && u < 0x1_0000_0000_0000_0000
      invariant sum + Clusters(rest, lo, len) == Clusters(list, lo, len)
    {
      hide Wrap, First;
      var r := list[i];
      assert rest[0] == r && rest[1..] == list[i + 1..] && r in list;
      StartsInIsTested(r.offset, lo, len, cs);
      if Wrap(First(r.offset, cs) - First(lo, cs)) < First(len, cs) {
        WrapAdds(used + First(sum, cs), First(r.length, cs));
        FirstAdds(sum, r.length, cs);
        u := Wrap(u + First(r.length, cs));
        sum := sum + r.length;
      }
      i := i + 1;
      rest := rest[1..];
    }
  }

  // What protecting has left in the count: minus the protected clusters, modulo 2^64.
  predicate Charged(used: nat, list: seq<Alloc>, lo: nat, len: nat, cs: nat) {
    used == Wrap(0 - First(DummyClusters(list, lo, len), cs))
  }

  // Protecting cluster `c` takes it off the count of the chunk it is in.
  function Uncharge(used: nat, c: nat, lo: nat, len: nat, cs: nat): nat {
    if lo <= c < lo + len then Wrap(used - cs) else used
  }

  lemma {:induction false} DummyConcat(a: seq<Alloc>, b: seq<Alloc>, lo: nat, len: nat)
    ensures DummyClusters(a + b, lo, len) == DummyClusters(a, lo, len) + DummyClusters(b, lo, len)
    decreases |a|
  {
    if a == [] {
      assert a + b == b;
    } else {
      assert (a + b)[1..] == a[1..] + b;
      DummyConcat(a[1..], b, lo, len);
    }
  }

  lemma DummyOne(a: Alloc, lo: nat, len: nat)
    ensures DummyClusters([a], lo, len) == if StartsIn(a, lo, len) && a.owner.inode == DUMMY then a.length else 0
  {
    assert [a][1..] == [];
  }

  // One more protected cluster.
  lemma {:induction false} SplitAddsDummy(list: seq<Alloc>, c: nat, lo: nat, len: nat)
    requires SplitOf(list, c, 1, DUMMY, 0).Cut? && SplitOf(list, c, 1, 0, 0) != Untouched
    requires Hit(list, c, 1).owner.inode != DUMMY
    ensures DummyClusters(SplitOf(list, c, 1, DUMMY, 0).list, lo, len)
         == DummyClusters(list, lo, len) + if lo <= c < lo + len then 1 else 0
    decreases |list|
  {
    var r := list[0];
    if Overlaps(r, c, 1) {
      PiecesAddDummy(r, c, lo, len);
      DummyConcat(Pieces(r, c, 1, DUMMY, 0), list[1..], lo, len);
    } else {
      SplitAddsDummy(list[1..], c, lo, len);
      var rest := SplitOf(list[1..], c, 1, DUMMY, 0).list;
      assert ([r] + rest)[1..] == rest;
    }
  }

  lemma PiecesAddDummy(r: Alloc, c: nat, lo: nat, len: nat)
    requires RunLists.Within(r, c, 1) && r.owner.inode != DUMMY
    ensures DummyClusters(Pieces(r, c, 1, DUMMY, 0), lo, len) == if lo <= c < lo + len then 1 else 0
  {
    var mid := Alloc(c, 1, Owner(DUMMY, 0, r.owner.relocated, false));
    var left := if c > r.offset then [Alloc(r.offset, c - r.offset, PLAIN)] else [];
    var right := if c + 1 < r.End() then [Alloc(c + 1, r.End() - c - 1, r.owner)] else [];
    assert Pieces(r, c, 1, DUMMY, 0) == left + [mid] + right;
    DummyConcat(left + [mid], right, lo, len);
    DummyConcat(left, [mid], lo, len);
    DummyOne(mid, lo, len);
    DummyOne(Alloc(r.offset, if c > r.offset then c - r.offset else 0, PLAIN), lo, len);
    DummyOne(Alloc(c + 1, if c + 1 < r.End() then r.End() - c - 1 else 0, r.owner), lo, len);
  }

  // Protecting keeps the count charged.
  lemma ProtectKeepsCharge(used: nat, list: seq<Alloc>, c: nat, lo: nat, len: nat, cs: nat)
    requires Charged(used, list, lo, len, cs)
    requires SplitOf(list, c, 1, DUMMY, 0).Cut? && SplitOf(list, c, 1, 0, 0) != Untouched
    requires Hit(list, c, 1).owner.inode != DUMMY
    ensures Charged(Uncharge(used, c, lo, len, cs), SplitOf(list, c, 1, DUMMY, 0).list, lo, len, cs)
  {
    hide Wrap, SplitOf, DummyClusters;
    SplitAddsDummy(list, c, lo, len);
    var d := DummyClusters(list, lo, len);
    if lo <= c < lo + len {
      WrapAdds(0 - First(d, cs), 0 - cs);
      assert First(d + 1, cs) == First(d, cs) + cs;
    }
  }

  // Entering a copy's run changes neither side.
  lemma CopyKeepsCharge(used: nat, a: seq<Alloc>, b: seq<Alloc>, copy: Alloc, lo: nat, len: nat, cs: nat)
    requires Charged(used, a + b, lo, len, cs) && copy.owner.inode != DUMMY
    ensures Charged(used, a + [copy] + b, lo, len, cs)
  {
    DummyConcat(a, b, lo, len);
    DummyConcat(a + [copy], b, lo, len);
    DummyConcat(a, [copy], lo, len);
    DummyOne(copy, lo, len);
  }

  // The clusters that count: in runs that are not protected.
  function LiveClusters(list: seq<Alloc>, lo: nat, len: nat): nat {
    if list == [] then 0
    else LiveClusters(list[1..], lo, len) + if StartsIn(list[0], lo, len) && list[0].owner.inode != DUMMY
                                            then list[0].length else 0
  }

  lemma {:induction false} ClustersAddUp(list: seq<Alloc>, lo: nat, len: nat)
    ensures Clusters(list, lo, len) == LiveClusters(list, lo, len) + DummyClusters(list, lo, len)
    decreases |list|
  {
    if list != [] {
      ClustersAddUp(list[1..], lo, len);
    }
  }

  // A run that begins in the chunk ends in it.
  predicate EndsIn(list: seq<Alloc>, lo: nat, len: nat) {
    forall r :: r in list && StartsIn(r, lo, len) ==> r.End() <= lo + len
  }

  lemma {:induction false} LiveFits(list: seq<Alloc>, from: nat, to: nat, lo: nat, len: nat)
    requires Sorted(list, from, to) && EndsIn(list, lo, len)
    ensures LiveClusters(list, lo, len) <= if from <= lo then len else if from <= lo + len then lo + len - from else 0
    decreases |list|
  {
    if list != [] {
      var r := list[0];
      assert r in list;
      LiveFits(list[1..], r.End(), to, lo, len);
    }
  }

  // The count comes out exact: the bytes of the runs that are not protected, and so no more
  // than the chunk holds.
  lemma UsedIsExact(used: nat, list: seq<Alloc>, from: nat, to: nat, lo: nat, len: nat, cs: nat)
    requires 0 < cs && Sorted(list, from, to) && EndsIn(list, lo, len) && Charged(used, list, lo, len, cs)
    requires First(lo + len, cs) < 0x1_0000_0000_0000_0000
    ensures Wrap(used + First(Clusters(list, lo, len), cs)) == First(LiveClusters(list, lo, len), cs) <= First(len, cs)
  {
    var live, dummy := LiveClusters(list, lo, len), DummyClusters(list, lo, len);
    ClustersAddUp(list, lo, len);
    FirstAdds(live, dummy, cs);
    WrapAdds(0 - First(dummy, cs), First(live + dummy, cs));
    LiveFits(list, from, to, lo, len);
    FirstAdds(live, len - live, cs);
    FirstAdds(lo, len, cs);
    WrapSmall(First(live, cs));
  }
}
