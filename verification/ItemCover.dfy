/**
 * The extent items of all the runs: where they are, what they cover and what they name.
 */
module ItemCover {
  import opened ChunkMath
  import opened ExtentItems
  import opened ImageRollback
  import opened Joined
  import opened Protect
  import opened RunLists
  import RoundTrip

  // The items of the lists before number `k`.
  function AllItems(runs: RunMap, relocs: seq<Reloc>, hash: Ref -> nat, k: nat): seq<ExtentItem>
    requires forall l :: l in runs ==> RelocatedHaveRelocs(runs[l], relocs)
  {
    if k == 0 then [] else AllItems(runs, relocs, hash, k - 1) + ItemsOf(ListOf(runs, k - 1), relocs, hash)
  }

  lemma {:induction false} ItemsHave(list: seq<Alloc>, relocs: seq<Reloc>, hash: Ref -> nat, a: Alloc)
    requires RelocatedHaveRelocs(list, relocs) && a in list && !IsDummy(a)
    ensures a.owner.relocated ==> HasNew(relocs, a.offset)
    ensures ItemOf(a, relocs, hash) in ItemsOf(list, relocs, hash)
    decreases |list|
  {
    var i :| 0 <= i < |list| && list[i] == a;
    var front := list[..|list| - 1];
    assert list == front + [list[|list| - 1]];
    if a != list[|list| - 1] {
      ItemsHave(front, relocs, hash, a);
    }
  }

  lemma {:induction false} AllItemsHave(runs: RunMap, relocs: seq<Reloc>, hash: Ref -> nat, k: nat, l: nat, a: Alloc)
    requires forall j :: j in runs ==> RelocatedHaveRelocs(runs[j], relocs)
    requires l < k && l in runs && a in runs[l] && !IsDummy(a)
    ensures a.owner.relocated ==> HasNew(relocs, a.offset)
    ensures ItemOf(a, relocs, hash) in AllItems(runs, relocs, hash, k)
    decreases k
  {
    hide ItemOf, RelocatedHaveRelocs, ItemsOf;
    if l == k - 1 {
      ItemsHave(runs[l], relocs, hash, a);
    } else {
      AllItemsHave(runs, relocs, hash, k - 1, l, a);
    }
  }

  lemma {:induction false} ItemsAreOf(list: seq<Alloc>, relocs: seq<Reloc>, hash: Ref -> nat, item: ExtentItem)
    returns (a: Alloc)
    requires RelocatedHaveRelocs(list, relocs) && item in ItemsOf(list, relocs, hash)
    ensures a in list && !IsDummy(a) && (a.owner.relocated ==> HasNew(relocs, a.offset))
    ensures item == ItemOf(a, relocs, hash)
    decreases |list|
  {
    var front := list[..|list| - 1];
    if item in ItemsOf(front, relocs, hash) {
      a := ItemsAreOf(front, relocs, hash, item);
    } else {
      a := list[|list| - 1];
    }
  }

  lemma {:induction false} AllItemsAreOf(runs: RunMap, relocs: seq<Reloc>, hash: Ref -> nat, k: nat, item: ExtentItem)
    returns (a: Alloc)
    requires forall j :: j in runs ==> RelocatedHaveRelocs(runs[j], relocs)
    requires item in AllItems(runs, relocs, hash, k)
    ensures Entry(runs, a) && !IsDummy(a) && (a.owner.relocated ==> HasNew(relocs, a.offset))
    ensures item == ItemOf(a, relocs, hash)
    decreases k
  {
    if item in AllItems(runs, relocs, hash, k - 1) {
      a := AllItemsAreOf(runs, relocs, hash, k - 1, item);
    } else {
      a := ItemsAreOf(ListOf(runs, k - 1), relocs, hash, item);
      assert k - 1 in runs;
    }
  }

  predicate Covers(item: ExtentItem, x: nat) {
    item.at <= x < item.at + item.len
  }

  predicate InItems(items: seq<ExtentItem>, x: nat) {
    exists i :: 0 <= i < |items| && Covers(items[i], x)
  }

  // Some item is there, of that length, and names this reference.
  predicate ItemFor(items: seq<ExtentItem>, at: nat, len: nat, r: Ref) {
    exists i :: 0 <= i < |items| && items[i].at == at && items[i].len == len && r in items[i].refs
  }

  // One behind the other, within [from, to).
  predicate Rise(items: seq<ExtentItem>, from: nat, to: nat) {
    && (forall i :: 0 <= i < |items| ==> from <= items[i].at && items[i].at + items[i].len <= to)
    && (forall i, j :: 0 <= i < j < |items| ==> items[i].at + items[i].len <= items[j].at)
  }

  lemma ItemIsAt(a: Alloc, relocs: seq<Reloc>, hash: Ref -> nat)
    requires a.owner.relocated ==> HasNew(relocs, a.offset)
    ensures ItemOf(a, relocs, hash).at == a.offset && ItemOf(a, relocs, hash).len == a.length
  {
  }

  lemma RiseConcat(a: seq<ExtentItem>, b: seq<ExtentItem>, from: nat, mid: nat, to: nat)
    requires from <= mid <= to && Rise(a, from, mid) && Rise(b, mid, to)
    ensures Rise(a + b, from, to)
  {
  }

  lemma ConcatInItems(a: seq<ExtentItem>, b: seq<ExtentItem>, x: nat)
    ensures InItems(a + b, x) <==> InItems(a, x) || InItems(b, x)
  {
    hide Covers;
    if InItems(a, x) {
      var i :| 0 <= i < |a| && Covers(a[i], x);
      assert (a + b)[i] == a[i];
    }
    if InItems(b, x) {
      var i :| 0 <= i < |b| && Covers(b[i], x);
      assert (a + b)[|a| + i] == b[i];
    }
  }

  lemma OneInItems(item: ExtentItem, x: nat)
    ensures InItems([item], x) <==> Covers(item, x)
  {
    if Covers(item, x) {
      assert Covers([item][0], x);
    }
  }

  // A list's items: in order, and over the clusters of the runs that are not protected.
  lemma {:induction false} ItemsRise(list: seq<Alloc>, relocs: seq<Reloc>, hash: Ref -> nat, from: nat, to: nat)
    requires RelocatedHaveRelocs(list, relocs) && RunLists.Sorted(list, from, to) && from <= to
    ensures Rise(ItemsOf(list, relocs, hash), from, to)
    decreases |list|
  {
    hide ItemOf;
    if list != [] {
      var k := |list| - 1;
      var front, a := list[..k], list[k];
      SortedParts(list, from, to, k);
      ItemsRise(front, relocs, hash, from, a.offset);
      if !IsDummy(a) {
        ItemIsAt(a, relocs, hash);
        RiseConcat(ItemsOf(front, relocs, hash), [ItemOf(a, relocs, hash)], from, a.offset, to);
      }
    }
  }

  lemma {:induction false} ItemsCover(list: seq<Alloc>, relocs: seq<Reloc>, hash: Ref -> nat, from: nat, to: nat,
                                      x: nat)
    requires RelocatedHaveRelocs(list, relocs) && RunLists.Sorted(list, from, to)
    ensures InItems(ItemsOf(list, relocs, hash), x) <==> Covered(list, x) && OwnerOf(list, x).inode != DUMMY
    decreases |list|
  {
    hide ItemOf, InItems;
    if list == [] {
      NothingInItems(x);
    } else {
      var k := |list| - 1;
      var front, a := list[..k], list[k];
      assert list == front + [a];
      SortedParts(list, from, to, k);
      SortedBounds(front, from, a.offset, x);
      ItemsCover(front, relocs, hash, from, a.offset, x);
      ConcatCovers(front, [a], x);
      OneIsCovered(a, x);
      if !IsDummy(a) {
        ItemIsAt(a, relocs, hash);
        ConcatInItems(ItemsOf(front, relocs, hash), [ItemOf(a, relocs, hash)], x);
        OneInItems(ItemOf(a, relocs, hash), x);
      } else {
        assert ItemsOf(list, relocs, hash) == ItemsOf(front, relocs, hash);
      }
    }
  }

  lemma OneIsCovered(a: Alloc, x: nat)
    ensures Covered([a], x) <==> a.Has(x)
    ensures a.Has(x) ==> OwnerOf([a], x) == a.owner
  {
    assert [a][1..] == [];
  }

  lemma NothingInItems(x: nat)
    ensures !InItems([], x)
  {
  }

  lemma {:induction false} AllItemsRise(runs: RunMap, relocs: seq<Reloc>, hash: Ref -> nat, n: nat, k: nat)
    requires RunsOk(runs, n) && forall l :: l in runs ==> RelocatedHaveRelocs(runs[l], relocs)
    ensures Rise(AllItems(runs, relocs, hash, k), 0, First(k, n))
    decreases k
  {
    hide ItemsOf, Rise, RunLists.Sorted, RelocatedHaveRelocs;
    if k == 0 {
      NoneRise();
    } else {
      NoneHave(relocs);
      NoneSorted(k - 1, n);
      AllItemsRise(runs, relocs, hash, n, k - 1);
      ItemsRise(ListOf(runs, k - 1), relocs, hash, First(k - 1, n), First(k - 1, n) + n);
      RiseConcat(AllItems(runs, relocs, hash, k - 1), ItemsOf(ListOf(runs, k - 1), relocs, hash), 0, First(k - 1, n),
                 First(k, n));
    }
  }

  lemma NoneRise()
    ensures Rise([], 0, 0)
  {
  }

  lemma NoneHave(relocs: seq<Reloc>)
    ensures RelocatedHaveRelocs([], relocs)
  {
  }

  lemma {:induction false} AllItemsCover(runs: RunMap, relocs: seq<Reloc>, hash: Ref -> nat, n: nat, k: nat, x: nat)
    requires 0 < n && RunsOk(runs, n) && forall l :: l in runs ==> RelocatedHaveRelocs(runs[l], relocs)
    ensures InItems(AllItems(runs, relocs, hash, k), x)
       <==> Index(x, n) < k && CoveredAt(runs, x, n) && OwnerAt(runs, x, n).inode != DUMMY
    decreases k
  {
    hide ItemsOf, InItems, RunLists.Sorted, RelocatedHaveRelocs, First, Index;
    if k == 0 {
      NothingInItems(x);
    } else {
      var list := ListOf(runs, k - 1);
      NoneHave(relocs);
      NoneSorted(k - 1, n);
      AllItemsCover(runs, relocs, hash, n, k - 1, x);
      ItemsCover(list, relocs, hash, First(k - 1, n), First(k - 1, n) + n, x);
      ConcatInItems(AllItems(runs, relocs, hash, k - 1), ItemsOf(list, relocs, hash), x);
      if Covered(list, x) {
        SortedBounds(list, First(k - 1, n), First(k - 1, n) + n, x);
        IndexIsUnique(x, n, k - 1);
      }
    }
  }

  // A run that is not protected, and the item that names one of its references.
  lemma RunHasItem(runs: RunMap, relocs: seq<Reloc>, hash: Ref -> nat, bound: nat, a: Alloc, r: Ref)
    requires forall k :: k in runs ==> k < bound && RelocatedHaveRelocs(runs[k], relocs)
    requires Entry(runs, a) && !IsDummy(a) && (a.owner.relocated ==> HasNew(relocs, a.offset))
    requires r in ItemOf(a, relocs, hash).refs
    ensures ItemFor(AllItems(runs, relocs, hash, bound), a.offset, a.length, r)
  {
    hide ItemOf, RelocatedHaveRelocs, AllItems;
    var l :| l in runs && a in runs[l];
    AllItemsHave(runs, relocs, hash, bound, l, a);
    ItemIsAt(a, relocs, hash);
    var items := AllItems(runs, relocs, hash, bound);
    var i :| 0 <= i < |items| && items[i] == ItemOf(a, relocs, hash);
  }

  // The run an extent of the image points at: the copy's, where its run is protected.
  lemma RunOfExtent(runs: RunMap, relocs: seq<Reloc>, disk: seq<Cluster>, first: RunMap, d0: seq<Cluster>, n: nat,
                    bound: nat, e: Extent)
    returns (a: Alloc)
    requires 0 < n && Kept(runs, relocs, disk, first, d0, n) && AllJoined(runs)
    requires forall k :: k in runs ==> DummiesHaveRelocs(runs[k], relocs)
    requires e in ImageExtents(runs, relocs, bound)
    ensures Entry(runs, a) && !IsDummy(a) && a.offset == e.phys && a.length == e.len
  {
    hide ImageExtents, DummiesHaveRelocs;
    RoundTrip.ImageIsOfRuns(runs, relocs, bound, e);
    var k: nat :| k < bound && RoundTrip.FromRun(e, runs, relocs, k);
    var b :| b in ListOf(runs, k) && InImage(b) && e == RoundTrip.SafeExtent(b, relocs);
    if IsDummy(b) {
      RoundTrip.ImageRunsAreUsed(runs, relocs, disk, first, d0, n, k, b, b.offset);
      var i := FindReloc(relocs, b.offset);
      a := RunOfCopy(runs, relocs, disk, first, d0, n, relocs[i]);
      assert Units(runs[k]) && b.length == 1;
    } else {
      a := b;
    }
  }

  lemma RunOfCopy(runs: RunMap, relocs: seq<Reloc>, disk: seq<Cluster>, first: RunMap, d0: seq<Cluster>, n: nat,
                  r: Reloc)
    returns (a: Alloc)
    requires 0 < n && Kept(runs, relocs, disk, first, d0, n) && AllJoined(runs) && r in relocs
    ensures Entry(runs, a) && !IsDummy(a) && a.offset == r.new' && a.length == 1
  {
    hide RunLists.Sorted, First;
    assert RelocOk(r, runs, disk, first, d0, n);
    var k := Index(r.new', n);
    a := RoundTrip.EntryOf(ListOf(runs, k), r.new');
    assert k in runs && Units(runs[k]) && JoinedList(runs[k]);
  }

  lemma ImageNamesIt(a: Alloc, runs: RunMap, relocs: seq<Reloc>, hash: Ref -> nat, files: set<FileExtent>, bound: nat,
                     e: Extent)
    requires forall k :: k in runs ==> DummiesHaveRelocs(runs[k], relocs)
    requires a.owner.relocated ==> HasNew(relocs, a.offset)
    requires RefsAre(ItemOf(a, relocs, hash).refs, ImageExtents(runs, relocs, bound), files, a.offset, hash)
    requires e in ImageExtents(runs, relocs, bound) && e.phys == a.offset
    ensures ImageRef(e.off) in ItemOf(a, relocs, hash).refs
  {
    hide ItemOf, ImageExtents, DummiesHaveRelocs;
    assert ImageRefers(ImageExtents(runs, relocs, bound), a.offset, e.off);
  }

  lemma FileNamesIt(a: Alloc, runs: RunMap, relocs: seq<Reloc>, hash: Ref -> nat, files: set<FileExtent>, bound: nat,
                    f: FileExtent)
    requires forall k :: k in runs ==> DummiesHaveRelocs(runs[k], relocs)
    requires a.owner.relocated ==> HasNew(relocs, a.offset)
    requires RefsAre(ItemOf(a, relocs, hash).refs, ImageExtents(runs, relocs, bound), files, a.offset, hash)
    requires f in files && f.lcn == a.offset
    ensures FileRef(f.inode, f.vcn) in ItemOf(a, relocs, hash).refs
  {
    hide ItemOf, ImageExtents, DummiesHaveRelocs;
    assert FileRefers(files, a.offset, f.inode, f.vcn);
  }
}
