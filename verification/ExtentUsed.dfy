/**
 * The last step on the extent tree: the bytes in use are filled in where the finished tree stands.
 */
module ExtentUsed {
  import opened ChunkItems
  import opened LittleEndian
  import opened Packing
  import opened TreeItems
  import opened TreeBlock
  import opened TreeWalk
  import opened TreeBooks
  import opened TreeBuilder
  import opened TreeNodes
  import opened ExtentTrees
  import P = ChunkAllocator

  // The item, with the count of the last chunk that begins where a block group does.
  function Counted(x: Item, chunks: seq<P.Chunk>): (y: Item)
    requires x.key.kind == BLOCK_GROUP_ITEM ==> 8 <= |x.data|
    ensures y.key == x.key && |y.data| == |x.data|
  {
    if x.key.kind != BLOCK_GROUP_ITEM || chunks == [] then x
    else
      var y, c := Counted(x, chunks[..|chunks| - 1]), chunks[|chunks| - 1];
      if c.offset == x.key.obj then y.(data := Le(c.used, 8) + y.data[8..]) else y
  }

  predicate GroupsWhole(items: seq<Item>) {
    forall x :: x in items && x.key.kind == BLOCK_GROUP_ITEM ==> 8 <= |x.data|
  }

  function AllCounted(items: seq<Item>, chunks: seq<P.Chunk>): (s: seq<Item>)
    requires GroupsWhole(items)
    ensures |s| == |items|
    ensures forall i :: 0 <= i < |s| ==> s[i] == Counted(items[i], chunks)
  {
    seq(|items|, i requires 0 <= i < |items| => Counted(items[i], chunks))
  }

  // ----- one leaf -----

  function Patched(area: seq<Cell>, off: nat, bytes: Bytes): (a: seq<Cell>)
    requires off + |bytes| <= |area|
    ensures |a| == |area|
    ensures forall k :: 0 <= k < |area| ==>
      a[k] == if off <= k < off + |bytes| then DataByte(bytes[k - off]) else area[k]
  {
    seq(|area|, k requires 0 <= k < |area| => if off <= k < off + |bytes| then DataByte(bytes[k - off]) else area[k])
  }

  lemma {:induction false} SameSizes(a: seq<Item>, b: seq<Item>)
    requires |a| == |b| && forall i :: 0 <= i < |a| ==> |a[i].data| == |b[i].data|
    ensures DataSize(a) == DataSize(b)
  {
    if a != [] {
      SameSizes(Front(a), Front(b));
    }
  }

  lemma SameStarts(a: seq<Item>, b: seq<Item>, i: nat)
    requires |a| == |b| && i < |a| && forall j :: 0 <= j < |a| ==> |a[j].data| == |b[j].data|
    ensures DataStart(a, i) == DataStart(b, i)
  {
    SameSizes(a[..i + 1], b[..i + 1]);
  }

  // Items' data do not overlap.
  lemma DataApart(items: seq<Item>, i: nat, j: nat)
    requires i < j < |items|
    ensures DataStart(items, j) + |items[j].data| <= DataStart(items, i)
  {
    assert Front(items[..j + 1]) == items[..j] && Last(items[..j + 1]) == items[j];
    assert items[..j][..i + 1] == items[..i + 1];
    DataSizeGrows(items[..j], i + 1);
  }

  // Overwriting the front of one item's data leaves a leaf with that item so changed.
  lemma PatchKeeps(area: seq<Cell>, items: seq<Item>, i: nat, bytes: Bytes)
    requires HoldsLeaf(area, items) && i < |items| && |bytes| <= |items[i].data|
    ensures 0 <= DataStart(items, i) && DataStart(items, i) + |bytes| <= |area|
    ensures HoldsLeaf(Patched(area, DataStart(items, i), bytes),
                      items[i := items[i].(data := bytes + items[i].data[|bytes|..])])
  {
    hide DataSize, DataStart, Patched;
    var items' := items[i := items[i].(data := bytes + items[i].data[|bytes|..])];
    HeldItemIsClear(items, i);
    SameSizes(items, items');
    var start := DataStart(items, i);
    forall j | 0 <= j < |items|
      ensures HoldsItem(Patched(area, start, bytes), j, items'[j], DataStart(items', j))
    {
      SameStarts(items, items', j);
      HeldItemIsClear(items, j);
      assert HoldsItem(area, j, items[j], DataStart(items, j));
      if j < i {
        DataApart(items, j, i);
      } else if i < j {
        DataApart(items, i, j);
      }
      PatchedItem(area, items, i, j, bytes, start, DataStart(items, j));
    }
  }

  lemma PatchedItem(area: seq<Cell>, items: seq<Item>, i: nat, j: nat, bytes: Bytes, start: nat, at: nat)
    requires i < |items| && j < |items| && |bytes| <= |items[i].data| && start + |items[i].data| <= |area|
    requires HoldsItem(area, j, items[j], at) && 25 * |items| <= start && at + |items[j].data| <= |area|
    requires j < i ==> start + |items[i].data| <= at
    requires if i < j then at + |items[j].data| <= start else i == j ==> at == start
    ensures var x := if i == j then items[i].(data := bytes + items[i].data[|bytes|..]) else items[j];
      HoldsItem(Patched(area, start, bytes), j, x, at)
  {
  }

  // The items, of which the first `i` have been counted.
  function Partly(items: seq<Item>, chunks: seq<P.Chunk>, i: nat): (s: seq<Item>)
    requires GroupsWhole(items) && i <= |items|
    ensures |s| == |items|
  {
    seq(|items|, j requires 0 <= j < |items| => if j < i then Counted(items[j], chunks) else items[j])
  }

  method CountItem(area0: seq<Cell>, h: Head, chunks: seq<P.Chunk>, ghost items: seq<Item>, ghost i: nat)
    returns (area: seq<Cell>)
    requires HoldsLeaf(area0, items) && i < |items| && h == Head(items[i].key, DataStart(items, i), |items[i].data|)
    requires h.key.kind == BLOCK_GROUP_ITEM && 8 <= |items[i].data|
    ensures HoldsLeaf(area, items[i := Counted(items[i], chunks)])
  {
    hide HoldsLeaf, DataStart, Le, Patched;
    area := area0;
    var j: nat := 0;
    assert items[i := Counted(items[i], chunks[..0])] == items;
    while j < |chunks|
      invariant j <= |chunks| && HoldsLeaf(area, items[i := Counted(items[i], chunks[..j])])
    {
      assert chunks[..j + 1][..j] == chunks[..j];
      if chunks[j].offset == h.key.obj {
        ghost var now := items[i := Counted(items[i], chunks[..j])];
        SameStarts(items, now, i);
        PatchKeeps(area, now, i, Le(chunks[j].used, 8));
        area := Patched(area, h.offset, Le(chunks[j].used, 8));
        assert now[i := Counted(items[i], chunks[..j + 1])] == items[i := Counted(items[i], chunks[..j + 1])];
      }
      j := j + 1;
    }
    assert chunks[..j] == chunks;
  }

  lemma HeadIsHeld(area: seq<Cell>, items: seq<Item>, i: nat)
    requires HoldsLeaf(area, items) && i < |items|
    ensures 25 * i < |area| && area[25 * i] == HeadByte(Head(items[i].key, DataStart(items, i), |items[i].data|), 0)
  {
    hide DataStart, DataSize;
    assert HoldsItem(area, i, items[i], DataStart(items, i));
    assert area[25 * i + 0] == HeadByte(Head(items[i].key, DataStart(items, i), |items[i].data|), 0);
  }

  method CountLeaf(b: Block, chunks: seq<P.Chunk>, ghost items: seq<Item>) returns (b': Block)
    requires IsLeaf(b, items) && GroupsWhole(items)
    ensures IsLeaf(b', AllCounted(items, chunks)) && b'.addr == b.addr
  {
    hide HoldsLeaf, DataStart;
    var area := b.area;
    var i: nat := 0;
    assert Partly(items, chunks, 0) == items;
    while i < b.count
      invariant i <= b.count == |items| && HoldsLeaf(area, Partly(items, chunks, i))
    {
      ghost var now := Partly(items, chunks, i);
      assert items[i] in items;
      HeadIsHeld(area, now, i);
      var h := HeadOf(area, i);
      if h.key.kind == BLOCK_GROUP_ITEM {
        area := CountItem(area, h, chunks, now, i);
      }
      assert Partly(items, chunks, i + 1) == now[i := Counted(items[i], chunks)];
      assert h.key.kind != BLOCK_GROUP_ITEM ==> now[i := Counted(items[i], chunks)] == now;
      i := i + 1;
    }
    assert Partly(items, chunks, i) == AllCounted(items, chunks);
    b' := b.(area := area);
  }

  // ----- the tree -----

  // The leaves have been counted, and the nodes are as they were.
  ghost predicate Recounted(trees: seq<Block>, trees': seq<Block>, parts: seq<seq<Item>>, chunks: seq<P.Chunk>) {
    && |trees'| == |trees| && (forall j :: 0 <= j < |trees| ==> trees'[j].addr == trees[j].addr)
    && (forall j :: 0 <= j < |trees| && j < |parts| ==>
          GroupsWhole(parts[j]) && IsLeaf(trees'[j], AllCounted(parts[j], chunks)))
    && forall j :: |parts| <= j < |trees| ==> trees'[j] == trees[j]
  }

  // `update_extent_root`, which ends at the first block that is not a leaf.
  method UpdateExtentRoot(r: Root, chunks: seq<P.Chunk>, ghost parts: seq<seq<Item>>)
    requires LeavesFirst(r.trees, parts) && forall j :: 0 <= j < |parts| ==> GroupsWhole(parts[j])
    modifies r`trees
    ensures Recounted(old(r.trees), r.trees, parts, chunks)
  {
    hide IsLeaf, GroupsWhole;
    var i: nat := 0;
    while i < |r.trees|
      invariant i <= |parts| && |r.trees| == |old(r.trees)|
      invariant forall j :: 0 <= j < |r.trees| ==> r.trees[j].addr == old(r.trees)[j].addr
      invariant forall j :: 0 <= j < i ==> IsLeaf(r.trees[j], AllCounted(parts[j], chunks))
      invariant forall j :: i <= j < |r.trees| ==> r.trees[j] == old(r.trees)[j]
    {
      if r.trees[i].level > 0 {
        NodesFollow(old(r.trees), parts, i);
        return;
      }
      LeavesCome(old(r.trees), parts, i);
      var b := CountLeaf(r.trees[i], chunks, parts[i]);
      r.trees := r.trees[i := b];
      i := i + 1;
    }
  }

  lemma NodesFollow(trees: seq<Block>, parts: seq<seq<Item>>, i: nat)
    requires LeavesFirst(trees, parts) && i < |trees| && i <= |parts| && 0 < trees[i].level
    ensures i == |parts|
  {
  }

  lemma LeavesCome(trees: seq<Block>, parts: seq<seq<Item>>, i: nat)
    requires LeavesFirst(trees, parts) && i < |trees| && trees[i].level == 0
    ensures i < |parts| && IsLeaf(trees[i], parts[i])
  {
  }

  function CountedChildren(cs: seq<Child>, chunks: seq<P.Chunk>): (ds: seq<Child>)
    requires forall i :: 0 <= i < |cs| ==> GroupsWhole(cs[i].items)
    ensures |ds| == |cs|
    ensures forall i :: 0 <= i < |cs| ==> ds[i] == Child(cs[i].ptr, AllCounted(cs[i].items, chunks))
  {
    seq(|cs|, i requires 0 <= i < |cs| => Child(cs[i].ptr, AllCounted(cs[i].items, chunks)))
  }

  lemma {:induction false} ChildrenWhole(cs: seq<Child>)
    requires GroupsWhole(Under(cs))
    ensures forall i :: 0 <= i < |cs| ==> GroupsWhole(cs[i].items)
  {
    if cs != [] {
      ChildrenWhole(Front(cs));
      assert forall x :: x in Last(cs).items ==> x in Under(cs);
      assert forall x :: x in Under(Front(cs)) ==> x in Under(cs);
      assert forall i :: 0 <= i < |cs| - 1 ==> cs[i] == Front(cs)[i];
    }
  }

  lemma {:induction false} UnderCounted(cs: seq<Child>, chunks: seq<P.Chunk>)
    requires GroupsWhole(Under(cs)) && forall i :: 0 <= i < |cs| ==> GroupsWhole(cs[i].items)
    ensures Under(CountedChildren(cs, chunks)) == AllCounted(Under(cs), chunks)
  {
    hide Counted;
    if cs != [] {
      assert forall x :: x in Under(Front(cs)) ==> x in Under(cs);
      UnderCounted(Front(cs), chunks);
      assert Front(CountedChildren(cs, chunks)) == CountedChildren(Front(cs), chunks);
      assert AllCounted(Under(cs), chunks)
          == AllCounted(Under(Front(cs)), chunks) + AllCounted(Last(cs).items, chunks);
    }
  }

  // Which block stands at an address, before and after.
  lemma BlockOf(trees: seq<Block>, trees': seq<Block>, addresses: seq<Placed>, parts: seq<seq<Item>>,
                chunks: seq<P.Chunk>, a: nat)
    returns (j: nat)
    requires LeavesFirst(trees, parts) && Aligned(trees, addresses) && Distinct(addresses)
    requires Recounted(trees, trees', parts, chunks) && a in StoreOf(trees)
    ensures j < |trees| && StoreOf(trees)[a] == trees[j] && a in StoreOf(trees') && StoreOf(trees')[a] == trees'[j]
  {
    hide Counted, HoldsLeaf;
    StoreOnlyHas(trees, a);
    j :| 0 <= j < |trees| && trees[j].addr == a;
    forall i | 0 <= i < |trees'|
      ensures addresses[i] == Placed(trees'[i].addr, trees'[i].level)
    {
      if i < |parts| {
        assert IsLeaf(trees[i], parts[i]) && IsLeaf(trees'[i], AllCounted(parts[i], chunks));
      }
    }
    StoreHas(trees, addresses, j);
    StoreHas(trees', addresses, j);
  }

  // The tree stands as it did, for the items with the counts filled in.
  lemma {:induction false} CountedStands(trees: seq<Block>, trees': seq<Block>, addresses: seq<Placed>,
                                         parts: seq<seq<Item>>, chunks: seq<P.Chunk>, a: nat, level: nat,
                                         items: seq<Item>)
    requires LeavesFirst(trees, parts) && Aligned(trees, addresses) && Distinct(addresses)
    requires Recounted(trees, trees', parts, chunks) && GroupsWhole(items)
    requires Represents(StoreOf(trees), a, level, items)
    ensures Represents(StoreOf(trees'), a, level, AllCounted(items, chunks))
    decreases level
  {
    hide StoreOf, IsLeaf, IsNode, Counted, GroupsWhole, Aligned, Distinct;
    var store, store' := StoreOf(trees), StoreOf(trees');
    var j := BlockOf(trees, trees', addresses, parts, chunks, a);
    if level == 0 {
      LeavesCome(trees, parts, j);
      LeafIsUnique(trees[j], items, parts[j]);
      LeafLevel(trees'[j], AllCounted(items, chunks));
    } else {
      if j < |parts| {
        LeafLevel(trees[j], parts[j]);
      }
      var cs: seq<Child> :| NodeOf(store, store[a], level, cs) && Under(cs) == items;
      ChildrenWhole(cs);
      var ds := CountedChildren(cs, chunks);
      forall i | 0 <= i < |cs|
        ensures IsChild(store', level - 1, ds[i])
      {
        assert IsChild(store, level - 1, cs[i]);
        CountedStands(trees, trees', addresses, parts, chunks, cs[i].ptr.addr, level - 1, cs[i].items);
      }
      UnderCounted(cs, chunks);
      assert Pointers(ds) == Pointers(cs);
      assert NodeOf(store', store'[a], level, ds);
    }
  }

  lemma LeafLevel(b: Block, items: seq<Item>)
    requires IsLeaf(b, items)
    ensures b.level == 0
  {
  }

  predicate BlocksDiffer(trees: seq<Block>) {
    forall i, j :: 0 <= i < j < |trees| ==> trees[i].addr != trees[j].addr
  }

  function PlacesOf(trees: seq<Block>): (ps: seq<Placed>)
    ensures |ps| == |trees| && forall i :: 0 <= i < |ps| ==> ps[i] == Placed(trees[i].addr, trees[i].level)
  {
    seq(|trees|, i requires 0 <= i < |trees| => Placed(trees[i].addr, trees[i].level))
  }

  lemma {:induction false} PartsWhole(parts: seq<seq<Item>>)
    requires GroupsWhole(Flat(parts))
    ensures forall j :: 0 <= j < |parts| ==> GroupsWhole(parts[j])
  {
    if parts != [] {
      assert forall x :: x in Last(parts) ==> x in Flat(parts);
      assert forall x :: x in Flat(Front(parts)) ==> x in Flat(parts);
      PartsWhole(Front(parts));
      assert forall j :: 0 <= j < |parts| - 1 ==> parts[j] == Front(parts)[j];
    }
  }

  lemma StandsFacts(r: Root, items: seq<Item>)
    requires Stands(r, items)
    ensures Represents(StoreOf(r.trees), r.treeAddr, r.level, items)
    ensures LeavesFirst(r.trees, Packed(items, Space, AREA))
  {
  }

  // A tree that stands for its items stands for them with the counts.
  method FillIn(r: Root, chunks: seq<P.Chunk>, ghost items: seq<Item>)
    requires Stands(r, items) && GroupsWhole(items) && BlocksDiffer(r.trees)
    modifies r`trees
    ensures Represents(StoreOf(r.trees), r.treeAddr, r.level, AllCounted(items, chunks))
  {
    hide Stands, GroupsWhole, LeavesFirst, Packed, Recounted, Represents, StoreOf, AllCounted;
    ghost var parts, trees := Packed(items, Space, AREA), r.trees;
    StandsFacts(r, items);
    PackedIsWhole(items, Space, AREA);
    PartsWhole(parts);
    UpdateExtentRoot(r, chunks, parts);
    CountedStands(trees, r.trees, PlacesOf(trees), parts, chunks, r.treeAddr, r.level, items);
  }

  // ----- what the counts say -----

  // A block group's item: its bytes in use and its kind.
  predicate SaysUsed(d: Bytes, c: P.Chunk) {
    |d| == 24 && Value(d[0..8]) == c.used && Value(d[8..16]) == 0x100 && Names(Value(d[16..24]), c.kind)
  }

  // Any two chunks that begin at the same place have the same count.
  predicate OneCount(chunks: seq<P.Chunk>, c: P.Chunk) {
    forall d :: d in chunks && d.offset == c.offset ==> d.used == c.used
  }

  lemma {:induction false} CountIsFilledIn(x: Item, chunks: seq<P.Chunk>, c: P.Chunk)
    requires IsGroupItem(x, c) && c.used < 0x1_0000_0000_0000_0000 && OneCount(chunks, c)
    ensures if exists d :: d in chunks && d.offset == c.offset then SaysUsed(Counted(x, chunks).data, c)
            else Counted(x, chunks) == x
    decreases |chunks|
  {
    hide Value, Le, Names;
    if chunks != [] {
      var front, last := chunks[..|chunks| - 1], chunks[|chunks| - 1];
      assert chunks == front + [last];
      CountIsFilledIn(x, front, c);
      if last.offset == c.offset {
        var y := Counted(x, front);
        var d := Le(c.used, 8) + y.data[8..];
        WordIsRead(c.used);
        assert d[0..8] == Le(c.used, 8) && d[8..16] == y.data[8..16] && d[16..24] == y.data[16..24];
      }
    }
  }
}
