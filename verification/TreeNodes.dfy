/**
 * The internal levels of a tree, and `create_trees` as a whole.
 */
module TreeNodes {
  import opened Packing
  import opened TreeItems
  import opened TreeBlock
  import opened TreeWalk
  import opened TreeLevels
  import opened TreeBooks
  import opened TreeBuilder
  import P = ChunkAllocator

  // The room a child's pointer takes.
  function PointerSpace(c: Child): nat {
    KEY_PTR_SIZE
  }

  lemma {:induction false} PointersSum(cs: seq<Child>)
    ensures Weights(cs, PointerSpace) == Rep(|cs|, KEY_PTR_SIZE)
    ensures Sum(Weights(cs, PointerSpace)) == 33 * |cs|
  {
    assert Weights(cs, PointerSpace) == Rep(|cs|, KEY_PTR_SIZE);
    if cs != [] {
      PointersSum(Front(cs));
      assert Front(Weights(cs, PointerSpace)) == Weights(Front(cs), PointerSpace);
    }
  }

  function Grouped(cs: seq<Child>): (gs: seq<seq<Child>>)
    ensures gs != []
  {
    Packed(cs, PointerSpace, AREA)
  }

  lemma GroupedFits(cs: seq<Child>)
    requires cs != []
    ensures |Grouped(cs)| == Parents(|cs|) && Flat(Grouped(cs)) == cs
    ensures forall g :: 0 <= g < |Grouped(cs)| ==> Grouped(cs)[g] != []
  {
    PackedIsWhole(cs, PointerSpace, AREA);
    PackedFits(cs, PointerSpace, AREA);
    PointersSum(cs);
    ParentsArePacked(|cs|);
    forall g | 0 <= g < |Grouped(cs)|
      ensures Grouped(cs)[g] != []
    {
      PackedIsFilled(cs, PointerSpace, AREA, g);
    }
  }

  // The key at the front of a block, header or pointer alike.
  function FirstKey(b: Block): Key
    requires b.area != [] && (b.area[0].HeadByte? || b.area[0].PointerByte?)
  {
    match b.area[0]
    case HeadByte(h, _) => h.key
    case PointerByte(p, _) => p.key
  }

  // It is the least key of the subtree.
  lemma FirstKeyIsLeast(store: Store, addr: nat, level: nat, items: seq<Item>)
    requires Represents(store, addr, level, items) && items != []
    ensures store[addr].area != [] && (store[addr].area[0].HeadByte? || store[addr].area[0].PointerByte?)
    ensures FirstKey(store[addr]) == items[0].key
  {
    var b := store[addr];
    if level == 0 {
      assert HoldsItem(b.area, 0, items[0], DataStart(items, 0));
      assert b.area[25 * 0 + 0] == HeadByte(Head(items[0].key, DataStart(items, 0), |items[0].data|), 0);
    } else {
      var cs: seq<Child> :| NodeOf(store, b, level, cs) && Under(cs) == items;
      assert HasPointer(b.area, 0, Pointers(cs)[0]);
      assert b.area[33 * 0 + 0] == PointerByte(cs[0].ptr, 0);
      assert IsChild(store, level - 1, cs[0]);
      UnderStarts(cs);
    }
  }

  // The last level built so far: the blocks from index `from` on, and what is under each.
  ghost predicate LevelHolds(trees: seq<Block>, lvl: nat, from: nat, cs: seq<Child>)
    requires 0 < lvl
  {
    && from + |cs| == |trees| && cs != []
    && (forall j :: 0 <= j < from ==> trees[j].level < lvl - 1)
    && (forall j :: 0 <= j < |cs| ==> ChildBlock(trees, from + j, lvl - 1, cs[j]))
  }

  // Block `i` is the root of the subtree.
  ghost predicate ChildBlock(trees: seq<Block>, i: nat, level: nat, c: Child) {
    i < |trees| && trees[i].level == level && c.ptr.addr == trees[i].addr && IsChild(StoreOf(trees), level, c)
  }

  // Block `g` of the level that begins at `n` points at this group.
  ghost predicate NodeAt(trees: seq<Block>, n: nat, g: nat, lvl: nat, group: seq<Child>) {
    n + g < |trees| && IsNode(trees[n + g], Pointers(group)) && trees[n + g].level == lvl
  }

  // The closed nodes of the level being built: the groups of pointers, all but the last.
  ghost predicate NodesHold(trees: seq<Block>, n: nat, lvl: nat, groups: seq<seq<Child>>) {
    n + |groups| == |trees| + 1 && forall g :: 0 <= g < |groups| - 1 ==> NodeAt(trees, n, g, lvl, groups[g])
  }

  ghost predicate NodeBlocks(trees: seq<Block>, n: nat, lvl: nat, groups: seq<seq<Child>>) {
    n + |groups| == |trees| && forall g :: 0 <= g < |groups| ==> NodeAt(trees, n, g, lvl, groups[g])
  }

  // A closed node joins the others.
  lemma NodesMore(trees: seq<Block>, trees': seq<Block>, n: nat, lvl: nat, groups: seq<seq<Child>>)
    requires groups != [] && NodesHold(trees, n, lvl, groups) && |trees'| == |trees| + 1 && trees <= trees'
    requires IsNode(Last(trees'), Pointers(Last(groups))) && Last(trees').level == lvl
    ensures NodeBlocks(trees', n, lvl, groups)
    ensures NodesHold(trees', n, lvl, groups + [[]])
  {
    hide IsNode;
    forall g | 0 <= g < |groups|
      ensures NodeAt(trees', n, g, lvl, groups[g])
    {
      assert g < |groups| - 1 ==> NodeAt(trees, n, g, lvl, groups[g]);
    }
  }

  lemma NodesOpened(groups: seq<seq<Child>>, c: Child)
    requires groups != []
    ensures Opened(groups, c, PointerSpace, AREA) == if AREA < 33 * |Last(groups)| + 33 then groups + [[]] else groups
  {
    PointersSum(Last(groups));
  }

  lemma GroupedNext(trees: seq<Block>, n: nat, lvl: nat, cs: seq<Child>, c: Child)
    requires NodesHold(trees, n, lvl, Opened(Grouped(cs), c, PointerSpace, AREA))
    ensures NodesHold(trees, n, lvl, Grouped(cs + [c]))
    ensures Last(Grouped(cs + [c])) == Last(Opened(Grouped(cs), c, PointerSpace, AREA)) + [c]
  {
    hide Packed, Opened, NodeAt;
    var o, next := Opened(Grouped(cs), c, PointerSpace, AREA), Grouped(cs + [c]);
    PackedNext(cs, c, PointerSpace, AREA);
    PutIsOpened(Grouped(cs), c, PointerSpace, AREA);
    assert next == Packed(cs + [c], PointerSpace, AREA) == Front(o) + [Last(o) + [c]];
    assert |next| == |o|;
    assert forall g :: 0 <= g < |next| - 1 ==> next[g] == o[g];
  }

  // A full node gets its address.
  method FlushNode(r: Root, e: Root, p: P.Planner, buf: Buffer, lvl: nat, ghost s0: Snap, ghost m0: int,
                   ghost n: nat, ghost groups: seq<seq<Child>>)
    returns (ok: bool)
    requires r.Base(e, p, s0, m0) && groups != [] && NodesHold(r.trees, n, lvl, groups)
    requires buf.Node(Pointers(Last(groups)))
    requires 0 < lvl
    modifies r`trees, r`metadataSize, r`addresses, r`oldAddresses, r`allocationsDone, e`items, e`live, p
    ensures !ok ==> p.Exhausted(r.id == 3)
    ensures ok ==> r.Base(e, p, s0, m0) && old(r.trees) <= r.trees && |r.trees| == |old(r.trees)| + 1
    ensures ok ==> NodeBlocks(r.trees, n, lvl, groups) && NodesHold(r.trees, n, lvl, groups + [[]])
    ensures ok ==> Grown(old(r.items), r.items)
    ensures ok && Settled(s0, r.Now(e, p)) ==> old(Settled(s0, r.Now(e, p)))
  {
    hide r.Base, HoldsNode, SubItems, NodesHold, NodeBlocks;
    ok := r.Flush(e, p, buf, lvl, s0, m0);
    if ok {
      NodesMore(old(r.trees), r.trees, n, lvl, groups);
    }
  }

  // One turn of the node loop: a node that has no room for another pointer is closed first.
  method NodeStep(r: Root, e: Root, p: P.Planner, buf: Buffer, lvl: nat, ptr: Pointer, ghost s0: Snap, ghost m0: int,
                  ghost n: nat, ghost done: seq<Child>, ghost c: Child)
    returns (ok: bool)
    requires r.Base(e, p, s0, m0) && NodesHold(r.trees, n, lvl, Grouped(done))
    requires buf.Node(Pointers(Last(Grouped(done))))
    requires c.ptr == ptr && 0 < lvl
    modifies r`trees, r`metadataSize, r`addresses, r`oldAddresses, r`allocationsDone, e`items, e`live, p, buf, buf.cells
    ensures buf.cells == old(buf.cells)
    ensures !ok ==> p.Exhausted(r.id == 3)
    ensures ok ==> r.Base(e, p, s0, m0) && old(r.trees) <= r.trees
    ensures ok ==> NodesHold(r.trees, n, lvl, Grouped(done + [c])) && buf.Node(Pointers(Last(Grouped(done + [c]))))
    ensures ok ==> Grown(old(r.items), r.items)
    ensures ok && Settled(s0, r.Now(e, p)) ==> old(Settled(s0, r.Now(e, p)))
  {
    hide r.Base, HoldsNode, Grouped, Opened, Grown, NodesHold, Settled;
    ghost var groups := Grouped(done);
    GrownSame(r.items);
    NodesOpened(groups, c);
    ok := true;
    if KEY_PTR_SIZE > buf.spaceLeft {
      ok := FlushNode(r, e, p, buf, lvl, s0, m0, n, groups);
      if !ok {
        return;
      }
      NodeIsWhole(buf.cells[..], Pointers(Last(groups)));
      buf.Clear();
      assert Pointers([]) == [];
    }
    GroupedNext(r.trees, n, lvl, done, c);
    ghost var open := Last(Opened(groups, c, PointerSpace, AREA));
    assert Pointers(open + [c]) == Pointers(open) + [ptr];
    buf.AddPointer(ptr, Pointers(open));
  }

  lemma NodeIsWhole(area: seq<Cell>, ptrs: seq<Pointer>)
    requires HoldsNode(area, ptrs)
    ensures |area| == AREA
  {
  }

  // The children the next level is built from.
  function Raised(trees: seq<Block>, n: nat, groups: seq<seq<Child>>): (cs: seq<Child>)
    requires n + |groups| <= |trees| && forall g :: 0 <= g < |groups| ==> groups[g] != []
    ensures |cs| == |groups|
  {
    seq(|groups|, g requires 0 <= g < |groups| =>
      Child(Pointer(groups[g][0].ptr.key, trees[n + g].addr), Under(groups[g])))
  }

  lemma {:induction false} FlatHas(groups: seq<seq<Child>>, g: nat, i: nat)
    requires g < |groups| && i < |groups[g]|
    ensures groups[g][i] in Flat(groups)
    decreases |groups|
  {
    if g < |groups| - 1 {
      FlatHas(Front(groups), g, i);
    } else {
      assert Last(groups)[i] in Last(groups);
    }
  }

  lemma {:induction false} RaisedIsWhole(trees: seq<Block>, n: nat, groups: seq<seq<Child>>)
    requires n + |groups| <= |trees| && forall g :: 0 <= g < |groups| ==> groups[g] != []
    ensures Under(Raised(trees, n, groups)) == Under(Flat(groups))
    decreases |groups|
  {
    if groups != [] {
      RaisedIsWhole(trees, n, Front(groups));
      assert Front(Raised(trees, n, groups)) == Raised(trees, n, Front(groups));
      UnderConcat(Flat(Front(groups)), Last(groups));
    }
  }

  lemma RaisedIsChild(trees: seq<Block>, trees': seq<Block>, addresses': seq<Placed>, lvl: nat, n: nat,
                      group: seq<Child>, g: nat)
    requires 0 < lvl && group != [] && trees <= trees' && Aligned(trees', addresses') && Distinct(addresses')
    requires NodeAt(trees', n, g, lvl, group)
    requires forall i :: 0 <= i < |group| ==> IsChild(StoreOf(trees), lvl - 1, group[i])
    ensures IsChild(StoreOf(trees'), lvl, Child(Pointer(group[0].ptr.key, trees'[n + g].addr), Under(group)))
  {
    var store, b := StoreOf(trees'), trees'[n + g];
    StoreGrows(trees, trees', addresses');
    StoreHas(trees', addresses', n + g);
    forall i | 0 <= i < |group|
      ensures IsChild(store, lvl - 1, group[i])
    {
      assert IsChild(StoreOf(trees), lvl - 1, group[i]);
      ExtendsKeeps(StoreOf(trees), store, group[i].ptr.addr, lvl - 1, group[i].items);
    }
    assert NodeOf(store, b, lvl, group);
    assert IsChild(store, lvl - 1, group[0]);
    UnderStarts(group);
  }

  lemma LevelNext(trees: seq<Block>, trees': seq<Block>, addresses': seq<Placed>, lvl: nat, from: nat, cs: seq<Child>)
    requires 0 < lvl && LevelHolds(trees, lvl, from, cs)
    requires trees <= trees' && Aligned(trees', addresses') && Distinct(addresses')
    requires NodeBlocks(trees', |trees|, lvl, Grouped(cs))
    ensures |trees| + |Grouped(cs)| == |trees'| && |Grouped(cs)| == Parents(|cs|)
    ensures forall g :: 0 <= g < |Grouped(cs)| ==> Grouped(cs)[g] != []
    ensures LevelHolds(trees', lvl + 1, |trees|, Raised(trees', |trees|, Grouped(cs)))
    ensures Under(Raised(trees', |trees|, Grouped(cs))) == Under(cs)
  {
    hide ChildBlock, NodeAt, Grouped, Under;
    GroupedFits(cs);
    RaisedIsWhole(trees', |trees|, Grouped(cs));
    LowerLevels(trees, trees', lvl, from, cs);
    forall g | 0 <= g < |Grouped(cs)|
      ensures ChildBlock(trees', |trees| + g, lvl, Raised(trees', |trees|, Grouped(cs))[g])
    {
      assert NodeAt(trees', |trees|, g, lvl, Grouped(cs)[g]);
      GroupRises(trees, trees', addresses', lvl, cs, Grouped(cs), g);
    }
  }

  lemma GroupRises(trees: seq<Block>, trees': seq<Block>, addresses': seq<Placed>, lvl: nat, cs: seq<Child>,
                   groups: seq<seq<Child>>, g: nat)
    requires 0 < lvl && (forall j :: 0 <= j < |cs| ==> IsChild(StoreOf(trees), lvl - 1, cs[j])) && Flat(groups) == cs
    requires trees <= trees' && Aligned(trees', addresses') && Distinct(addresses')
    requires g < |groups| && groups[g] != [] && NodeAt(trees', |trees|, g, lvl, groups[g])
    ensures ChildBlock(trees', |trees| + g, lvl,
                       Child(Pointer(groups[g][0].ptr.key, trees'[|trees| + g].addr), Under(groups[g])))
  {
    hide IsChild, Flat, Under;
    forall i | 0 <= i < |groups[g]|
      ensures IsChild(StoreOf(trees), lvl - 1, groups[g][i])
    {
      FlatHas(groups, g, i);
    }
    RaisedIsChild(trees, trees', addresses', lvl, |trees|, groups[g], g);
  }

  lemma LowerLevels(trees: seq<Block>, trees': seq<Block>, lvl: nat, from: nat, cs: seq<Child>)
    requires 0 < lvl && LevelHolds(trees, lvl, from, cs) && trees <= trees'
    ensures forall j :: 0 <= j < |trees| ==> trees'[j].level < lvl
    ensures forall j :: 0 <= j < |cs| ==> IsChild(StoreOf(trees), lvl - 1, cs[j])
  {
    hide IsChild;
    forall j | 0 <= j < |trees|
      ensures trees'[j].level < lvl
    {
      assert trees'[j] == trees[j];
      assert from <= j ==> ChildBlock(trees, from + (j - from), lvl - 1, cs[j - from]);
    }
  }

  // Which blocks one turn of the node loop passes over, stops at, and points to.
  lemma LevelTurn(trees: seq<Block>, addresses: seq<Placed>, trees': seq<Block>, lvl: nat, from: nat, cs: seq<Child>,
                  groups: seq<seq<Child>>, j: nat)
    requires 0 < lvl && LevelHolds(trees, lvl, from, cs) && Aligned(trees, addresses) && Distinct(addresses)
    requires trees <= trees' && NodesHold(trees', |trees|, lvl, groups) && j <= |trees| && j < |trees'|
    ensures lvl <= trees'[j].level <==> j == |trees|
    ensures j < |trees| ==> (trees'[j].level < lvl - 1 <==> j < from)
    ensures from <= j < |trees| ==> IsChildAt(trees'[j], cs[j - from])
  {
    hide Represents, IsNode, Under;
    if j < |trees| {
      assert trees'[j] == trees[j];
      if from <= j {
        var c := cs[j - from];
        assert ChildBlock(trees, from + (j - from), lvl - 1, c);
        StoreHas(trees, addresses, j);
        FirstKeyIsLeast(StoreOf(trees), c.ptr.addr, lvl - 1, c.items);
      }
    } else {
      assert NodeAt(trees', |trees|, 0, lvl, groups[0]);
    }
  }

  predicate IsChildAt(t: Block, c: Child) {
    && t.area != [] && (t.area[0].HeadByte? || t.area[0].PointerByte?)
    && c.ptr == Pointer(FirstKey(t), t.addr)
  }

  lemma LevelSizes(trees: seq<Block>, lvl: nat, from: nat, cs: seq<Child>)
    requires 0 < lvl && LevelHolds(trees, lvl, from, cs)
    ensures from + |cs| == |trees| && cs != []
  {
  }

  lemma EmptyLevel(trees: seq<Block>, lvl: nat)
    ensures Grouped([]) == [[]] && Pointers([]) == []
    ensures NodesHold(trees, |trees|, lvl, Grouped([]))
  {
  }

  lemma LastGroup(cs: seq<Child>)
    requires cs != []
    ensures Last(Grouped(cs)) != []
  {
    GroupedFits(cs);
  }

  lemma BaseAligned(r: Root, e: Root, p: P.Planner, s0: Snap, m0: int)
    requires r.Base(e, p, s0, m0)
    ensures Aligned(r.trees, r.addresses) && Distinct(r.addresses)
  {
    var all := r.addresses + r.oldAddresses;
    forall i, j | 0 <= i < j < |r.addresses|
      ensures r.addresses[i].addr != r.addresses[j].addr
    {
      assert all[i].addr != all[j].addr;
    }
  }

  // A map that is the same or has grown since.
  predicate Grown(items: seq<Item>, items': seq<Item>) {
    items' == items || SubItems(items, items')
  }

  lemma GrownSame(items: seq<Item>)
    ensures Grown(items, items)
  {
  }

  lemma StillGrown(a: seq<Item>, b: seq<Item>, c: seq<Item>)
    requires Grown(a, b) && Grown(b, c)
    ensures Grown(a, c)
  {
    if a != b && b != c {
      SubItemsTransitive(a, b, c);
    }
  }

  // One internal level over the last one.
  method AddLevel(r: Root, e: Root, p: P.Planner, buf: Buffer, lvl: nat, ghost s0: Snap, ghost m0: int,
                  ghost from: nat, ghost cs: seq<Child>)
    returns (ok: bool, added: nat, ghost up: seq<Child>)
    requires r.Base(e, p, s0, m0) && 0 < lvl && LevelHolds(r.trees, lvl, from, cs) && buf.cells.Length == AREA
    modifies r`trees, r`metadataSize, r`addresses, r`oldAddresses, r`allocationsDone, e`items, e`live, p, buf, buf.cells
    ensures buf.cells == old(buf.cells)
    ensures !ok ==> p.Exhausted(r.id == 3)
    ensures ok ==> r.Base(e, p, s0, m0) && old(r.trees) <= r.trees && added == |up| == Parents(|cs|)
    ensures ok ==> LevelHolds(r.trees, lvl + 1, |old(r.trees)|, up) && Under(up) == Under(cs)
    ensures ok ==> Grown(old(r.items), r.items)
    ensures ok && Settled(s0, r.Now(e, p)) ==> old(Settled(s0, r.Now(e, p)))
  {
    hide r.Base, Represents, IsNode, HoldsNode, Grouped, Grown, Settled, LevelHolds, NodesHold, NodeBlocks, Distinct;
    hide Aligned;
    ghost var trees0, addresses0, s := r.trees, r.addresses, r.Now(e, p);
    ghost var n := |trees0|;
    BaseAligned(r, e, p, s0, m0);
    LevelSizes(trees0, lvl, from, cs);
    GrownSame(r.items);
    added, up, ok := 0, [], true;
    buf.Clear();
    EmptyLevel(r.trees, lvl);
    var j: nat := 0;
    while j < |r.trees|
      invariant buf.cells == old(buf.cells) && j <= n && trees0 <= r.trees && |r.trees| == n + added
      invariant r.Base(e, p, s0, m0)
      invariant NodesHold(r.trees, n, lvl, Grouped(cs[..Sub(j, from)]))
      invariant buf.Node(Pointers(Last(Grouped(cs[..Sub(j, from)]))))
      invariant Grown(old(r.items), r.items)
      invariant Settled(s0, r.Now(e, p)) ==> Settled(s0, s)
      decreases n - j
    {
      var t := r.trees[j];
      LevelTurn(trees0, addresses0, r.trees, lvl, from, cs, Grouped(cs[..Sub(j, from)]), j);
      if t.level >= lvl {
        break;
      }
      if t.level < lvl - 1 {
        j := j + 1;
        continue;
      }
      ghost var k, before := j - from, r.items;
      var had := |r.trees|;
      ok := NodeStep(r, e, p, buf, lvl, Pointer(FirstKey(t), t.addr), s0, m0, n, cs[..k], cs[k]);
      if !ok {
        return;
      }
      assert cs[..k] + [cs[k]] == cs[..k + 1];
      StillGrown(old(r.items), before, r.items);
      added := added + (|r.trees| - had);
      j := j + 1;
    }
    assert cs[..Sub(j, from)] == cs;
    LastGroup(cs);
    if buf.numItems > 0 {
      ghost var before := r.items;
      ok := FlushNode(r, e, p, buf, lvl, s0, m0, n, Grouped(cs));
      if !ok {
        return;
      }
      StillGrown(old(r.items), before, r.items);
      added := added + 1;
    }
    BaseAligned(r, e, p, s0, m0);
    LevelNext(trees0, r.trees, r.addresses, lvl, from, cs);
    up := Raised(r.trees, n, Grouped(cs));
  }

  function Sub(j: nat, from: nat): nat {
    if j <= from then 0 else j - from
  }

  lemma LevelsNext(trees: seq<Block>, addresses: seq<Placed>, trees': seq<Block>, addresses': seq<Placed>, lvl: nat,
                   up: seq<Child>)
    requires Aligned(trees, addresses) && Aligned(trees', addresses') && trees <= trees'
    requires LevelHolds(trees', lvl + 1, |trees|, up)
    ensures LevelsOf(addresses') == LevelsOf(addresses) + Rep(|up|, lvl)
  {
    hide IsChild;
    forall i | 0 <= i < |addresses'|
      ensures addresses'[i].level == if i < |trees| then addresses[i].level else lvl
    {
      assert addresses'[i] == Placed(trees'[i].addr, trees'[i].level);
      if |trees| <= i {
        assert ChildBlock(trees', |trees| + (i - |trees|), lvl, up[i - |trees|]);
      } else {
        assert trees'[i] == trees[i];
      }
    }
    assert LevelsOf(addresses') == LevelsOf(addresses) + Rep(|up|, lvl);
  }

  // The leaves as subtrees.
  function LeafChildren(trees: seq<Block>, parts: seq<seq<Item>>): (cs: seq<Child>)
    requires |trees| == |parts| && forall j :: 0 <= j < |parts| ==> parts[j] != []
    ensures |cs| == |trees|
  {
    seq(|trees|, j requires 0 <= j < |trees| => Child(Pointer(parts[j][0].key, trees[j].addr), parts[j]))
  }

  lemma LeavesStart(trees: seq<Block>, addresses: seq<Placed>, seen: seq<Item>)
    requires Aligned(trees, addresses) && Distinct(addresses) && AllFit(Weights(seen, Space), AREA)
    requires LeafBlocks(trees, Packed(seen, Space, AREA))
    ensures LevelsOf(addresses) == Rep(|trees|, 0)
    ensures |trees| == 1 ==> Represents(StoreOf(trees), trees[0].addr, 0, seen)
    ensures 1 < |trees| ==> forall j :: 0 <= j < |trees| ==> Packed(seen, Space, AREA)[j] != []
    ensures 1 < |trees| ==> LevelHolds(trees, 1, 0, LeafChildren(trees, Packed(seen, Space, AREA)))
    ensures 1 < |trees| ==> Under(LeafChildren(trees, Packed(seen, Space, AREA))) == seen
  {
    hide HoldsLeaf, Represents, Packed, Flat, StoreOf;
    var parts := Packed(seen, Space, AREA);
    PackedIsWhole(seen, Space, AREA);
    forall j | 0 <= j < |trees|
      ensures trees[j].level == 0 && Represents(StoreOf(trees), trees[j].addr, 0, parts[j])
    {
      LeafStands(trees, addresses, parts, j);
    }
    assert LevelsOf(addresses) == Rep(|trees|, 0) by {
      assert forall j :: 0 <= j < |trees| ==> addresses[j] == Placed(trees[j].addr, trees[j].level);
    }
    if |trees| == 1 {
      FlatOne(parts);
    } else {
      SomeSeen(seen);
      forall j | 0 <= j < |trees|
        ensures parts[j] != []
      {
        PackedIsFilled(seen, Space, AREA, j);
      }
      UnderLeaves(trees, parts);
    }
  }

  lemma LeafStands(trees: seq<Block>, addresses: seq<Placed>, parts: seq<seq<Item>>, j: nat)
    requires Aligned(trees, addresses) && Distinct(addresses) && LeafBlocks(trees, parts) && j < |trees|
    ensures trees[j].level == 0 && Represents(StoreOf(trees), trees[j].addr, 0, parts[j])
  {
    hide HoldsLeaf;
    StoreHas(trees, addresses, j);
    assert IsLeaf(trees[j], parts[j]);
  }

  lemma FlatOne(parts: seq<seq<Item>>)
    requires |parts| == 1
    ensures Flat(parts) == parts[0]
  {
    FlatNext([], parts[0]);
    assert [] + [parts[0]] == parts && Flat<Item>([]) == [];
  }

  lemma SomeSeen(seen: seq<Item>)
    requires |Packed(seen, Space, AREA)| != 1
    ensures seen != []
  {
  }

  lemma {:induction false} UnderLeaves(trees: seq<Block>, parts: seq<seq<Item>>)
    requires |trees| == |parts| && forall j :: 0 <= j < |parts| ==> parts[j] != []
    ensures Under(LeafChildren(trees, parts)) == Flat(parts)
    decreases |parts|
  {
    if parts != [] {
      UnderLeaves(Front(trees), Front(parts));
      assert Front(LeafChildren(trees, parts)) == LeafChildren(Front(trees), Front(parts));
    }
  }

  // A single block on top: the tree is complete.
  lemma RootStands(trees: seq<Block>, lvl: nat, from: nat, cs: seq<Child>)
    requires LevelHolds(trees, lvl + 1, from, cs) && |cs| == 1
    ensures Last(trees).level == lvl && Represents(StoreOf(trees), Last(trees).addr, lvl, Under(cs))
  {
    hide Represents;
    assert ChildBlock(trees, from + 0, lvl, cs[0]);
    UnderNext([], cs[0]);
    assert [] + [cs[0]] == cs && Under([]) == [] && [] + cs[0].items == cs[0].items;
  }

  // What the levels still to come add to the list.
  function Pending(n: nat, lvl: nat): seq<nat> {
    if n <= 1 then [] else LevelList(Parents(n), lvl)
  }

  lemma BaseStart(r: Root, e: Root, p: P.Planner)
    requires Sound(e, p) && Standing(r.oldAddresses, e.live) && r.trees == [] && r.addresses == []
    ensures r.Base(e, p, r.Now(e, p), r.metadataSize)
  {
    assert r.addresses + r.oldAddresses == r.oldAddresses;
    RunStart(r.Now(e, p));
  }

  lemma CoveredFits(first: seq<Item>, items: seq<Item>, seen: seq<Item>, settled: bool)
    requires Covered(first, items, seen, settled)
    ensures AllFit(Weights(seen, Space), AREA)
  {
  }

  lemma LeafCount(trees: seq<Block>, parts: seq<seq<Item>>)
    requires LeafBlocks(trees, parts)
    ensures |trees| == |parts|
  {
  }

  lemma GrownCovered(items: seq<Item>, items': seq<Item>, first: seq<Item>, seen: seq<Item>, settled: bool,
                     settled': bool)
    requires Covered(first, items, seen, settled) && Grown(items, items')
    requires settled' ==> settled && (items' == items || items' == first)
    ensures Covered(first, items', seen, settled')
  {
    CoveredMore(items, items', first, seen, settled, settled');
  }

  // Between two levels of `create_trees`.
  ghost predicate Rising(r: Root, e: Root, p: P.Planner, s0: Snap, m0: int, first: seq<Item>, seen: seq<Item>,
                         leaves: nat, from: nat, cs: seq<Child>)
    reads r, e, p
  {
    && r.Base(e, p, s0, m0) && (if r == e then s0.items == first else r.items == first)
    && Covered(first, r.items, seen, r != e || Settled(s0, r.Now(e, p)))
    && LevelHolds(r.trees, r.level + 1, from, cs) && Under(cs) == seen
    && LevelsOf(r.addresses) + Pending(|cs|, r.level + 1) == LevelList(leaves, 0)
  }

  method RaiseLevel(r: Root, e: Root, p: P.Planner, buf: Buffer, ghost s0: Snap, ghost m0: int, ghost first: seq<Item>,
                    ghost seen: seq<Item>, ghost leaves: nat, ghost from: nat, ghost cs: seq<Child>)
    returns (ok: bool, added: nat, ghost up: seq<Child>)
    requires Rising(r, e, p, s0, m0, first, seen, leaves, from, cs) && buf.cells.Length == AREA && 1 < |cs|
    modifies r`trees, r`level, r`metadataSize, r`addresses, r`oldAddresses, r`allocationsDone
    modifies e`items, e`live, p, buf, buf.cells
    ensures buf.cells == old(buf.cells) && (ok ==> added == |up| == Parents(|cs|)) && (!ok ==> p.Exhausted(r.id == 3))
    ensures ok ==> Rising(r, e, p, s0, m0, first, seen, leaves, |old(r.trees)|, up) && old(r.trees) <= r.trees
  {
    hide Sound, Books, Standing, r.Base, Run, Covered, Represents, LevelHolds, Grown, Settled, Under, Aligned, Distinct;
    ghost var before, s := r.items, r.Now(e, p);
    ghost var trees0, addresses0 := r.trees, r.addresses;
    BaseAligned(r, e, p, s0, m0);
    r.level := r.level + 1;
    ok, added, up := AddLevel(r, e, p, buf, r.level, s0, m0, from, cs);
    if ok {
      r.BaseBooks(e, p, s0, m0);
      GrownCovered(before, r.items, first, seen, r != e || Settled(s0, s), r != e || Settled(s0, r.Now(e, p)));
      BaseAligned(r, e, p, s0, m0);
      LevelsNext(trees0, addresses0, r.trees, r.addresses, r.level, up);
      PendingNext(LevelsOf(addresses0), |cs|, r.level);
    }
  }

  lemma PendingNext(done: seq<nat>, n: nat, lvl: nat)
    requires 1 < n
    ensures done + Pending(n, lvl) == done + Rep(Parents(n), lvl) + Pending(Parents(n), lvl + 1)
  {
    if Parents(n) == 1 {
      assert Rep(1, lvl) == [lvl];
    }
  }

  // Level upon level, until one block is on top.
  method RaiseLevels(r: Root, e: Root, p: P.Planner, buf: Buffer, ghost s0: Snap, ghost m0: int, ghost first: seq<Item>,
                     ghost seen: seq<Item>, ghost cs0: seq<Child>)
    returns (ok: bool)
    requires Rising(r, e, p, s0, m0, first, seen, |cs0|, 0, cs0) && buf.cells.Length == AREA && 1 < |cs0|
    modifies r`trees, r`treeAddr, r`level, r`metadataSize, r`addresses, r`oldAddresses, r`allocationsDone
    modifies e`items, e`live, p, buf, buf.cells
    ensures !ok ==> p.Exhausted(r.id == 3)
    ensures ok ==> r.Base(e, p, s0, m0) && Covered(first, r.items, seen, r != e || Settled(s0, r.Now(e, p)))
    ensures ok ==> Represents(StoreOf(r.trees), r.treeAddr, r.level, seen)
    ensures ok ==> LevelsOf(r.addresses) == LevelList(|cs0|, 0) && old(r.trees) <= r.trees
  {
    hide *;
    ghost var from: nat, cs := 0, cs0;
    while true
      invariant buf.cells == old(buf.cells) && buf.cells.Length == AREA
      invariant 1 < |cs| && Rising(r, e, p, s0, m0, first, seen, |cs0|, from, cs) && old(r.trees) <= r.trees
      decreases |cs|
    {
      ghost var n := |r.trees|;
      var added;
      ghost var up;
      ok, added, up := RaiseLevel(r, e, p, buf, s0, m0, first, seen, |cs0|, from, cs);
      if !ok {
        return;
      }
      from, cs := n, up;
      if added == 1 {
        break;
      }
    }
    RisingEnd(r, e, p, s0, m0, first, seen, |cs0|, from, cs);
    r.treeAddr := r.trees[|r.trees| - 1].addr;
  }

  // `create_trees`: whatever the item map, one tree is built, and reading it back gives the
  // items the leaf loop saw, in order.
  method CreateTrees(r: Root, e: Root, p: P.Planner) returns (o: Outcome, ghost seen: seq<Item>)
    requires Sound(e, p) && Standing(r.oldAddresses, e.live)
    requires r.trees == [] && r.addresses == [] && !r.allocationsDone && Ascending(r.items)
    modifies r`trees, r`treeAddr, r`level, r`metadataSize, r`addresses, r`oldAddresses, r`allocationsDone
    modifies e`items, e`live, p
    ensures o == Done ==> r.Base(e, p, old(r.Now(e, p)), old(r.metadataSize))
    ensures o == Done ==> Covered(old(r.items), r.items, seen, r != e || Settled(old(r.Now(e, p)), r.Now(e, p)))
    ensures o == Done ==> Represents(StoreOf(r.trees), r.treeAddr, r.level, seen)
    ensures o == Done ==> LevelsOf(r.addresses) == LevelList(|Packed(seen, Space, AREA)|, 0)
    ensures o == Done ==> LeavesFirst(r.trees, Packed(seen, Space, AREA))
    ensures o == TooLarge ==> Oversized(old(r.items))
    ensures o == NoSpace ==> p.Exhausted(r.id == 3)
    ensures o != DuplicateKey
  {
    hide Sound, Books, Standing, r.Base, Run, Covered, Represents, LevelHolds, LeafBlocks, Settled, Packed, Rising;
    hide Aligned, Distinct, Under, Oversized, StoreOf, AllFit;
    var buf := new Buffer();
    ghost var s0, m0, first := r.Now(e, p), r.metadataSize, r.items;
    BaseStart(r, e, p);
    o, seen := r.BuildLeaves(e, p, buf, s0, m0);
    if o != Done {
      return;
    }
    ghost var parts, leaves := Packed(seen, Space, AREA), |r.trees|;
    CoveredFits(first, r.items, seen, r != e || Settled(s0, r.Now(e, p)));
    BaseAligned(r, e, p, s0, m0);
    LeavesStart(r.trees, r.addresses, seen);
    LeafCount(r.trees, parts);
    ghost var leafTrees := r.trees;
    r.level := 0;
    if |r.trees| == 1 {
      r.treeAddr := r.trees[0].addr;
      LeavesAreFirst(leafTrees, r.trees, r.addresses, parts);
      return;
    }
    ghost var cs := LeafChildren(r.trees, parts);
    RisingStart(r, e, p, s0, m0, first, seen, cs);
    var ok := RaiseLevels(r, e, p, buf, s0, m0, first, seen, cs);
    o := if ok then Done else NoSpace;
    if ok {
      BaseAligned(r, e, p, s0, m0);
      LeavesAreFirst(leafTrees, r.trees, r.addresses, parts);
    }
  }

  // A tree's blocks: its leaves, which hold these parts, and then the nodes.
  ghost predicate LeavesFirst(trees: seq<Block>, parts: seq<seq<Item>>) {
    && |parts| <= |trees| && (forall j :: 0 <= j < |parts| ==> IsLeaf(trees[j], parts[j]))
    && forall j :: |parts| <= j < |trees| ==> 0 < trees[j].level
  }

  lemma LeavesAreFirst(leaves: seq<Block>, trees: seq<Block>, addresses: seq<Placed>, parts: seq<seq<Item>>)
    requires LeafBlocks(leaves, parts) && leaves <= trees && Aligned(trees, addresses) && parts != []
    requires LevelsOf(addresses) == LevelList(|parts|, 0)
    ensures LeavesFirst(trees, parts)
  {
    hide IsLeaf;
    forall j | |parts| <= j < |trees|
      ensures 0 < trees[j].level
    {
      HigherLevels(|parts|, 0, j);
      assert LevelsOf(addresses)[j] == addresses[j].level;
    }
    forall j | 0 <= j < |parts|
      ensures IsLeaf(trees[j], parts[j])
    {
      assert trees[j] == leaves[j];
    }
  }

  lemma RisingStart(r: Root, e: Root, p: P.Planner, s0: Snap, m0: int, first: seq<Item>, seen: seq<Item>,
                    cs: seq<Child>)
    requires r.Base(e, p, s0, m0) && (if r == e then s0.items == first else r.items == first)
    requires Covered(first, r.items, seen, r != e || Settled(s0, r.Now(e, p)))
    requires 1 < |cs| == |r.trees| && r.level == 0 && LevelHolds(r.trees, 1, 0, cs) && Under(cs) == seen
    requires LevelsOf(r.addresses) == Rep(|cs|, 0)
    ensures Rising(r, e, p, s0, m0, first, seen, |cs|, 0, cs)
  {
    hide r.Base, Covered, LevelHolds, Under;
  }

  lemma RisingEnd(r: Root, e: Root, p: P.Planner, s0: Snap, m0: int, first: seq<Item>, seen: seq<Item>,
                  leaves: nat, from: nat, cs: seq<Child>)
    requires Rising(r, e, p, s0, m0, first, seen, leaves, from, cs) && |cs| == 1
    ensures r.Base(e, p, s0, m0) && Covered(first, r.items, seen, r != e || Settled(s0, r.Now(e, p)))
    ensures r.trees != [] && Represents(StoreOf(r.trees), r.trees[|r.trees| - 1].addr, r.level, seen)
    ensures LevelsOf(r.addresses) == LevelList(leaves, 0)
  {
    hide r.Base, Covered, Under, Represents;
    RootStands(r.trees, r.level, from, cs);
    assert LevelsOf(r.addresses) + [] == LevelsOf(r.addresses);
  }
}
