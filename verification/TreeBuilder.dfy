/**
 * Building a tree from an item map: `root::create_trees` and its `get_address`.
 */
module TreeBuilder {
  import opened LittleEndian
  import opened Packing
  import opened TreeItems
  import opened TreeBlock
  import opened TreeWalk
  import opened TreeLevels
  import opened TreeBooks
  import opened TreeCursor
  import P = ChunkAllocator

  datatype Outcome = Done | TooLarge | NoSpace | DuplicateKey

  lemma InsertedIsSigned(items: seq<Item>, x: Item, a: nat, owner: RootId)
    requires x == Item(MetaKey(a, x.key.offset), MetaData(owner))
    ensures HasSigned(Inserted(items, x), a, owner)
  {
    BlockIsSaid(owner);
    var r := Rank(items, x.key);
    assert Inserted(items, x)[r] == x;
  }

  lemma BlockInKind(chunks: seq<P.Chunk>, chunks': seq<P.Chunk>, given: seq<P.Range>, given': seq<P.Range>, a: nat,
                    system: bool)
    requires P.Allocated(chunks, chunks', given, given', a, P.MetadataKind(system), P.TREE, true)
    requires forall i :: 0 <= i < |chunks'| ==> chunks'[i].offset == chunks'[i].diskStart + P.VIRT
    ensures InKind(chunks', a, if system then P.System else P.Metadata)
  {
    hide P.FreshOnly;
    var extra: seq<P.Chunk> :|
      P.FreshOnly(extra) && P.Handed(chunks + extra, chunks', given, given', a, P.MetadataKind(system), P.TREE, true);
    var all := chunks + extra;
    var i :| 0 <= i < |all| && P.Charged(all, chunks', i, a, P.MetadataKind(system), P.TREE, true);
    assert chunks'[i].offset == chunks'[i].diskStart + P.VIRT && Surrounds(chunks'[i], a);
  }

  lemma ChunksArePlaced(p: P.Planner)
    requires p.Valid()
    ensures forall i :: 0 <= i < |p.chunks| ==> p.chunks[i].offset == p.chunks[i].diskStart + P.VIRT
  {
    hide P.Counted, P.EvenLists, P.WasGiven;
    forall i | 0 <= i < |p.chunks|
      ensures p.chunks[i].offset == p.chunks[i].diskStart + P.VIRT
    {
      assert p.chunks[i] in p.chunks;
    }
  }

  function LevelsOf(ps: seq<Placed>): (s: seq<nat>)
    ensures |s| == |ps| && forall i :: 0 <= i < |ps| ==> s[i] == ps[i].level
  {
    seq(|ps|, i requires 0 <= i < |ps| => ps[i].level)
  }

  ghost predicate Aligned(trees: seq<Block>, addresses: seq<Placed>) {
    |trees| == |addresses| && forall i :: 0 <= i < |trees| ==> addresses[i] == Placed(trees[i].addr, trees[i].level)
  }

  function StoreOf(trees: seq<Block>): Store {
    if trees == [] then map[] else StoreOf(Front(trees))[Last(trees).addr := Last(trees)]
  }

  lemma {:induction false} StoreHas(trees: seq<Block>, addresses: seq<Placed>, j: nat)
    requires Aligned(trees, addresses) && Distinct(addresses) && j < |trees|
    ensures trees[j].addr in StoreOf(trees) && StoreOf(trees)[trees[j].addr] == trees[j]
    decreases |trees|
  {
    if j < |trees| - 1 {
      StoreHas(Front(trees), Front(addresses), j);
      assert addresses[j].addr != addresses[|trees| - 1].addr;
    }
  }

  lemma {:induction false} StoreOnlyHas(trees: seq<Block>, a: nat)
    requires a in StoreOf(trees)
    ensures exists j :: 0 <= j < |trees| && trees[j].addr == a
    decreases |trees|
  {
    if a != Last(trees).addr {
      StoreOnlyHas(Front(trees), a);
      var j :| 0 <= j < |Front(trees)| && Front(trees)[j].addr == a;
      assert trees[j].addr == a;
    }
  }

  lemma StoreGrows(trees: seq<Block>, trees': seq<Block>, addresses': seq<Placed>)
    requires trees <= trees' && Aligned(trees', addresses') && Distinct(addresses')
    ensures Extends(StoreOf(trees), StoreOf(trees'))
  {
    forall a | a in StoreOf(trees)
      ensures a in StoreOf(trees') && StoreOf(trees')[a] == StoreOf(trees)[a]
    {
      StoreOnlyHas(trees, a);
      var j: nat :| j < |trees| && trees[j].addr == a;
      StoreHas(trees', addresses', j);
      assert Aligned(trees, addresses'[..|trees|]) && Distinct(addresses'[..|trees|]);
      StoreHas(trees, addresses'[..|trees|], j);
    }
  }

  lemma StandingStep(done: seq<Placed>, old': seq<Placed>, live: map<nat, nat>, a: nat, l: nat)
    requires Standing(done + old', live)
    requires if old' == [] then a !in live else a == old'[0].addr
    ensures Standing(done + [Placed(a, l)] + (if old' == [] then [] else old'[1..]), live[a := l])
  {
    var before, after := done + old', done + [Placed(a, l)] + (if old' == [] then [] else old'[1..]);
    assert forall i :: 0 <= i < |after| && i != |done| ==> after[i] == before[i];
    forall i, j | 0 <= i < j < |after|
      ensures after[i].addr != after[j].addr
    {
      assert old' != [] ==>
        before[i].addr == after[i].addr && before[j].addr == after[j].addr && before[i].addr != before[j].addr;
    }
    forall i | 0 <= i < |after|
      ensures after[i].addr in live[a := l] && live[a := l][after[i].addr] == after[i].level
    {
      if i != |done| && old' != [] {
        assert before[|done|].addr == a;
        assert before[if i < |done| then i else |done|].addr != before[if i < |done| then |done| else i].addr;
      }
    }
  }

  class Root {
    const id: RootId
    var items: seq<Item>
    var trees: seq<Block>
    var treeAddr: nat
    var level: nat
    var metadataSize: int
    var addresses: seq<Placed>
    var oldAddresses: seq<Placed>
    var allocationsDone: bool
    ghost var live: map<nat, nat>  // of the extent root: every block that has a METADATA_ITEM, and its level

    constructor (id: RootId)
      ensures this.id == id && items == [] && trees == [] && addresses == [] && oldAddresses == []
      ensures !allocationsDone && metadataSize == 0 && live == map[]
    {
      this.id := id;
      items, trees, treeAddr, level, metadataSize := [], [], 0, 0, 0;
      addresses, oldAddresses, allocationsDone, live := [], [], false, map[];
    }

    // `add_item`: a key may be used only once.
    method AddItem(x: Item) returns (ok: bool)
      requires HasSlot(items, x.key) ==> HasKey(items, x.key)
      modifies `items
      ensures ok <==> !old(HasKey(items, x.key))
      ensures items == if ok then Inserted(old(items), x) else old(items)
    {
      var i := Find(x.key);
      ok := i == |items|;
      if ok {
        items := Inserted(items, x);
      }
    }

    method Find(k: Key) returns (i: nat)
      ensures i <= |items|
      ensures i < |items| ==> items[i].key == k
      ensures i == |items| ==> !HasKey(items, k)
    {
      i := 0;
      while i < |items| && items[i].key != k
        invariant i <= |items| && forall j :: 0 <= j < i ==> items[j].key != k
      {
        i := i + 1;
      }
    }

    // Erasing an entry and inserting it again under another level.
    method Relevel(a: nat, old': nat, new': nat)
      requires Ascending(items) && HasKey(items, MetaKey(a, old'))
      modifies `items
      ensures exists i: nat :: i < |old(items)| && old(items)[i].key == MetaKey(a, old')
                               && items == Rekeyed(old(items), i, MetaKey(a, new'))
    {
      var f := Find(MetaKey(a, old'));
      var x := items[f].(key := MetaKey(a, new'));
      RekeyedIsAscending(items, f, MetaKey(a, new'));
      items := items[..f] + items[f + 1..];
      items := Inserted(items, x);
    }

    ghost function Now(e: Root, p: P.Planner): Snap
      reads `addresses, `oldAddresses, `allocationsDone, e`items, e`live, p
    {
      Snap(e.items, e.live, addresses, oldAddresses, allocationsDone, p.FreeSet(), p.chunks, p.chunksChanged, id)
    }

    // The next address this root had before; its item is moved when the level is another.
    method Reuse(e: Root, lvl: nat) returns (a: nat)
      requires Books(e.items, e.live) && Standing(addresses + oldAddresses, e.live) && oldAddresses != []
      modifies `addresses, `oldAddresses, e`items, e`live
      ensures a == old(oldAddresses)[0].addr && a in old(e.live)
      ensures addresses == old(addresses) + [Placed(a, lvl)] && oldAddresses == old(oldAddresses)[1..]
      ensures Books(e.items, e.live) && Standing(addresses + oldAddresses, e.live)
      ensures e.live == old(e.live)[a := lvl] && SubItems(old(e.items), e.items) && |e.items| == |old(e.items)|
      ensures BlocksOnly(old(e.items), e.items)
      ensures old(oldAddresses)[0].level == lvl ==> e.live == old(e.live) && e.items == old(e.items)
    {
      hide Books, Distinct, SubItems;
      a := oldAddresses[0].addr;
      var was := oldAddresses[0].level;
      assert (addresses + oldAddresses)[|addresses|] == oldAddresses[0];
      StandingStep(addresses, oldAddresses, e.live, a, lvl);
      SubItemsItself(e.items);
      if lvl != was {
        LiveHasItem(e.items, e.live, a);
        ghost var before := e.items;
        e.Relevel(a, was, lvl);
        ghost var f: nat :|
          f < |before| && before[f].key == MetaKey(a, was) && e.items == Rekeyed(before, f, MetaKey(a, lvl));
        BooksRelevel(before, e.live, f, a, lvl);
        RekeyedBlocksOnly(before, f, MetaKey(a, lvl));
      } else {
        assert e.live[a := lvl] == e.live;
      }
      e.live := e.live[a := lvl];
      addresses := addresses + [Placed(a, lvl)];
      oldAddresses := oldAddresses[1..];
    }

    // A new block, with its item.
    method Allocate(e: Root, p: P.Planner, lvl: nat) returns (r: P.Result)
      requires Sound(e, p) && Standing(addresses, e.live)
      modifies `addresses, `allocationsDone, e`items, e`live, p
      ensures Sound(e, p)
      ensures r == P.NoSpace || r.Ok?
      ensures r.Ok? ==> addresses == old(addresses) + [Placed(r.addr, lvl)] && Standing(addresses, e.live)
      ensures r == P.NoSpace ==> p.Exhausted(id == 3)
      ensures r.Ok? ==> e.live == old(e.live)[r.addr := lvl] && SubItems(old(e.items), e.items)
      ensures r.Ok? ==> BlocksOnly(old(e.items), e.items)
      ensures r.Ok? ==> allocationsDone && p.FreeSet() < old(p.FreeSet())
      ensures r.Ok? ==> r.addr !in old(e.live) && P.AddedFrom(old(p.chunks), p.chunks)
      ensures r.Ok? ==> Signed(e.items, p.chunks, r.addr, id)
    {
      hide Books, Standing, SubItems, P.Accounted, P.Counted, P.EvenLists, P.Allocated, P.AddedFrom, P.NoFit, HasKey;
      hide HasSlot, Inserted;
      hide P.StillFree, P.WasGiven, P.Planner.Exhausted, BlocksOnly, Owned, MetaData, HasSigned, InKind, P.MetadataKind;
      r := p.AllocateMetadata(id == 3);
      if r.Ok? {
        ghost var g := P.Range(r.addr - P.VIRT, P.TREE);
        ChargedWasGiven(old(p.given), old(p.charged), g);
        FreshIsOwned(old(p.charged), p.charged, e.live, r.addr, lvl, g);
        assert addresses + [] == addresses;
        StandingStep(addresses, [], e.live, r.addr, lvl);
        assert addresses + [Placed(r.addr, lvl)] + [] == addresses + [Placed(r.addr, lvl)];
        var x := Item(MetaKey(r.addr, lvl), MetaData(id));
        BooksGrow(e.items, e.live, r.addr, lvl, MetaData(id));
        InsertedBlocksOnly(e.items, x);
        InsertedIsSigned(e.items, x, r.addr, id);
        ChunksArePlaced(p);
        BlockInKind(old(p.chunks), p.chunks, old(p.given), p.given, r.addr, id == 3);
        AbsentSlot(e.items, e.live, r.addr, lvl);
        var ok := e.AddItem(x);
        e.live := e.live[r.addr := lvl];
        allocationsDone := true;
        addresses := addresses + [Placed(r.addr, lvl)];
      } else {
        assert p.charged == old(p.charged);
      }
    }

    // `get_address`.
    method GetAddress(e: Root, p: P.Planner, lvl: nat) returns (r: P.Result)
      requires Sound(e, p) && Standing(addresses + oldAddresses, e.live)
      modifies `addresses, `oldAddresses, `allocationsDone, e`items, e`live, p
      ensures Sound(e, p)
      ensures r == P.NoSpace || r.Ok?
      ensures r == P.NoSpace ==> p.Exhausted(id == 3)
      ensures r.Ok? ==> Standing(addresses + oldAddresses, e.live) && Step(old(Now(e, p)), Now(e, p), r.addr, lvl)
    {
      hide Books, Standing, SubItems, P.Accounted, P.Counted, P.EvenLists;
      if oldAddresses != [] {
        var a := Reuse(e, lvl);
        r := P.Ok(a);
      } else {
        assert addresses + oldAddresses == addresses;
        r := Allocate(e, p, lvl);
        assert addresses + oldAddresses == addresses;
      }
    }

    // Where a pass that began at `s0` stands between two blocks.
    ghost predicate Base(e: Root, p: P.Planner, s0: Snap, m0: int)
      reads `trees, `metadataSize, `addresses, `oldAddresses, `allocationsDone, e`items, e`live, p
    {
      && Sound(e, p) && Standing(addresses + oldAddresses, e.live)
      && Run(s0, Now(e, p))
      && Aligned(trees, addresses) && metadataSize == m0 + 0x4000 * |trees|
    }

    // A full block gets its address and joins the list.
    method Flush(e: Root, p: P.Planner, buf: Buffer, lvl: nat, ghost s0: Snap, ghost m0: int) returns (ok: bool)
      requires Base(e, p, s0, m0)
      modifies `trees, `metadataSize, `addresses, `oldAddresses, `allocationsDone, e`items, e`live, p
      ensures !ok ==> p.Exhausted(id == 3)
      ensures ok ==> Base(e, p, s0, m0) && SubItems(old(e.items), e.items)
      ensures ok ==> |trees| == |old(trees)| + 1 && trees[..|old(trees)|] == old(trees)
      ensures ok ==> trees[|old(trees)|] == Block(trees[|old(trees)|].addr, lvl, buf.numItems, buf.cells[..])
      ensures ok ==> old(addresses) <= addresses && Onward(old(Now(e, p)), Now(e, p))
    {
      hide Books, Standing, SubItems, Run, Step, P.Accounted, P.Counted, P.EvenLists;
      ghost var s := Now(e, p);
      var r := GetAddress(e, p, lvl);
      ok := r.Ok?;
      if ok {
        RunStep(s0, s, Now(e, p), r.addr, lvl);
        StepFacts(s, Now(e, p), r.addr, lvl);
        trees := trees + [Block(r.addr, lvl, buf.numItems, buf.cells[..])];
        metadataSize := metadataSize + 0x4000;
      }
    }

    // Between two items: what `seen` has been packed into.
    ghost predicate Leaves(e: Root, p: P.Planner, buf: Buffer, s0: Snap, m0: int, first: seq<Item>, seen: seq<Item>)
      reads this, e, p, buf, buf.cells
    {
      && Base(e, p, s0, m0) && (if this == e then s0.items == first else items == first)
      && Progress(items, first, seen, this != e || Settled(s0, Now(e, p)))
      && LeavesHold(trees, Packed(seen, Space, AREA))
      && buf.Leaf(Last(Packed(seen, Space, AREA)))
    }

    // Makes room for `x`: a leaf that has no room for it is closed and a new one begun.
    method MakeRoom(e: Root, p: P.Planner, buf: Buffer, x: Item, ghost s0: Snap, ghost m0: int,
                    ghost parts: seq<seq<Item>>)
      returns (ok: bool)
      requires Base(e, p, s0, m0) && parts != [] && LeavesHold(trees, parts) && buf.Leaf(Last(parts))
      modifies `trees, `metadataSize, `addresses, `oldAddresses, `allocationsDone, e`items, e`live, p, buf, buf.cells
      ensures buf.cells == old(buf.cells) && (!ok ==> p.Exhausted(id == 3))
      ensures ok ==> Base(e, p, s0, m0) && SubItems(old(e.items), e.items)
      ensures ok ==> old(addresses) <= addresses && Onward(old(Now(e, p)), Now(e, p))
      ensures ok ==> LeavesHold(trees, Opened(parts, x, Space, AREA)) && buf.Leaf(Last(Opened(parts, x, Space, AREA)))
    {
      hide Base, HoldsLeaf, SubItems, Sum, DataSize;
      SubItemsItself(e.items);
      ok := true;
      if Space(x) > buf.spaceLeft {
        ok := Flush(e, p, buf, 0, s0, m0);
        if ok {
          LeafIsWhole(buf.cells[..], Last(parts));
          buf.Clear();
        }
      }
    }

    // One turn of the leaf loop.
    method LeafStep(e: Root, p: P.Planner, buf: Buffer, i: nat, ghost s0: Snap, ghost m0: int,
                    ghost first: seq<Item>, ghost seen: seq<Item>)
      returns (r: Outcome)
      requires Leaves(e, p, buf, s0, m0, first, seen) && i == Next(items, seen) < |items|
      modifies `trees, `metadataSize, `addresses, `oldAddresses, `allocationsDone, e`items, e`live, p, buf, buf.cells
      ensures buf.cells == old(buf.cells)
      ensures r == Done ==> Leaves(e, p, buf, s0, m0, first, seen + [old(items[i])])
      ensures r == Done ==> Onward(old(Now(e, p)), Now(e, p))
      ensures r == TooLarge ==> AREA < Space(old(items[i]))
      ensures r == NoSpace ==> p.Exhausted(id == 3)
      ensures r != DuplicateKey
    {
      SubItemsItself(items);
      hide Base, Progress, Run, Packed, Opened, LeavesHold, Settled, Ascending, SubItems;
      var x := items[i];
      ghost var before, s := items, Now(e, p);
      var ok := MakeRoom(e, p, buf, x, s0, m0, Packed(seen, Space, AREA));
      if !ok {
        return NoSpace;
      }
      if Space(x) > AREA {
        return TooLarge;
      }
      PutNext(trees, seen, x);
      SpaceLeft(buf, Packed(seen, Space, AREA), x);
      buf.AddItem(x, Last(Opened(Packed(seen, Space, AREA), x, Space, AREA)));
      BaseBooks(e, p, s0, m0);
      if Settled(s0, Now(e, p)) {
        SettledBefore(s0, s, Now(e, p));
      }
      ProgressStep(before, items, first, seen, this != e || Settled(s0, s), this != e || Settled(s0, Now(e, p)));
      r := Done;
    }

    // An item that is too large was so when the pass began.
    lemma LargeAtFirst(e: Root, p: P.Planner, buf: Buffer, i: nat, s0: Snap, m0: int, first: seq<Item>, seen: seq<Item>)
      requires Leaves(e, p, buf, s0, m0, first, seen) && i < |items|
      ensures AREA < Space(items[i]) ==> Oversized(first)
    {
      hide Books, Standing, SubItems, Progress, LeavesHold, P.AddedFrom, P.Accounted, P.Counted, P.EvenLists;
    }

    // The flush after the leaf loop.
    method CloseLeaves(e: Root, p: P.Planner, buf: Buffer, ghost s0: Snap, ghost m0: int, ghost first: seq<Item>,
                       ghost seen: seq<Item>)
      returns (ok: bool)
      requires Leaves(e, p, buf, s0, m0, first, seen) && Next(items, seen) == |items|
      modifies `trees, `metadataSize, `addresses, `oldAddresses, `allocationsDone, e`items, e`live, p
      ensures ok ==> buf.cells.Length == AREA && LeafBlocks(trees, Packed(seen, Space, AREA))
      ensures ok ==> Base(e, p, s0, m0) && Covered(first, items, seen, this != e || Settled(s0, Now(e, p)))
      ensures !ok ==> p.Exhausted(id == 3)
    {
      hide Base, Run, HoldsLeaf, Settled, SubItems, Covered, Progress, Packed, Sum, DataSize, LeavesHold;
      ok := true;
      CoveredAtEnd(items, first, seen, this != e || Settled(s0, Now(e, p)));
      PackedOpen(seen);
      LeafIsWhole(buf.cells[..], Last(Packed(seen, Space, AREA)));
      if buf.numItems > 0 || |items| == 0 {
        ghost var parts := Packed(seen, Space, AREA);
        ghost var before, s := items, Now(e, p);
        ok := Flush(e, p, buf, 0, s0, m0);
        if !ok {
          return;
        }
        BaseBooks(e, p, s0, m0);
        if Settled(s0, Now(e, p)) {
          SettledBefore(s0, s, Now(e, p));
        }
        CoveredMore(before, items, first, seen, this != e || Settled(s0, s), this != e || Settled(s0, Now(e, p)));
        assert parts == Front(parts) + [Last(parts)];
        LastLeaf(trees, parts);
      }
    }

    // The leaf loop and the flush after it.
    method BuildLeaves(e: Root, p: P.Planner, buf: Buffer, ghost s0: Snap, ghost m0: int)
      returns (r: Outcome, ghost seen: seq<Item>)
      requires Base(e, p, s0, m0) && s0 == Now(e, p) && trees == [] && addresses == [] && Ascending(items)
      requires buf.Leaf([])
      modifies `trees, `metadataSize, `addresses, `oldAddresses, `allocationsDone, e`items, e`live, p, buf, buf.cells
      ensures buf.cells == old(buf.cells) && (r == Done ==> buf.cells.Length == AREA)
      ensures r == Done ==> Base(e, p, s0, m0) && Covered(old(items), items, seen, this != e || Settled(s0, Now(e, p)))
      ensures r == Done ==> LeafBlocks(trees, Packed(seen, Space, AREA))
      ensures r == TooLarge ==> Oversized(old(items))
      ensures r == NoSpace ==> p.Exhausted(id == 3)
      ensures r != DuplicateKey
    {
      hide Base, Run, HoldsLeaf, Settled, SubItems, Covered, Progress, Packed, Sum, DataSize, LeavesHold;
      var i: nat := 0;
      ghost var first := items;
      seen := [];
      ProgressStart(items, this != e || Settled(s0, s0));
      NothingPacked();
      while i < |items|
        invariant i == Next(items, seen) <= |items| && buf.cells == old(buf.cells)
        invariant Leaves(e, p, buf, s0, m0, first, seen)
        invariant |seen| <= |items|
        decreases p.FreeSet(), |items| - |seen|
      {
        var x := items[i];
        LargeAtFirst(e, p, buf, i, s0, m0, first, seen);
        r := LeafStep(e, p, buf, i, s0, m0, first, seen);
        if r != Done {
          return;
        }
        seen := seen + [x];
        SeenIsShorter(items, first, seen, this != e || Settled(s0, Now(e, p)));
        i := Past(items, x.key);
      }
      var ok := CloseLeaves(e, p, buf, s0, m0, first, seen);
      r := if ok then Done else NoSpace;
    }

    lemma BaseBooks(e: Root, p: P.Planner, s0: Snap, m0: int)
      requires Base(e, p, s0, m0)
      ensures Ascending(e.items) && Run(s0, Now(e, p))
      ensures Settled(s0, Now(e, p)) ==> e.items == s0.items
    {
    }
  }

  // What the leaf loop has seen of the item map.
  ghost predicate Progress(items: seq<Item>, first: seq<Item>, seen: seq<Item>, settled: bool) {
    && Ascending(items) && Cursor(first, items, seen)
    && (settled ==> items == first && seen <= first)
    && AllFit(Weights(seen, Space), AREA)
  }

  // A finished leaf level has seen every item there was, each still in the map; and when nothing
  // was moved it has seen the map itself.
  ghost predicate Covered(first: seq<Item>, items: seq<Item>, seen: seq<Item>, settled: bool) {
    && Ascending(seen) && SubItems(first, seen) && SubItems(seen, items) && AllFit(Weights(seen, Space), AREA)
    && (settled ==> seen == first == items)
  }

  ghost predicate LeafBlocks(trees: seq<Block>, parts: seq<seq<Item>>) {
    |trees| == |parts| && forall j :: 0 <= j < |trees| ==> IsLeaf(trees[j], parts[j])
  }

  lemma NothingPacked()
    ensures Packed<Item>([], Space, AREA) == [[]] && LeavesHold([], [[]])
  {
  }

  lemma LastLeaf(trees: seq<Block>, parts: seq<seq<Item>>)
    requires trees != [] && parts != [] && LeavesHold(Front(trees), parts) && IsLeaf(Last(trees), Last(parts))
    ensures LeafBlocks(trees, parts)
  {
    assert trees == Front(trees) + [Last(trees)];
  }

  lemma ProgressStart(items: seq<Item>, settled: bool)
    requires Ascending(items)
    ensures Progress(items, items, [], settled)
  {
    CursorStart(items);
    assert Weights<Item>([], Space) == [];
  }

  lemma CoveredAtEnd(items: seq<Item>, first: seq<Item>, seen: seq<Item>, settled: bool)
    requires Progress(items, first, seen, settled) && Next(items, seen) == |items|
    ensures Covered(first, items, seen, settled)
    ensures seen == [] <==> items == []
  {
    CursorEnd(first, items, seen);
    if settled {
      PrefixNext(items, seen);
    }
    SeenIsShorter(items, first, seen, settled);
  }

  lemma SeenIsShorter(items: seq<Item>, first: seq<Item>, seen: seq<Item>, settled: bool)
    requires Progress(items, first, seen, settled)
    ensures |seen| <= |items|
  {
    SubItemsIsWithin(seen, items);
    WithinIsShorter(Weights(seen, Space), Weights(items, Space));
  }

  // Giving the last leaf its address may still move entries.
  lemma CoveredMore(items: seq<Item>, items': seq<Item>, first: seq<Item>, seen: seq<Item>, settled: bool,
                    settled': bool)
    requires Covered(first, items, seen, settled)
    requires items' == items || SubItems(items, items')
    requires settled' ==> settled && (items' == items || items' == first)
    ensures Covered(first, items', seen, settled')
  {
    SubItemsItself(items);
    SubItemsTransitive(seen, items, items');
  }

  // The open leaf is empty only if there is nothing to pack.
  lemma PackedOpen(seen: seq<Item>)
    requires AllFit(Weights(seen, Space), AREA)
    ensures Last(Packed(seen, Space, AREA)) == [] <==> seen == []
  {
    if seen != [] {
      PackedIsFilled(seen, Space, AREA, |Packed(seen, Space, AREA)| - 1);
    }
  }

  lemma ProgressStep(items: seq<Item>, items': seq<Item>, first: seq<Item>, seen: seq<Item>, settled: bool,
                     settled': bool)
    requires Progress(items, first, seen, settled) && Next(items, seen) < |items|
    requires items' == items || (Ascending(items') && SubItems(items, items'))
    requires settled' ==> settled && (items' == items || items' == first)
    requires Space(items[Next(items, seen)]) <= AREA
    ensures Progress(items', first, seen + [items[Next(items, seen)]], settled')
  {
    hide Ascending, Cursor, SubItems, Next, Space;
    SubItemsItself(items);
    CursorStep(first, items, items', seen);
    if settled' {
      PrefixStep(items, seen);
    }
    WeightsNext(seen, items[Next(items, seen)], Space);
  }

  lemma SettledBefore(s0: Snap, s: Snap, t: Snap)
    requires s.addresses <= t.addresses && Settled(s0, t)
    ensures Settled(s0, s)
  {
  }

  lemma PutNext(trees: seq<Block>, seen: seq<Item>, x: Item)
    requires LeavesHold(trees, Opened(Packed(seen, Space, AREA), x, Space, AREA))
    ensures LeavesHold(trees, Packed(seen + [x], Space, AREA))
    ensures Last(Packed(seen + [x], Space, AREA)) == Last(Opened(Packed(seen, Space, AREA), x, Space, AREA)) + [x]
  {
    hide Packed, Opened;
    var o := Opened(Packed(seen, Space, AREA), x, Space, AREA);
    PackedNext(seen, x, Space, AREA);
    PutIsOpened(Packed(seen, Space, AREA), x, Space, AREA);
    assert forall j :: 0 <= j < |o| - 1 ==> Packed(seen + [x], Space, AREA)[j] == o[j];
  }

  lemma LeafIsWhole(area: seq<Cell>, items: seq<Item>)
    requires HoldsLeaf(area, items)
    ensures |area| == AREA
  {
  }

  lemma SpaceLeft(buf: Buffer, parts: seq<seq<Item>>, x: Item)
    requires parts != [] && Space(x) <= AREA && buf.Leaf(Last(Opened(parts, x, Space, AREA)))
    ensures Space(x) <= buf.spaceLeft
  {
  }

  lemma LiveHasItem(items: seq<Item>, live: map<nat, nat>, a: nat)
    requires Books(items, live) && a in live
    ensures Ascending(items) && HasKey(items, MetaKey(a, live[a]))
  {
  }

  lemma ChargedWasGiven(given: seq<P.Range>, charged: seq<P.Range>, g: P.Range)
    requires P.WasGiven(charged, given) && g !in given
    ensures g !in charged
  {
  }

  lemma FreshIsOwned(charged: seq<P.Range>, charged': seq<P.Range>, live: map<nat, nat>, a: nat, l: nat, g: P.Range)
    requires Owned(charged, live) && P.VIRT <= a && g == P.Range(a - P.VIRT, P.TREE)
    requires g !in charged && charged' == charged + [g]
    ensures a !in live && Owned(charged', live[a := l])
  {
  }

  lemma AbsentSlot(items: seq<Item>, live: map<nat, nat>, a: nat, l: nat)
    requires Books(items, live) && a !in live
    ensures !HasSlot(items, MetaKey(a, l))
  {
    if HasSlot(items, MetaKey(a, l)) {
      SlotIsLive(items, live, a, l);
    }
  }

  // The closed blocks hold the packed parts, all but the last.
  ghost predicate LeavesHold(trees: seq<Block>, parts: seq<seq<Item>>) {
    |trees| + 1 == |parts| && forall j :: 0 <= j < |trees| ==> IsLeaf(trees[j], parts[j])
  }

  lemma StepFacts(s: Snap, t: Snap, a: nat, l: nat)
    requires Step(s, t, a, l)
    ensures t.addresses == s.addresses + [Placed(a, l)] && SubItems(s.items, t.items) && Onward(s, t)
  {
  }

  // A block is either paid for out of the free bytes, or adds no item.
  ghost predicate Onward(s: Snap, t: Snap) {
    t.free < s.free || (t.free == s.free && |t.items| == |s.items|)
  }

  // The allocator and the extent tree's books agree.
  ghost predicate Sound(e: Root, p: P.Planner)
    reads e`items, e`live, p
  {
    p.Valid() && Books(e.items, e.live) && Owned(p.charged, e.live)
  }
}
