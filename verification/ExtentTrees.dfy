/**
 * The trees that describe themselves. Building the extent, chunk and device trees takes blocks, each of
 * which adds an item to the extent tree, and may take chunks, each of which adds an item to all
 * three; so they are built again until a round takes nothing.
 */
module ExtentTrees {
  import opened ChunkItems
  import opened Packing
  import opened TreeItems
  import opened TreeBlock
  import opened TreeWalk
  import opened TreeLevels
  import opened TreeBooks
  import opened TreeBuilder
  import opened TreeNodes
  import P = ChunkAllocator

  // No address is used twice, within a root or across roots, and every live block is some root's.
  ghost predicate Ledger(lists: seq<seq<Placed>>, live: map<nat, nat>) {
    && (forall i :: 0 <= i < |lists| ==> Standing(lists[i], live))
    && (forall i, j :: 0 <= i < j < |lists| ==> Strangers(lists[i], lists[j]))
    && (forall a :: a in live ==> exists i :: 0 <= i < |lists| && Among(lists[i], a))
  }

  ghost predicate Strangers(x: seq<Placed>, y: seq<Placed>) {
    forall a :: !(Among(x, a) && Among(y, a))
  }

  // A pass over one root rewrites that root's list and keeps the ledger straight.
  lemma PassKeepsLedger(lists: seq<seq<Placed>>, i: nat, s0: Snap, s: Snap)
    requires Ledger(lists, s0.live) && i < |lists| && lists[i] == s0.old' && s0.addresses == []
    requires Run(s0, s) && Standing(s.addresses, s.live) && |s0.old'| <= |s.addresses|
    ensures Ledger(lists[i := s.addresses], s.live)
  {
    hide Run, Among, Standing, Strangers;
    var lists' := lists[i := s.addresses];
    forall j | 0 <= j < |lists| && j != i
      ensures Strangers(lists[j], s.addresses) && Strangers(s.addresses, lists[j]) && Standing(lists[j], s.live)
    {
      OthersApart(lists, i, j, s0, s);
    }
    forall j, k | 0 <= j < k < |lists'|
      ensures Strangers(lists'[j], lists'[k])
    {
      assert Strangers(lists[j], lists[k]);
    }
    forall a | a in s.live
      ensures exists j :: 0 <= j < |lists'| && Among(lists'[j], a)
    {
      StillAmong(s0, s, a);
      if Among(s.addresses, a) {
        assert Among(lists'[i], a);
      } else {
        var j :| 0 <= j < |lists| && Among(lists[j], a);
        assert Among(lists'[j], a);
      }
    }
  }

  // Every block of these is signed by the root it belongs to.
  predicate ListSigned(ps: seq<Placed>, owner: nat, items: seq<Item>, chunks: seq<P.Chunk>) {
    forall i :: 0 <= i < |ps| ==> Signed(items, chunks, ps[i].addr, owner)
  }

  predicate ListsSigned(lists: seq<seq<Placed>>, ids: seq<nat>, items: seq<Item>, chunks: seq<P.Chunk>) {
    |lists| == |ids| && forall i :: 0 <= i < |lists| ==> ListSigned(lists[i], ids[i], items, chunks)
  }

  lemma ListStaysSigned(ps: seq<Placed>, owner: nat, items: seq<Item>, items': seq<Item>, chunks: seq<P.Chunk>,
                        chunks': seq<P.Chunk>)
    requires ListSigned(ps, owner, items, chunks) && Grown(items, items') && P.GroupsKept(chunks, chunks')
    ensures ListSigned(ps, owner, items', chunks')
  {
    hide Signed, SubItems, P.GroupsKept;
    SubItemsItself(items);
    forall i | 0 <= i < |ps|
      ensures Signed(items', chunks', ps[i].addr, owner)
    {
      SignedStays(items, items', chunks, chunks', ps[i].addr, owner);
    }
  }

  lemma ListsStaySigned(lists: seq<seq<Placed>>, ids: seq<nat>, items: seq<Item>, items': seq<Item>,
                        chunks: seq<P.Chunk>, chunks': seq<P.Chunk>)
    requires ListsSigned(lists, ids, items, chunks) && Grown(items, items') && P.GroupsKept(chunks, chunks')
    ensures ListsSigned(lists, ids, items', chunks')
  {
    hide ListSigned, Grown, P.GroupsKept;
    forall i | 0 <= i < |lists|
      ensures ListSigned(lists[i], ids[i], items', chunks')
    {
      ListStaysSigned(lists[i], ids[i], items, items', chunks, chunks');
    }
  }

  // A pass signs the blocks it adds.
  lemma PassSigns(lists: seq<seq<Placed>>, ids: seq<nat>, i: nat, s0: Snap, s: Snap)
    requires ListsSigned(lists, ids, s0.items, s0.chunks) && i < |lists| && lists[i] == s0.old' && ids[i] == s0.owner
    requires Run(s0, s) && |s0.old'| <= |s.addresses|
    ensures ListsSigned(lists[i := s.addresses], ids, s.items, s.chunks)
  {
    hide Signed, SubItems, BlocksOnly, P.AddedFrom, Among;
    P.AddedGroups(s0.chunks, s.chunks);
    ListsStaySigned(lists, ids, s0.items, s.items, s0.chunks, s.chunks);
    forall k | 0 <= k < |s.addresses|
      ensures Signed(s.items, s.chunks, s.addresses[k].addr, ids[i])
    {
      assert ListSigned(lists[i], ids[i], s.items, s.chunks);
      if k < |s0.old'| {
        assert s.addresses[k].addr == lists[i][k].addr;
      }
    }
    assert ListSigned(s.addresses, ids[i], s.items, s.chunks);
  }

  lemma StillAmong(s0: Snap, s: Snap, a: nat)
    requires Run(s0, s) && |s0.old'| <= |s.addresses| && a in s.live
    ensures a in s0.live || Among(s.addresses, a)
    ensures Among(s0.old', a) ==> Among(s.addresses, a)
  {
    hide SubItems, P.AddedFrom;
    if Among(s0.old', a) {
      var k :| 0 <= k < |s0.old'| && s0.old'[k].addr == a;
      assert s.addresses[k].addr == a;
    }
  }

  lemma OthersApart(lists: seq<seq<Placed>>, i: nat, j: nat, s0: Snap, s: Snap)
    requires Ledger(lists, s0.live) && i < |lists| && j < |lists| && i != j && lists[i] == s0.old'
    requires Run(s0, s)
    ensures Strangers(lists[j], s.addresses) && Strangers(s.addresses, lists[j]) && Standing(lists[j], s.live)
  {
    hide SubItems, P.AddedFrom;
    assert Standing(lists[j], s0.live);
    assert Strangers(lists[if i < j then i else j], lists[if i < j then j else i]);
    forall a | Among(lists[j], a)
      ensures !Among(s.addresses, a)
    {
      var l :| 0 <= l < |lists[j]| && lists[j][l].addr == a;
      assert a in s0.live;
      forall k | 0 <= k < |s.addresses|
        ensures s.addresses[k].addr != a
      {
        if k < |s0.old'| {
          assert Among(lists[i], s0.old'[k].addr);
        }
      }
    }
    forall l | 0 <= l < |lists[j]|
      ensures lists[j][l].addr in s.live && s.live[lists[j][l].addr] == lists[j][l].level
    {
      assert Among(lists[j], lists[j][l].addr);
    }
  }

  // The number of leaves a list of items takes.
  function LeavesOf(seen: seq<Item>): nat {
    |Packed(seen, Space, AREA)|
  }

  lemma LeavesGrow(seen0: seq<Item>, seen1: seq<Item>)
    requires Ascending(seen0) && Ascending(seen1) && SubItems(seen0, seen1)
    requires AllFit(Weights(seen0, Space), AREA) && AllFit(Weights(seen1, Space), AREA)
    ensures 1 <= LeavesOf(seen0) <= LeavesOf(seen1)
  {
    SubItemsIsWithin(seen0, seen1);
    FilledGrows(Weights(seen0, Space), Weights(seen1, Space), AREA);
    PackedFits(seen0, Space, AREA);
    PackedFits(seen1, Space, AREA);
  }

  // A root whose last pass saw `seen`; a root that has not been built has seen nothing.
  ghost predicate Built(r: Root, seen: seq<Item>)
    reads r
  {
    && Aligned(r.trees, r.addresses) && r.metadataSize == 0x4000 * |r.trees| && r.oldAddresses == []
    && Ascending(r.items) && Ascending(seen) && SubItems(seen, r.items) && AllFit(Weights(seen, Space), AREA)
    && if r.addresses == [] then seen == [] else Stands(r, seen)
  }

  // What was built reads back as `seen`.
  ghost predicate Stands(r: Root, seen: seq<Item>)
    reads r`trees, r`treeAddr, r`level, r`addresses
  {
    && Represents(StoreOf(r.trees), r.treeAddr, r.level, seen)
    && LevelsOf(r.addresses) == LevelList(LeavesOf(seen), 0)
    && LeavesFirst(r.trees, Packed(seen, Space, AREA))
  }

  // The key lemma of the fixpoint: a pass over more items needs at least the blocks it had, and
  // if it needed no more then every block is where and what it was.
  lemma PassSettles(s0: Snap, s: Snap, seen0: seq<Item>, seen1: seq<Item>)
    requires Run(s0, s) && Ascending(seen0) && Ascending(seen1) && SubItems(seen0, seen1)
    requires AllFit(Weights(seen0, Space), AREA) && AllFit(Weights(seen1, Space), AREA)
    requires s0.old' == [] || LevelsOf(s0.old') == LevelList(LeavesOf(seen0), 0)
    requires LevelsOf(s.addresses) == LevelList(LeavesOf(seen1), 0) && !s0.done
    ensures |s0.old'| <= |s.addresses| && s.addresses != []
    ensures !s.done ==> s0.old' != [] && s.addresses == s0.old' && Settled(s0, s)
  {
    hide Packed, SubItems, Ascending, P.AddedFrom, Represents;
    LeavesGrow(seen0, seen1);
    var m, n := LeavesOf(seen0), LeavesOf(seen1);
    LevelsGrow(m, n, 0);
    assert |LevelsOf(s.addresses)| == |s.addresses| && |LevelsOf(s0.old')| == |s0.old'|;
    if !s.done {
      assert |s.addresses| <= |s0.old'|;
      SameLevels(m, n);
      forall i | 0 <= i < |s.addresses|
        ensures s.addresses[i] == s0.old'[i]
      {
        assert LevelsOf(s.addresses)[i] == LevelsOf(s0.old')[i];
      }
    }
  }

  // Where a pass over `r` begins, once its addresses have become its old ones.
  ghost function Start(r: Root, e: Root, p: P.Planner): Snap
    reads r, e, p
  {
    Snap(e.items, e.live, [], r.addresses, false, p.FreeSet(), p.chunks, p.chunksChanged, r.id)
  }

  // One root of one round of the loop: its blocks are given back and it is built again.
  method Rebuild(r: Root, e: Root, p: P.Planner, ghost seen0: seq<Item>) returns (o: Outcome, ghost seen: seq<Item>)
    requires Sound(e, p) && Built(r, seen0) && Standing(r.addresses, e.live)
    modifies r`oldAddresses, r`addresses, r`metadataSize, r`trees, r`allocationsDone, r`treeAddr, r`level
    modifies e`items, e`live, p
    ensures o == Done ==> Sound(e, p) && Built(r, seen) && Stands(r, seen) && Standing(r.addresses, e.live)
    ensures o == Done ==> Run(old(Start(r, e, p)), r.Now(e, p)) && |old(r.addresses)| <= |r.addresses|
    ensures o == Done && !r.allocationsDone ==> Quiet(old(Start(r, e, p)), r.Now(e, p)) && seen == r.items
    ensures o == Done && r.allocationsDone ==> p.FreeSet() < old(p.FreeSet())
    ensures o == TooLarge ==> old(Oversized(r.items))
    ensures o == NoSpace ==> p.Exhausted(r.id == 3)
    ensures o != DuplicateKey
  {
    hide Ledger, Books, Owned, P.Accounted, P.Counted, P.EvenLists, SubItems, Packed, Represents, Standing, Run;
    hide Covered, Settled, P.AddedFrom, Oversized, BlocksOnly, Stands, Built, Quiet, P.WasGiven, Aligned, StoreOf;
    hide LeavesFirst;
    ghost var s0, first := Start(r, e, p), r.items;
    BuiltFacts(r, seen0);
    r.oldAddresses := r.addresses;
    r.addresses := [];
    r.metadataSize := r.metadataSize - |r.trees| * 0x4000;
    r.trees := [];
    r.allocationsDone := false;
    o, seen := CreateTrees(r, e, p);
    if o == Done {
      StandsNow(r, seen);
      Rebuilt(r, e, p, s0, first, seen0, seen);
    }
  }

  lemma StandsNow(r: Root, seen: seq<Item>)
    requires Represents(StoreOf(r.trees), r.treeAddr, r.level, seen)
    requires LevelsOf(r.addresses) == LevelList(LeavesOf(seen), 0)
    requires LeavesFirst(r.trees, Packed(seen, Space, AREA))
    ensures Stands(r, seen)
  {
  }

  lemma BuiltFacts(r: Root, seen: seq<Item>)
    requires Built(r, seen)
    ensures r.metadataSize == 0x4000 * |r.trees| && Ascending(r.items) && SubItems(seen, r.items)
    ensures Ascending(seen) && AllFit(Weights(seen, Space), AREA)
    ensures r.addresses == [] || LevelsOf(r.addresses) == LevelList(LeavesOf(seen), 0)
  {
  }

  // What a pass that began where `seen0` had been built comes to.
  lemma Rebuilt(r: Root, e: Root, p: P.Planner, s0: Snap, first: seq<Item>, seen0: seq<Item>, seen: seq<Item>)
    requires r.Base(e, p, s0, 0) && Covered(first, r.items, seen, r != e || Settled(s0, r.Now(e, p)))
    requires (r != e ==> Ascending(r.items)) && Stands(r, seen) && s0.addresses == [] && !s0.done
    requires SubItems(seen0, first) && Ascending(seen0) && AllFit(Weights(seen0, Space), AREA)
    requires s0.old' == [] || LevelsOf(s0.old') == LevelList(LeavesOf(seen0), 0)
    ensures Sound(e, p) && Built(r, seen) && Standing(r.addresses, e.live)
    ensures Run(s0, r.Now(e, p)) && |s0.old'| <= |r.addresses|
    ensures !r.allocationsDone ==> Quiet(s0, r.Now(e, p)) && seen == r.items
    ensures r.allocationsDone ==> p.FreeSet() < s0.free
  {
    hide Sound, SubItems, Packed, Represents, Standing, Run, Covered, Settled, P.AddedFrom, Oversized, BlocksOnly;
    BaseFacts(r, e, p, s0, 0);
    CoveredFacts(first, r.items, seen, r != e || Settled(s0, r.Now(e, p)));
    SubItemsTransitive(seen0, first, seen);
    PassSettles(s0, r.Now(e, p), seen0, seen);
    RunFacts(s0, r.Now(e, p));
    assert r.addresses + r.oldAddresses == r.addresses;
  }

  // Nothing was moved and nothing was taken.
  ghost predicate Quiet(s: Snap, t: Snap) {
    SameBooks(s, t) && SamePlan(s, t)
  }

  lemma BaseFacts(r: Root, e: Root, p: P.Planner, s0: Snap, m0: int)
    requires r.Base(e, p, s0, m0)
    ensures Sound(e, p) && Standing(r.addresses + r.oldAddresses, e.live) && Run(s0, r.Now(e, p))
    ensures Aligned(r.trees, r.addresses) && r.metadataSize == m0 + 0x4000 * |r.trees|
    ensures Ascending(e.items)
  {
  }

  lemma CoveredFacts(first: seq<Item>, items: seq<Item>, seen: seq<Item>, settled: bool)
    requires Covered(first, items, seen, settled)
    ensures Ascending(seen) && SubItems(first, seen) && SubItems(seen, items) && AllFit(Weights(seen, Space), AREA)
    ensures settled ==> seen == first == items
  {
  }

  lemma RunFacts(s0: Snap, s: Snap)
    requires Run(s0, s)
    ensures |s0.old'| <= |s.addresses| ==> s.old' == []
    ensures !s.done ==> SamePlan(s0, s)
    ensures s.done && !s0.done ==> s.free < s0.free
    ensures Settled(s0, s) ==> SameBooks(s0, s)
    ensures SubItems(s0.items, s.items) && BlocksOnly(s0.items, s.items) && P.AddedFrom(s0.chunks, s.chunks)
  {
  }

  ghost predicate Filing(chunks: seq<P.Chunk>, e: seq<Item>, ch: seq<Item>, d: seq<Item>) {
    forall c :: c in chunks && c.added ==> Filed(c, e, ch, d)
  }

  lemma FilingKept(chunks: seq<P.Chunk>, chunks': seq<P.Chunk>, e: seq<Item>, e': seq<Item>, ch: seq<Item>,
                   ch': seq<Item>,
                   d: seq<Item>, d': seq<Item>)
    requires Filing(chunks, e, ch, d) && P.AddedFrom(chunks, chunks')
    requires Lasting(e, e') && Lasting(ch, ch') && Lasting(d, d')
    ensures Filing(chunks', e', ch', d')
  {
    hide Filed, Lasting;
    forall c | c in chunks' && c.added
      ensures Filed(c, e', ch', d')
    {
      var b :| b in chunks && b.added && P.SameGroup(b, c);
      FiledStays(b, c, e, e', ch, ch', d, d');
    }
  }

  predicate HasKind(items: seq<Item>, kind: nat) {
    exists i :: 0 <= i < |items| && items[i].key.kind == kind
  }

  // No chunk has been described yet.
  predicate NoneDescribed(e: seq<Item>, ch: seq<Item>, d: seq<Item>) {
    !HasKind(e, BLOCK_GROUP_ITEM) && !HasKind(ch, CHUNK_ITEM) && !HasKind(d, DEV_EXTENT)
  }

  predicate IsGroup(chunks: seq<P.Chunk>, k: Key) {
    exists c :: c in chunks && c.added && GroupKey(c) == k
  }

  predicate IsChunk(chunks: seq<P.Chunk>, k: Key) {
    exists c :: c in chunks && c.added && ChunkKey(c) == k
  }

  predicate IsDev(chunks: seq<P.Chunk>, k: Key) {
    exists c :: c in chunks && c.added && DevKey(c) == k
  }

  // The trees describe no chunks but those that have been added.
  ghost predicate NoOthers(chunks: seq<P.Chunk>, e: seq<Item>, ch: seq<Item>, d: seq<Item>) {
    && (forall k: Key :: k.kind == BLOCK_GROUP_ITEM && HasKey(e, k) ==> IsGroup(chunks, k))
    && (forall k: Key :: k.kind == CHUNK_ITEM && HasKey(ch, k) ==> IsChunk(chunks, k))
    && (forall k: Key :: k.kind == DEV_EXTENT && HasKey(d, k) ==> IsDev(chunks, k))
  }

  // And none of those is empty, so that no two have a key in common.
  ghost predicate Tidy(chunks: seq<P.Chunk>, e: seq<Item>, ch: seq<Item>, d: seq<Item>) {
    P.NoneEmpty(chunks) && NoOthers(chunks, e, ch, d)
  }

  lemma NoneAtFirst(chunks: seq<P.Chunk>, e: seq<Item>, ch: seq<Item>, d: seq<Item>)
    requires NoneDescribed(e, ch, d)
    ensures NoOthers(chunks, e, ch, d)
  {
  }

  lemma SameGroupSameKeys(chunks: seq<P.Chunk>, chunks': seq<P.Chunk>, k: Key)
    requires forall c :: c in chunks && c.added ==> P.HasAdded(chunks', c)
    ensures IsGroup(chunks, k) ==> IsGroup(chunks', k)
    ensures IsChunk(chunks, k) ==> IsChunk(chunks', k)
    ensures IsDev(chunks, k) ==> IsDev(chunks', k)
  {
    if c :| c in chunks && c.added && GroupKey(c) == k {
      var x :| x in chunks' && x.added && P.SameGroup(x, c);
      assert GroupKey(x) == k;
    }
    if c :| c in chunks && c.added && ChunkKey(c) == k {
      var x :| x in chunks' && x.added && P.SameGroup(x, c);
      assert ChunkKey(x) == k;
    }
    if c :| c in chunks && c.added && DevKey(c) == k {
      var x :| x in chunks' && x.added && P.SameGroup(x, c);
      assert DevKey(x) == k;
    }
  }

  lemma OthersKept(chunks: seq<P.Chunk>, chunks': seq<P.Chunk>, e: seq<Item>, e': seq<Item>, ch: seq<Item>,
                   d: seq<Item>)
    requires NoOthers(chunks, e, ch, d) && P.AddedFrom(chunks, chunks') && BlocksOnly(e, e')
    ensures NoOthers(chunks', e', ch, d) && (P.NoneEmpty(chunks) ==> P.NoneEmpty(chunks'))
  {
    hide HasKey, IsGroup, IsChunk, IsDev, Oversized, Lasting;
    LastingKeys(e', e);
    forall k: Key
      ensures IsGroup(chunks, k) ==> IsGroup(chunks', k)
      ensures IsChunk(chunks, k) ==> IsChunk(chunks', k)
      ensures IsDev(chunks, k) ==> IsDev(chunks', k)
    {
      SameGroupSameKeys(chunks, chunks', k);
    }
  }

  // A chunk that has not been added has keys of its own.
  lemma ChunkIsNew(chunks: seq<P.Chunk>, spaces: seq<P.SpaceList.Space>, limit: nat, i: nat,
                   e: seq<Item>, ch: seq<Item>, d: seq<Item>)
    requires P.Consistent(chunks, spaces, limit) && Tidy(chunks, e, ch, d) && i < |chunks| && !chunks[i].added
    ensures !HasKey(e, GroupKey(chunks[i])) && !HasKey(ch, ChunkKey(chunks[i])) && !HasKey(d, DevKey(chunks[i]))
  {
    hide HasKey;
    forall c | c in chunks && c.added
      ensures c.offset != chunks[i].offset && c.diskStart != chunks[i].diskStart
    {
      var j :| 0 <= j < |chunks| && chunks[j] == c;
      assert P.Apart(chunks[if i < j then i else j], chunks[if i < j then j else i]);
      assert chunks[i] in chunks && chunks[i].Valid() && c.Valid();
    }
  }

  lemma OthersNext(chunks: seq<P.Chunk>, i: nat, e: seq<Item>, e': seq<Item>, ch: seq<Item>, ch': seq<Item>,
                 d: seq<Item>, d': seq<Item>)
    requires NoOthers(chunks, e, ch, d) && i < |chunks|
    requires forall k: Key :: HasKey(e', k) <==> HasKey(e, k) || k == GroupKey(chunks[i])
    requires forall k: Key :: HasKey(ch', k) <==> HasKey(ch, k) || k == ChunkKey(chunks[i])
    requires forall k: Key :: HasKey(d', k) <==> HasKey(d, k) || k == DevKey(chunks[i])
    ensures NoOthers(chunks[i := chunks[i].(added := true)], e', ch', d')
  {
    hide HasKey, IsGroup, IsChunk, IsDev;
    var chunks' := chunks[i := chunks[i].(added := true)];
    forall c | c in chunks && c.added
      ensures P.HasAdded(chunks', c)
    {
      var j :| 0 <= j < |chunks| && chunks[j] == c;
      assert chunks'[j].added && P.SameGroup(chunks'[j], c) && chunks'[j] in chunks';
    }
    forall k: Key
      ensures IsGroup(chunks, k) ==> IsGroup(chunks', k)
      ensures IsChunk(chunks, k) ==> IsChunk(chunks', k)
      ensures IsDev(chunks, k) ==> IsDev(chunks', k)
    {
      SameGroupSameKeys(chunks, chunks', k);
    }
    NowAdded(chunks', i);
  }

  lemma NowAdded(chunks: seq<P.Chunk>, i: nat)
    requires i < |chunks| && chunks[i].added
    ensures IsGroup(chunks, GroupKey(chunks[i])) && IsChunk(chunks, ChunkKey(chunks[i]))
    ensures IsDev(chunks, DevKey(chunks[i]))
  {
    assert chunks[i] in chunks;
  }

  // An item that is not about a block leaves the books alone.
  lemma BooksOther(items: seq<Item>, live: map<nat, nat>, x: Item)
    requires Books(items, live) && x.key.kind != METADATA_ITEM && !HasKey(items, x.key)
    ensures Books(Inserted(items, x), live) && SubItems(items, Inserted(items, x))
  {
    PlainInsert(items, x);
    InsertedIsMore(items, x);
    forall a, l
      ensures HasKey(Inserted(items, x), MetaKey(a, l)) <==> a in live && live[a] == l
    {
      InsertedKeys(items, x, MetaKey(a, l));
      assert HasKey(items, MetaKey(a, l)) <==> a in live && live[a] == l;
    }
  }

  lemma PlainInsert(items: seq<Item>, x: Item)
    requires Ascending(items) && x.key.kind != METADATA_ITEM && !HasKey(items, x.key)
    ensures Ascending(Inserted(items, x)) && HasKey(Inserted(items, x), x.key) && SubItems(items, Inserted(items, x))
  {
    if HasSlot(items, x.key) {
      PlainSlot(items, x.key);
    }
    InsertedIsAscending(items, x);
    InsertedIsMore(items, x);
  }

  // Adding one item that is not about a block.
  method AddPlain(r: Root, x: Item) returns (ok: bool)
    requires Ascending(r.items) && x.key.kind != METADATA_ITEM
    modifies r`items
    ensures ok <==> !old(HasKey(r.items, x.key))
    ensures ok ==> r.items == Inserted(old(r.items), x)
    ensures ok ==> Ascending(r.items) && HasKey(r.items, x.key) && SubItems(old(r.items), r.items)
  {
    if HasSlot(r.items, x.key) {
      PlainSlot(r.items, x.key);
    }
    ghost var before := r.items;
    ok := r.AddItem(x);
    if ok {
      PlainInsert(before, x);
    }
  }

  // One small item was added, with this key.
  ghost predicate With(items: seq<Item>, items': seq<Item>, k: Key) {
    && (forall j: Key :: HasKey(items', j) <==> HasKey(items, j) || j == k)
    && (Oversized(items') ==> Oversized(items)) && Lasting(items, items') && Spared(items, items', k.kind)
  }

  lemma InsertedWith(items: seq<Item>, x: Item)
    requires Space(x) <= AREA
    ensures With(items, Inserted(items, x), x.key)
  {
    hide HasKey, Inserted;
    InsertedFits(items, x);
    InsertedLasts(items, x);
    forall j: Key
      ensures HasKey(Inserted(items, x), j) <==> HasKey(items, j) || j == x.key
    {
      InsertedKeys(items, x, j);
    }
  }

  // `add_chunk`.
  method AddChunk(k: P.Chunk, e: Root, c: Root, d: Root, devUuid: Bytes, chunkUuid: Bytes) returns (ok: bool)
    requires e != c && e != d && c != d
    requires Books(e.items, e.live) && Ascending(c.items) && Ascending(d.items) && |devUuid| == 16 && |chunkUuid| == 16
    requires Worded(k)
    modifies e`items, c`items, d`items
    ensures ok <==> !old(HasKey(c.items, ChunkKey(k)) || HasKey(d.items, DevKey(k)) || HasKey(e.items, GroupKey(k)))
    ensures ok ==> With(old(e.items), e.items, GroupKey(k)) && With(old(c.items), c.items, ChunkKey(k))
    ensures ok ==> With(old(d.items), d.items, DevKey(k))
    ensures ok ==> Books(e.items, e.live) && Ascending(c.items) && Ascending(d.items)
    ensures ok ==> SubItems(old(e.items), e.items) && SubItems(old(c.items), c.items) && SubItems(old(d.items), d.items)
    ensures ok ==> Filed(k, e.items, c.items, d.items)
  {
    hide Books, SubItems, HasKey, Inserted, Ascending, With, Lasting, IsChunkItem, IsDevItem, IsGroupItem;
    hide ChunkData, DevData, GroupData;
    ghost var items := e.items;
    ChunkIsSaid(k, devUuid);
    DevIsSaid(k, chunkUuid);
    GroupIsSaid(k);
    InsertedLasts(c.items, Item(ChunkKey(k), ChunkData(k, devUuid)));
    InsertedLasts(d.items, Item(DevKey(k), DevData(k, chunkUuid)));
    InsertedLasts(e.items, Item(GroupKey(k), GroupData(k)));
    InsertedWith(c.items, Item(ChunkKey(k), ChunkData(k, devUuid)));
    InsertedWith(d.items, Item(DevKey(k), DevData(k, chunkUuid)));
    InsertedWith(e.items, Item(GroupKey(k), GroupData(k)));
    BooksAscending(e.items, e.live);
    ok := AddPlain(c, Item(ChunkKey(k), ChunkData(k, devUuid)));
    if ok {
      ok := AddPlain(d, Item(DevKey(k), DevData(k, chunkUuid)));
    }
    if ok {
      ok := AddPlain(e, Item(GroupKey(k), GroupData(k)));
    }
    if ok {
      BooksOther(items, e.live, Item(GroupKey(k), GroupData(k)));
    }
  }

  lemma BooksAscending(items: seq<Item>, live: map<nat, nat>)
    requires Books(items, live)
    ensures Ascending(items)
  {
  }

  // The first part of a round: every chunk the trees do not describe yet is added to them.
  method AddChunks(e: Root, c: Root, d: Root, p: P.Planner, devUuid: Bytes, chunkUuid: Bytes) returns (ok: bool)
    requires e != c && e != d && c != d && Sound(e, p) && Ascending(c.items) && Ascending(d.items)
    requires Filing(p.chunks, e.items, c.items, d.items) && |devUuid| == 16 && |chunkUuid| == 16
    modifies e`items, c`items, d`items, p`chunks
    ensures old(Tidy(p.chunks, e.items, c.items, d.items)) ==> ok && Tidy(p.chunks, e.items, c.items, d.items)
    ensures ok && old(NoOthers(p.chunks, e.items, c.items, d.items)) ==> NoOthers(p.chunks, e.items, c.items, d.items)
    ensures ok ==> Sized(old(e.items), e.items) && Sized(old(c.items), c.items) && Sized(old(d.items), d.items)
    ensures ok ==> Sound(e, p) && Ascending(c.items) && Ascending(d.items) && p.FreeSet() == old(p.FreeSet())
    ensures ok ==> Grown(old(e.items), e.items) && Grown(old(c.items), c.items) && Grown(old(d.items), d.items)
    ensures ok ==> AllSpared(old(e.items), e.items, old(c.items), c.items, old(d.items), d.items)
    ensures ok ==> (forall k :: k in p.chunks ==> k.added) && Filing(p.chunks, e.items, c.items, d.items)
    ensures P.GroupsKept(old(p.chunks), p.chunks)
  {
    hide Books, SubItems, Ascending, Filed, P.Accounted, P.Counted, P.EvenLists, Grown, Tidy, Oversized, With;
    hide P.GroupsKept, Lasting, NoOthers, AllSpared;
    AllSparedOn(e.items, e.items, e.items, c.items, c.items, c.items, d.items, d.items, d.items);
    P.GroupsKeptSelf(p.chunks);
    GrownSame(e.items);
    GrownSame(c.items);
    GrownSame(d.items);
    var i: nat := 0;
    ok := true;
    while i < |p.chunks|
      invariant i <= |p.chunks| && Sound(e, p) && Ascending(c.items) && Ascending(d.items)
      invariant p.FreeSet() == old(p.FreeSet())
      invariant old(Tidy(p.chunks, e.items, c.items, d.items)) ==> ok && Tidy(p.chunks, e.items, c.items, d.items)
      invariant old(NoOthers(p.chunks, e.items, c.items, d.items)) ==> NoOthers(p.chunks, e.items, c.items, d.items)
      invariant Sized(old(e.items), e.items) && Sized(old(c.items), c.items) && Sized(old(d.items), d.items)
      invariant Grown(old(e.items), e.items) && Grown(old(c.items), c.items) && Grown(old(d.items), d.items)
      invariant AllSpared(old(e.items), e.items, old(c.items), c.items, old(d.items), d.items)
      invariant (forall j :: 0 <= j < i ==> p.chunks[j].added) && Filing(p.chunks, e.items, c.items, d.items)
      invariant P.GroupsKept(old(p.chunks), p.chunks)
    {
      if !p.chunks[i].added {
        ghost var ei, ci, di := e.items, c.items, d.items;
        if Tidy(p.chunks, e.items, c.items, d.items) {
          PlannerIsConsistent(p);
          ChunkIsNew(p.chunks, p.spaces, p.limit, i, ei, ci, di);
        }
        ChunkIsWorded(p, i);
        ok := AddChunk(p.chunks[i], e, c, d, devUuid, chunkUuid);
        if !ok {
          return;
        }
        WithIsTidy(p.chunks, i, ei, e.items, ci, c.items, di, d.items);
        AllSparedOn(old(e.items), ei, e.items, old(c.items), ci, c.items, old(d.items), di, d.items);
        GrownOn(old(e.items), ei, e.items);
        GrownOn(old(c.items), ci, c.items);
        GrownOn(old(d.items), di, d.items);
        FilingNext(p.chunks, i, ei, e.items, ci, c.items, di, d.items);
        P.MarkedGroups(old(p.chunks), p.chunks, i);
        p.MarkAdded(i);
      }
      i := i + 1;
    }
  }

  lemma ChunkIsWorded(p: P.Planner, i: nat)
    requires p.Valid() && i < |p.chunks|
    ensures Worded(p.chunks[i])
  {
    P.AccountedChunk(p.chunks, p.spaces, p.limit, p.initial, p.given, i);
  }

  predicate Sized(items: seq<Item>, items': seq<Item>) {
    Oversized(items') ==> Oversized(items)
  }

  lemma PlannerIsConsistent(p: P.Planner)
    requires p.Valid()
    ensures P.Consistent(p.chunks, p.spaces, p.limit)
  {
  }

  // Nothing but the items of blocks and of chunks was added to the three trees, or moved in them.
  ghost predicate AllSpared(e: seq<Item>, e': seq<Item>, ch: seq<Item>, ch': seq<Item>, d: seq<Item>, d': seq<Item>) {
    Spared(e, e', BLOCK_GROUP_ITEM) && Spared(ch, ch', CHUNK_ITEM) && Spared(d, d', DEV_EXTENT)
  }

  lemma AllSparedOn(e: seq<Item>, e': seq<Item>, e'': seq<Item>, ch: seq<Item>, ch': seq<Item>, ch'': seq<Item>,
                    d: seq<Item>, d': seq<Item>, d'': seq<Item>)
    ensures AllSpared(e, e, ch, ch, d, d)
    ensures AllSpared(e, e', ch, ch', d, d') && AllSpared(e', e'', ch', ch'', d', d'') ==>
      AllSpared(e, e'', ch, ch'', d, d'')
  {
    hide Spared;
    SparedOn(e, e', e'', BLOCK_GROUP_ITEM);
    SparedOn(ch, ch', ch'', CHUNK_ITEM);
    SparedOn(d, d', d'', DEV_EXTENT);
  }

  lemma WithIsTidy(chunks: seq<P.Chunk>, i: nat, e: seq<Item>, e': seq<Item>, ch: seq<Item>, ch': seq<Item>,
                   d: seq<Item>, d': seq<Item>)
    requires i < |chunks|
    requires With(e, e', GroupKey(chunks[i])) && With(ch, ch', ChunkKey(chunks[i])) && With(d, d', DevKey(chunks[i]))
    ensures NoOthers(chunks, e, ch, d) ==> NoOthers(chunks[i := chunks[i].(added := true)], e', ch', d')
    ensures Tidy(chunks, e, ch, d) ==> Tidy(chunks[i := chunks[i].(added := true)], e', ch', d')
    ensures Sized(e, e') && Sized(ch, ch') && Sized(d, d') && Lasting(e, e') && Lasting(ch, ch') && Lasting(d, d')
    ensures AllSpared(e, e', ch, ch', d, d')
  {
    hide HasKey, NoOthers, Oversized, Lasting, Spared;
    if NoOthers(chunks, e, ch, d) {
      OthersNext(chunks, i, e, e', ch, ch', d, d');
    }
    assert chunks[i] in chunks;
  }

  lemma GrownOn(a: seq<Item>, b: seq<Item>, c: seq<Item>)
    requires Grown(a, b) && SubItems(b, c)
    ensures Grown(a, c) && Grown(b, c)
  {
    if a != b {
      SubItemsTransitive(a, b, c);
    }
  }

  lemma FilingNext(chunks: seq<P.Chunk>, i: nat, e: seq<Item>, e': seq<Item>, ch: seq<Item>, ch': seq<Item>,
                   d: seq<Item>, d': seq<Item>)
    requires Filing(chunks, e, ch, d) && i < |chunks| && Filed(chunks[i], e', ch', d')
    requires Lasting(e, e') && Lasting(ch, ch') && Lasting(d, d')
    ensures Filing(chunks[i := chunks[i].(added := true)], e', ch', d')
  {
    hide Lasting, Filed;
    P.AddedFromItself(chunks);
    FilingKept(chunks, chunks, e, e', ch, ch', d, d');
    forall c | c in chunks[i := chunks[i].(added := true)] && c.added
      ensures Filed(c, e', ch', d')
    {
      if c !in chunks {
        assert c == chunks[i].(added := true);
        LastsItself(e');
        LastsItself(ch');
        LastsItself(d');
        FiledStays(chunks[i], c, e', e', ch', ch', d', d');
      }
    }
  }

  // An item about a chunk has the key of one, and there is but one item with that key.
  lemma OnlyTheseNow(chunks: seq<P.Chunk>, e: seq<Item>, ch: seq<Item>, d: seq<Item>)
    requires NoOthers(chunks, e, ch, d) && forall c :: c in chunks ==> Filed(c, e, ch, d)
    requires Ascending(e) && Ascending(ch) && Ascending(d)
    ensures OnlyThese(chunks, e, ch, d)
  {
    hide Ascending, Filed, IsGroup, IsChunk, IsDev, ChunkIsIn, DevIsIn, GroupIsIn;
    forall x | x in ch && x.key.kind == CHUNK_ITEM
      ensures ChunkIsIn(x, chunks)
    {
      HasItsKey(ch, x);
      ChunkIsFound(chunks, e, ch, d, x);
    }
    forall x | x in d && x.key.kind == DEV_EXTENT
      ensures DevIsIn(x, chunks)
    {
      HasItsKey(d, x);
      DevIsFound(chunks, e, ch, d, x);
    }
    forall x | x in e && x.key.kind == BLOCK_GROUP_ITEM
      ensures GroupIsIn(x, chunks)
    {
      HasItsKey(e, x);
      GroupIsFound(chunks, e, ch, d, x);
    }
  }

  lemma ChunkIsFound(chunks: seq<P.Chunk>, e: seq<Item>, ch: seq<Item>, d: seq<Item>, x: Item)
    requires IsChunk(chunks, x.key) && Ascending(ch) && x in ch && forall c :: c in chunks ==> Filed(c, e, ch, d)
    ensures ChunkIsIn(x, chunks)
  {
    hide Ascending, SaysChunk;
    var c :| c in chunks && c.added && ChunkKey(c) == x.key;
    assert Filed(c, e, ch, d);
    var y :| y in ch && IsChunkItem(y, c);
    SameKeySameItem(ch, x, y);
  }

  lemma DevIsFound(chunks: seq<P.Chunk>, e: seq<Item>, ch: seq<Item>, d: seq<Item>, x: Item)
    requires IsDev(chunks, x.key) && Ascending(d) && x in d && forall c :: c in chunks ==> Filed(c, e, ch, d)
    ensures DevIsIn(x, chunks)
  {
    hide Ascending, SaysDev;
    var c :| c in chunks && c.added && DevKey(c) == x.key;
    assert Filed(c, e, ch, d);
    var y :| y in d && IsDevItem(y, c);
    SameKeySameItem(d, x, y);
  }

  lemma GroupIsFound(chunks: seq<P.Chunk>, e: seq<Item>, ch: seq<Item>, d: seq<Item>, x: Item)
    requires IsGroup(chunks, x.key) && Ascending(e) && x in e && forall c :: c in chunks ==> Filed(c, e, ch, d)
    ensures GroupIsIn(x, chunks)
  {
    hide Ascending, SaysGroup;
    var c :| c in chunks && c.added && GroupKey(c) == x.key;
    assert Filed(c, e, ch, d);
    var y :| y in e && IsGroupItem(y, c);
    SameKeySameItem(e, x, y);
  }

  lemma HasItsKey(items: seq<Item>, x: Item)
    requires x in items
    ensures HasKey(items, x.key)
  {
  }
}
