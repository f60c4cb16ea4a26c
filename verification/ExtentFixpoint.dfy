/**
 * The loop of `convert` that builds the extent, chunk and device trees until they account for
 * their own blocks, and what holds of all the trees when it ends.
 */
module ExtentFixpoint {
  import opened ChunkItems
  import opened Packing
  import opened TreeItems
  import opened TreeBlock
  import opened TreeWalk
  import opened TreeBooks
  import opened TreeBuilder
  import opened TreeNodes
  import opened ExtentTrees
  import P = ChunkAllocator

  ghost function Lists(rs: seq<Root>): (ls: seq<seq<Placed>>)
    reads rs
    ensures |ls| == |rs| && forall i :: 0 <= i < |rs| ==> ls[i] == rs[i].addresses
    decreases |rs|
  {
    if rs == [] then [] else Lists(rs[..|rs| - 1]) + [rs[|rs| - 1].addresses]
  }

  ghost function Ids(rs: seq<Root>): (ids: seq<nat>)
    ensures |ids| == |rs| && forall i :: 0 <= i < |rs| ==> ids[i] == rs[i].id
    decreases |rs|
  {
    if rs == [] then [] else Ids(rs[..|rs| - 1]) + [rs[|rs| - 1].id]
  }

  predicate AllDistinct(rs: seq<Root>) {
    forall i, j :: 0 <= i < j < |rs| ==> rs[i] != rs[j]
  }

  // The roots of a conversion: the extent, chunk and device roots come last.
  predicate RootsOf(rs: seq<Root>, e: Root, c: Root, d: Root) {
    AllDistinct(rs) && 3 <= |rs| && rs[|rs| - 3] == e && rs[|rs| - 2] == c && rs[|rs| - 1] == d
  }

  // Between two rounds.
  ghost predicate Between(rs: seq<Root>, e: Root, c: Root, d: Root, p: P.Planner,
                          se: seq<Item>, sc: seq<Item>, sd: seq<Item>)
    reads rs, e, c, d, p
  {
    && RootsOf(rs, e, c, d) && Sound(e, p) && Ledger(Lists(rs), e.live)
    && Built(e, se) && Built(c, sc) && Built(d, sd)
    && Filing(p.chunks, e.items, c.items, d.items)
    && ListsSigned(Lists(rs), Ids(rs), e.items, p.chunks)
  }

  // Rebuilding root `i` keeps the ledger.
  method RebuildOne(ghost rs: seq<Root>, ghost i: nat, r: Root, e: Root, p: P.Planner, ghost seen0: seq<Item>)
    returns (o: Outcome, ghost seen: seq<Item>)
    requires AllDistinct(rs) && i < |rs| && rs[i] == r && Sound(e, p) && Built(r, seen0) && Ledger(Lists(rs), e.live)
    requires ListsSigned(Lists(rs), Ids(rs), e.items, p.chunks)
    modifies r`oldAddresses, r`addresses, r`metadataSize, r`trees, r`allocationsDone
    modifies r`treeAddr, r`level, e`items, e`live, p
    ensures o == Done ==> Sound(e, p) && Built(r, seen) && Stands(r, seen) && Ledger(Lists(rs), e.live)
    ensures o == Done ==> ListsSigned(Lists(rs), Ids(rs), e.items, p.chunks)
    ensures o == Done ==> Grown(old(e.items), e.items) && P.AddedFrom(old(p.chunks), p.chunks)
    ensures o == Done && !r.allocationsDone ==> e.items == old(e.items) && seen == r.items
    ensures o == Done && !r.allocationsDone ==> p.FreeSet() == old(p.FreeSet()) && p.chunks == old(p.chunks)
    ensures o == Done && !r.allocationsDone ==> p.chunksChanged == old(p.chunksChanged)
    ensures o == Done && r.allocationsDone ==> p.FreeSet() < old(p.FreeSet())
    ensures o == Done ==> BlocksOnly(old(e.items), e.items)
    ensures o == TooLarge ==> old(Oversized(r.items))
    ensures o == NoSpace ==> p.Exhausted(r.id == 3)
    ensures o != DuplicateKey
  {
    hide Sound, Built, Stands, Ledger, Run, SubItems, P.AddedFrom, Standing, Oversized, BlocksOnly, ListsSigned;
    hide Lists, Ids;
    ghost var lists, s0 := Lists(rs), Start(r, e, p);
    LedgerStanding(lists, e.live, i);
    o, seen := Rebuild(r, e, p, seen0);
    if o == Done {
      PassKeepsLedger(lists, i, s0, r.Now(e, p));
      PassSigns(lists, Ids(rs), i, s0, r.Now(e, p));
      assert Lists(rs) == lists[i := r.addresses];
      RunFacts(s0, r.Now(e, p));
    }
  }

  lemma LedgerStanding(lists: seq<seq<Placed>>, live: map<nat, nat>, i: nat)
    requires Ledger(lists, live) && i < |lists|
    ensures Standing(lists[i], live)
  {
  }

  // Items were added to, or moved in, the root's map since it was built.
  lemma StillBuilt(items: seq<Item>, items': seq<Item>, seen: seq<Item>)
    requires SubItems(seen, items) && Grown(items, items')
    ensures SubItems(seen, items')
  {
    if items != items' {
      SubItemsTransitive(seen, items, items');
    }
  }

  // The chunks and the items of the three roots.
  datatype View = View(chunks: seq<P.Chunk>, e: seq<Item>, c: seq<Item>, d: seq<Item>)

  ghost function Now(e: Root, c: Root, d: Root, p: P.Planner): View
    reads e`items, c`items, d`items, p`chunks
  {
    View(p.chunks, e.items, c.items, d.items)
  }

  predicate AnyOversized(v: View) {
    Oversized(v.e) || Oversized(v.c) || Oversized(v.d)
  }

  ghost predicate InOrder(v: View) {
    Tidy(v.chunks, v.e, v.c, v.d)
  }

  // What building leaves as it was, or no worse.
  ghost predicate Since(v: View, w: View) {
    && P.GroupsKept(v.chunks, w.chunks) && AllSpared(v.e, w.e, v.c, w.c, v.d, w.d)
    && (InOrder(v) ==> InOrder(w)) && (AnyOversized(w) ==> AnyOversized(v))
    && (NoOthers(v.chunks, v.e, v.c, v.d) ==> NoOthers(w.chunks, w.e, w.c, w.d))
  }

  lemma SinceSelf(v: View)
    ensures Since(v, v)
  {
    hide Tidy, NoOthers, AllSpared, P.GroupsKept, Oversized;
    P.GroupsKeptSelf(v.chunks);
    AllSparedOn(v.e, v.e, v.e, v.c, v.c, v.c, v.d, v.d, v.d);
  }

  lemma SinceOn(u: View, v: View, w: View)
    requires Since(u, v) && Since(v, w)
    ensures Since(u, w)
  {
    hide Tidy, NoOthers, AllSpared, P.GroupsKept, Oversized;
    P.GroupsKeptOn(u.chunks, v.chunks, w.chunks);
    AllSparedOn(u.e, v.e, w.e, u.c, v.c, w.c, u.d, v.d, w.d);
  }

  lemma SinceFacts(v: View, w: View)
    requires Since(v, w)
    ensures P.GroupsKept(v.chunks, w.chunks) && AllSpared(v.e, w.e, v.c, w.c, v.d, w.d)
    ensures (InOrder(v) ==> InOrder(w)) && (AnyOversized(w) ==> AnyOversized(v))
    ensures NoOthers(v.chunks, v.e, v.c, v.d) ==> NoOthers(w.chunks, w.e, w.c, w.d)
  {
    hide Tidy, NoOthers, AllSpared, P.GroupsKept, Oversized;
  }

  // The first part of a round: chunks not yet described are added.
  method Describe(ghost rs: seq<Root>, e: Root, c: Root, d: Root, p: P.Planner, devUuid: Bytes, chunkUuid: Bytes,
                  ghost se: seq<Item>, ghost sc: seq<Item>, ghost sd: seq<Item>)
    returns (ok: bool)
    requires Between(rs, e, c, d, p, se, sc, sd) && |devUuid| == 16 && |chunkUuid| == 16
    modifies e`items, c`items, d`items, p`chunks, p`chunksChanged
    ensures old(InOrder(Now(e, c, d, p))) ==> ok
    ensures ok ==> Since(old(Now(e, c, d, p)), Now(e, c, d, p))
    ensures ok ==> Between(rs, e, c, d, p, se, sc, sd) && p.FreeSet() == old(p.FreeSet()) && !p.chunksChanged
    ensures ok ==> forall k :: k in p.chunks ==> k.added
  {
    hide Ledger, Stands, Filing, Represents, Books, P.Accounted, P.Counted, P.EvenLists, SubItems, Grown, Ascending;
    hide Tidy, NoOthers, Oversized, P.GroupsKept, AllSpared, ListsSigned, Ids;
    ghost var ei, ci, di, lists, chunks := e.items, c.items, d.items, Lists(rs), p.chunks;
    p.ClearChanged();
    ok := AddChunks(e, c, d, p, devUuid, chunkUuid);
    if ok {
      StillBuilt(ei, e.items, se);
      StillBuilt(ci, c.items, sc);
      StillBuilt(di, d.items, sd);
      BooksAscending(e.items, e.live);
      assert Lists(rs) == lists;
      ListsStaySigned(lists, Ids(rs), ei, e.items, chunks, p.chunks);
    }
  }

  // Rebuilding one of the three keeps what holds between rounds.
  method RebuildIn(ghost rs: seq<Root>, r: Root, e: Root, c: Root, d: Root, p: P.Planner,
                   ghost se0: seq<Item>, ghost sc0: seq<Item>, ghost sd0: seq<Item>)
    returns (o: Outcome, ghost se: seq<Item>, ghost sc: seq<Item>, ghost sd: seq<Item>)
    requires Between(rs, e, c, d, p, se0, sc0, sd0) && r in [e, c, d]
    modifies r`oldAddresses, r`addresses, r`metadataSize, r`trees, r`allocationsDone
    modifies r`treeAddr, r`level, e`items, e`live, p
    ensures o == Done ==> Between(rs, e, c, d, p, se, sc, sd)
    ensures o == Done ==> (r == e || se == se0) && (r == c || sc == sc0) && (r == d || sd == sd0)
    ensures o == Done ==> Stands(r, if r == e then se else if r == c then sc else sd)
    ensures o == Done ==> if r.allocationsDone then p.FreeSet() < old(p.FreeSet()) else p.FreeSet() == old(p.FreeSet())
    ensures o == Done && !r.allocationsDone ==> e.items == old(e.items) && p.chunks == old(p.chunks)
    ensures o == Done && !r.allocationsDone ==> p.chunksChanged == old(p.chunksChanged)
    ensures o == Done && !r.allocationsDone ==> (if r == e then se else if r == c then sc else sd) == r.items
    ensures o == Done ==> BlocksOnly(old(e.items), e.items) && P.AddedFrom(old(p.chunks), p.chunks)
    ensures o == TooLarge ==> old(Oversized(r.items))
    ensures o == NoSpace ==> p.Exhausted(r.id == 3)
    ensures o != DuplicateKey
  {
    hide ListsSigned, Ids, Oversized, BlocksOnly, Lasting, Tidy, P.Accounted, P.Counted, P.EvenLists, Books, Whole;
    hide Sound, Ledger, Stands, Filing, SubItems, Grown, Ascending, P.AddedFrom, P.GroupsKept, Aligned, AllFit, Lists;
    ghost var seen, k0, e0 := if r == e then se0 else if r == c then sc0 else sd0, p.chunks, e.items;
    ghost var i: nat := if r == e then |rs| - 3 else if r == c then |rs| - 2 else |rs| - 1;
    o, seen := RebuildOne(rs, i, r, e, p, seen);
    se, sc, sd := if r == e then seen else se0, if r == c then seen else sc0, if r == d then seen else sd0;
    if o == Done {
      if r != e {
        StillBuilt(e0, e.items, se);
      }
      SoundAscending(e, p);
      BlocksLast(e0, e.items);
      BlocksLast(c.items, c.items);
      BlocksLast(d.items, d.items);
      FilingKept(k0, p.chunks, e0, e.items, c.items, c.items, d.items, d.items);
    }
  }

  lemma BlocksLast(a: seq<Item>, b: seq<Item>)
    requires a == b || BlocksOnly(a, b)
    ensures Lasting(a, b)
  {
    hide Oversized;
  }

  lemma RebuiltSince(v: View, w: View)
    requires P.AddedFrom(v.chunks, w.chunks) && BlocksOnly(v.e, w.e) && v.c == w.c && v.d == w.d
    ensures Since(v, w)
  {
    hide NoOthers, P.AddedFrom, Oversized;
    P.AddedGroups(v.chunks, w.chunks);
    if NoOthers(v.chunks, v.e, v.c, v.d) {
      OthersKept(v.chunks, w.chunks, v.e, w.e, v.c, v.d);
    }
  }

  // One round: chunks not yet described are added, then the three roots are rebuilt in turn.
  method Round(ghost rs: seq<Root>, e: Root, c: Root, d: Root, p: P.Planner, devUuid: Bytes, chunkUuid: Bytes,
               ghost se0: seq<Item>, ghost sc0: seq<Item>, ghost sd0: seq<Item>)
    returns (o: Outcome, again: bool, ghost se: seq<Item>, ghost sc: seq<Item>, ghost sd: seq<Item>)
    requires Between(rs, e, c, d, p, se0, sc0, sd0) && e != c && e != d && c != d
    requires |devUuid| == 16 && |chunkUuid| == 16
    modifies e, c, d, p
    ensures o == NoSpace ==> p.Exhausted(e.id == 3) || p.Exhausted(c.id == 3) || p.Exhausted(d.id == 3)
    ensures o == TooLarge ==> old(AnyOversized(Now(e, c, d, p)))
    ensures old(InOrder(Now(e, c, d, p))) ==> o != DuplicateKey
    ensures o == Done ==> Since(old(Now(e, c, d, p)), Now(e, c, d, p))
    ensures o == Done ==> Between(rs, e, c, d, p, se, sc, sd)
    ensures o == Done && !again ==> Stands(e, e.items) && Stands(c, c.items) && Stands(d, d.items)
    ensures o == Done && !again ==> se == e.items && sc == c.items && sd == d.items
    ensures o == Done && !again ==> forall k :: k in p.chunks ==> k.added
    ensures o == Done && again ==> p.FreeSet() < old(p.FreeSet())
  {
    hide Between, Stands, Since, InOrder, AnyOversized, Oversized, BlocksOnly, P.AddedFrom, P.Planner.Exhausted;
    ghost var start := Now(e, c, d, p);
    again, se, sc, sd := false, se0, sc0, sd0;
    var ok := Describe(rs, e, c, d, p, devUuid, chunkUuid, se0, sc0, sd0);
    if !ok {
      o := DuplicateKey;
      return;
    }
    ghost var first := Now(e, c, d, p);
    SinceFacts(start, first);
    o, se, sc, sd := RebuildIn(rs, e, e, c, d, p, se, sc, sd);
    if o != Done {
      OversizedIs(first);
      return;
    }
    ghost var second := Now(e, c, d, p);
    RebuiltSince(first, second);
    SinceOn(start, first, second);
    SinceFacts(start, second);
    o, se, sc, sd := RebuildIn(rs, c, e, c, d, p, se, sc, sd);
    if o != Done {
      OversizedIs(second);
      return;
    }
    ghost var third := Now(e, c, d, p);
    RebuiltSince(second, third);
    SinceOn(start, second, third);
    SinceFacts(start, third);
    o, se, sc, sd := RebuildIn(rs, d, e, c, d, p, se, sc, sd);
    if o != Done {
      OversizedIs(third);
      return;
    }
    RebuiltSince(third, Now(e, c, d, p));
    SinceOn(start, third, Now(e, c, d, p));
    again := p.chunksChanged || e.allocationsDone || c.allocationsDone || d.allocationsDone;
  }

  lemma OversizedIs(v: View)
    ensures AnyOversized(v) <==> Oversized(v.e) || Oversized(v.c) || Oversized(v.d)
  {
    hide Oversized;
  }

  lemma SoundAscending(e: Root, p: P.Planner)
    requires Sound(e, p)
    ensures Ascending(e.items)
  {
  }

  lemma BetweenApart(rs: seq<Root>, e: Root, c: Root, d: Root, p: P.Planner, se: seq<Item>, sc: seq<Item>,
                     sd: seq<Item>)
    requires Between(rs, e, c, d, p, se, sc, sd)
    ensures e != c && e != d && c != d
  {
    hide Sound, Ledger, Built, Filing, ListsSigned, Lists, Ids;
  }

  // The loop of `convert`. It ends, because a round that is followed by another has taken
  // blocks, and the free bytes are finitely many; and when it ends the trees account for themselves.
  method Settle(ghost rs: seq<Root>, e: Root, c: Root, d: Root, p: P.Planner, devUuid: Bytes, chunkUuid: Bytes,
                ghost se0: seq<Item>, ghost sc0: seq<Item>, ghost sd0: seq<Item>)
    returns (o: Outcome)
    requires Between(rs, e, c, d, p, se0, sc0, sd0) && |devUuid| == 16 && |chunkUuid| == 16
    modifies e, c, d, p
    ensures o == NoSpace ==> p.Exhausted(e.id == 3) || p.Exhausted(c.id == 3) || p.Exhausted(d.id == 3)
    ensures o == TooLarge ==> old(AnyOversized(Now(e, c, d, p)))
    ensures o == DuplicateKey ==> !old(InOrder(Now(e, c, d, p)))
    ensures o == Done ==> Since(old(Now(e, c, d, p)), Now(e, c, d, p))
    ensures o == Done ==> Between(rs, e, c, d, p, e.items, c.items, d.items)
    ensures o == Done ==> Stands(e, e.items) && Stands(c, c.items) && Stands(d, d.items)
    ensures o == Done ==> forall k :: k in p.chunks ==> k.added
  {
    hide *;
    ghost var se, sc, sd, start := se0, sc0, sd0, Now(e, c, d, p);
    BetweenApart(rs, e, c, d, p, se, sc, sd);
    SinceSelf(start);
    while true
      invariant Between(rs, e, c, d, p, se, sc, sd)
      invariant Since(start, Now(e, c, d, p))
      decreases p.FreeSet()
    {
      var again;
      ghost var before := Now(e, c, d, p);
      SinceFacts(start, before);
      o, again, se, sc, sd := Round(rs, e, c, d, p, devUuid, chunkUuid, se, sc, sd);
      if o != Done {
        return;
      }
      SinceOn(start, before, Now(e, c, d, p));
      if !again {
        return;
      }
    }
  }

  // A root as `convert` leaves it before any tree is built.
  ghost predicate Unbuilt(r: Root)
    reads r
  {
    r.trees == [] && r.addresses == [] && !r.allocationsDone && Built(r, [])
  }

  // A root other than the three, built once.
  method BuildOne(ghost rs: seq<Root>, ghost i: nat, r: Root, e: Root, p: P.Planner) returns (o: Outcome)
    requires AllDistinct(rs) && i < |rs| && rs[i] == r && r != e
    requires Sound(e, p) && Unbuilt(r) && Ledger(Lists(rs), e.live)
    requires ListsSigned(Lists(rs), Ids(rs), e.items, p.chunks)
    modifies r`oldAddresses, r`addresses, r`metadataSize, r`trees, r`allocationsDone
    modifies r`treeAddr, r`level, e`items, e`live, p
    ensures o == Done ==> Sound(e, p) && Built(r, r.items) && Stands(r, r.items) && Ledger(Lists(rs), e.live)
    ensures o == Done ==> ListsSigned(Lists(rs), Ids(rs), e.items, p.chunks)
    ensures o == Done ==> Grown(old(e.items), e.items) && P.AddedFrom(old(p.chunks), p.chunks)
    ensures o == Done ==> BlocksOnly(old(e.items), e.items)
    ensures o == TooLarge ==> old(Oversized(r.items))
    ensures o == NoSpace ==> p.Exhausted(r.id == 3)
    ensures o != DuplicateKey
  {
    hide Ledger, Books, Owned, P.Accounted, P.Counted, P.EvenLists, SubItems, Packed, Represents, Standing, Run;
    hide Covered, Settled, ListsSigned, Lists, Ids;
    hide P.AddedFrom, Oversized, BlocksOnly;
    ghost var lists, s0, first := Lists(rs), Start(r, e, p), r.items;
    LedgerStanding(lists, e.live, i);
    ghost var seen;
    o, seen := CreateTrees(r, e, p);
    if o == Done {
      BuiltOnce(r, e, p, s0, first, seen);
      PassKeepsLedger(lists, i, s0, r.Now(e, p));
      PassSigns(lists, Ids(rs), i, s0, r.Now(e, p));
      assert Lists(rs) == lists[i := r.addresses];
    }
  }

  // A first pass over another root than the extent tree's.
  lemma BuiltOnce(r: Root, e: Root, p: P.Planner, s0: Snap, first: seq<Item>, seen: seq<Item>)
    requires r.Base(e, p, s0, 0) && Covered(first, r.items, seen, true)
    requires s0.addresses == [] && s0.old' == [] && !s0.done && Stands(r, seen)
    ensures Sound(e, p) && Built(r, r.items) && seen == r.items && Standing(r.addresses, e.live) && r.addresses != []
    ensures Run(s0, r.Now(e, p)) && Grown(s0.items, e.items) && BlocksOnly(s0.items, e.items)
    ensures P.AddedFrom(s0.chunks, p.chunks)
  {
    hide Sound, SubItems, Packed, Represents, Standing, Run, Covered, Settled, P.AddedFrom, Oversized, BlocksOnly;
    BaseFacts(r, e, p, s0, 0);
    CoveredFacts(first, r.items, seen, true);
    SubItemsItself(r.items);
    NoItems(seen);
    PassSettles(s0, r.Now(e, p), [], seen);
    RunFacts(s0, r.Now(e, p));
    assert r.addresses + r.oldAddresses == r.addresses;
  }

  function Forest(rs: seq<Root>): (ts: seq<seq<Block>>)
    reads rs
    ensures |ts| == |rs| && forall i :: 0 <= i < |rs| ==> ts[i] == rs[i].trees
    decreases |rs|
  {
    if rs == [] then [] else Forest(rs[..|rs| - 1]) + [rs[|rs| - 1].trees]
  }

  // Block `j` of tree `i` is at this address, on this level.
  predicate BlockAt(forest: seq<seq<Block>>, i: nat, j: nat, a: nat, l: nat) {
    i < |forest| && j < |forest[i]| && forest[i][j].addr == a && forest[i][j].level == l
  }

  predicate HasBlock(forest: seq<seq<Block>>, a: nat, l: nat) {
    exists i: nat, j: nat :: i < |forest| && j < |forest[i]| && BlockAt(forest, i, j, a, l)
  }

  // The trees describe themselves: the extent tree has a METADATA_ITEM for an address and level
  // exactly when some tree has a block there, and no two blocks share an address.
  ghost predicate SelfConsistent(forest: seq<seq<Block>>, extents: seq<Item>) {
    && (forall a, l :: HasKey(extents, MetaKey(a, l)) <==> HasBlock(forest, a, l))
    && (forall i, j, i', j', a, l, l' :: BlockAt(forest, i, j, a, l) && BlockAt(forest, i', j', a, l') ==>
         i == i' && j == j')
  }

  ghost predicate AllAlignedWith(forest: seq<seq<Block>>, lists: seq<seq<Placed>>) {
    |forest| == |lists| && forall i :: 0 <= i < |forest| ==> Aligned(forest[i], lists[i])
  }

  // The blocks of all the trees.
  function StoreOfAll(forest: seq<seq<Block>>): Store {
    if forest == [] then map[] else StoreOfAll(forest[..|forest| - 1]) + StoreOf(forest[|forest| - 1])
  }

  predicate AllStrangers(lists: seq<seq<Placed>>) {
    forall i, j :: 0 <= i < j < |lists| ==> StrangersNow(lists[i], lists[j])
  }

  predicate StrangersNow(x: seq<Placed>, y: seq<Placed>) {
    forall p, q :: p in x && q in y ==> p.addr != q.addr
  }

  lemma {:induction false} AllExtends(forest: seq<seq<Block>>, lists: seq<seq<Placed>>, i: nat)
    requires AllAlignedWith(forest, lists) && i < |forest| && AllStrangers(lists)
    ensures Extends(StoreOf(forest[i]), StoreOfAll(forest))
    decreases |forest|
  {
    hide StrangersNow, Aligned, StoreOf;
    var k := |forest| - 1;
    if i < k {
      AllExtends(forest[..k], lists[..k], i);
      assert Aligned(forest[i], lists[i]) && Aligned(forest[k], lists[k]) && StrangersNow(lists[i], lists[k]);
      StoresApart(forest[i], lists[i], forest[k], lists[k]);
    }
  }

  lemma StoresApart(x: seq<Block>, ps: seq<Placed>, y: seq<Block>, qs: seq<Placed>)
    requires Aligned(x, ps) && Aligned(y, qs) && StrangersNow(ps, qs)
    ensures forall a :: a in StoreOf(x) ==> a !in StoreOf(y)
  {
    hide StoreOf;
    forall a | a in StoreOf(x)
      ensures a !in StoreOf(y)
    {
      var p := PlaceOf(x, ps, a);
      if a in StoreOf(y) {
        var q := PlaceOf(y, qs, a);
      }
    }
  }

  lemma PlaceOf(x: seq<Block>, ps: seq<Placed>, a: nat) returns (p: Placed)
    requires Aligned(x, ps) && a in StoreOf(x)
    ensures p in ps && p.addr == a
  {
    StoreOnlyHas(x, a);
    var i :| 0 <= i < |x| && x[i].addr == a;
    p := ps[i];
  }

  lemma LedgerApart(lists: seq<seq<Placed>>, live: map<nat, nat>)
    requires Ledger(lists, live)
    ensures AllStrangers(lists)
  {
    forall i, j | 0 <= i < j < |lists|
      ensures StrangersNow(lists[i], lists[j])
    {
      assert Strangers(lists[i], lists[j]);
      forall p, q | p in lists[i] && q in lists[j]
        ensures p.addr != q.addr
      {
        assert Among(lists[i], p.addr) && Among(lists[j], q.addr);
      }
    }
  }

  // Each tree is the root's item map, by itself and among the blocks of all of them.
  ghost predicate AllStand(rs: seq<Root>)
    reads rs
  {
    forall r :: r in rs ==>
      && Stands(r, r.items) && Ascending(r.items)
      && Represents(StoreOfAll(Forest(rs)), r.treeAddr, r.level, r.items)
  }

  lemma InOneStore(rs: seq<Root>, live: map<nat, nat>)
    requires AllAlignedWith(Forest(rs), Lists(rs)) && Ledger(Lists(rs), live)
    requires forall r :: r in rs ==> Stands(r, r.items) && Ascending(r.items)
    ensures AllStand(rs)
  {
    hide Ledger, AllAlignedWith, AllStrangers, StoreOf, StoreOfAll, Represents, Forest, Lists, Extends, Ascending;
    LedgerApart(Lists(rs), live);
    forall r | r in rs
      ensures Represents(StoreOfAll(Forest(rs)), r.treeAddr, r.level, r.items)
    {
      var i :| 0 <= i < |rs| && rs[i] == r;
      AllExtends(Forest(rs), Lists(rs), i);
      ExtendsKeeps(StoreOf(r.trees), StoreOfAll(Forest(rs)), r.treeAddr, r.level, r.items);
    }
  }

  // Each block's item names the root the block belongs to; and the blocks of the chunk tree, and no others, lie in
  // system chunks.
  ghost predicate BlocksSigned(rs: seq<Root>, items: seq<Item>, chunks: seq<P.Chunk>)
    reads rs
  {
    forall i, j :: 0 <= i < |rs| && 0 <= j < |rs[i].trees| ==>
      && Signed(items, chunks, rs[i].trees[j].addr, rs[i].id)
      && SystemIff(chunks, rs[i].trees[j].addr, rs[i].id == 3)
  }

  predicate SystemIff(chunks: seq<P.Chunk>, a: nat, system: bool) {
    forall c :: c in chunks && c.HasAddr(a) ==> (c.kind == P.System <==> system)
  }

  lemma OneKind(chunks: seq<P.Chunk>, items: seq<Item>, a: nat, owner: nat)
    requires Signed(items, chunks, a, owner) && P.ChunksApart(chunks)
    requires forall c :: c in chunks ==> c.offset == c.diskStart + P.VIRT
    ensures SystemIff(chunks, a, owner == 3)
  {
    hide HasSigned;
    var kind := if owner == 3 then P.System else P.Metadata;
    var i :| 0 <= i < |chunks| && chunks[i].kind == kind && Surrounds(chunks[i], a);
    assert chunks[i] in chunks;
    forall c | c in chunks && c.HasAddr(a)
      ensures c.kind == kind
    {
      var j :| 0 <= j < |chunks| && chunks[j] == c;
    }
  }

  lemma PlannerIsApart(p: P.Planner)
    requires p.Valid()
    ensures P.ChunksApart(p.chunks) && forall c :: c in p.chunks ==> c.offset == c.diskStart + P.VIRT
  {
    hide P.Counted, P.EvenLists, P.WasGiven;
  }

  lemma SignedNow(rs: seq<Root>, items: seq<Item>, p: P.Planner)
    requires AllAlignedWith(Forest(rs), Lists(rs)) && ListsSigned(Lists(rs), Ids(rs), items, p.chunks) && p.Valid()
    ensures BlocksSigned(rs, items, p.chunks)
  {
    PlannerIsApart(p);
    hide Signed, SystemIff, P.Accounted, P.Counted, P.EvenLists, P.WasGiven, P.ChunksApart, Forest, Lists, Ids;
    forall i, j | 0 <= i < |rs| && 0 <= j < |rs[i].trees|
      ensures Signed(items, p.chunks, rs[i].trees[j].addr, rs[i].id)
      ensures SystemIff(p.chunks, rs[i].trees[j].addr, rs[i].id == 3)
    {
      assert Aligned(Forest(rs)[i], Lists(rs)[i]) && ListSigned(Lists(rs)[i], Ids(rs)[i], items, p.chunks);
      assert Lists(rs)[i][j].addr == rs[i].trees[j].addr;
      OneKind(p.chunks, items, rs[i].trees[j].addr, rs[i].id);
    }
  }

  lemma LedgerIsConsistent(forest: seq<seq<Block>>, lists: seq<seq<Placed>>, extents: seq<Item>, live: map<nat, nat>)
    requires Books(extents, live) && Ledger(lists, live) && AllAlignedWith(forest, lists)
    ensures SelfConsistent(forest, extents)
  {
    hide Ledger, AllAlignedWith, HasKey;
    forall a, l
      ensures HasKey(extents, MetaKey(a, l)) <==> HasBlock(forest, a, l)
    {
      if HasKey(extents, MetaKey(a, l)) {
        LiveHasBlock(forest, lists, live, a);
      }
      if HasBlock(forest, a, l) {
        var i: nat, j: nat :| i < |forest| && j < |forest[i]| && BlockAt(forest, i, j, a, l);
        BlockIsLive(forest, lists, live, i, j, a, l);
      }
    }
    forall i, j, i', j', a, l, l' | BlockAt(forest, i, j, a, l) && BlockAt(forest, i', j', a, l')
      ensures i == i' && j == j'
    {
      BlocksDiffer(forest, lists, live, i, j, i', j', a, l, l');
    }
  }

  lemma LiveHasBlock(forest: seq<seq<Block>>, lists: seq<seq<Placed>>, live: map<nat, nat>, a: nat)
    requires Ledger(lists, live) && AllAlignedWith(forest, lists) && a in live
    ensures HasBlock(forest, a, live[a])
  {
    var i: nat :| i < |lists| && Among(lists[i], a);
    var j: nat :| j < |lists[i]| && lists[i][j].addr == a;
    assert Standing(lists[i], live) && Aligned(forest[i], lists[i]);
    assert lists[i][j] == Placed(forest[i][j].addr, forest[i][j].level);
    assert BlockAt(forest, i, j, a, live[a]);
  }

  lemma BlockIsLive(forest: seq<seq<Block>>, lists: seq<seq<Placed>>, live: map<nat, nat>, i: nat, j: nat, a: nat,
                    l: nat)
    requires Ledger(lists, live) && AllAlignedWith(forest, lists) && BlockAt(forest, i, j, a, l)
    ensures j < |lists[i]| && lists[i][j] == Placed(a, l) && Among(lists[i], a)
    ensures a in live && live[a] == l
  {
    assert Standing(lists[i], live) && Aligned(forest[i], lists[i]);
    assert lists[i][j] == Placed(forest[i][j].addr, forest[i][j].level);
  }

  lemma BlocksDiffer(forest: seq<seq<Block>>, lists: seq<seq<Placed>>, live: map<nat, nat>,
                     i: nat, j: nat, i': nat, j': nat, a: nat, l: nat, l': nat)
    requires Ledger(lists, live) && AllAlignedWith(forest, lists)
    requires BlockAt(forest, i, j, a, l) && BlockAt(forest, i', j', a, l')
    ensures i == i' && j == j'
  {
    assert i < i' ==> Strangers(lists[i], lists[i']);
    assert i' < i ==> Strangers(lists[i'], lists[i]);
    assert Standing(lists[i], live) && Distinct(lists[i]);
    BlockIsLive(forest, lists, live, i, j, a, l);
    BlockIsLive(forest, lists, live, i', j', a, l');
  }

  lemma AllAligned(rs: seq<Root>, others: seq<Root>, e: Root, c: Root, d: Root, p: P.Planner)
    requires rs == others + [e, c, d] && Between(rs, e, c, d, p, e.items, c.items, d.items)
    requires forall j :: 0 <= j < |others| ==> Whole(others[j])
    ensures AllAlignedWith(Forest(rs), Lists(rs)) && Sound(e, p) && Filing(p.chunks, e.items, c.items, d.items)
    ensures forall r :: r in rs ==> Ascending(r.items)
    ensures Books(e.items, e.live) && Ledger(Lists(rs), e.live)
    ensures ListsSigned(Lists(rs), Ids(rs), e.items, p.chunks) && p.Valid()
  {
    hide Books, Ledger, Stands, SubItems, Ascending, Aligned, AllFit, Lists, Forest, ListsSigned, Ids;
    forall i | 0 <= i < |rs|
      ensures Aligned(rs[i].trees, rs[i].addresses) && Ascending(rs[i].items)
    {
      if i < |others| {
        assert Whole(others[i]);
      }
    }
  }

  // The first `i` of the other roots have been built.
  ghost predicate Starting(rs: seq<Root>, others: seq<Root>, i: nat, e: Root, c: Root, d: Root, p: P.Planner)
    reads rs, others, e, c, d, p
  {
    && rs == others + [e, c, d] && AllDistinct(rs) && Sound(e, p) && Ledger(Lists(rs), e.live)
    && ListsSigned(Lists(rs), Ids(rs), e.items, p.chunks)
    && Unbuilt(e) && Unbuilt(c) && Unbuilt(d)
    && (forall j :: 0 <= j < |others| ==> if j < i then Whole(others[j]) else Unbuilt(others[j]))
    && (forall k :: k in p.chunks ==> !k.added)
  }

  // What was built is the root's item map.
  ghost predicate Whole(r: Root)
    reads r
  {
    Built(r, r.items) && Stands(r, r.items)
  }

  lemma StartingOut(rs: seq<Root>, others: seq<Root>, i: nat, e: Root, c: Root, d: Root, p: P.Planner)
    requires Starting(rs, others, i, e, c, d, p) && i == |others|
    ensures Between(rs, e, c, d, p, [], [], [])
    ensures forall j :: 0 <= j < |others| ==> Whole(others[j]) && others[j] != e && others[j] != c && others[j] != d
  {
    hide Built, Stands, Ledger, Sound, ListsSigned, Ids, Lists;
    assert rs[|rs| - 3] == e && rs[|rs| - 2] == c && rs[|rs| - 1] == d;
    forall j | 0 <= j < |others|
      ensures others[j] != e && others[j] != c && others[j] != d
    {
      assert rs[j] == others[j];
    }
  }

  lemma NothingLive(rs: seq<Root>, others: seq<Root>, e: Root, c: Root, d: Root, p: P.Planner)
    requires rs == others + [e, c, d] && AllDistinct(rs) && p.Valid() && Books(e.items, map[]) && e.live == map[]
    requires forall r :: r in rs ==> Unbuilt(r)
    requires forall k :: k in p.chunks ==> !k.added
    ensures Starting(rs, others, 0, e, c, d, p)
  {
    hide Built, Books, P.Accounted, P.Counted, P.EvenLists;
    assert forall i :: 0 <= i < |rs| ==> rs[i] in rs && Lists(rs)[i] == [];
    assert e in rs && c in rs && d in rs;
  }

  method BuildNext(ghost rs: seq<Root>, others: seq<Root>, i: nat, e: Root, c: Root, d: Root, p: P.Planner)
    returns (o: Outcome)
    requires i < |others| && Starting(rs, others, i, e, c, d, p)
    modifies others[i], e`items, e`live, p
    ensures o == Done ==> Starting(rs, others, i + 1, e, c, d, p)
    ensures o == Done ==> BlocksOnly(old(e.items), e.items) && P.AddedFrom(old(p.chunks), p.chunks)
    ensures others[i].items == old(others[i].items) && (o == TooLarge ==> Oversized(others[i].items))
    ensures o == NoSpace ==> p.Exhausted(others[i].id == 3)
    ensures o != DuplicateKey
  {
    hide P.AddedFrom, Oversized, BlocksOnly;
    hide Ledger, Sound, Stands, Books, SubItems, Aligned, AllFit, Lists, Represents, ListsSigned, Ids;
    ghost var k0 := p.chunks;
    assert rs[i] == others[i];
    OthersDiffer(rs, others, i, e, c, d);
    o := BuildOne(rs, i, others[i], e, p);
    if o == Done {
      NoneAdded(k0, p.chunks);
      SoundAscending(e, p);
      NoItems(e.items);
    }
  }

  lemma OthersDiffer(rs: seq<Root>, others: seq<Root>, i: nat, e: Root, c: Root, d: Root)
    requires rs == others + [e, c, d] && AllDistinct(rs) && i < |others|
    ensures e != c && e != d && c != d
    ensures forall j :: 0 <= j < |others| ==> others[j] != e && others[j] != c && others[j] != d
    ensures forall j :: 0 <= j < |others| && j != i ==> others[j] != others[i]
  {
    assert rs[|others|] == e && rs[|others| + 1] == c && rs[|others| + 2] == d;
    assert forall j :: 0 <= j < |others| ==> rs[j] == others[j];
  }

  lemma NoneAdded(chunks: seq<P.Chunk>, chunks': seq<P.Chunk>)
    requires P.AddedFrom(chunks, chunks') && forall k :: k in chunks ==> !k.added
    ensures forall k :: k in chunks' ==> !k.added
  {
  }

  lemma NoItems(items: seq<Item>)
    ensures SubItems([], items)
  {
  }

  // The tree building of `convert`: the other roots once, then the three until they settle. At
  // the end every root's tree reads back as its item map, and the trees describe themselves and
  // every chunk.
  method BuildTrees(others: seq<Root>, e: Root, c: Root, d: Root, p: P.Planner, devUuid: Bytes, chunkUuid: Bytes)
    returns (o: Outcome)
    requires AllDistinct(others + [e, c, d]) && p.Valid() && Books(e.items, map[]) && e.live == map[]
    requires forall r :: r in others + [e, c, d] ==> Unbuilt(r)
    requires (forall k :: k in p.chunks ==> !k.added) && |devUuid| == 16 && |chunkUuid| == 16
    modifies others, e, c, d, p
    ensures o == NoSpace ==> exists r :: r in others + [e, c, d] && p.Exhausted(r.id == 3)
    ensures o == TooLarge ==> exists r :: r in others + [e, c, d] && old(Oversized(r.items))
    ensures o == DuplicateKey ==> old(!P.NoneEmpty(p.chunks) || !NoneDescribed(e.items, c.items, d.items))
    ensures o == Done && p.counting ==> P.Counted(p.first, p.chunks, p.charged)
    ensures o == Done ==> SelfConsistent(Forest(others + [e, c, d]), e.items) && Sound(e, p)
    ensures o == Done ==> AllStand(others + [e, c, d]) && forall r :: r in others ==> r.items == old(r.items)
    ensures o == Done ==> AllSpared(old(e.items), e.items, old(c.items), c.items, old(d.items), d.items)
    ensures o == Done ==> BlocksSigned(others + [e, c, d], e.items, p.chunks)
    ensures o == Done ==> forall k :: k in p.chunks ==> Filed(k, e.items, c.items, d.items)
    ensures o == Done && old(NoneDescribed(e.items, c.items, d.items)) ==>
      OnlyThese(p.chunks, e.items, c.items, d.items)
    ensures o == Done ==> P.GroupsKept(old(p.chunks), p.chunks)
  {
    hide Starting, Between, Stands, Built, Filed, Books, Ledger, P.Accounted, P.Counted, P.EvenLists, SelfConsistent;
    hide Forest, Lists, P.GroupsKept;
    hide NoOthers, Oversized, NoneDescribed, P.NoneEmpty, OnlyThese, StoreOfAll, Represents, Ascending;
    hide AllStand, AllSpared, Since, BlocksSigned, ListsSigned, Ids;
    ghost var rs, start := others + [e, c, d], Now(e, c, d, p);
    assert e in rs && c in rs && d in rs && forall r :: r in others ==> r in rs;
    if NoneDescribed(e.items, c.items, d.items) {
      NoneAtFirst(p.chunks, e.items, c.items, d.items);
    }
    NothingLive(rs, others, e, c, d, p);
    o := BuildOthers(rs, others, e, c, d, p);
    if o != Done {
      return;
    }
    StartingOut(rs, others, |others|, e, c, d, p);
    ghost var begun := Now(e, c, d, p);
    SinceFacts(start, begun);
    o := Settle(rs, e, c, d, p, devUuid, chunkUuid, [], [], []);
    if o == Done {
      SinceOn(start, begun, Now(e, c, d, p));
      SinceFacts(start, Now(e, c, d, p));
      AllAligned(rs, others, e, c, d, p);
      if NoOthers(p.chunks, e.items, c.items, d.items) {
        OnlyTheseNow(p.chunks, e.items, c.items, d.items);
      }
      InOneStore(rs, e.live);
      SignedNow(rs, e.items, p);
      LedgerIsConsistent(Forest(rs), Lists(rs), e.items, e.live);
    }
  }

  method BuildOthers(ghost rs: seq<Root>, others: seq<Root>, e: Root, c: Root, d: Root, p: P.Planner)
    returns (o: Outcome)
    requires Starting(rs, others, 0, e, c, d, p)
    modifies others, e`items, e`live, p
    ensures o == Done ==> Starting(rs, others, |others|, e, c, d, p)
    ensures o == Done ==> Since(old(Now(e, c, d, p)), Now(e, c, d, p))
    ensures o == Done ==> forall r :: r in others ==> r.items == old(r.items)
    ensures o == TooLarge ==> exists r :: r in others && old(Oversized(r.items))
    ensures o == NoSpace ==> exists r :: r in others && p.Exhausted(r.id == 3)
    ensures o != DuplicateKey
  {
    hide Starting, Since, Oversized, BlocksOnly, P.AddedFrom, P.Planner.Exhausted;
    ghost var start := Now(e, c, d, p);
    StartingApart(rs, others, e, c, d, p);
    SinceSelf(start);
    o := Done;
    var i: nat := 0;
    while i < |others|
      invariant i <= |others| && o == Done && Starting(rs, others, i, e, c, d, p)
      invariant Since(start, Now(e, c, d, p)) && c.items == old(c.items) && d.items == old(d.items)
      invariant forall r :: r in others ==> r.items == old(r.items)
    {
      ghost var before := Now(e, c, d, p);
      assert others[i] in others;
      o := BuildNext(rs, others, i, e, c, d, p);
      if o != Done {
        return;
      }
      RebuiltSince(before, Now(e, c, d, p));
      SinceOn(start, before, Now(e, c, d, p));
      i := i + 1;
    }
  }

  lemma StartingApart(rs: seq<Root>, others: seq<Root>, e: Root, c: Root, d: Root, p: P.Planner)
    requires Starting(rs, others, 0, e, c, d, p)
    ensures e != c && e != d && c != d && e !in others && c !in others && d !in others
  {
    hide Sound, Ledger, Unbuilt, ListsSigned, Ids, Lists;
    assert rs[|others|] == e && rs[|others| + 1] == c && rs[|others| + 2] == d;
    forall j | 0 <= j < |others|
      ensures others[j] != e && others[j] != c && others[j] != d
    {
      assert rs[j] == others[j];
    }
  }
}
