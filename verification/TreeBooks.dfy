/**
 * The books the extent tree keeps about tree blocks, and what one `get_address` may do to them.
 */
module TreeBooks {
  import opened LittleEndian
  import opened Packing
  import opened TreeItems
  import opened TreeBlock
  import P = ChunkAllocator

  // An address a root has put a block at, and the block's level.
  datatype Placed = Placed(addr: nat, level: nat)

  function MetaKey(addr: nat, level: nat): Key {
    Key(addr, METADATA_ITEM, level)
  }

  // The extent tree has exactly one METADATA_ITEM for each live block, under its level.
  ghost predicate Books(items: seq<Item>, live: map<nat, nat>) {
    && Ascending(items)
    && forall a, l :: HasKey(items, MetaKey(a, l)) <==> a in live && live[a] == l
  }

  // Live blocks were handed out by the allocator, and count as used.
  ghost predicate Owned(charged: seq<P.Range>, live: map<nat, nat>) {
    forall a :: a in live ==> P.VIRT <= a && P.Range(a - P.VIRT, P.TREE) in charged
  }

  ghost predicate Distinct(ps: seq<Placed>) {
    forall i, j :: 0 <= i < j < |ps| ==> ps[i].addr != ps[j].addr
  }

  ghost predicate Standing(ps: seq<Placed>, live: map<nat, nat>) {
    Distinct(ps) && forall i :: 0 <= i < |ps| ==> ps[i].addr in live && live[ps[i].addr] == ps[i].level
  }

  lemma SlotIsLive(items: seq<Item>, live: map<nat, nat>, a: nat, l: nat)
    requires Books(items, live) && HasSlot(items, MetaKey(a, l))
    ensures a in live
  {
    var i :| 0 <= i < |items| && Slot(items[i].key) == Slot(MetaKey(a, l));
    assert items[i].key == MetaKey(a, items[i].key.offset);
    assert HasKey(items, MetaKey(a, items[i].key.offset));
  }

  // A new block's item goes in.
  lemma BooksGrow(items: seq<Item>, live: map<nat, nat>, a: nat, l: nat, data: Bytes)
    requires Books(items, live) && a !in live
    ensures var x := Item(MetaKey(a, l), data);
      !HasKey(items, x.key) && Books(Inserted(items, x), live[a := l]) && SubItems(items, Inserted(items, x))
  {
    var x := Item(MetaKey(a, l), data);
    if HasSlot(items, x.key) {
      SlotIsLive(items, live, a, l);
    }
    InsertedIsAscending(items, x);
    InsertedIsMore(items, x);
    forall b, m
      ensures HasKey(Inserted(items, x), MetaKey(b, m)) <==> b in live[a := l] && live[a := l][b] == m
    {
      InsertedKeys(items, x, MetaKey(b, m));
      assert MetaKey(b, m) == MetaKey(a, l) <==> b == a && m == l;
      assert HasKey(items, MetaKey(b, m)) <==> b in live && live[b] == m;
    }
  }

  lemma InsertedIsMore(items: seq<Item>, x: Item)
    ensures SubItems(items, Inserted(items, x))
  {
    var r := Rank(items, x.key);
    forall i | 0 <= i < |items|
      ensures HasAlike(Inserted(items, x), items[i])
    {
      assert Alike(items[i], Inserted(items, x)[if i < r then i else i + 1]);
    }
  }

  // A block's item moves to another level.
  lemma BooksRelevel(items: seq<Item>, live: map<nat, nat>, i: nat, a: nat, l: nat)
    requires Books(items, live) && a in live && i < |items| && items[i].key == MetaKey(a, live[a])
    ensures Books(Rekeyed(items, i, MetaKey(a, l)), live[a := l])
    ensures SubItems(items, Rekeyed(items, i, MetaKey(a, l)))
  {
    var k := MetaKey(a, l);
    RekeyedIsAscending(items, i, k);
    forall b, m
      ensures HasKey(Rekeyed(items, i, k), MetaKey(b, m)) <==> b in live[a := l] && live[a := l][b] == m
    {
      RekeyedKeys(items, i, k, MetaKey(b, m));
      assert HasKey(items, MetaKey(b, m)) <==> b in live && live[b] == m;
    }
    forall j | 0 <= j < |items|
      ensures HasAlike(Rekeyed(items, i, k), items[j])
    {
      assert Alike(items[j], Rekeyed(items, i, k)[j]);
    }
  }

  predicate Oversized(items: seq<Item>) {
    exists i :: 0 <= i < |items| && AREA < Space(items[i])
  }

  // Only blocks' items were added or moved.
  ghost predicate BlocksOnly(items: seq<Item>, items': seq<Item>) {
    (Oversized(items') ==> Oversized(items)) && Lasting(items, items') && Lasting(items', items)
  }

  lemma InsertedBlocksOnly(items: seq<Item>, x: Item)
    requires x.key.kind == METADATA_ITEM && Space(x) <= AREA
    ensures BlocksOnly(items, Inserted(items, x))
  {
    InsertedFits(items, x);
    InsertedLasts(items, x);
  }

  lemma InsertedFits(items: seq<Item>, x: Item)
    requires Space(x) <= AREA
    ensures Oversized(Inserted(items, x)) ==> Oversized(items)
  {
    var r, new' := Rank(items, x.key), Inserted(items, x);
    if i :| 0 <= i < |new'| && AREA < Space(new'[i]) {
      assert new'[i] == if i < r then items[i] else if i == r then x else items[i - 1];
    }
  }

  lemma RekeyedBlocksOnly(items: seq<Item>, i: nat, k: Key)
    requires Ascending(items) && i < |items| && Slot(items[i].key) == Slot(k) && k.kind == METADATA_ITEM
    ensures BlocksOnly(items, Rekeyed(items, i, k))
  {
    var new' := Rekeyed(items, i, k);
    if j :| 0 <= j < |new'| && AREA < Space(new'[j]) {
      assert AREA < Space(items[j]);
    }
    forall x | x in items && x.key.kind != METADATA_ITEM
      ensures x in new'
    {
      var j :| 0 <= j < |items| && items[j] == x;
      assert new'[j] == x;
    }
    forall x | x in new' && x.key.kind != METADATA_ITEM
      ensures x in items
    {
      var j :| 0 <= j < |new'| && new'[j] == x;
      assert items[j] == x;
    }
  }

  // ----- whose block it is -----

  type RootId = n: nat | n < 0x1_0000_0000_0000_0000

  // `metadata_item`: one reference, generation 1, tree block, owned by the root.
  function MetaData(owner: RootId): (d: Bytes)
    ensures |d| == 33
  {
    Le(1, 8) + Le(1, 8) + Le(2, 8) + [0xB0] + Le(owner, 8)
  }

  // What a reader finds in it.
  predicate SaysBlock(d: Bytes, owner: nat) {
    && |d| == 33 && Value(d[0..8]) == 1 && Value(d[8..16]) == 1 && Value(d[16..24]) == 2 && d[24] == 0xB0
    && Value(d[25..33]) == owner
  }

  lemma BlockIsSaid(owner: RootId)
    ensures SaysBlock(MetaData(owner), owner)
  {
    hide Value, Le;
    WordIsRead(1);
    WordIsRead(2);
    WordIsRead(owner);
    var d := MetaData(owner);
    assert d[0..8] == Le(1, 8) && d[8..16] == Le(1, 8) && d[16..24] == Le(2, 8) && d[25..33] == Le(owner, 8);
  }

  predicate HasSigned(items: seq<Item>, a: nat, owner: nat) {
    exists i :: 0 <= i < |items| && Slot(items[i].key) == Key(a, METADATA_ITEM, 0) && SaysBlock(items[i].data, owner)
  }

  predicate InKind(chunks: seq<P.Chunk>, a: nat, kind: P.Kind) {
    exists i :: 0 <= i < |chunks| && chunks[i].kind == kind && Surrounds(chunks[i], a)
  }

  predicate Surrounds(c: P.Chunk, a: nat) {
    c.offset <= a && a + 0x4000 <= c.offset + c.length
  }

  // The block's item names its root, and it lies in a chunk of the kind this root's blocks go to: that of the
  // chunk tree, which is root 3, in a system chunk, any other in one for metadata.
  predicate Signed(items: seq<Item>, chunks: seq<P.Chunk>, a: nat, owner: nat) {
    HasSigned(items, a, owner) && InKind(chunks, a, if owner == 3 then P.System else P.Metadata)
  }

  lemma SignedStays(items: seq<Item>, items': seq<Item>, chunks: seq<P.Chunk>, chunks': seq<P.Chunk>, a: nat,
                    owner: nat)
    requires Signed(items, chunks, a, owner) && SubItems(items, items') && P.GroupsKept(chunks, chunks')
    ensures Signed(items', chunks', a, owner)
  {
    hide SaysBlock;
    var i :| 0 <= i < |items| && Slot(items[i].key) == Key(a, METADATA_ITEM, 0) && SaysBlock(items[i].data, owner);
    assert HasAlike(items', items[i]);
    var j :| 0 <= j < |items'| && Alike(items[i], items'[j]);
    var kind := if owner == 3 then P.System else P.Metadata;
    var k :| 0 <= k < |chunks| && chunks[k].kind == kind && Surrounds(chunks[k], a);
    assert P.SameGroup(chunks[k], chunks'[k]);
  }

  // The blocks that were given an address since the beginning, beyond those that had one.
  predicate Signings(s0: Snap, s: Snap) {
    forall i :: |s0.old'| <= i < |s.addresses| ==> Signed(s.items, s.chunks, s.addresses[i].addr, s.owner)
  }

  lemma SigningsStep(s0: Snap, s: Snap, t: Snap, a: nat, l: nat)
    requires Signings(s0, s) && Step(s, t, a, l) && P.GroupsKept(s.chunks, t.chunks)
    requires s.old' == (if |s.addresses| <= |s0.old'| then s0.old'[|s.addresses|..] else [])
    ensures Signings(s0, t)
  {
    hide Signed, SubItems, BlocksOnly, P.AddedFrom, P.GroupsKept;
    forall i | |s0.old'| <= i < |t.addresses|
      ensures Signed(t.items, t.chunks, t.addresses[i].addr, t.owner)
    {
      if i < |s.addresses| {
        SignedStays(s.items, t.items, s.chunks, t.chunks, s.addresses[i].addr, s.owner);
      }
    }
  }

  // Where a pass of `create_trees` stands: the extent items and live blocks, the root's new and
  // remaining old addresses, and the allocator.
  datatype Snap = Snap(items: seq<Item>, live: map<nat, nat>, addresses: seq<Placed>, old': seq<Placed>, done: bool,
                       free: set<int>, chunks: seq<P.Chunk>, changed: bool, owner: RootId)

  ghost predicate SameBooks(s: Snap, t: Snap) {
    s.items == t.items && s.live == t.live
  }

  ghost predicate SamePlan(s: Snap, t: Snap) {
    s.done == t.done && s.free == t.free && s.chunks == t.chunks && s.changed == t.changed
  }

  // One block given an address: the next old one, or when there is none a newly allocated one.
  ghost predicate Step(s: Snap, t: Snap, a: nat, l: nat) {
    && t.addresses == s.addresses + [Placed(a, l)] && t.owner == s.owner
    && SubItems(s.items, t.items) && BlocksOnly(s.items, t.items)
    && (forall b :: b in s.live ==> b in t.live && (b != a ==> t.live[b] == s.live[b]))
    && (forall b :: b in t.live ==> b in s.live || b == a)
    && if s.old' == [] then
         t.old' == [] && t.done && t.free < s.free && a !in s.live && P.AddedFrom(s.chunks, t.chunks)
         && Signed(t.items, t.chunks, a, t.owner)
       else
         && t.old' == s.old'[1..] && s.old'[0].addr == a && SamePlan(s, t) && |t.items| == |s.items|
         && (s.old'[0].level == l ==> SameBooks(s, t))
  }

  predicate Among(ps: seq<Placed>, a: nat) {
    exists i :: 0 <= i < |ps| && ps[i].addr == a
  }

  // Every block so far went back to the address and level that stood at its place.
  predicate Settled(s0: Snap, s: Snap) {
    s.addresses <= s0.old'
  }

  // What any number of steps from the start of a pass amounts to.
  ghost predicate Run(s0: Snap, s: Snap) {
    && SubItems(s0.items, s.items) && BlocksOnly(s0.items, s.items)
    && (forall b :: b in s0.live ==> b in s.live && (!Among(s.addresses, b) ==> s.live[b] == s0.live[b]))
    && (forall b :: b in s.live ==> b in s0.live || Among(s.addresses, b))
    && s.old' == (if |s.addresses| <= |s0.old'| then s0.old'[|s.addresses|..] else [])
    && (forall i :: 0 <= i < |s.addresses| && i < |s0.old'| ==> s.addresses[i].addr == s0.old'[i].addr)
    && (forall i :: |s0.old'| <= i < |s.addresses| ==> s.addresses[i].addr !in s0.live)
    && (if |s.addresses| <= |s0.old'| then SamePlan(s0, s) else s.done && s.free < s0.free)
    && P.AddedFrom(s0.chunks, s.chunks)
    && (Settled(s0, s) ==> SameBooks(s0, s))
    && s.owner == s0.owner && Signings(s0, s)
  }

  lemma RunStart(s: Snap)
    requires s.addresses == []
    ensures Run(s, s)
  {
    SubItemsItself(s.items);
    P.AddedFromItself(s.chunks);
  }

  lemma RunStep(s0: Snap, s: Snap, t: Snap, a: nat, l: nat)
    requires Run(s0, s) && Step(s, t, a, l)
    ensures Run(s0, t)
  {
    hide BlocksOnly, SubItems, P.AddedFrom, Among, Signings, Signed;
    P.AddedFromItself(s.chunks);
    P.AddedGroups(s.chunks, t.chunks);
    SigningsStep(s0, s, t, a, l);
    SubItemsTransitive(s0.items, s.items, t.items);
    BlocksOnlyOn(s0.items, s.items, t.items);
    P.AddedFromTransitive(s0.chunks, s.chunks, t.chunks);
    forall b
      ensures Among(t.addresses, b) <==> Among(s.addresses, b) || b == a
    {
      AmongNext(s.addresses, Placed(a, l), b);
    }
    if Settled(s0, t) {
      assert s.addresses <= t.addresses;
      assert s0.old'[|s.addresses|] == t.addresses[|s.addresses|];
    }
  }

  lemma BlocksOnlyOn(a: seq<Item>, b: seq<Item>, c: seq<Item>)
    requires BlocksOnly(a, b) && BlocksOnly(b, c)
    ensures BlocksOnly(a, c)
  {
    hide Oversized;
  }

  lemma AmongNext(ps: seq<Placed>, p: Placed, b: nat)
    ensures Among(ps + [p], b) <==> Among(ps, b) || b == p.addr
  {
    assert (ps + [p])[|ps|] == p;
    if Among(ps, b) {
      var i :| 0 <= i < |ps| && ps[i].addr == b;
      assert (ps + [p])[i] == ps[i];
    }
  }
}
