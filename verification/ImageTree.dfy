/**
 * The image's EXTENT_DATA items in a tree, and rolling back from what is read there: the items are
 * written by `create_image`, found again by walking the tree, decoded, and resolved through the chunks.
 */
module ImageTree {
  import opened ChunkMath
  import opened ChunkTree
  import opened ImageRollback
  import opened LittleEndian
  import opened Packing
  import opened Protect
  import opened RunLists
  import opened TreeItems
  import opened TreeWalk
  import B = TreeBuilder
  import P = ChunkAllocator
  import RoundTrip

  const EXTENT_DATA: nat := 0x6C

  // `btrfs_file_extent_item`: uncompressed, not encrypted, a regular extent.
  function ExtentData(e: Extent, cs: nat): (d: Bytes)
    ensures |d| == 53
  {
    Le(1, 8) + Le(First(e.len, cs), 8) + [0, 0, 0, 0, 1] + Le(First(e.phys, cs) + P.VIRT, 8)
    + Le(First(e.len, cs), 8) + Le(0, 8) + Le(First(e.len, cs), 8)
  }

  function ImageItem(e: Extent, inode: nat, cs: nat): Item {
    Item(Key(inode, EXTENT_DATA, First(e.off, cs)), ExtentData(e, cs))
  }

  // ----- reading the items -----

  // The bytes that rolling back does not look at: the generation, the length decoded, the place in the extent
  // and the length used of it.
  predicate SaysWhole(d: Bytes, len: nat) {
    && |d| == 53 && Value(d[0..8]) == 1 && Value(d[8..16]) == len && d[16..21] == [0, 0, 0, 0, 1]
    && Value(d[29..37]) == len && Value(d[37..45]) == 0 && Value(d[45..53]) == len
  }

  // In bytes: the place in the image, the logical address and the length.
  datatype Found = Found(off: nat, addr: nat, len: nat)

  datatype Parsed = Extents(found: seq<Found>) | Refused

  // Compressed, inline and unknown extents are refused; preallocated and sparse ones are skipped.
  function ParseOne(x: Item): Parsed {
    if |x.data| < 53 || x.data[16] != 0 then Refused
    else if x.data[20] == 2 then Extents([])
    else if x.data[20] != 1 then Refused
    else if Value(x.data[21..29]) == 0 && Value(x.data[29..37]) == 0 then Extents([])
    else Extents([Found(x.key.offset, Value(x.data[21..29]), Value(x.data[29..37]))])
  }

  predicate IsExtent(x: Item, inode: nat) {
    x.key.obj == inode && x.key.kind == EXTENT_DATA
  }

  // The walk goes on until it is past the inode's extents.
  predicate NotPast(x: Item, inode: nat) {
    !(x.key.obj > inode || (x.key.obj == inode && x.key.kind > EXTENT_DATA))
  }

  // What the tree's items say of the inode's extents, in order.
  function Parse(items: seq<Item>, inode: nat): Parsed {
    if items == [] then Extents([])
    else
      var front := Parse(Front(items), inode);
      if front.Refused? || !IsExtent(Last(items), inode) then front
      else
        var one := ParseOne(Last(items));
        if one.Refused? then Refused else Extents(front.found + one.found)
  }

  // What rolling back cannot process: compressed, inline, or of a type that is not known.
  predicate IsBad(d: Bytes) {
    |d| < 53 || d[16] != 0 || (d[20] != 1 && d[20] != 2)
  }

  // A regular extent that is on the device, and what is to be restored from it.
  predicate IsRegular(x: Item, f: Found) {
    && !IsBad(x.data) && x.data[20] == 1 && f.off == x.key.offset
    && f.addr == Value(x.data[21..29]) && f.len == Value(x.data[29..37]) && (0 < f.addr || 0 < f.len)
  }

  // Any extent that cannot be processed is refused; otherwise exactly the regular ones are found.
  lemma {:induction false} ParseIs(items: seq<Item>, inode: nat, f: Found)
    ensures Parse(items, inode).Refused?
       <==> exists x :: x in items && x.key.obj == inode && x.key.kind == 0x6C && IsBad(x.data)
    ensures Parse(items, inode).Extents? ==>
      (f in Parse(items, inode).found
       <==> exists x :: x in items && x.key.obj == inode && x.key.kind == 0x6C && IsRegular(x, f))
    decreases |items|
  {
    hide Value;
    if items != [] {
      assert items == Front(items) + [Last(items)];
      ParseIs(Front(items), inode, f);
    }
  }

  lemma {:induction false} ParseOthers(items: seq<Item>, more: seq<Item>, inode: nat)
    requires forall x :: x in more ==> !IsExtent(x, inode)
    ensures Parse(items + more, inode) == Parse(items, inode)
    decreases |more|
  {
    if more == [] {
      assert items + more == items;
    } else {
      assert Last(more) in more;
      assert Front(items + more) == items + Front(more) && Last(items + more) == Last(more);
      ParseOthers(items, Front(more), inode);
    }
  }

  // Beyond the item that ends the walk there are no more of the inode's extents.
  lemma NothingPast(items: seq<Item>, i: nat, inode: nat)
    requires Ascending(items) && i < |items| && !NotPast(items[i], inode)
    ensures Parse(items[..i + 1], inode) == Parse(items, inode)
  {
    forall x | x in items[i + 1..]
      ensures !IsExtent(x, inode)
    {
      var j :| i < j < |items| && items[j] == x;
      assert Before(items[i].key, items[j].key);
    }
    ParseOthers(items[..i + 1], items[i + 1..], inode);
    assert items[..i + 1] + items[i + 1..] == items;
  }

  // Walking the image's tree for its extents.
  method ReadExtents(store: Store, addr: nat, inode: nat, ghost level: nat, ghost items: seq<Item>) returns (r: Parsed)
    requires Represents(store, addr, level, items) && Ascending(items)
    ensures r == Parse(items, inode)
  {
    var f := (x: Item) => NotPast(x, inode);
    var visited, go := WalkTree(store, addr, f, level, items);
    r := Extents([]);
    var i: nat := 0;
    while i < |visited|
      invariant i <= |visited| && r.Extents? && r == Parse(visited[..i], inode)
    {
      var x := visited[i];
      assert Front(visited[..i + 1]) == visited[..i];
      if IsExtent(x, inode) {
        var one := ParseOne(x);
        if one.Refused? {
          RefusedStays(visited, i + 1, inode);
          WalkIsWhole(items, visited, go, f, inode);
          return Refused;
        }
        r := Extents(r.found + one.found);
      }
      i := i + 1;
    }
    assert visited[..i] == visited;
    WalkIsWhole(items, visited, go, f, inode);
  }

  lemma {:induction false} RefusedStays(items: seq<Item>, i: nat, inode: nat)
    requires i <= |items| && Parse(items[..i], inode).Refused?
    ensures Parse(items, inode).Refused?
    decreases |items|
  {
    if i < |items| {
      assert items[..i] == Front(items)[..i];
      RefusedStays(Front(items), i, inode);
    } else {
      assert items[..i] == items;
    }
  }

  lemma WalkIsWhole(items: seq<Item>, visited: seq<Item>, go: bool, f: Item -> bool, inode: nat)
    requires Ascending(items) && Visited(items, f, visited, go) && forall x :: f(x) == NotPast(x, inode)
    ensures Parse(visited, inode) == Parse(items, inode)
  {
    if !go {
      var i := |visited| - 1;
      assert visited == items[..i + 1];
      NothingPast(items, i, inode);
    }
  }

  // ----- the image's items are read back -----

  // The inode's extents among the items.
  function ExtentsIn(items: seq<Item>, inode: nat): seq<Item> {
    if items == [] then []
    else ExtentsIn(Front(items), inode) + if IsExtent(Last(items), inode) then [Last(items)] else []
  }

  function ImageItems(extents: seq<Extent>, inode: nat, cs: nat): (s: seq<Item>)
    ensures |s| == |extents| && forall i :: 0 <= i < |s| ==> s[i] == ImageItem(extents[i], inode, cs)
  {
    seq(|extents|, i requires 0 <= i < |extents| => ImageItem(extents[i], inode, cs))
  }

  function InBytes(e: Extent, cs: nat): Found {
    Found(First(e.off, cs), First(e.phys, cs) + P.VIRT, First(e.len, cs))
  }

  function AllInBytes(extents: seq<Extent>, cs: nat): (s: seq<Found>)
    ensures |s| == |extents| && forall i :: 0 <= i < |s| ==> s[i] == InBytes(extents[i], cs)
  {
    seq(|extents|, i requires 0 <= i < |extents| => InBytes(extents[i], cs))
  }

  // Addresses and lengths are 64-bit numbers.
  predicate Words(extents: seq<Extent>, cs: nat) {
    forall e :: e in extents ==>
      First(e.phys, cs) + P.VIRT < 0x1_0000_0000_0000_0000 && First(e.len, cs) < 0x1_0000_0000_0000_0000
  }

  lemma ItemIsRead(e: Extent, inode: nat, cs: nat)
    requires First(e.phys, cs) + P.VIRT < 0x1_0000_0000_0000_0000 && First(e.len, cs) < 0x1_0000_0000_0000_0000
    ensures ParseOne(ImageItem(e, inode, cs)) == Extents([InBytes(e, cs)])
    ensures SaysWhole(ImageItem(e, inode, cs).data, First(e.len, cs))
  {
    hide First, Value, Le;
    var d := ExtentData(e, cs);
    var addr := Le(First(e.phys, cs) + P.VIRT, 8);
    WordFits(First(e.phys, cs) + P.VIRT);
    WordFits(First(e.len, cs));
    ValueOfLe(First(e.phys, cs) + P.VIRT, 8);
    ValueOfLe(First(e.len, cs), 8);
    WordIsRead(1);
    WordIsRead(0);
    assert d[0..8] == Le(1, 8) && d[8..16] == Le(First(e.len, cs), 8) && d[37..45] == Le(0, 8);
    assert d[16..21] == [0, 0, 0, 0, 1] && d[45..53] == Le(First(e.len, cs), 8);
    assert d[21..29] == addr;
    assert d[29..37] == Le(First(e.len, cs), 8);
    assert d[16] == 0 && d[20] == 1;
  }

  lemma {:induction false} ImageIsRead(items: seq<Item>, extents: seq<Extent>, inode: nat, cs: nat)
    requires ExtentsIn(items, inode) == ImageItems(extents, inode, cs) && Words(extents, cs)
    ensures Parse(items, inode) == Extents(AllInBytes(extents, cs))
    decreases |items|
  {
    hide Words, ParseOne, ExtentData, First, SaysWhole, InBytes, IsExtent;
    if items != [] {
      if IsExtent(Last(items), inode) {
        var last := extents[|extents| - 1];
        assert last in extents;
        assert ImageItems(extents[..|extents| - 1], inode, cs) == ExtentsIn(Front(items), inode);
        WordsFront(extents, cs);
        ImageIsRead(Front(items), extents[..|extents| - 1], inode, cs);
        ItemIsRead(last, inode, cs);
        assert AllInBytes(extents, cs) == AllInBytes(extents[..|extents| - 1], cs) + [InBytes(last, cs)];
      } else {
        ImageIsRead(Front(items), extents, inode, cs);
      }
    }
  }

  lemma WordsFront(extents: seq<Extent>, cs: nat)
    requires Words(extents, cs) && extents != []
    ensures Words(extents[..|extents| - 1], cs)
    ensures var e := extents[|extents| - 1];
      First(e.phys, cs) + P.VIRT < 0x1_0000_0000_0000_0000 && First(e.len, cs) < 0x1_0000_0000_0000_0000
  {
    assert extents[|extents| - 1] in extents;
  }

  // ----- resolving and restoring -----

  ghost predicate Located(planned: seq<P.Chunk>, e: Extent, cs: nat) {
    InSome(planned, First(e.phys, cs) + P.VIRT)
  }

  // The extents, resolved to places on the device through the chunks that were read: as they were made, if each
  // is in some chunk.
  method Resolve(found: seq<Found>, chunks: Chunks, cs: nat, ghost extents: seq<Extent>, ghost items: seq<Item>,
                 ghost planned: seq<P.Chunk>)
    returns (ok: bool, resolved: seq<Extent>)
    requires 0 < cs && found == AllInBytes(extents, cs) && ChunksAre(items, planned) && chunks == ChunksOf(items)
    ensures ok <==> forall e :: e in extents ==> Located(planned, e, cs)
    ensures ok ==> resolved == extents
  {
    hide First, Index, ChunksAre, ChunksOf, InSome;
    resolved := [];
    var i: nat := 0;
    while i < |found|
      invariant i <= |found| && resolved == extents[..i]
      invariant forall e :: e in extents[..i] ==> Located(planned, e, cs)
    {
      var f := found[i];
      var physoff := FindAddress(chunks, f.addr, items, planned);
      if physoff.None? {
        assert extents[i] in extents && !Located(planned, extents[i], cs);
        return false, resolved;
      }
      BackToClusters(extents[i], cs);
      resolved := resolved + [Extent(Index(f.off, cs), Index(physoff.value, cs), Index(f.len, cs))];
      assert extents[..i + 1] == extents[..i] + [extents[i]];
      i := i + 1;
    }
    assert extents[..i] == extents;
    ok := true;
  }

  lemma BackToClusters(e: Extent, cs: nat)
    requires 0 < cs
    ensures Index(First(e.off, cs), cs) == e.off && Index(First(e.phys, cs), cs) == e.phys
    ensures Index(First(e.len, cs), cs) == e.len
  {
    IndexIsUnique(First(e.off, cs), cs, e.off);
    IndexIsUnique(First(e.phys, cs), cs, e.phys);
    IndexIsUnique(First(e.len, cs), cs, e.len);
  }

  // A tree on the device: where it begins, and what is in it.
  datatype Tree = Tree(addr: nat, ghost level: nat, ghost items: seq<Item>) {
    ghost predicate On(store: Store) {
      Represents(store, addr, level, items) && Ascending(items)
    }
  }

  // `rollback`, from the chunk tree and the image subvolume's tree: the extents that were written there come
  // back, each is found in the chunks, and the device is restored from them.
  method RollbackFromTree(disk: array<Cluster>, store: Store, chunkTree: Tree, image: Tree, inode: nat, cs: nat,
                          ghost planned: seq<P.Chunk>, ghost extents: seq<Extent>)
    returns (ok: bool)
    requires chunkTree.On(store) && ChunksAre(chunkTree.items, planned) && image.On(store) && 0 < cs
    requires ExtentsIn(image.items, inode) == ImageItems(extents, inode, cs) && Words(extents, cs)
    requires OnDisk(extents, disk.Length) && Disjoint(extents)
    modifies disk
    ensures ok <==> forall e :: e in extents ==> Located(planned, e, cs)
    ensures if ok then RolledBack(old(disk[..]), disk[..], extents) else disk[..] == old(disk[..])
  {
    hide Represents, OnDisk, Disjoint, RolledBack, Words, Located, ChunksAre, ChunksOf;
    var chunks := ReadChunks(store, chunkTree.addr, chunkTree.level, chunkTree.items);
    var parsed := ReadExtents(store, image.addr, inode, image.level, image.items);
    ImageIsRead(image.items, extents, inode, cs);
    var resolved;
    ok, resolved := Resolve(parsed.found, chunks, cs, extents, chunkTree.items, planned);
    if ok {
      Rollback(disk, resolved);
    }
  }

  // A conversion undone from its image's tree: when the image's items are those of the conversion's runs
  // and each of its extents is in a chunk, every used cluster is what it was.
  method RollBackConverted(c: Converter, store: Store, chunkTree: Tree, image: Tree, inode: nat, bound: nat, cs: nat,
                           ghost planned: seq<P.Chunk>)
    returns (ok: bool)
    requires c.Valid() && (forall k :: k in c.runs ==> k < bound)
    requires forall k :: k in c.runs ==> DummiesHaveRelocs(c.runs[k], c.relocs)
    requires chunkTree.On(store) && ChunksAre(chunkTree.items, planned) && image.On(store)
    requires ExtentsIn(image.items, inode) == ImageItems(ImageExtents(c.runs, c.relocs, bound), inode, cs)
    requires 0 < cs && First(c.disk.Length, cs) + P.VIRT < 0x1_0000_0000_0000_0000
    modifies c.disk
    ensures ok <==> forall e :: e in ImageExtents(c.runs, c.relocs, bound) ==> Located(planned, e, cs)
    ensures ok ==> forall x: nat :: Used(c.first, x, c.n) ==> x < c.disk.Length && c.disk[x] == c.d0[x]
  {
    hide Represents, ImageExtents, OnDisk, Disjoint, RolledBack, Words, Located, Kept, Used, ExtentsIn, ChunksAre;
    ghost var before, extents := c.disk[..], ImageExtents(c.runs, c.relocs, bound);
    KeptRuns(c.runs, c.relocs, before, c.first, c.d0, c.n);
    RoundTrip.ImageIsWellFormed(c.runs, c.relocs, before, c.first, c.d0, c.n, bound);
    OnDiskWords(extents, c.disk.Length, cs);
    ok := RollbackFromTree(c.disk, store, chunkTree, image, inode, cs, planned, extents);
    if ok {
      forall x: nat | Used(c.first, x, c.n)
        ensures x < c.disk.Length && c.disk[x] == c.d0[x]
      {
        RoundTrip.UsedIsBack(c.runs, c.relocs, before, c.first, c.d0, c.n, bound, c.disk[..], x);
      }
    }
  }

  lemma OnDiskWords(extents: seq<Extent>, size: nat, cs: nat)
    requires 0 < cs && OnDisk(extents, size) && First(size, cs) + P.VIRT < 0x1_0000_0000_0000_0000
    ensures Words(extents, cs)
  {
    hide First;
    forall e | e in extents
      ensures First(e.phys, cs) <= First(size, cs) && First(e.len, cs) <= First(size, cs)
    {
      NoFurther(e.phys, size, cs);
      NoFurther(e.len, size, cs);
    }
  }

  lemma NoFurther(x: nat, y: nat, cs: nat)
    requires x <= y
    ensures First(x, cs) <= First(y, cs)
  {
    if x < y {
      FirstGrows(x, y, cs);
    }
  }

  // ----- writing the items -----

  // The extents begin one after the other.
  predicate Rising(extents: seq<Extent>) {
    forall i, j :: 0 <= i < j < |extents| ==> extents[i].off < extents[j].off
  }

  // So do those of an image.
  lemma ImageRises(runs: RunMap, relocs: seq<Reloc>, bound: nat, n: nat)
    requires 0 < n && RunsOk(runs, n) && forall k :: k in runs ==> DummiesHaveRelocs(runs[k], relocs)
    ensures Rising(ImageExtents(runs, relocs, bound))
  {
    hide ImageExtents, RunLists.Sorted, DummiesHaveRelocs, First;
    var extents := ImageExtents(runs, relocs, bound);
    RoundTrip.ImageAscends(runs, relocs, bound, n);
    forall i, j | 0 <= i < j < |extents|
      ensures extents[i].off < extents[j].off
    {
      assert extents[i] in extents;
      ExtentIsNotEmpty(runs, relocs, bound, n, extents[i]);
    }
  }

  lemma ExtentIsNotEmpty(runs: RunMap, relocs: seq<Reloc>, bound: nat, n: nat, e: Extent)
    requires 0 < n && RunsOk(runs, n) && (forall k :: k in runs ==> DummiesHaveRelocs(runs[k], relocs))
    requires e in ImageExtents(runs, relocs, bound)
    ensures 0 < e.len
  {
    RoundTrip.ImageIsOfRuns(runs, relocs, bound, e);
    var k: nat :| k < bound && RoundTrip.FromRun(e, runs, relocs, k);
    var a :| a in ListOf(runs, k) && InImage(a) && e == RoundTrip.SafeExtent(a, relocs);
    RoundTrip.RunIsNotEmpty(runs[k], a, First(k, n), First(k, n) + n);
  }

  // The last part of `create_image`: one item for each extent.
  method AddExtents(r: B.Root, extents: seq<Extent>, inode: nat, cs: nat) returns (ok: bool)
    requires 0 < cs && Ascending(r.items) && ExtentsIn(r.items, inode) == [] && Rising(extents)
    modifies r`items
    ensures ok && Ascending(r.items) && ExtentsIn(r.items, inode) == ImageItems(extents, inode, cs)
  {
    hide Ascending, ExtentsIn, Rising, HasKey, HasSlot, Inserted, First;
    ok := true;
    var i: nat := 0;
    assert ImageItems(extents[..0], inode, cs) == [];
    while i < |extents|
      invariant i <= |extents| && ok && Ascending(r.items)
      invariant ExtentsIn(r.items, inode) == ImageItems(extents[..i], inode, cs)
    {
      ghost var items := r.items;
      var x := ImageItem(extents[i], inode, cs);
      NextIsNew(items, extents, i, inode, cs);
      ok := r.AddItem(x);
      NextIsLast(items, extents, i, inode, cs);
      i := i + 1;
    }
    assert extents[..i] == extents;
  }

  lemma {:induction false} ExtentsInHas(items: seq<Item>, inode: nat, x: Item)
    ensures x in ExtentsIn(items, inode) <==> x in items && IsExtent(x, inode)
    decreases |items|
  {
    if items != [] {
      ExtentsInHas(Front(items), inode, x);
      assert items == Front(items) + [Last(items)];
    }
  }

  // The next extent's key is beyond those of the extents before it.
  lemma NextIsNew(items: seq<Item>, extents: seq<Extent>, i: nat, inode: nat, cs: nat)
    requires 0 < cs && Ascending(items) && i < |extents| && Rising(extents)
    requires ExtentsIn(items, inode) == ImageItems(extents[..i], inode, cs)
    ensures var k := ImageItem(extents[i], inode, cs).key;
      !HasSlot(items, k) && !HasKey(items, k)
      && forall x :: x in items && IsExtent(x, inode) ==> x.key.offset < k.offset
  {
    hide Ascending, ExtentsIn, First, ExtentData;
    var k := ImageItem(extents[i], inode, cs).key;
    forall x | x in items && IsExtent(x, inode)
      ensures x.key.offset < k.offset
    {
      ExtentsInHas(items, inode, x);
      EarlierExtent(extents, i, inode, cs, x);
    }
    forall j | 0 <= j < |items|
      ensures Slot(items[j].key) != Slot(k) && items[j].key != k
    {
      assert items[j] in items;
    }
  }

  lemma EarlierExtent(extents: seq<Extent>, i: nat, inode: nat, cs: nat, x: Item)
    requires 0 < cs && i < |extents| && Rising(extents) && x in ImageItems(extents[..i], inode, cs)
    ensures x.key.offset < First(extents[i].off, cs)
  {
    hide First, ExtentData;
    var items := ImageItems(extents[..i], inode, cs);
    var j :| 0 <= j < |items| && items[j] == x;
    assert x == ImageItem(extents[..i][j], inode, cs);
    FirstGrows(extents[j].off, extents[i].off, cs);
  }

  lemma NextIsLast(items: seq<Item>, extents: seq<Extent>, i: nat, inode: nat, cs: nat)
    requires 0 < cs && Ascending(items) && i < |extents|
    requires ExtentsIn(items, inode) == ImageItems(extents[..i], inode, cs)
    requires var k := ImageItem(extents[i], inode, cs).key;
      !HasSlot(items, k) && forall x :: x in items && IsExtent(x, inode) ==> x.key.offset < k.offset
    ensures var x := ImageItem(extents[i], inode, cs);
      Ascending(Inserted(items, x)) && ExtentsIn(Inserted(items, x), inode) == ImageItems(extents[..i + 1], inode, cs)
  {
    hide Ascending, ExtentsIn, First, ExtentData, Rank, Before;
    var x := ImageItem(extents[i], inode, cs);
    InsertedIsAscending(items, x);
    var r := Rank(items, x.key);
    NoneAfter(items, x, r, inode);
    ExtentsJoin(items, r, x, inode);
    assert extents[..i + 1] == extents[..i] + [extents[i]];
    assert ImageItems(extents[..i + 1], inode, cs) == ImageItems(extents[..i], inode, cs) + [x];
  }

  lemma ExtentsJoin(items: seq<Item>, r: nat, x: Item, inode: nat)
    requires r <= |items| && IsExtent(x, inode) && forall y :: y in items[r..] ==> !IsExtent(y, inode)
    ensures ExtentsIn(items[..r] + [x] + items[r..], inode) == ExtentsIn(items, inode) + [x]
  {
    var a, b := items[..r], items[r..];
    assert items == a + b;
    ExtentsOthers(a, b, inode);
    ExtentsOthers(a + [x], b, inode);
    assert Front(a + [x]) == a && Last(a + [x]) == x;
  }

  lemma NoneAfter(items: seq<Item>, x: Item, r: nat, inode: nat)
    requires Ascending(items) && r == Rank(items, x.key) && IsExtent(x, inode)
    requires forall y :: y in items && IsExtent(y, inode) ==> y.key.offset < x.key.offset
    ensures forall y :: y in items[r..] ==> !IsExtent(y, inode)
  {
    hide Ascending, Rank;
    forall y | y in items[r..]
      ensures !IsExtent(y, inode)
    {
      var j :| r <= j < |items| && items[j] == y;
      AfterRank(items, x.key, j);
      assert y in items;
    }
  }

  // An entry at or after the rank of a key does not come before it.
  lemma AfterRank(items: seq<Item>, k: Key, j: nat)
    requires Ascending(items) && Rank(items, k) <= j < |items|
    ensures !Before(items[j].key, k)
  {
    hide Rank;
    if Rank(items, k) < j {
      assert Before(items[Rank(items, k)].key, items[j].key);
    }
  }

  lemma {:induction false} ExtentsOthers(a: seq<Item>, b: seq<Item>, inode: nat)
    requires forall x :: x in b ==> !IsExtent(x, inode)
    ensures ExtentsIn(a + b, inode) == ExtentsIn(a, inode)
    decreases |b|
  {
    if b == [] {
      assert a + b == a;
    } else {
      assert Last(b) in b;
      assert Front(a + b) == a + Front(b) && Last(a + b) == Last(b);
      ExtentsOthers(a, Front(b), inode);
    }
  }
}
