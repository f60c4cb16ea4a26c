/**
 * How a chunk is described: one item in the chunk tree, one in the device tree and one in the extent tree.
 */
module ChunkItems {
  import opened LittleEndian
  import opened TreeItems
  import P = ChunkAllocator

  const CHUNK_ITEM: nat := 0xE4
  const DEV_EXTENT: nat := 0xCC
  const BLOCK_GROUP_ITEM: nat := 0xC0

  function ChunkKey(c: P.Chunk): Key {
    Key(0x100, CHUNK_ITEM, c.offset)
  }

  function DevKey(c: P.Chunk): Key {
    Key(1, DEV_EXTENT, c.diskStart)
  }

  function GroupKey(c: P.Chunk): Key {
    Key(c.offset, BLOCK_GROUP_ITEM, c.length)
  }

  function Flags(kind: P.Kind): nat {
    match kind
    case Data => 1
    case System => 2
    case Metadata => 4
  }

  // `btrfs_chunk`, with its one stripe.
  function ChunkData(c: P.Chunk, devUuid: Bytes): (d: Bytes)
    ensures |d| == 64 + |devUuid|
  {
    Le(c.length, 8) + Le(2, 8) + Le(0x10000, 8) + Le(Flags(c.kind), 8) + Le(0x10000, 4) + Le(0x10000, 4)
    + Le(0x1000, 4) + Le(1, 2) + Le(1, 2) + Le(1, 8) + Le(c.diskStart, 8) + devUuid
  }

  function DevData(c: P.Chunk, chunkUuid: Bytes): (d: Bytes)
    ensures |d| == 32 + |chunkUuid|
  {
    Le(3, 8) + Le(0x100, 8) + Le(c.offset, 8) + Le(c.length, 8) + chunkUuid
  }

  // The bytes in use are filled in afterwards.
  function GroupData(c: P.Chunk): (d: Bytes)
    ensures |d| == 24
  {
    Le(0, 8) + Le(0x100, 8) + Le(Flags(c.kind), 8)
  }

  // ----- what a reader finds in the items -----

  // The bit of a block group's type that names the kind.
  predicate Names(flags: nat, kind: P.Kind) {
    match kind
    case Data => flags == 1
    case System => flags == 2
    case Metadata => flags == 4
  }

  // Length, owner, length of a stripe, type, alignments, sector size, stripes, and the stripe's device and place.
  predicate SaysChunk(d: Bytes, c: P.Chunk) {
    && |d| == 80 && Value(d[0..8]) == c.length && Value(d[8..16]) == 2 && Value(d[16..24]) == 0x10000
    && Names(Value(d[24..32]), c.kind) && d[32..40] == [0, 0, 1, 0, 0, 0, 1, 0] && d[40..44] == [0, 16, 0, 0]
    && d[44..48] == [1, 0, 1, 0] && Value(d[48..56]) == 1 && Value(d[56..64]) == c.diskStart
  }

  predicate SaysDev(d: Bytes, c: P.Chunk) {
    && |d| == 48 && Value(d[0..8]) == 3 && Value(d[8..16]) == 0x100 && Value(d[16..24]) == c.offset
    && Value(d[24..32]) == c.length
  }

  predicate SaysGroup(d: Bytes, c: P.Chunk) {
    |d| == 24 && Value(d[0..8]) == 0 && Value(d[8..16]) == 0x100 && Names(Value(d[16..24]), c.kind)
  }

  predicate IsChunkItem(x: Item, c: P.Chunk) {
    x.key == Key(0x100, 0xE4, c.offset) && SaysChunk(x.data, c)
  }

  predicate IsDevItem(x: Item, c: P.Chunk) {
    x.key == Key(1, 0xCC, c.diskStart) && SaysDev(x.data, c)
  }

  predicate IsGroupItem(x: Item, c: P.Chunk) {
    x.key == Key(c.offset, 0xC0, c.length) && SaysGroup(x.data, c)
  }

  // The numbers of a chunk are 64-bit ones.
  predicate Worded(c: P.Chunk) {
    c.offset < 0x1_0000_0000_0000_0000 && c.length < 0x1_0000_0000_0000_0000 && c.diskStart < 0x1_0000_0000_0000_0000
  }

  lemma ChunkIsSaid(c: P.Chunk, devUuid: Bytes)
    requires Worded(c) && |devUuid| == 16
    ensures IsChunkItem(Item(ChunkKey(c), ChunkData(c, devUuid)), c)
  {
    hide Value, Le;
    WordIsRead(c.length);
    WordIsRead(2);
    WordIsRead(0x10000);
    WordIsRead(Flags(c.kind));
    WordIsRead(1);
    WordIsRead(c.diskStart);
    SmallFields();
    var d := ChunkData(c, devUuid);
    assert d[0..8] == Le(c.length, 8) && d[8..16] == Le(2, 8) && d[16..24] == Le(0x10000, 8);
    assert d[24..32] == Le(Flags(c.kind), 8) && d[48..56] == Le(1, 8) && d[56..64] == Le(c.diskStart, 8);
    assert d[32..40] == Le(0x10000, 4) + Le(0x10000, 4) && d[40..44] == Le(0x1000, 4);
    assert d[44..48] == Le(1, 2) + Le(1, 2);
  }

  lemma SmallFields()
    ensures Le(0x10000, 4) == [0, 0, 1, 0] && Le(0x1000, 4) == [0, 16, 0, 0] && Le(1, 2) == [1, 0]
  {
    assert Le(0, 0) == [] && Le(0, 1) == [0] && Le(0, 2) == [0, 0];
    assert Le(1, 1) == [1] && Le(1, 2) == [1, 0];
    assert Le(0x100, 3) == [0, 1, 0];
    assert Le(16, 3) == [16, 0, 0];
  }

  lemma DevIsSaid(c: P.Chunk, chunkUuid: Bytes)
    requires Worded(c) && |chunkUuid| == 16
    ensures IsDevItem(Item(DevKey(c), DevData(c, chunkUuid)), c)
  {
    hide Value, Le;
    WordIsRead(3);
    WordIsRead(0x100);
    WordIsRead(c.offset);
    WordIsRead(c.length);
    var d := DevData(c, chunkUuid);
    assert d[0..8] == Le(3, 8) && d[8..16] == Le(0x100, 8) && d[16..24] == Le(c.offset, 8);
    assert d[24..32] == Le(c.length, 8);
  }

  lemma GroupIsSaid(c: P.Chunk)
    ensures IsGroupItem(Item(GroupKey(c), GroupData(c)), c)
  {
    hide Value, Le;
    WordIsRead(0);
    WordIsRead(0x100);
    WordIsRead(Flags(c.kind));
    var d := GroupData(c);
    assert d[0..8] == Le(0, 8) && d[8..16] == Le(0x100, 8) && d[16..24] == Le(Flags(c.kind), 8);
  }

  // ----- the three trees -----

  // The chunk is described in all three trees.
  ghost predicate Filed(c: P.Chunk, e: seq<Item>, ch: seq<Item>, d: seq<Item>) {
    && (exists x :: x in ch && IsChunkItem(x, c))
    && (exists x :: x in d && IsDevItem(x, c))
    && (exists x :: x in e && IsGroupItem(x, c))
  }

  lemma FiledStays(c: P.Chunk, c': P.Chunk, e: seq<Item>, e': seq<Item>, ch: seq<Item>, ch': seq<Item>, d: seq<Item>,
                   d': seq<Item>)
    requires Filed(c, e, ch, d) && P.SameGroup(c, c') && Lasting(e, e') && Lasting(ch, ch') && Lasting(d, d')
    ensures Filed(c', e', ch', d')
  {
    hide SaysChunk, SaysDev, SaysGroup;
    var x :| x in ch && IsChunkItem(x, c);
    SameSaid(x.data, c, c');
    assert x in ch' && IsChunkItem(x, c');
    var y :| y in d && IsDevItem(y, c);
    SameSaid(y.data, c, c');
    assert y in d' && IsDevItem(y, c');
    var z :| z in e && IsGroupItem(z, c);
    SameSaid(z.data, c, c');
    assert z in e' && IsGroupItem(z, c');
  }

  lemma SameSaid(d: Bytes, c: P.Chunk, c': P.Chunk)
    requires P.SameGroup(c, c')
    ensures SaysChunk(d, c) == SaysChunk(d, c') && SaysDev(d, c) == SaysDev(d, c')
    ensures SaysGroup(d, c) == SaysGroup(d, c')
  {
  }

  predicate ChunkIsIn(x: Item, chunks: seq<P.Chunk>) {
    exists c :: c in chunks && IsChunkItem(x, c)
  }

  predicate DevIsIn(x: Item, chunks: seq<P.Chunk>) {
    exists c :: c in chunks && IsDevItem(x, c)
  }

  predicate GroupIsIn(x: Item, chunks: seq<P.Chunk>) {
    exists c :: c in chunks && IsGroupItem(x, c)
  }

  // Every item about a chunk describes one of these.
  ghost predicate OnlyThese(chunks: seq<P.Chunk>, e: seq<Item>, ch: seq<Item>, d: seq<Item>) {
    && (forall x :: x in ch && x.key.kind == 0xE4 ==> ChunkIsIn(x, chunks))
    && (forall x :: x in d && x.key.kind == 0xCC ==> DevIsIn(x, chunks))
    && (forall x :: x in e && x.key.kind == 0xC0 ==> GroupIsIn(x, chunks))
  }

  lemma SameKeySameItem(items: seq<Item>, x: Item, y: Item)
    requires Ascending(items) && x in items && y in items && x.key == y.key
    ensures x == y
  {
    var i :| 0 <= i < |items| && items[i] == x;
    var j :| 0 <= j < |items| && items[j] == y;
    SameSlotIsSame(items, i, j);
  }
}
