/**
 * The chunks as a reader has them: collected from the chunk tree, searched for an address, and the address
 * resolved to a place on the device.
 */
module ChunkTree {
  import opened ChunkItems
  import opened LittleEndian
  import opened Options
  import opened Packing
  import opened Shifts
  import opened TreeItems
  import opened TreeWalk
  import P = ChunkAllocator

  const WORD: nat := 0x1_0000_0000_0000_0000

  // Descriptions by the address the chunk begins at.
  type Chunks = map<nat, Bytes>

  // An address that is there already keeps its description.
  function Entered(chunks: Chunks, x: Item): Chunks {
    if x.key.kind != CHUNK_ITEM || x.key.offset in chunks then chunks else chunks[x.key.offset := x.data]
  }

  function ChunksOf(items: seq<Item>): Chunks {
    if items == [] then map[] else Entered(ChunksOf(Front(items)), Last(items))
  }

  // The last part of `read_chunks`.
  method ReadChunks(store: Store, addr: nat, ghost level: nat, ghost items: seq<Item>) returns (chunks: Chunks)
    requires Represents(store, addr, level, items)
    ensures chunks == ChunksOf(items)
  {
    var visited, go := WalkTree(store, addr, x => true, level, items);
    assert visited == items;
    chunks := map[];
    var i: nat := 0;
    while i < |visited|
      invariant i <= |visited| && chunks == ChunksOf(visited[..i])
    {
      assert Front(visited[..i + 1]) == visited[..i];
      chunks := Entered(chunks, visited[i]);
      i := i + 1;
    }
    assert visited[..i] == visited;
  }

  // The address lies within the chunk as described; the end is a 64-bit sum.
  predicate Spans(k: nat, d: Bytes, addr: nat)
    requires |d| == 80
  {
    k <= addr < (k + Value(d[0..8])) % WORD
  }

  // Every description is a whole one, with one stripe.
  predicate AllWhole(chunks: Chunks) {
    forall k :: k in chunks ==> |chunks[k]| == 80
  }

  // `find_chunk`: the first in order that has the address.
  method FindChunk(chunks: Chunks, addr: nat) returns (r: Option<nat>)
    requires AllWhole(chunks)
    ensures r.Some? ==> r.value in chunks && Spans(r.value, chunks[r.value], addr)
    ensures forall k :: k in chunks && Spans(k, chunks[k], addr) ==> r.Some? && r.value <= k
  {
    var rest := chunks.Keys;
    while rest != {}
      invariant rest <= chunks.Keys
      invariant forall k :: k in chunks && k !in rest ==> !Spans(k, chunks[k], addr)
    {
      ghost var least := LeastOf(rest);
      var k :| k in rest && forall j :: j in rest ==> k <= j;
      if Spans(k, chunks[k], addr) {
        return Some(k);
      }
      rest := rest - {k};
    }
    r := None;
  }

  lemma {:induction false} LeastOf(s: set<nat>) returns (k: nat)
    requires s != {}
    ensures k in s && forall j :: j in s ==> k <= j
    decreases |s|
  {
    var x :| x in s;
    k := x;
    var t := s - {x};
    if t != {} {
      var l := LeastOf(t);
      k := if l < x then l else x;
    }
    assert forall j :: j in s ==> j == x || j in t;
  }

  // None of the bits for RAID0, RAID1, DUP, RAID10, RAID5, RAID6, RAID1C3 and RAID1C4 is set.
  predicate IsSingle(flags: nat) {
    forall k :: 3 <= k < 11 ==> Shr(flags, k) % 2 == 0
  }

  lemma SmallIsSingle(flags: nat)
    requires flags < 8
    ensures IsSingle(flags)
  {
    Pow2Literals();
    forall k | 3 <= k < 11
      ensures Shr(flags, k) == 0
    {
      Pow2Monotone(3, k);
      ShrBelow(flags, k, 0);
    }
  }

  // The chunk that is found for the address.
  predicate IsFirst(chunks: Chunks, k: nat, addr: nat)
    requires AllWhole(chunks)
  {
    && k in chunks && Spans(k, chunks[k], addr)
    && forall j :: j in chunks && Spans(j, chunks[j], addr) ==> k <= j
  }

  predicate PlaceIs(k: nat, d: Bytes, addr: nat, place: nat) {
    |d| == 80 && Spans(k, d, addr) && IsSingle(Value(d[24..32])) && place == (addr - k + Value(d[56..64])) % WORD
  }

  // Where an address is on the device, if it is in a chunk and the chunk is of a kind that can be read.
  method ResolveAddress(chunks: Chunks, addr: nat) returns (r: Option<nat>)
    requires AllWhole(chunks)
    ensures r.Some? <==> exists k :: IsFirst(chunks, k, addr) && IsSingle(Value(chunks[k][24..32]))
    ensures r.Some? ==> exists k :: IsFirst(chunks, k, addr) && PlaceIs(k, chunks[k], addr, r.value)
  {
    hide IsSingle, Value, Spans;
    var k := FindChunk(chunks, addr);
    if k == None {
      return None;
    }
    assert IsFirst(chunks, k.value, addr);
    if !IsSingle(Value(chunks[k.value][24..32])) {
      return None;
    }
    r := Some((addr - k.value + Value(chunks[k.value][56..64])) % WORD);
    assert PlaceIs(k.value, chunks[k.value], addr, r.value) by {
      SpansFrom(k.value, chunks[k.value], addr);
    }
  }

  lemma SpansFrom(k: nat, d: Bytes, addr: nat)
    requires |d| == 80 && Spans(k, d, addr)
    ensures k <= addr
  {
  }

  // ----- the planner's chunks are read back -----

  // The items describe these chunks and no others.
  ghost predicate ChunksAre(items: seq<Item>, planned: seq<P.Chunk>) {
    && Ascending(items)
    && (forall c :: c in planned ==> c.offset == c.diskStart + P.VIRT && c.offset + c.length < WORD)
    && (forall c :: c in planned ==> HasChunk(items, c))
    && (forall x :: x in items && x.key.kind == 0xE4 ==> ChunkIsIn(x, planned))
  }

  predicate HasChunk(items: seq<Item>, c: P.Chunk) {
    exists x :: x in items && IsChunkItem(x, c)
  }

  lemma {:induction false} ChunkIsOfItem(items: seq<Item>, k: nat)
    requires k in ChunksOf(items)
    ensures exists x :: x in items && x.key.kind == CHUNK_ITEM && x.key.offset == k && x.data == ChunksOf(items)[k]
    decreases |items|
  {
    assert items == Front(items) + [Last(items)];
    if k in ChunksOf(Front(items)) {
      ChunkIsOfItem(Front(items), k);
    } else {
      assert Last(items) in items;
    }
  }

  lemma {:induction false} ItemIsEntered(items: seq<Item>, x: Item)
    requires x in items && x.key.kind == CHUNK_ITEM
    ensures x.key.offset in ChunksOf(items)
    decreases |items|
  {
    assert items == Front(items) + [Last(items)];
    if x in Front(items) {
      ItemIsEntered(Front(items), x);
    }
  }

  // Each chunk that was read is one of those that were planned, and says so.
  lemma ReadIsPlanned(items: seq<Item>, planned: seq<P.Chunk>, k: nat)
    returns (c: P.Chunk)
    requires ChunksAre(items, planned) && k in ChunksOf(items)
    ensures c in planned && c.offset == k && SaysChunk(ChunksOf(items)[k], c)
  {
    hide Ascending, SaysChunk, ChunksOf;
    ChunkIsOfItem(items, k);
    var x :| x in items && x.key.kind == CHUNK_ITEM && x.key.offset == k && x.data == ChunksOf(items)[k];
    assert ChunkIsIn(x, planned);
    c :| c in planned && IsChunkItem(x, c);
  }

  lemma PlannedIsRead(items: seq<Item>, planned: seq<P.Chunk>, c: P.Chunk)
    requires ChunksAre(items, planned) && c in planned
    ensures c.offset in ChunksOf(items) && SaysChunk(ChunksOf(items)[c.offset], c)
  {
    hide Ascending, SaysChunk, ChunksOf;
    assert HasChunk(items, c);
    var x :| x in items && IsChunkItem(x, c);
    ItemIsEntered(items, x);
    ChunkIsOfItem(items, c.offset);
    var y :|
      y in items && y.key.kind == CHUNK_ITEM && y.key.offset == c.offset && y.data == ChunksOf(items)[c.offset];
    assert ChunkIsIn(y, planned);
    SameKeySameItem(items, x, y);
  }

  lemma AllAreWhole(items: seq<Item>, planned: seq<P.Chunk>)
    requires ChunksAre(items, planned)
    ensures AllWhole(ChunksOf(items))
  {
    hide ChunksAre, ChunksOf;
    forall k | k in ChunksOf(items)
      ensures |ChunksOf(items)[k]| == 80
    {
      var c := ReadIsPlanned(items, planned, k);
    }
  }

  ghost predicate InSome(planned: seq<P.Chunk>, addr: nat) {
    exists c :: c in planned && c.HasAddr(addr)
  }

  // What is read of a planned chunk spans its addresses, and says of each where it is.
  lemma SaysWhere(d: Bytes, c: P.Chunk, addr: nat)
    requires SaysChunk(d, c) && c.offset == c.diskStart + P.VIRT && c.offset + c.length < WORD
    ensures Spans(c.offset, d, addr) <==> c.HasAddr(addr)
    ensures IsSingle(Value(d[24..32]))
    ensures forall place :: PlaceIs(c.offset, d, addr, place) ==> place == addr - P.VIRT
  {
    SmallIsSingle(Value(d[24..32]));
    hide Value, IsSingle;
  }

  // Reading the chunk tree and finding an address there: it is found exactly when it is in one of the chunks,
  // and its place is that much before the address.
  method FindAddress(chunks: Chunks, addr: nat, ghost items: seq<Item>, ghost planned: seq<P.Chunk>)
    returns (r: Option<nat>)
    requires ChunksAre(items, planned) && chunks == ChunksOf(items)
    ensures r.Some? <==> InSome(planned, addr)
    ensures r.Some? ==> P.VIRT <= addr && r.value == addr - P.VIRT
  {
    hide ChunksAre, ChunksOf, Spans, IsSingle, SaysChunk, PlaceIs, Value, AllWhole;
    AllAreWhole(items, planned);
    r := ResolveAddress(chunks, addr);
    if r.Some? {
      var k :| IsFirst(chunks, k, addr) && PlaceIs(k, chunks[k], addr, r.value);
      ghost var c := ReadIsPlanned(items, planned, k);
      PlannedIsPlaced(items, planned, c);
      SaysWhere(chunks[k], c, addr);
    } else if InSome(planned, addr) {
      ghost var c :| c in planned && c.HasAddr(addr);
      PlannedIsRead(items, planned, c);
      PlannedIsPlaced(items, planned, c);
      SaysWhere(chunks[c.offset], c, addr);
      ghost var k := FirstOf(chunks, c.offset, addr);
      ghost var b := ReadIsPlanned(items, planned, k);
      PlannedIsPlaced(items, planned, b);
      SaysWhere(chunks[k], b, addr);
    }
  }

  lemma FirstOf(chunks: Chunks, k: nat, addr: nat) returns (f: nat)
    requires AllWhole(chunks) && k in chunks && Spans(k, chunks[k], addr)
    ensures IsFirst(chunks, f, addr)
  {
    hide Spans;
    var those := set j | j in chunks && Spans(j, chunks[j], addr);
    assert k in those;
    f := LeastOf(those);
    forall j | j in chunks && Spans(j, chunks[j], addr)
      ensures f <= j
    {
      assert j in those;
    }
  }

  lemma PlannedIsPlaced(items: seq<Item>, planned: seq<P.Chunk>, c: P.Chunk)
    requires ChunksAre(items, planned) && c in planned
    ensures c.offset == c.diskStart + P.VIRT && c.offset + c.length < WORD
  {
  }
}
