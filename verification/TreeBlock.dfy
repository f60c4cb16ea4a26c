/**
 * The inside of a tree block. Item headers grow up from the block header, item data grows down
 * from the end; a byte of the block is kept together with what was stored there, so that a
 * header or data overwritten by the other could not be read back.
 */
module TreeBlock {
  import opened Packing
  import opened TreeItems
  import Bitstream

  const KEY_PTR_SIZE: nat := 33  // bytes of a key pointer

  datatype Head = Head(key: Key, offset: nat, size: nat)

  datatype Pointer = Pointer(key: Key, addr: nat)

  datatype Cell = Zero | HeadByte(head: Head, j: nat) | DataByte(b: Bitstream.byte) | PointerByte(pointer: Pointer,
                                  k: nat)

  // A finished block: its address, level and count from the header, and the rest of it.
  datatype Block = Block(addr: nat, level: nat, count: nat, area: seq<Cell>)

  predicate HasHead(area: seq<Cell>, i: nat, h: Head) {
    25 * (i + 1) <= |area| && forall j :: 0 <= j < HEAD ==> area[25 * i + j] == HeadByte(h, j)
  }

  predicate HasData(area: seq<Cell>, off: int, data: Bytes) {
    0 <= off && off + |data| <= |area| && forall j :: 0 <= j < |data| ==> area[off + j] == DataByte(data[j])
  }

  predicate HasPointer(area: seq<Cell>, i: nat, p: Pointer) {
    33 * (i + 1) <= |area| && forall j :: 0 <= j < KEY_PTR_SIZE ==> area[33 * i + j] == PointerByte(p, j)
  }

  function DataSize(items: seq<Item>): nat {
    if items == [] then 0 else DataSize(Front(items)) + |Last(items).data|
  }

  lemma {:induction false} RoomIsHeadsAndData(items: seq<Item>)
    ensures Sum(Weights(items, Space)) == 25 * |items| + DataSize(items)
  {
    if items != [] {
      RoomIsHeadsAndData(Front(items));
      WeightsNext(Front(items), Last(items), Space);
      assert items == Front(items) + [Last(items)];
    }
  }

  lemma {:induction false} DataSizeGrows(items: seq<Item>, n: nat)
    requires n <= |items|
    ensures DataSize(items[..n]) <= DataSize(items)
    decreases |items|
  {
    if n < |items| {
      DataSizeGrows(Front(items), n);
      assert Front(items)[..n] == items[..n];
    } else {
      assert items[..n] == items;
    }
  }

  // Where the data of item `i` begins.
  function DataStart(items: seq<Item>, i: nat): int
    requires i < |items|
  {
    AREA - DataSize(items[..i + 1])
  }

  predicate HoldsItem(area: seq<Cell>, i: nat, x: Item, start: int) {
    && 0 <= start
    && HasHead(area, i, Head(x.key, start, |x.data|))
    && HasData(area, start, x.data)
  }

  // The area of a leaf with these items: headers and data in place, clear of each other.
  predicate HoldsLeaf(area: seq<Cell>, items: seq<Item>) {
    && |area| == AREA
    && 25 * |items| + DataSize(items) <= AREA
    && forall i :: 0 <= i < |items| ==> HoldsItem(area, i, items[i], DataStart(items, i))
  }

  predicate HoldsNode(area: seq<Cell>, ptrs: seq<Pointer>) {
    |area| == AREA && 33 * |ptrs| <= AREA && forall i :: 0 <= i < |ptrs| ==> HasPointer(area, i, ptrs[i])
  }

  lemma HeldItemIsClear(items: seq<Item>, i: nat)
    requires i < |items| && 25 * |items| + DataSize(items) <= AREA
    ensures 25 * |items| <= AREA - DataSize(items) <= DataStart(items, i)
    ensures DataStart(items, i) + |items[i].data| <= AREA
  {
    DataSizeGrows(items, i + 1);
    assert Front(items[..i + 1]) == items[..i];
  }

  // The part of the area that already holds something is the same in both.
  predicate Agree(area: seq<Cell>, area': seq<Cell>, head: nat, data: int) {
    |area| == |area'| == AREA
    && forall k :: 0 <= k < AREA && (k < head || data <= k) ==> area'[k] == area[k]
  }

  // One more header and one more piece of data disturb nothing that was there.
  lemma HoldsNext(area: seq<Cell>, area': seq<Cell>, items: seq<Item>, x: Item)
    requires HoldsLeaf(area, items) && |area'| == AREA && Agree(area, area', 25 * |items|, AREA - DataSize(items))
    requires 25 * (|items| + 1) + DataSize(items) + |x.data| <= AREA
    requires HoldsItem(area', |items|, x, AREA - DataSize(items) - |x.data|)
    ensures HoldsLeaf(area', items + [x])
  {
    hide HoldsItem, Agree, DataSize, DataStart;
    var items' := items + [x];
    DataSizeNext(items, x);
    forall i | 0 <= i < |items'|
      ensures HoldsItem(area', i, items'[i], DataStart(items', i))
    {
      StartStays(items, x, i);
      if i < |items| {
        assert HoldsItem(area, i, items[i], DataStart(items, i));
        HeldItemIsClear(items, i);
        HeldItemStays(area, area', i, items[i], DataStart(items, i), |items|, AREA - DataSize(items));
      }
    }
  }

  lemma StartStays(items: seq<Item>, x: Item, i: nat)
    requires i <= |items|
    ensures DataStart(items + [x], i) == if i < |items| then DataStart(items, i) else AREA - DataSize(items) - |x.data|
  {
    var items' := items + [x];
    if i < |items| {
      assert items'[..i + 1] == items[..i + 1];
    } else {
      assert items'[..i + 1] == items';
      DataSizeNext(items, x);
    }
  }

  lemma DataSizeNext(items: seq<Item>, x: Item)
    ensures DataSize(items + [x]) == DataSize(items) + |x.data|
  {
    assert Front(items + [x]) == items;
  }

  lemma HeldItemStays(area: seq<Cell>, area': seq<Cell>, i: nat, x: Item, start: int, n: nat, data: int)
    requires i < n && HoldsItem(area, i, x, start) && Agree(area, area', 25 * n, data) && data <= start
    requires start + |x.data| <= AREA && 25 * n <= AREA
    ensures HoldsItem(area', i, x, start)
  {
    var h := Head(x.key, start, |x.data|);
    forall j | 0 <= j < |x.data|
      ensures area'[start + j] == DataByte(x.data[j])
    {
      assert area[start + j] == DataByte(x.data[j]);
    }
    forall j | 0 <= j < HEAD
      ensures area'[25 * i + j] == HeadByte(h, j)
    {
      assert area[25 * i + j] == HeadByte(h, j);
    }
  }

  lemma NodeNext(area: seq<Cell>, area': seq<Cell>, ptrs: seq<Pointer>, p: Pointer)
    requires HoldsNode(area, ptrs) && |area'| == AREA && 33 * (|ptrs| + 1) <= AREA
    requires HasPointer(area', |ptrs|, p)
    requires forall k :: 0 <= k < 33 * |ptrs| ==> area'[k] == area[k]
    ensures HoldsNode(area', ptrs + [p])
  {
    forall i | 0 <= i < |ptrs|
      ensures HasPointer(area', i, ptrs[i])
    {
      assert HasPointer(area, i, ptrs[i]);
      assert 33 * (i + 1) <= 33 * |ptrs|;
      forall j | 0 <= j < KEY_PTR_SIZE
        ensures area'[33 * i + j] == PointerByte(ptrs[i], j)
      {
        assert area[33 * i + j] == PointerByte(ptrs[i], j);
      }
    }
  }

  // The buffer `create_trees` fills, with its running `num_items`, `space_left` and `data_off`.
  class Buffer {
    var cells: array<Cell>
    var numItems: nat
    var spaceLeft: nat
    var dataOff: nat

    ghost predicate Leaf(items: seq<Item>)
      reads this, cells
    {
      && HoldsLeaf(cells[..], items) && numItems == |items|
      && dataOff == AREA - DataSize(items)
      && spaceLeft == AREA - Sum(Weights(items, Space))
    }

    ghost predicate Node(ptrs: seq<Pointer>)
      reads this, cells
    {
      HoldsNode(cells[..], ptrs) && numItems == |ptrs| && spaceLeft == AREA - 33 * |ptrs|
    }

    constructor ()
      ensures Leaf([]) && Node([]) && fresh(cells)
    {
      cells := new Cell[AREA](_ => Zero);
      numItems, spaceLeft, dataOff := 0, AREA, AREA;
    }

    // `memset` and the resets that go with it.
    method Clear()
      requires |cells[..]| == AREA
      modifies this, cells
      ensures Leaf([]) && Node([]) && cells == old(cells)
    {
      forall k | 0 <= k < AREA {
        cells[k] := Zero;
      }
      numItems, spaceLeft, dataOff := 0, AREA, AREA;
    }

    method AddItem(x: Item, ghost items: seq<Item>)
      requires Leaf(items) && Space(x) <= spaceLeft
      modifies this, cells
      ensures Leaf(items + [x]) && cells == old(cells)
    {
      RoomIsHeadsAndData(items);
      WeightsNext(items, x, Space);
      DataSizeNext(items, x);
      hide HoldsItem, Agree, DataSize, Sum;
      var off := dataOff - |x.data|;
      ghost var area := cells[..];
      WriteItem(x, off, numItems);
      HoldsNext(area, cells[..], items, x);
      dataOff, numItems, spaceLeft := off, numItems + 1, spaceLeft - Space(x);
    }

    // The header goes to slot `n` and the data to `off`.
    method WriteItem(x: Item, off: nat, n: nat)
      requires cells.Length == AREA && 25 * (n + 1) <= off && off + |x.data| <= AREA
      modifies cells
      ensures HoldsItem(cells[..], n, x, off)
      ensures Agree(old(cells[..]), cells[..], 25 * n, off + |x.data|)
    {
      var h, at := Head(x.key, off, |x.data|), 25 * n;
      forall k | 0 <= k < |x.data| {
        cells[off + k] := DataByte(x.data[k]);
      }
      forall j | 0 <= j < HEAD {
        cells[at + j] := HeadByte(h, j);
      }
      assert HasHead(cells[..], n, h);
    }

    method AddPointer(p: Pointer, ghost ptrs: seq<Pointer>)
      requires Node(ptrs) && KEY_PTR_SIZE <= spaceLeft
      modifies this, cells
      ensures Node(ptrs + [p]) && cells == old(cells)
    {
      ghost var area := cells[..];
      var at := 33 * numItems;
      forall j | 0 <= j < KEY_PTR_SIZE {
        cells[at + j] := PointerByte(p, j);
      }
      assert HasPointer(cells[..], |ptrs|, p);
      NodeNext(area, cells[..], ptrs, p);
      numItems, spaceLeft := numItems + 1, spaceLeft - KEY_PTR_SIZE;
    }
  }

  predicate IsLeaf(b: Block, items: seq<Item>) {
    b.level == 0 && b.count == |items| && HoldsLeaf(b.area, items)
  }

  predicate IsNode(b: Block, ptrs: seq<Pointer>) {
    0 < b.level && b.count == |ptrs| && HoldsNode(b.area, ptrs)
  }

  // What a reader finds at header `i`.
  function HeadOf(area: seq<Cell>, i: nat): Head
    requires 25 * i < |area| && area[25 * i].HeadByte?
  {
    area[25 * i].head
  }

  // Reading back: the header and data of item `i`, as `walk_tree` finds them.
  method ReadItem(b: Block, i: nat, ghost items: seq<Item>) returns (x: Item)
    requires IsLeaf(b, items) && i < b.count
    ensures x == items[i]
  {
    assert HoldsItem(b.area, i, items[i], DataStart(items, i));
    assert b.area[25 * i + 0] == HeadByte(Head(items[i].key, DataStart(items, i), |items[i].data|), 0);
    var h := HeadOf(b.area, i);
    var data: Bytes := [];
    while |data| < h.size
      invariant |data| <= h.size && data == items[i].data[..|data|]
    {
      assert b.area[h.offset + |data|] == DataByte(items[i].data[|data|]);
      data := data + [b.area[h.offset + |data|].b];
    }
    x := Item(h.key, data);
  }

  method ReadPointer(b: Block, i: nat, ghost ptrs: seq<Pointer>) returns (p: Pointer)
    requires IsNode(b, ptrs) && i < b.count
    ensures p == ptrs[i]
  {
    assert HasPointer(b.area, i, ptrs[i]);
    assert b.area[33 * i + 0] == PointerByte(ptrs[i], 0);
    p := b.area[33 * i].pointer;
  }

  // A block can be read as one list of items only.
  lemma LeafIsUnique(b: Block, xs: seq<Item>, ys: seq<Item>)
    requires IsLeaf(b, xs) && IsLeaf(b, ys)
    ensures xs == ys
  {
    forall i | 0 <= i < |xs|
      ensures xs[i] == ys[i]
    {
      assert HoldsItem(b.area, i, xs[i], DataStart(xs, i)) && HoldsItem(b.area, i, ys[i], DataStart(ys, i));
      assert b.area[25 * i + 0] == HeadByte(Head(xs[i].key, DataStart(xs, i), |xs[i].data|), 0);
      assert b.area[25 * i + 0] == HeadByte(Head(ys[i].key, DataStart(ys, i), |ys[i].data|), 0);
      var off := DataStart(xs, i);
      assert off == DataStart(ys, i);
      forall j | 0 <= j < |xs[i].data|
        ensures xs[i].data[j] == ys[i].data[j]
      {
        assert b.area[off + j] == DataByte(xs[i].data[j]);
        assert b.area[off + j] == DataByte(ys[i].data[j]);
      }
    }
  }
}
