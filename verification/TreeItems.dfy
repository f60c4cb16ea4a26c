/**
 * The item map of a tree: entries in key order. A METADATA_ITEM's level is part of its key, and the
 * planner changes it in place, so an entry is identified by its key without that level: its slot.
 */
module TreeItems {
  import opened Packing
  import Bitstream

  type Bytes = seq<Bitstream.byte>

  const METADATA_ITEM: nat := 0xA9
  const AREA: nat := 16283  // 0x4000 bytes less the header's 101
  const HEAD: nat := 25      // bytes of an item header

  datatype Key = Key(obj: nat, kind: nat, offset: nat)

  datatype Item = Item(key: Key, data: Bytes)

  // The order of `btrfs_key`.
  predicate Less(a: Key, b: Key) {
    a.obj < b.obj || (a.obj == b.obj && (a.kind < b.kind || (a.kind == b.kind && a.offset < b.offset)))
  }

  function Slot(k: Key): Key {
    if k.kind == METADATA_ITEM then k.(offset := 0) else k
  }

  predicate Before(a: Key, b: Key) {
    Less(Slot(a), Slot(b))
  }

  // One entry per slot, in order; so the keys are in order too.
  predicate Ascending(items: seq<Item>) {
    forall i, j :: 0 <= i < j < |items| ==> Before(items[i].key, items[j].key)
  }

  predicate HasKey(items: seq<Item>, k: Key) {
    exists i :: 0 <= i < |items| && items[i].key == k
  }

  predicate HasSlot(items: seq<Item>, k: Key) {
    exists i :: 0 <= i < |items| && Slot(items[i].key) == Slot(k)
  }

  // How many entries come before `k`.
  function Rank(items: seq<Item>, k: Key): (r: nat)
    ensures r <= |items|
    ensures forall i :: 0 <= i < r ==> Before(items[i].key, k)
    ensures r < |items| ==> !Before(items[r].key, k)
  {
    if items == [] || !Before(items[0].key, k) then 0 else 1 + Rank(items[1..], k)
  }

  // How many entries come before `k` or share its slot: where an iterator standing on `k` goes next.
  function Past(items: seq<Item>, k: Key): (r: nat)
    ensures r <= |items|
    ensures forall i :: 0 <= i < r ==> !Before(k, items[i].key)
    ensures r < |items| ==> Before(k, items[r].key)
  {
    if items == [] || Before(k, items[0].key) then 0 else 1 + Past(items[1..], k)
  }

  function Inserted(items: seq<Item>, x: Item): seq<Item> {
    items[..Rank(items, x.key)] + [x] + items[Rank(items, x.key)..]
  }

  lemma InsertedIsAscending(items: seq<Item>, x: Item)
    requires Ascending(items) && !HasSlot(items, x.key)
    ensures Ascending(Inserted(items, x))
    ensures forall k :: HasKey(Inserted(items, x), k) <==> HasKey(items, k) || k == x.key
  {
    var r, new' := Rank(items, x.key), Inserted(items, x);
    forall i, j | 0 <= i < j < |new'|
      ensures Before(new'[i].key, new'[j].key)
    {
      var a, b := if i < r then i else i - 1, if j < r then j else j - 1;
      if i == r {
        RanksAfter(items, x.key, b);
      } else if j != r {
        assert Before(items[a].key, items[b].key);
      }
    }
    forall k
      ensures HasKey(new', k) <==> HasKey(items, k) || k == x.key
    {
      InsertedKeys(items, x, k);
    }
  }

  lemma RanksAfter(items: seq<Item>, k: Key, j: nat)
    requires Ascending(items) && !HasSlot(items, k) && Rank(items, k) <= j < |items|
    ensures Before(k, items[j].key)
  {
    var r := Rank(items, k);
    assert Slot(items[r].key) != Slot(k);
    if r < j {
      assert Before(items[r].key, items[j].key);
    }
  }

  lemma InsertedKeys(items: seq<Item>, x: Item, k: Key)
    ensures HasKey(Inserted(items, x), k) <==> HasKey(items, k) || k == x.key
  {
    hide Before, Rank;
    var r, new' := Rank(items, x.key), Inserted(items, x);
    assert new'[r] == x;
    if HasKey(items, k) {
      var i :| 0 <= i < |items| && items[i].key == k;
      assert new'[if i < r then i else i + 1] == items[i];
    }
    if HasKey(new', k) {
      var i :| 0 <= i < |new'| && new'[i].key == k;
      assert i == r || items[if i < r then i else i - 1].key == k;
    }
  }

  // The entry at `i` under another level: what erasing and inserting it again amounts to.
  function Rekeyed(items: seq<Item>, i: nat, k: Key): seq<Item>
    requires i < |items|
  {
    items[i := items[i].(key := k)]
  }

  lemma RankIsUnique(items: seq<Item>, k: Key, r: nat)
    requires r <= |items| && forall i :: 0 <= i < r ==> Before(items[i].key, k)
    requires r < |items| ==> !Before(items[r].key, k)
    ensures Rank(items, k) == r
  {
  }

  lemma RekeyedIsAscending(items: seq<Item>, i: nat, k: Key)
    requires Ascending(items) && i < |items| && Slot(items[i].key) == Slot(k)
    ensures Ascending(Rekeyed(items, i, k))
    ensures Inserted(items[..i] + items[i + 1..], items[i].(key := k)) == Rekeyed(items, i, k)
    ensures forall j :: HasKey(Rekeyed(items, i, k), j) <==> j == k || (HasKey(items, j) && j != items[i].key)
  {
    var rest, new' := items[..i] + items[i + 1..], Rekeyed(items, i, k);
    forall a, b | 0 <= a < b < |new'|
      ensures Before(new'[a].key, new'[b].key)
    {
      assert Before(items[a].key, items[b].key);
    }
    forall a | 0 <= a < i
      ensures Before(rest[a].key, k)
    {
      assert Before(items[a].key, items[i].key);
    }
    assert i < |rest| ==> rest[i] == items[i + 1] && Before(k, items[i + 1].key);
    RankIsUnique(rest, k, i);
    assert rest[..i] == items[..i] && rest[i..] == items[i + 1..];
    forall j
      ensures HasKey(new', j) <==> j == k || (HasKey(items, j) && j != items[i].key)
    {
      RekeyedKeys(items, i, k, j);
    }
  }

  lemma RekeyedKeys(items: seq<Item>, i: nat, k: Key, j: Key)
    requires Ascending(items) && i < |items| && Slot(items[i].key) == Slot(k)
    ensures HasKey(Rekeyed(items, i, k), j) <==> j == k || (HasKey(items, j) && j != items[i].key)
  {
    var new' := Rekeyed(items, i, k);
    assert new'[i].key == k;
    if HasKey(items, j) && j != items[i].key {
      var a :| 0 <= a < |items| && items[a].key == j;
      assert new'[a].key == j;
    }
    if HasKey(new', j) && j != k {
      var a :| 0 <= a < |new'| && new'[a].key == j;
      assert items[a].key == j;
      SlotsDiffer(items, a, i);
    }
  }

  lemma SlotsDiffer(items: seq<Item>, a: nat, b: nat)
    requires Ascending(items) && a < |items| && b < |items| && a != b
    ensures Slot(items[a].key) != Slot(items[b].key)
  {
    assert Before(items[if a < b then a else b].key, items[if a < b then b else a].key);
  }

  lemma SameSlotIsSame(items: seq<Item>, a: nat, b: nat)
    requires Ascending(items) && a < |items| && b < |items| && Slot(items[a].key) == Slot(items[b].key)
    ensures a == b
  {
    if a != b {
      SlotsDiffer(items, a, b);
    }
  }

  // The room an item takes in a leaf.
  function Space(x: Item): nat {
    HEAD + |x.data|
  }

  predicate Alike(x: Item, y: Item) {
    Slot(x.key) == Slot(y.key) && x.data == y.data
  }

  predicate HasAlike(items: seq<Item>, x: Item) {
    exists i :: 0 <= i < |items| && Alike(x, items[i])
  }

  // Every entry of `a` is in `b`, perhaps under another level.
  predicate SubItems(a: seq<Item>, b: seq<Item>) {
    forall i :: 0 <= i < |a| ==> HasAlike(b, a[i])
  }

  lemma SubItemsItself(a: seq<Item>)
    ensures SubItems(a, a)
  {
    forall i | 0 <= i < |a|
      ensures HasAlike(a, a[i])
    {
      assert Alike(a[i], a[i]);
    }
  }

  lemma PlainSlot(items: seq<Item>, k: Key)
    requires k.kind != METADATA_ITEM && HasSlot(items, k)
    ensures HasKey(items, k)
  {
    var i :| 0 <= i < |items| && Slot(items[i].key) == Slot(k);
    assert items[i].key == k;
  }

  lemma SubItemsTransitive(a: seq<Item>, b: seq<Item>, c: seq<Item>)
    requires SubItems(a, b) && SubItems(b, c)
    ensures SubItems(a, c)
  {
    forall i | 0 <= i < |a|
      ensures HasAlike(c, a[i])
    {
      var j :| 0 <= j < |b| && Alike(a[i], b[j]);
      var k :| 0 <= k < |c| && Alike(b[j], c[k]);
      assert Alike(a[i], c[k]);
    }
  }

  // A larger item map needs at least as many leaves.
  lemma {:induction false} SubItemsIsWithin(a: seq<Item>, b: seq<Item>)
    requires Ascending(a) && Ascending(b) && SubItems(a, b)
    ensures Within(Weights(a, Space), Weights(b, Space))
    decreases |b|
  {
    hide Before, Alike, Space;
    var wa, wb := Weights(a, Space), Weights(b, Space);
    assert a != [] ==> HasAlike(b, a[0]);
    if b != [] {
      assert Front(wb) == Weights(Front(b), Space);
      if a != [] && Slot(Last(a).key) == Slot(Last(b).key) {
        assert Front(wa) == Weights(Front(a), Space);
        FrontsWithin(a, b);
        SubItemsIsWithin(Front(a), Front(b));
      } else {
        AllInFront(a, b);
        SubItemsIsWithin(a, Front(b));
      }
    }
  }

  lemma FrontsWithin(a: seq<Item>, b: seq<Item>)
    requires Ascending(a) && Ascending(b) && SubItems(a, b) && a != [] && b != []
    requires Slot(Last(a).key) == Slot(Last(b).key)
    ensures SubItems(Front(a), Front(b)) && Space(Last(a)) == Space(Last(b))
  {
    assert HasAlike(b, Last(a));
    var l :| 0 <= l < |b| && Alike(Last(a), b[l]);
    SameSlotIsSame(b, l, |b| - 1);
    forall i | 0 <= i < |a| - 1
      ensures HasAlike(Front(b), a[i])
    {
      assert HasAlike(b, a[i]);
      var j :| 0 <= j < |b| && Alike(a[i], b[j]);
      SlotsDiffer(a, i, |a| - 1);
      assert Front(b)[j] == b[j];
    }
  }

  lemma AllInFront(a: seq<Item>, b: seq<Item>)
    requires Ascending(a) && Ascending(b) && SubItems(a, b) && b != []
    requires a != [] ==> Slot(Last(a).key) != Slot(Last(b).key)
    ensures SubItems(a, Front(b))
  {
    forall i | 0 <= i < |a|
      ensures HasAlike(Front(b), a[i])
    {
      assert HasAlike(b, a[i]) && HasAlike(b, Last(a));
      var j :| 0 <= j < |b| && Alike(a[i], b[j]);
      var l :| 0 <= l < |b| && Alike(Last(a), b[l]);
      assert i < |a| - 1 ==> Before(a[i].key, Last(a).key);
      assert l < |b| - 1 ==> Before(b[l].key, Last(b).key);
      assert Front(b)[j] == b[j];
    }
  }

  // All but the items of blocks stay as they are.
  ghost predicate Lasting(a: seq<Item>, b: seq<Item>) {
    forall x :: x in a && x.key.kind != METADATA_ITEM ==> x in b
  }

  // So do all but those of blocks and those of this kind, and there are no others.
  ghost predicate Spared(a: seq<Item>, b: seq<Item>, kind: nat) {
    forall x: Item :: x.key.kind != METADATA_ITEM && x.key.kind != kind ==> (x in a <==> x in b)
  }

  lemma SparedOn(a: seq<Item>, b: seq<Item>, c: seq<Item>, kind: nat)
    ensures Spared(a, a, kind)
    ensures Spared(a, b, kind) && Spared(b, c, kind) ==> Spared(a, c, kind)
  {
  }

  lemma LastsItself(a: seq<Item>)
    ensures Lasting(a, a)
  {
  }

  lemma LastingKeys(a: seq<Item>, b: seq<Item>)
    requires Lasting(a, b)
    ensures forall k: Key :: k.kind != METADATA_ITEM && HasKey(a, k) ==> HasKey(b, k)
  {
    forall k: Key | k.kind != METADATA_ITEM && HasKey(a, k)
      ensures HasKey(b, k)
    {
      var i :| 0 <= i < |a| && a[i].key == k;
      assert a[i] in a;
    }
  }

  lemma InsertedLasts(items: seq<Item>, x: Item)
    ensures Lasting(items, Inserted(items, x)) && x in Inserted(items, x)
    ensures forall y :: y in Inserted(items, x) ==> y == x || y in items
  {
    var r := Rank(items, x.key);
    assert items == items[..r] + items[r..];
    assert Inserted(items, x)[r] == x;
  }
}
