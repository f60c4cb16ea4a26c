/**
 * Iterating over an item map that changes on the way. The iterator stands on an entry, not on
 * an index: entries put in behind it are missed, those put in ahead are seen.
 */
module TreeCursor {
  import opened Packing
  import opened TreeItems

  // The position of an iterator that has passed the entries in `seen`.
  function Next(items: seq<Item>, seen: seq<Item>): nat {
    if seen == [] then 0 else Past(items, Last(seen).key)
  }

  predicate Reached(seen: seq<Item>, y: Item) {
    seen != [] && !Before(Last(seen).key, y.key)
  }

  // `seen` was found in order, each entry is in the map, and no entry that was in the map from
  // the start has been passed over.
  predicate Cursor(first: seq<Item>, items: seq<Item>, seen: seq<Item>) {
    && Ascending(seen) && SubItems(first, items) && SubItems(seen, items)
    && forall i :: 0 <= i < |first| && Reached(seen, first[i]) ==> HasAlike(seen, first[i])
  }

  // Standing on the next entry, the map may grow or re-level entries before the iterator moves.
  lemma CursorStep(first: seq<Item>, items: seq<Item>, items': seq<Item>, seen: seq<Item>)
    requires Cursor(first, items, seen) && Ascending(items) && SubItems(items, items')
    requires Next(items, seen) < |items|
    ensures Cursor(first, items', seen + [items[Next(items, seen)]])
  {
    var i := Next(items, seen);
    var x := items[i];
    var seen' := seen + [x];
    SubItemsTransitive(first, items, items');
    SubItemsTransitive(seen, items, items');
    assert HasAlike(items', x);
    forall j | 0 <= j < |seen'|
      ensures HasAlike(items', seen'[j])
    {
      if j < |seen| {
        assert HasAlike(items', seen[j]);
      }
    }
    SeenStaysAscending(items, seen);
    forall j | 0 <= j < |first| && Reached(seen', first[j])
      ensures HasAlike(seen', first[j])
    {
      NothingMissed(first, items, seen, j);
    }
  }

  lemma SeenStaysAscending(items: seq<Item>, seen: seq<Item>)
    requires Ascending(seen) && Next(items, seen) < |items|
    ensures Ascending(seen + [items[Next(items, seen)]])
  {
    var x := items[Next(items, seen)];
    forall j | 0 <= j < |seen|
      ensures Before(seen[j].key, x.key)
    {
      assert j < |seen| - 1 ==> Before(seen[j].key, Last(seen).key);
    }
  }

  lemma NothingMissed(first: seq<Item>, items: seq<Item>, seen: seq<Item>, j: nat)
    requires Cursor(first, items, seen) && Ascending(items)
    requires Next(items, seen) < |items| && j < |first| && !Before(items[Next(items, seen)].key, first[j].key)
    ensures HasAlike(seen + [items[Next(items, seen)]], first[j])
  {
    var i := Next(items, seen);
    var y, seen' := first[j], seen + [items[i]];
    if Reached(seen, y) {
      var k :| 0 <= k < |seen| && Alike(y, seen[k]);
      assert seen'[k] == seen[k];
    } else {
      assert HasAlike(items, y);
      var k :| 0 <= k < |items| && Alike(y, items[k]);
      assert k < i ==> seen != [] && !Before(Last(seen).key, items[k].key);
      assert i < k ==> Before(items[i].key, items[k].key);
      assert seen'[|seen|] == items[k];
    }
  }

  // An iterator at the end has seen everything that was there from the start.
  lemma CursorEnd(first: seq<Item>, items: seq<Item>, seen: seq<Item>)
    requires Cursor(first, items, seen) && Ascending(items) && Next(items, seen) == |items|
    ensures SubItems(first, seen)
  {
    forall j | 0 <= j < |first|
      ensures HasAlike(seen, first[j])
    {
      assert HasAlike(items, first[j]);
      var k :| 0 <= k < |items| && Alike(first[j], items[k]);
      assert seen != [] && !Before(Last(seen).key, items[k].key);
      assert Reached(seen, first[j]);
    }
  }

  lemma CursorStart(first: seq<Item>)
    ensures Cursor(first, first, [])
  {
    SubItemsItself(first);
  }

  // Where the map has not changed, the iterator has seen a prefix of it.
  lemma PrefixStep(items: seq<Item>, seen: seq<Item>)
    requires Ascending(items) && seen <= items && Next(items, seen) < |items|
    ensures Next(items, seen) == |seen| && seen + [items[Next(items, seen)]] <= items
    ensures Next(items, seen + [items[Next(items, seen)]]) == |seen| + 1
  {
    PrefixNext(items, seen);
    PrefixNext(items, seen + [items[|seen|]]);
  }

  lemma PrefixNext(items: seq<Item>, seen: seq<Item>)
    requires Ascending(items) && seen <= items
    ensures Next(items, seen) == |seen|
  {
    if seen != [] {
      var n := |seen|;
      var k := Last(seen).key;
      assert k == items[n - 1].key;
      var p := Past(items, k);
      assert n < |items| ==> Before(k, items[n].key);
      assert p < |items| && p < n - 1 ==> Before(items[p].key, k);
    }
  }
}
