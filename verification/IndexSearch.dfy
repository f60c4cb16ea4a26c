/**
 * Looking a key up in an NTFS index: `btree_search`.
 *
 * An index node is a row of entries, the last of which carries no key.  Any
 * entry may own a subnode holding the keys below its own and above those of the
 * entry before; interior entries carry values as well.  Subnodes are found
 * through a store of index records, and a record whose magic is wrong ends the
 * search with an error.
 *
 * The keys reachable from a node are described without reference to any order
 * of visits.  The search, which looks into at most one subnode per level, is
 * shown to find a key exactly when it occurs anywhere below the node.
 */
module IndexSearch {
  import opened Options

  // `last` entries have no key of their own: `key` and `value` are then unused.
  datatype Entry<V> = Entry(last: bool, key: nat, value: V, subnode: Option<nat>)

  // An index record, after its fixups have been undone.
  datatype Record<V> = Record(magicIsIndx: bool, entries: seq<Entry<V>>)

  datatype Outcome<V> = Found(value: V) | Missing | BadMagic

  type Store<V> = map<nat, Record<V>>

  // ----- the tree below a node -----

  // The key before entry `i`, or the bound of the node.
  function Low<V>(es: seq<Entry<V>>, lo: int, i: nat): int
    requires i < |es|
  {
    if i == 0 then lo else es[i - 1].key
  }

  function High<V>(es: seq<Entry<V>>, hi: int, i: nat): int
    requires i < |es|
  {
    if i == |es| - 1 then hi else es[i].key
  }

  // Exactly the final entry is marked last; keys grow and lie between the bounds.
  predicate Row<V>(es: seq<Entry<V>>, lo: int, hi: int) {
    && |es| > 0
    && lo < hi
    && (forall i :: 0 <= i < |es| ==> (es[i].last <==> i == |es| - 1))
    && (forall i :: 0 <= i < |es| - 1 ==> lo < es[i].key < hi)
    && (forall i, j :: 0 <= i < j < |es| - 1 ==> es[i].key < es[j].key)
  }

  predicate Owns<V>(store: Store<V>, es: seq<Entry<V>>, i: nat) {
    i < |es| && es[i].subnode.Some? && es[i].subnode.value in store
  }

  function Below<V>(store: Store<V>, es: seq<Entry<V>>, i: nat): Record<V>
    requires Owns(store, es, i)
  {
    store[es[i].subnode.value]
  }

  // Entry `i` owns a subnode that can be read.
  predicate Readable<V>(store: Store<V>, es: seq<Entry<V>>, i: nat) {
    Owns(store, es, i) && Below(store, es, i).magicIsIndx
  }

  // Finite and well ordered: at most `depth` levels of subnodes, each a row whose
  // keys lie between those of the entries around it.  Nothing is asked of the
  // contents of a record with the wrong magic.
  ghost predicate WellOrdered<V>(store: Store<V>, es: seq<Entry<V>>, depth: nat, lo: int, hi: int)
    decreases depth
  {
    && Row(es, lo, hi)
    && (forall i: nat :: i < |es| && es[i].subnode.Some? ==> Owns(store, es, i))
    && (forall i: nat :: Readable(store, es, i) ==>
          depth > 0 && WellOrdered(store, Below(store, es, i).entries, depth - 1, Low(es, lo, i), High(es, hi, i)))
  }

  // The key stands in the node itself, with this value.
  ghost predicate Here<V>(es: seq<Entry<V>>, key: nat, value: V) {
    exists i: nat :: i < |es| && !es[i].last && es[i].key == key && es[i].value == value
  }

  // The key stands in the node or in any node below it, with this value.
  ghost predicate Occurs<V>(store: Store<V>, es: seq<Entry<V>>, depth: nat, key: nat, value: V)
    decreases depth
  {
    || Here(es, key, value)
    || (depth > 0 && exists i: nat ::
          Readable(store, es, i) && Occurs(store, Below(store, es, i).entries, depth - 1, key, value))
  }

  ghost predicate HiddenAt<V>(store: Store<V>, es: seq<Entry<V>>, lo: int, hi: int, i: nat, key: nat) {
    Owns(store, es, i) && !Readable(store, es, i) && Low(es, lo, i) < key < High(es, hi, i)
  }

  // The place where the key would stand is below a record with the wrong magic.
  ghost predicate Hidden<V>(store: Store<V>, es: seq<Entry<V>>, depth: nat, lo: int, hi: int, key: nat)
    decreases depth
  {
    || (exists i: nat :: HiddenAt(store, es, lo, hi, i, key))
    || (depth > 0 && exists i: nat ::
          Readable(store, es, i)
          && Hidden(store, Below(store, es, i).entries, depth - 1, Low(es, lo, i), High(es, hi, i), key))
  }

  // ----- every key lies between the bounds of its node -----

  lemma GapWithin<V>(es: seq<Entry<V>>, lo: int, hi: int, i: nat)
    requires Row(es, lo, hi) && i < |es|
    ensures lo <= Low(es, lo, i) && High(es, hi, i) <= hi
  {
  }

  lemma {:induction false} OccursWithin<V>(store: Store<V>, es: seq<Entry<V>>, depth: nat, lo: int, hi: int,
                                           key: nat, value: V)
    requires WellOrdered(store, es, depth, lo, hi)
    requires Occurs(store, es, depth, key, value)
    ensures lo < key < hi
    decreases depth
  {
    hide Low, High;
    if !Here(es, key, value) {
      var i: nat :| Readable(store, es, i) && Occurs(store, Below(store, es, i).entries, depth - 1, key, value);
      OccursWithin(store, Below(store, es, i).entries, depth - 1, Low(es, lo, i), High(es, hi, i), key, value);
      GapWithin(es, lo, hi, i);
    }
  }

  lemma {:induction false} HiddenWithin<V>(store: Store<V>, es: seq<Entry<V>>, depth: nat, lo: int, hi: int, key: nat)
    requires WellOrdered(store, es, depth, lo, hi)
    requires Hidden(store, es, depth, lo, hi, key)
    ensures lo < key < hi
    decreases depth
  {
    hide Row, Low, High;
    if i: nat :| HiddenAt(store, es, lo, hi, i, key) {
      GapWithin(es, lo, hi, i);
    } else {
      var i: nat :| Readable(store, es, i)
        && Hidden(store, Below(store, es, i).entries, depth - 1, Low(es, lo, i), High(es, hi, i), key);
      HiddenWithin(store, Below(store, es, i).entries, depth - 1, Low(es, lo, i), High(es, hi, i), key);
      GapWithin(es, lo, hi, i);
    }
  }

  // A key strictly between entry `i` and the one before can only be below entry `i`.
  lemma GapIsOne<V>(es: seq<Entry<V>>, lo: int, hi: int, i: nat, j: nat, key: nat)
    requires Row(es, lo, hi)
    requires i < |es| && j < |es|
    requires Low(es, lo, i) < key < High(es, hi, i)
    requires Low(es, lo, j) < key < High(es, hi, j)
    ensures i == j
  {
  }

  // A key in the gap before entry `i` stands nowhere in the row.
  lemma GapIsEmpty<V>(es: seq<Entry<V>>, lo: int, hi: int, i: nat, key: nat, value: V)
    requires Row(es, lo, hi)
    requires i < |es|
    requires Low(es, lo, i) < key < High(es, hi, i)
    ensures !Here(es, key, value)
  {
    forall j: nat | j < |es| && !es[j].last
      ensures es[j].key != key
    {
      if j < i { assert j == i - 1 || es[j].key < es[i - 1].key; }
    }
  }

  // Where the search goes down, nothing outside that subnode matters.
  lemma {:induction false} OnlyBelow<V>(store: Store<V>, es: seq<Entry<V>>, depth: nat, lo: int, hi: int,
                                        i: nat, key: nat, value: V)
    requires WellOrdered(store, es, depth, lo, hi)
    requires i < |es|
    requires Low(es, lo, i) < key < High(es, hi, i)
    ensures Occurs(store, es, depth, key, value)
       <==> Readable(store, es, i) && Occurs(store, Below(store, es, i).entries, depth - 1, key, value)
  {
    GapIsEmpty(es, lo, hi, i, key, value);
    if Occurs(store, es, depth, key, value) {
      var j: nat :| Readable(store, es, j) && Occurs(store, Below(store, es, j).entries, depth - 1, key, value);
      OccursWithin(store, Below(store, es, j).entries, depth - 1, Low(es, lo, j), High(es, hi, j), key, value);
      GapIsOne(es, lo, hi, i, j, key);
    }
  }

  lemma {:induction false} OnlyHiddenBelow<V>(store: Store<V>, es: seq<Entry<V>>, depth: nat, lo: int, hi: int,
                                              i: nat, key: nat)
    requires WellOrdered(store, es, depth, lo, hi)
    requires i < |es|
    requires Low(es, lo, i) < key < High(es, hi, i)
    ensures Hidden(store, es, depth, lo, hi, key)
       <==> if !Owns(store, es, i) then false
            else if !Readable(store, es, i) then true
            else Hidden(store, Below(store, es, i).entries, depth - 1, Low(es, lo, i), High(es, hi, i), key)
  {
    hide Row, Low, High;
    if Owns(store, es, i) && !Readable(store, es, i) {
      assert HiddenAt(store, es, lo, hi, i, key);
    }
    if Hidden(store, es, depth, lo, hi, key) {
      if j: nat :| HiddenAt(store, es, lo, hi, j, key) {
        GapIsOne(es, lo, hi, i, j, key);
      } else {
        var j: nat :| Readable(store, es, j)
          && Hidden(store, Below(store, es, j).entries, depth - 1, Low(es, lo, j), High(es, hi, j), key);
        HiddenWithin(store, Below(store, es, j).entries, depth - 1, Low(es, lo, j), High(es, hi, j), key);
        GapIsOne(es, lo, hi, i, j, key);
      }
    }
  }

  lemma KeyIsInNoGap<V>(es: seq<Entry<V>>, lo: int, hi: int, i: nat, j: nat)
    requires Row(es, lo, hi)
    requires i < |es| && !es[i].last && j < |es|
    ensures !(Low(es, lo, j) < es[i].key < High(es, hi, j))
  {
    if Low(es, lo, j) < es[i].key < High(es, hi, j) {
      GapIsEmpty(es, lo, hi, j, es[i].key, es[i].value);
      assert false;
    }
  }

  lemma HereIsOne<V>(es: seq<Entry<V>>, lo: int, hi: int, i: nat, value: V)
    requires Row(es, lo, hi)
    requires i < |es| && !es[i].last
    ensures Here(es, es[i].key, value) <==> value == es[i].value
  {
    forall j: nat | j < |es| && !es[j].last && es[j].key == es[i].key
      ensures j == i
    {
      assert j < i || i < j || j == i;
    }
  }

  // The key of an interior entry occurs nowhere else, so its value is the answer.
  lemma {:induction false} KeyIsOnlyHere<V>(store: Store<V>, es: seq<Entry<V>>, depth: nat, lo: int, hi: int,
                                            i: nat, value: V)
    requires WellOrdered(store, es, depth, lo, hi)
    requires i < |es| && !es[i].last
    ensures Occurs(store, es, depth, es[i].key, value) <==> value == es[i].value
    ensures !Hidden(store, es, depth, lo, hi, es[i].key)
  {
    hide Row, Low, High;
    var key := es[i].key;
    forall j: nat | j < |es|
      ensures !(Low(es, lo, j) < key < High(es, hi, j))
    {
      KeyIsInNoGap(es, lo, hi, i, j);
    }
    if Occurs(store, es, depth, key, value) && !Here(es, key, value) {
      var j: nat :| Readable(store, es, j) && Occurs(store, Below(store, es, j).entries, depth - 1, key, value);
      OccursWithin(store, Below(store, es, j).entries, depth - 1, Low(es, lo, j), High(es, hi, j), key, value);
      assert false;
    }
    HereIsOne(es, lo, hi, i, value);
    if Hidden(store, es, depth, lo, hi, key) {
      var j: nat :| Readable(store, es, j)
        && Hidden(store, Below(store, es, j).entries, depth - 1, Low(es, lo, j), High(es, hi, j), key);
      HiddenWithin(store, Below(store, es, j).entries, depth - 1, Low(es, lo, j), High(es, hi, j), key);
      assert false;
    }
  }

  // ----- the search -----

  // What the search owes its caller: the value exactly when the key occurs
  // anywhere, and an error exactly when a bad record stands in the way.
  ghost predicate Answers<V(!new)>(store: Store<V>, es: seq<Entry<V>>, depth: nat, lo: int, hi: int,
                                   key: nat, r: Outcome<V>)
  {
    && (forall v :: Occurs(store, es, depth, key, v) <==> r == Found(v))
    && (Hidden(store, es, depth, lo, hi, key) <==> r == BadMagic)
  }

  lemma AnswerHere<V(!new)>(store: Store<V>, es: seq<Entry<V>>, depth: nat, lo: int, hi: int, i: nat)
    requires WellOrdered(store, es, depth, lo, hi)
    requires i < |es| && !es[i].last
    ensures Answers(store, es, depth, lo, hi, es[i].key, Found(es[i].value))
  {
    forall v ensures Occurs(store, es, depth, es[i].key, v) <==> v == es[i].value {
      KeyIsOnlyHere(store, es, depth, lo, hi, i, v);
    }
    KeyIsOnlyHere(store, es, depth, lo, hi, i, es[i].value);
  }

  lemma AnswerBelow<V(!new)>(store: Store<V>, es: seq<Entry<V>>, depth: nat, lo: int, hi: int,
                             i: nat, key: nat, r: Outcome<V>)
    requires WellOrdered(store, es, depth, lo, hi)
    requires i < |es|
    requires Low(es, lo, i) < key < High(es, hi, i)
    requires if !Owns(store, es, i) then r == Missing
             else if !Readable(store, es, i) then r == BadMagic
             else Answers(store, Below(store, es, i).entries, depth - 1, Low(es, lo, i), High(es, hi, i), key, r)
    ensures Answers(store, es, depth, lo, hi, key, r)
  {
    forall v ensures Occurs(store, es, depth, key, v) <==> r == Found(v) {
      OnlyBelow(store, es, depth, lo, hi, i, key, v);
    }
    OnlyHiddenBelow(store, es, depth, lo, hi, i, key);
  }

  // `btree_search`.  `depth` only bounds the recursion.
  method Search<V(!new)>(store: Store<V>, es: seq<Entry<V>>, key: nat, ghost depth: nat, ghost lo: int, ghost hi: int)
    returns (r: Outcome<V>)
    requires WellOrdered(store, es, depth, lo, hi)
    requires lo < key < hi
    ensures Answers(store, es, depth, lo, hi, key, r)
    decreases depth
  {
    hide Answers, Hidden, Occurs;
    var at := 0;
    while true
      invariant at < |es|
      invariant Low(es, lo, at) < key
      decreases |es| - at
    {
      var e := es[at];
      if e.subnode.Some? {
        var skip := false;
        if !e.last {
          if e.key == key {
            AnswerHere(store, es, depth, lo, hi, at);
            return Found(e.value);
          }
          skip := key > e.key;
        }
        if !skip {
          assert Owns(store, es, at);
          var rec := store[e.subnode.value];
          if !rec.magicIsIndx {
            r := BadMagic;
          } else {
            assert Readable(store, es, at);
            r := Search(store, rec.entries, key, depth - 1, Low(es, lo, at), High(es, hi, at));
          }
          AnswerBelow(store, es, depth, lo, hi, at, key, r);
          return;
        }
      } else if !e.last {
        if e.key == key {
          AnswerHere(store, es, depth, lo, hi, at);
          return Found(e.value);
        } else if e.key > key {
          break;
        }
      }
      if e.last {
        break;
      }
      at := at + 1;
    }
    r := Missing;
    AnswerBelow(store, es, depth, lo, hi, at, key, r);
  }
}
