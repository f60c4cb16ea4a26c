/**
 * What a tree on disk stands for, and the reader that walks it.
 */
module TreeWalk {
  import opened Packing
  import opened TreeItems
  import opened TreeBlock

  // Blocks by their address; `read` finds the block `write_trees` put there.
  type Store = map<nat, Block>

  // A subtree: the pointer to it and the items under it.
  datatype Child = Child(ptr: Pointer, items: seq<Item>)

  function Pointers(cs: seq<Child>): (ps: seq<Pointer>)
    ensures |ps| == |cs| && forall i :: 0 <= i < |cs| ==> ps[i] == cs[i].ptr
  {
    seq(|cs|, i requires 0 <= i < |cs| => cs[i].ptr)
  }

  function Under(cs: seq<Child>): (xs: seq<Item>) {
    if cs == [] then [] else Under(Front(cs)) + Last(cs).items
  }

  // The block at `addr` is the root of a tree of this level holding exactly these items in this order.
  ghost predicate Represents(store: Store, addr: nat, level: nat, items: seq<Item>)
    decreases level, 1
  {
    && addr in store && store[addr].addr == addr && store[addr].level == level
    && if level == 0 then IsLeaf(store[addr], items)
       else exists cs: seq<Child> :: NodeOf(store, store[addr], level, cs) && Under(cs) == items
  }

  ghost predicate NodeOf(store: Store, b: Block, level: nat, cs: seq<Child>)
    requires 0 < level
    decreases level, 0
  {
    cs != [] && IsNode(b, Pointers(cs)) && forall i :: 0 <= i < |cs| ==> IsChild(store, level - 1, cs[i])
  }

  // The pointer leads to the subtree and carries its least key.
  ghost predicate IsChild(store: Store, level: nat, c: Child)
    decreases level, 2
  {
    c.items != [] && c.ptr.key == c.items[0].key && Represents(store, c.ptr.addr, level, c.items)
  }

  predicate Extends(store: Store, store': Store) {
    forall a :: a in store ==> a in store' && store'[a] == store[a]
  }

  lemma {:induction false} ExtendsKeeps(store: Store, store': Store, addr: nat, level: nat, items: seq<Item>)
    requires Extends(store, store') && Represents(store, addr, level, items)
    ensures Represents(store', addr, level, items)
    decreases level
  {
    if 0 < level {
      var cs: seq<Child> :| NodeOf(store, store[addr], level, cs) && Under(cs) == items;
      forall i | 0 <= i < |cs|
        ensures IsChild(store', level - 1, cs[i])
      {
        assert IsChild(store, level - 1, cs[i]);
        ExtendsKeeps(store, store', cs[i].ptr.addr, level - 1, cs[i].items);
      }
      assert NodeOf(store', store'[addr], level, cs);
    }
  }

  lemma UnderNext(cs: seq<Child>, c: Child)
    ensures Under(cs + [c]) == Under(cs) + c.items
  {
    assert Front(cs + [c]) == cs;
  }

  lemma {:induction false} UnderConcat(a: seq<Child>, b: seq<Child>)
    ensures Under(a + b) == Under(a) + Under(b)
    decreases |b|
  {
    if b == [] {
      assert a + b == a;
    } else {
      var front, c := Front(b), Last(b);
      UnderConcat(a, front);
      assert b == front + [c] && a + b == (a + front) + [c];
      UnderNext(a + front, c);
    }
  }

  lemma {:induction false} UnderStarts(cs: seq<Child>)
    requires cs != [] && cs[0].items != []
    ensures Under(cs) != [] && Under(cs)[0] == cs[0].items[0]
  {
    if |cs| == 1 {
      assert Under(Front(cs)) == [];
    } else {
      UnderStarts(Front(cs));
    }
  }

  // How far a visitor gets that may ask to stop: `go` says that it never did.
  predicate Visited(items: seq<Item>, f: Item -> bool, visited: seq<Item>, go: bool) {
    if go then
      visited == items && forall x :: x in items ==> f(x)
    else
      && visited != [] && visited <= items && !f(Last(visited))
      && forall x :: x in Front(visited) ==> f(x)
  }

  // Visiting a part after what came before it.
  lemma VisitedNext(before: seq<Item>, part: seq<Item>, all: seq<Item>, f: Item -> bool, visited: seq<Item>,
                    more: seq<Item>, go: bool)
    requires Visited(before, f, visited, true) && Visited(part, f, more, go) && before + part <= all
    ensures Visited(if go then before + part else all, f, visited + more, go)
  {
    if !go {
      assert Front(visited + more) == visited + Front(more);
    }
  }

  // `walk_tree`: whatever the depth, the visitor sees exactly the tree's items, in order, until
  // it asks to stop.
  method WalkTree(store: Store, addr: nat, f: Item -> bool, ghost level: nat, ghost items: seq<Item>)
    returns (visited: seq<Item>, go: bool)
    requires Represents(store, addr, level, items)
    ensures Visited(items, f, visited, go)
    decreases level, 1
  {
    var b := store[addr];
    if b.level != 0 {
      ghost var cs: seq<Child> :| NodeOf(store, b, level, cs) && Under(cs) == items;
      visited, go := WalkNode(store, b, f, level, cs);
    } else {
      visited, go := WalkLeaf(b, f, items);
    }
  }

  method WalkNode(store: Store, b: Block, f: Item -> bool, ghost level: nat, ghost cs: seq<Child>)
    returns (visited: seq<Item>, go: bool)
    requires 0 < level && NodeOf(store, b, level, cs)
    ensures Visited(Under(cs), f, visited, go)
    decreases level, 0
  {
    visited := [];
    var i: nat := 0;
    while i < b.count
      invariant i <= b.count == |cs| && Visited(Under(cs[..i]), f, visited, true)
    {
      assert IsChild(store, level - 1, cs[i]);
      var p := ReadPointer(b, i, Pointers(cs));
      var more, ret := WalkTree(store, p.addr, f, level - 1, cs[i].items);
      UnderPrefix(cs, i);
      VisitedNext(Under(cs[..i]), cs[i].items, Under(cs), f, visited, more, ret);
      visited := visited + more;
      if !ret {
        return visited, false;
      }
      i := i + 1;
    }
    assert cs[..i] == cs;
    go := true;
  }

  lemma PartsOf<T>(s: seq<T>, i: nat)
    requires i < |s|
    ensures s[..i] + [s[i]] == s[..i + 1] && s[..i] + [s[i]] + s[i + 1..] == s
  {
  }

  lemma UnderParts(a: seq<Child>, c: Child, b: seq<Child>)
    ensures Under(a + [c]) == Under(a) + c.items <= Under(a + [c] + b)
  {
    hide *;
    UnderNext(a, c);
    UnderConcat(a + [c], b);
  }

  lemma UnderPrefix(cs: seq<Child>, i: nat)
    requires i < |cs|
    ensures Under(cs[..i + 1]) == Under(cs[..i]) + cs[i].items <= Under(cs)
  {
    hide *;
    UnderParts(cs[..i], cs[i], cs[i + 1..]);
    PartsOf(cs, i);
  }

  method WalkLeaf(b: Block, f: Item -> bool, ghost items: seq<Item>) returns (visited: seq<Item>, go: bool)
    requires IsLeaf(b, items)
    ensures Visited(items, f, visited, go)
  {
    visited := [];
    var i: nat := 0;
    while i < b.count
      invariant i <= b.count && Visited(items[..i], f, visited, true)
    {
      var x := ReadItem(b, i, items);
      assert items[..i + 1] == items[..i] + [x];
      visited := visited + [x];
      if !f(x) {
        assert Front(visited) == items[..i];
        return visited, false;
      }
      i := i + 1;
    }
    assert items[..i] == items;
    go := true;
  }
}
