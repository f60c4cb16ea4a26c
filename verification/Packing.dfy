/**
 * Greedy packing: a run of entries is cut into blocks of limited capacity, a block being
 * closed when the next entry does not fit. `create_trees` fills leaves and internal nodes so.
 */
module Packing {
  function Last<T>(s: seq<T>): T
    requires s != []
  {
    s[|s| - 1]
  }

  function Front<T>(s: seq<T>): seq<T>
    requires s != []
  {
    s[..|s| - 1]
  }

  function Sum(ws: seq<nat>): nat {
    if ws == [] then 0 else Sum(Front(ws)) + Last(ws)
  }

  // How many blocks are open or closed, and how much of the last one is used.
  datatype Fill = Fill(parts: nat, used: nat)

  function Add(f: Fill, w: nat, cap: nat): Fill {
    if f.used + w > cap then Fill(f.parts + 1, w) else Fill(f.parts, f.used + w)
  }

  function Filled(ws: seq<nat>, cap: nat): (f: Fill)
    ensures 1 <= f.parts
  {
    if ws == [] then Fill(1, 0) else Add(Filled(Front(ws), cap), Last(ws), cap)
  }

  predicate AllFit(ws: seq<nat>, cap: nat) {
    forall i :: 0 <= i < |ws| ==> ws[i] <= cap
  }

  // `a` has been filled no further than `b`.
  predicate NoFurther(a: Fill, b: Fill) {
    a.parts < b.parts || (a.parts == b.parts && a.used <= b.used)
  }

  // `a` is `b` with some entries left out.
  predicate Within(a: seq<nat>, b: seq<nat>)
    decreases |b|
  {
    if b == [] then a == []
    else Within(a, Front(b)) || (a != [] && Last(a) == Last(b) && Within(Front(a), Front(b)))
  }

  lemma {:induction false} WithinIsShorter(a: seq<nat>, b: seq<nat>)
    requires Within(a, b)
    ensures |a| <= |b|
    decreases |b|
  {
    if b != [] {
      if Within(a, Front(b)) {
        WithinIsShorter(a, Front(b));
      } else {
        WithinIsShorter(Front(a), Front(b));
      }
    }
  }

  // The key lemma of the fixpoint: putting entries in never lowers the number of blocks.
  lemma {:induction false} FilledGrows(a: seq<nat>, b: seq<nat>, cap: nat)
    requires Within(a, b) && AllFit(b, cap)
    ensures NoFurther(Filled(a, cap), Filled(b, cap))
    ensures AllFit(a, cap) && Filled(b, cap).used <= cap
    decreases |b|
  {
    if b != [] {
      assert Last(b) in b;
      if Within(a, Front(b)) {
        FilledGrows(a, Front(b), cap);
      } else {
        FilledGrows(Front(a), Front(b), cap);
        assert a == Front(a) + [Last(a)];
      }
    }
  }

  // The blocks themselves.
  function Packed<T>(xs: seq<T>, w: T -> nat, cap: nat): (p: seq<seq<T>>)
    ensures p != []
  {
    if xs == [] then [[]] else Put(Packed(Front(xs), w, cap), Last(xs), w, cap)
  }

  function Put<T>(p: seq<seq<T>>, x: T, w: T -> nat, cap: nat): seq<seq<T>>
    requires p != []
  {
    if Sum(Weights(Last(p), w)) + w(x) > cap then p + [[x]] else Front(p) + [Last(p) + [x]]
  }

  // The blocks once there is room for `x` in the last one.
  function Opened<T>(p: seq<seq<T>>, x: T, w: T -> nat, cap: nat): (o: seq<seq<T>>)
    requires p != []
    ensures o != []
  {
    if Sum(Weights(Last(p), w)) + w(x) > cap then p + [[]] else p
  }

  lemma PutIsOpened<T>(p: seq<seq<T>>, x: T, w: T -> nat, cap: nat)
    requires p != []
    ensures var o := Opened(p, x, w, cap); Put(p, x, w, cap) == Front(o) + [Last(o) + [x]]
  {
    assert [] + [x] == [x];
  }

  function Weights<T>(xs: seq<T>, w: T -> nat): (ws: seq<nat>)
    ensures |ws| == |xs| && forall i :: 0 <= i < |xs| ==> ws[i] == w(xs[i])
  {
    seq(|xs|, i requires 0 <= i < |xs| => w(xs[i]))
  }

  function Flat<T>(parts: seq<seq<T>>): seq<T> {
    if parts == [] then [] else Flat(Front(parts)) + Last(parts)
  }

  lemma FlatNext<T>(parts: seq<seq<T>>, p: seq<T>)
    ensures Flat(parts + [p]) == Flat(parts) + p
  {
    assert Front(parts + [p]) == parts;
  }

  lemma WeightsNext<T>(xs: seq<T>, x: T, w: T -> nat)
    ensures Weights(xs + [x], w) == Weights(xs, w) + [w(x)]
    ensures Sum(Weights(xs + [x], w)) == Sum(Weights(xs, w)) + w(x)
  {
    assert Weights(xs + [x], w) == Weights(xs, w) + [w(x)];
    assert Front(Weights(xs, w) + [w(x)]) == Weights(xs, w);
  }

  lemma PackedNext<T>(xs: seq<T>, x: T, w: T -> nat, cap: nat)
    ensures Packed(xs + [x], w, cap) == Put(Packed(xs, w, cap), x, w, cap)
  {
    assert Front(xs + [x]) == xs;
  }

  // Nothing is lost or reordered.
  lemma {:induction false} PackedIsWhole<T>(xs: seq<T>, w: T -> nat, cap: nat)
    ensures Flat(Packed(xs, w, cap)) == xs
  {
    if xs == [] {
      assert Packed(xs, w, cap) == [[]];
      FlatNext<T>([], []);
      assert Flat<T>([]) == [];
    } else {
      var p := Packed(Front(xs), w, cap);
      PackedIsWhole(Front(xs), w, cap);
      assert p == Front(p) + [Last(p)];
      FlatNext(Front(p), Last(p));
      FlatNext(p, [Last(xs)]);
      FlatNext(Front(p), Last(p) + [Last(xs)]);
      assert xs == Front(xs) + [Last(xs)];
    }
  }

  predicate PartFits<T>(part: seq<T>, w: T -> nat, cap: nat) {
    Sum(Weights(part, w)) <= cap
  }

  predicate PartsFit<T>(p: seq<seq<T>>, w: T -> nat, cap: nat) {
    forall i :: 0 <= i < |p| ==> PartFits(p[i], w, cap)
  }

  lemma OneWeight<T>(x: T, w: T -> nat)
    ensures Sum(Weights([x], w)) == w(x) && Sum(Weights<T>([], w)) == 0
  {
    WeightsNext<T>([], x, w);
    assert [] + [x] == [x] && Weights<T>([], w) == [];
  }

  lemma PutFits<T>(p: seq<seq<T>>, x: T, w: T -> nat, cap: nat)
    requires p != [] && PartsFit(p, w, cap) && w(x) <= cap
    ensures PartsFit(Put(p, x, w, cap), w, cap)
    ensures Add(Fill(|p|, Sum(Weights(Last(p), w))), w(x), cap)
         == Fill(|Put(p, x, w, cap)|, Sum(Weights(Last(Put(p, x, w, cap)), w)))
  {
    WeightsNext(Last(p), x, w);
    OneWeight(x, w);
    hide Sum, Weights;
    assert PartFits([x], w, cap);
    var put := Put(p, x, w, cap);
    forall i | 0 <= i < |put|
      ensures PartFits(put[i], w, cap)
    {
      if i < |p| - 1 {
        assert put[i] == p[i];
      } else if i < |p| {
        assert PartFits(p[i], w, cap);
      }
    }
  }

  // Every block fits, none is empty unless there is nothing to pack, and their number is as counted.
  lemma {:induction false} PackedFits<T>(xs: seq<T>, w: T -> nat, cap: nat)
    requires AllFit(Weights(xs, w), cap)
    ensures PartsFit(Packed(xs, w, cap), w, cap)
    ensures Filled(Weights(xs, w), cap) == Fill(|Packed(xs, w, cap)|, Sum(Weights(Last(Packed(xs, w, cap)), w)))
  {
    hide Put, Add, PartFits;
    if xs == [] {
      assert Weights(xs, w) == [] && Weights<T>([], w) == [];
      NothingFits<T>(w, cap);
    } else {
      var front, x := Front(xs), Last(xs);
      assert Front(Weights(xs, w)) == Weights(front, w);
      PackedFits(front, w, cap);
      PutFits(Packed(front, w, cap), x, w, cap);
    }
  }

  lemma NothingFits<T>(w: T -> nat, cap: nat)
    ensures PartFits<T>([], w, cap)
  {
    assert Weights<T>([], w) == [];
  }

  lemma {:induction false} PackedIsFilled<T>(xs: seq<T>, w: T -> nat, cap: nat, i: nat)
    requires AllFit(Weights(xs, w), cap) && xs != [] && i < |Packed(xs, w, cap)|
    ensures Packed(xs, w, cap)[i] != []
    decreases |xs|
  {
    var front, x := Front(xs), Last(xs);
    var p := Packed(front, w, cap);
    assert Front(Weights(xs, w)) == Weights(front, w);
    if front == [] {
      assert Weights(Last(p), w) == [];
    } else if i < |p| {
      PackedIsFilled(front, w, cap, i);
    }
  }

  ghost predicate Divides<T>(parts: seq<seq<T>>, xs: seq<T>, w: T -> nat, cap: nat) {
    Flat(parts) == xs && forall i :: 0 <= i < |parts| ==> PartFits(parts[i], w, cap)
  }

  // No division of the same entries into fitting blocks has fewer of them.
  lemma {:induction false} PackedIsFewest<T>(parts: seq<seq<T>>, xs: seq<T>, w: T -> nat, cap: nat)
    requires Divides(parts, xs, w, cap) && parts != []
    ensures |Packed(xs, w, cap)| <= |parts|
  {
    WholeFits(parts, xs, w, cap);
    PackedFits(xs, w, cap);
    FewestSoFar(parts, w, cap);
  }

  lemma {:induction false} WholeFits<T>(parts: seq<seq<T>>, xs: seq<T>, w: T -> nat, cap: nat)
    requires Divides(parts, xs, w, cap)
    ensures AllFit(Weights(xs, w), cap)
    decreases |parts|
  {
    if parts != [] {
      var front := Flat(Front(parts));
      WholeFits(Front(parts), front, w, cap);
      forall i | 0 <= i < |xs|
        ensures w(xs[i]) <= cap
      {
        if i < |front| {
          assert Weights(front, w)[i] <= cap;
        } else {
          assert PartFits(Last(parts), w, cap);
          SumHolds(Weights(Last(parts), w), i - |front|);
        }
      }
    }
  }

  lemma {:induction false} SumHolds(ws: seq<nat>, i: nat)
    requires i < |ws|
    ensures ws[i] <= Sum(ws)
  {
    if i < |ws| - 1 {
      SumHolds(Front(ws), i);
    }
  }

  lemma {:induction false} FewestSoFar<T>(parts: seq<seq<T>>, w: T -> nat, cap: nat)
    requires parts != [] && forall i :: 0 <= i < |parts| ==> PartFits(parts[i], w, cap)
    ensures NoFurther(Filled(Weights(Flat(parts), w), cap), Fill(|parts|, Sum(Weights(Last(parts), w))))
    decreases |parts|
  {
    var before := Flat(Front(parts));
    if |parts| == 1 {
      assert before == [] && Weights(before, w) == [];
    } else {
      FewestSoFar(Front(parts), w, cap);
    }
    assert PartFits(Last(parts), w, cap);
    OnePartMore(before, Last(parts), |parts|, w, cap);
  }

  // Within one block of the other division the greedy one opens at most one block.
  lemma {:induction false} OnePartMore<T>(before: seq<T>, part: seq<T>, n: nat, w: T -> nat, cap: nat)
    requires 0 < n && PartFits(part, w, cap)
    requires var f := Filled(Weights(before, w), cap); f.parts < n || f == Fill(n, 0)
    ensures NoFurther(Filled(Weights(before + part, w), cap), Fill(n, Sum(Weights(part, w))))
    decreases |part|
  {
    if part == [] {
      assert before + part == before;
    } else {
      var front, x := Front(part), Last(part);
      assert part == front + [x];
      WeightsNext(front, x, w);
      OnePartMore(before, front, n, w, cap);
      assert before + part == (before + front) + [x];
      WeightsNext(before + front, x, w);
      assert Front(Weights(before + part, w)) == Weights(before + front, w);
    }
  }
}
