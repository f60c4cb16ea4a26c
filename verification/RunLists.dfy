/**
 * Who owns which clusters: the run lists, one for each chunk, and the splitting of a run when
 * part of it is given to a file.
 */
module RunLists {
  import opened ChunkMath

  const DUMMY: nat := 0xffffffffffffffff

  datatype Owner = Owner(inode: nat, fileOffset: nat, relocated: bool, notInImg: bool)

  // What the constructor of a run gives it unless told otherwise.
  const PLAIN := Owner(0, 0, false, false)

  datatype Alloc = Alloc(offset: nat, length: nat, owner: Owner) {
    function End(): nat {
      offset + length
    }

    predicate Has(x: int) {
      offset <= x < End()
    }
  }

  // Nonempty, in order, not overlapping, within [from, to).
  predicate Sorted(list: seq<Alloc>, from: nat, to: nat) {
    if list == [] then from <= to
    else from <= list[0].offset && 0 < list[0].length && Sorted(list[1..], list[0].End(), to)
  }

  predicate Covered(list: seq<Alloc>, x: nat) {
    list != [] && (list[0].Has(x) || Covered(list[1..], x))
  }

  function OwnerOf(list: seq<Alloc>, x: nat): Owner {
    if list == [] then PLAIN else if list[0].Has(x) then list[0].owner else OwnerOf(list[1..], x)
  }

  lemma {:induction false} SortedBounds(list: seq<Alloc>, from: nat, to: nat, x: nat)
    requires Sorted(list, from, to)
    ensures from <= to && (Covered(list, x) ==> from <= x < to)
    decreases |list|
  {
    if list != [] {
      SortedBounds(list[1..], list[0].End(), to, x);
    }
  }

  lemma {:induction false} SortedConcat(a: seq<Alloc>, b: seq<Alloc>, from: nat, mid: nat, to: nat)
    requires Sorted(a, from, mid) && Sorted(b, mid, to)
    ensures Sorted(a + b, from, to)
    decreases |a|
  {
    if a == [] {
      assert a + b == b;
      SortedWiden(b, mid, to, from);
    } else {
      SortedConcat(a[1..], b, a[0].End(), mid, to);
      assert (a + b)[1..] == a[1..] + b;
    }
  }

  lemma SortedWiden(list: seq<Alloc>, from: nat, to: nat, from': nat)
    requires Sorted(list, from, to) && from' <= from
    ensures Sorted(list, from', to)
  {
  }

  // The list cut at entry `k`.
  lemma {:induction false} SortedParts(list: seq<Alloc>, from: nat, to: nat, k: nat)
    requires Sorted(list, from, to) && k < |list|
    ensures Sorted(list[..k], from, list[k].offset) && Sorted(list[k + 1..], list[k].End(), to)
    ensures from <= list[k].offset && 0 < list[k].length && list[k].End() <= to
    decreases |list|
  {
    if k == 0 {
      SortedBounds(list[1..], list[0].End(), to, 0);
    } else {
      SortedParts(list[1..], list[0].End(), to, k - 1);
      assert list[..k][1..] == list[1..][..k - 1] && list[k + 1..] == list[1..][k..];
    }
  }

  lemma {:induction false} ConcatCovers(a: seq<Alloc>, b: seq<Alloc>, x: nat)
    ensures Covered(a + b, x) <==> Covered(a, x) || Covered(b, x)
    ensures OwnerOf(a + b, x) == if Covered(a, x) then OwnerOf(a, x) else OwnerOf(b, x)
    decreases |a|
  {
    if a == [] {
      assert a + b == b;
    } else {
      assert (a + b)[1..] == a[1..] + b;
      ConcatCovers(a[1..], b, x);
    }
  }

  predicate Overlaps(r: Alloc, offset: nat, length: nat) {
    offset + length > r.offset && offset < r.End()
  }

  predicate Within(r: Alloc, offset: nat, length: nat) {
    offset >= r.offset && offset + length <= r.End()
  }

  datatype Split = Untouched | Cut(list: seq<Alloc>) | Partial

  // The entry the range lies in gives it up: what is left of it on the left becomes a plain
  // run, what is left on the right stays what it was.
  function Pieces(r: Alloc, offset: nat, length: nat, inode: nat, fileOffset: nat): seq<Alloc>
    requires Within(r, offset, length)
  {
    (if offset > r.offset then [Alloc(r.offset, offset - r.offset, PLAIN)] else [])
    + [Alloc(offset, length, Owner(inode, fileOffset, r.owner.relocated, false))]
    + (if offset + length < r.End() then [Alloc(offset + length, r.End() - offset - length, r.owner)] else [])
  }

  // The first entry that meets the range decides.
  function SplitOf(list: seq<Alloc>, offset: nat, length: nat, inode: nat, fileOffset: nat): Split {
    if list == [] then Untouched
    else if Overlaps(list[0], offset, length) then
      if Within(list[0], offset, length) then Cut(Pieces(list[0], offset, length, inode, fileOffset) + list[1..])
      else Partial
    else
      match SplitOf(list[1..], offset, length, inode, fileOffset)
      case Cut(rest) => Cut([list[0]] + rest)
      case other => other
  }

  // One chunk's part of `split_runs`.
  method SplitList(list: seq<Alloc>, offset: nat, length: nat, inode: nat, fileOffset: nat, ghost from: nat,
                   ghost to: nat)
    returns (s: Split)
    requires Sorted(list, from, to)
    ensures s == SplitOf(list, offset, length, inode, fileOffset)
  {
    hide SplitOf, Behind;
    var it: nat := 0;
    ghost var low, rest := from, list;
    BehindNone(list, SplitOf(list, offset, length, inode, fileOffset));
    while it < |list|
      invariant it <= |list| && rest == list[it..] && Sorted(rest, low, to)
      invariant SplitOf(list, offset, length, inode, fileOffset)
             == Behind(list[..it], SplitOf(rest, offset, length, inode, fileOffset))
    {
      var r := list[it];
      assert rest[0] == r && rest[1..] == list[it + 1..];
      SplitStep(rest, offset, length, inode, fileOffset);
      if r.offset > offset + length {
        NothingBeyond(rest, offset, length, inode, fileOffset, r.offset, to);
        BehindOther(list[..it]);
        return Untouched;
      }
      if offset + length > r.offset && offset < r.End() {
        if offset >= r.offset && offset + length <= r.End() {
          var left := if offset > r.offset then [Alloc(r.offset, offset - r.offset, PLAIN)] else [];
          var mid := Alloc(offset, length, Owner(inode, fileOffset, r.owner.relocated, false));
          var right := if offset + length < r.End() then [Alloc(offset + length, r.End() - offset - length, r.owner)]
                       else [];
          CutHere(list, it, left + [mid] + right);
          return Cut(list[..it] + (left + [mid] + right + list[it + 1..]));
        }
        BehindOther(list[..it]);
        return Partial;
      }
      BehindNext(list, it, SplitOf(rest[1..], offset, length, inode, fileOffset));
      low := r.End();
      it := it + 1;
      rest := rest[1..];
    }
    SplitNone(rest, offset, length, inode, fileOffset);
    BehindOther(list[..it]);
    s := Untouched;
  }

  lemma CutHere(list: seq<Alloc>, it: nat, pieces: seq<Alloc>)
    requires it < |list|
    ensures Behind(list[..it], Cut(pieces + list[it..][1..])) == Cut(list[..it] + (pieces + list[it + 1..]))
  {
    assert list[it..][1..] == list[it + 1..];
  }

  lemma BehindOther(front: seq<Alloc>)
    ensures Behind(front, Untouched) == Untouched && Behind(front, Partial) == Partial
  {
  }

  lemma SplitNone(list: seq<Alloc>, offset: nat, length: nat, inode: nat, fileOffset: nat)
    requires list == []
    ensures SplitOf(list, offset, length, inode, fileOffset) == Untouched
  {
  }

  lemma SplitStep(list: seq<Alloc>, offset: nat, length: nat, inode: nat, fileOffset: nat)
    requires list != []
    ensures SplitOf(list, offset, length, inode, fileOffset)
         == if Overlaps(list[0], offset, length) then
              if Within(list[0], offset, length)
              then Cut(Pieces(list[0], offset, length, inode, fileOffset) + list[1..])
              else Partial
            else Behind([list[0]], SplitOf(list[1..], offset, length, inode, fileOffset))
  {
  }

  lemma BehindNone(list: seq<Alloc>, s: Split)
    ensures Behind(list[..0], s) == s
  {
    if s.Cut? {
      assert list[..0] + s.list == s.list;
    }
  }

  function Behind(front: seq<Alloc>, s: Split): Split {
    match s
    case Cut(rest) => Cut(front + rest)
    case other => other
  }

  lemma BehindNext(list: seq<Alloc>, it: nat, s: Split)
    requires it < |list|
    ensures Behind(list[..it], Behind([list[it]], s)) == Behind(list[..it + 1], s)
  {
    if s.Cut? {
      assert list[..it] + ([list[it]] + s.list) == list[..it + 1] + s.list;
    }
  }

  lemma {:induction false} NothingBeyond(list: seq<Alloc>, offset: nat, length: nat, inode: nat, fileOffset: nat,
                                         from: nat, to: nat)
    requires Sorted(list, from, to) && offset + length <= from
    ensures SplitOf(list, offset, length, inode, fileOffset) == Untouched
    decreases |list|
  {
    if list != [] {
      NothingBeyond(list[1..], offset, length, inode, fileOffset, list[0].End(), to);
    }
  }

  // Splitting keeps the list in order and covers the same clusters.
  lemma {:induction false} SplitKeeps(list: seq<Alloc>, offset: nat, length: nat, inode: nat, fileOffset: nat,
                                      from: nat, to: nat, x: nat)
    requires Sorted(list, from, to) && 0 < length && SplitOf(list, offset, length, inode, fileOffset).Cut?
    ensures var l := SplitOf(list, offset, length, inode, fileOffset).list;
      Sorted(l, from, to) && (Covered(l, x) <==> Covered(list, x))
    ensures offset <= x < offset + length ==> Covered(list, x)
    decreases |list|
  {
    if Overlaps(list[0], offset, length) {
      var r := list[0];
      PiecesKeep(r, offset, length, inode, fileOffset, x);
      SortedBounds(list[1..], r.End(), to, x);
      SortedWiden(Pieces(r, offset, length, inode, fileOffset), r.offset, r.End(), from);
      SortedConcat(Pieces(r, offset, length, inode, fileOffset), list[1..], from, r.End(), to);
      ConcatCovers(Pieces(r, offset, length, inode, fileOffset), list[1..], x);
    } else {
      SplitKeeps(list[1..], offset, length, inode, fileOffset, list[0].End(), to, x);
      var rest := SplitOf(list[1..], offset, length, inode, fileOffset).list;
      assert ([list[0]] + rest)[1..] == rest;
    }
  }

  lemma PiecesKeep(r: Alloc, offset: nat, length: nat, inode: nat, fileOffset: nat, x: nat)
    requires 0 < length && Within(r, offset, length)
    ensures var p := Pieces(r, offset, length, inode, fileOffset);
      Sorted(p, r.offset, r.End()) && (Covered(p, x) <==> r.Has(x))
    ensures var p := Pieces(r, offset, length, inode, fileOffset);
      r.Has(x) ==> OwnerOf(p, x) == if x < offset then PLAIN
                                    else if x < offset + length then Owner(inode, fileOffset, r.owner.relocated, false)
                                    else r.owner
  {
    var left := Optional(r.offset, offset, PLAIN);
    var mid := Alloc(offset, length, Owner(inode, fileOffset, r.owner.relocated, false));
    var right := Optional(offset + length, r.End(), r.owner);
    OptionalIs(r.offset, offset, PLAIN, x);
    OptionalIs(offset, offset + length, mid.owner, x);
    OptionalIs(offset + length, r.End(), r.owner, x);
    SortedConcat(left, [mid], r.offset, offset, offset + length);
    SortedConcat(left + [mid], right, r.offset, offset + length, r.End());
    ConcatCovers(left, [mid], x);
    ConcatCovers(left + [mid], right, x);
    assert Pieces(r, offset, length, inode, fileOffset) == left + [mid] + right;
  }

  function Optional(from: nat, to: nat, owner: Owner): seq<Alloc> {
    if from < to then [Alloc(from, to - from, owner)] else []
  }

  lemma OptionalIs(from: nat, to: nat, owner: Owner, x: nat)
    requires from <= to
    ensures var p := Optional(from, to, owner);
      Sorted(p, from, to) && (Covered(p, x) <==> from <= x < to) && (from <= x < to ==> OwnerOf(p, x) == owner)
  {
    if from < to {
      assert Optional(from, to, owner)[1..] == [];
    }
  }

  // The entry the range meets first.
  function Hit(list: seq<Alloc>, offset: nat, length: nat): Alloc
    requires SplitOf(list, offset, length, 0, 0) != Untouched
  {
    if Overlaps(list[0], offset, length) then list[0] else Hit(list[1..], offset, length)
  }

  predicate InRange(x: nat, offset: nat, length: nat) {
    offset <= x < offset + length
  }

  // Which of the three happens does not depend on who the range is given to.
  lemma {:induction false} SameKind(list: seq<Alloc>, offset: nat, length: nat, inode: nat, fileOffset: nat)
    ensures SplitOf(list, offset, length, inode, fileOffset).Cut? <==> SplitOf(list, offset, length, 0, 0).Cut?
    ensures SplitOf(list, offset, length, inode, fileOffset).Untouched?
       <==> SplitOf(list, offset, length, 0, 0).Untouched?
    decreases |list|
  {
    if list != [] {
      SameKind(list[1..], offset, length, inode, fileOffset);
    }
  }

  // Who owns each cluster afterwards.
  lemma {:induction false} SplitOwners(list: seq<Alloc>, offset: nat, length: nat, inode: nat, fileOffset: nat,
                                       from: nat, to: nat, x: nat)
    requires Sorted(list, from, to) && 0 < length && SplitOf(list, offset, length, inode, fileOffset).Cut?
    ensures SplitOf(list, offset, length, 0, 0) != Untouched
    ensures var l, h := SplitOf(list, offset, length, inode, fileOffset).list, Hit(list, offset, length);
      && Within(h, offset, length) && 0 < h.length
      && (h.Has(x) ==> Covered(list, x) && OwnerOf(list, x) == h.owner)
      && OwnerOf(l, x) == if InRange(x, offset, length) then Owner(inode, fileOffset, OwnerOf(list, x).relocated, false)
                          else if h.offset <= x < offset then PLAIN else OwnerOf(list, x)
    decreases |list|
  {
    SameKind(list, offset, length, inode, fileOffset);
    if Overlaps(list[0], offset, length) {
      var r := list[0];
      PiecesKeep(r, offset, length, inode, fileOffset, x);
      ConcatCovers(Pieces(r, offset, length, inode, fileOffset), list[1..], x);
    } else {
      SplitOwners(list[1..], offset, length, inode, fileOffset, list[0].End(), to, x);
      var rest := SplitOf(list[1..], offset, length, inode, fileOffset).list;
      assert ([list[0]] + rest)[1..] == rest && ([list[0]] + rest)[0] == list[0];
      HitIsLater(list[1..], offset, length, list[0].End(), to);
    }
  }

  lemma {:induction false} HitIsThere(list: seq<Alloc>, offset: nat, length: nat)
    requires SplitOf(list, offset, length, 0, 0) != Untouched
    ensures Hit(list, offset, length) in list
    decreases |list|
  {
    if !Overlaps(list[0], offset, length) {
      HitIsThere(list[1..], offset, length);
    }
  }

  lemma {:induction false} HitIsLater(list: seq<Alloc>, offset: nat, length: nat, from: nat, to: nat)
    requires Sorted(list, from, to) && SplitOf(list, offset, length, 0, 0) != Untouched
    ensures from <= Hit(list, offset, length).offset
    decreases |list|
  {
    if !Overlaps(list[0], offset, length) {
      HitIsLater(list[1..], offset, length, list[0].End(), to);
    }
  }

  ghost predicate OthersKeep(list: seq<Alloc>, list': seq<Alloc>, offset: nat, length: nat) {
    forall x: nat :: !InRange(x, offset, length) ==> OwnerOf(list', x) == OwnerOf(list, x)
  }

  // The clusters outside the range keep their owner exactly when the run that was cut had none,
  // or was cut at its start: what is left before the range loses its owner.
  lemma OthersKeepTheirOwner(list: seq<Alloc>, offset: nat, length: nat, inode: nat, fileOffset: nat, from: nat,
                             to: nat)
    requires Sorted(list, from, to) && 0 < length && SplitOf(list, offset, length, inode, fileOffset).Cut?
    ensures SplitOf(list, offset, length, 0, 0) != Untouched
    ensures OthersKeep(list, SplitOf(list, offset, length, inode, fileOffset).list, offset, length)
       <==> Hit(list, offset, length).owner == PLAIN || Hit(list, offset, length).offset == offset
  {
    SameKind(list, offset, length, inode, fileOffset);
    var l, h := SplitOf(list, offset, length, inode, fileOffset).list, Hit(list, offset, length);
    forall x: nat
      ensures OwnerOf(l, x) == if InRange(x, offset, length)
                               then Owner(inode, fileOffset, OwnerOf(list, x).relocated, false)
                               else if h.offset <= x < offset then PLAIN else OwnerOf(list, x)
      ensures h.Has(x) ==> OwnerOf(list, x) == h.owner
      ensures Within(h, offset, length)
    {
      SplitOwners(list, offset, length, inode, fileOffset, from, to, x);
    }
    if h.offset < offset {
      assert h.Has(h.offset) && !InRange(h.offset, offset, length);
    }
  }

  // A run of four clusters owned by a file, of which the third is given away: the first two lose their owner.
  lemma LeftLosesItsOwner()
    ensures var list := [Alloc(0, 4, Owner(7, 0, false, false))];
      && SplitOf(list, 2, 1, 0, 0).Cut? && OwnerOf(list, 0).inode == 7
      && OwnerOf(SplitOf(list, 2, 1, 0, 0).list, 0).inode == 0
      && OwnerOf(SplitOf(list, 2, 1, 0, 0).list, 3).inode == 7
      && !OthersKeep(list, SplitOf(list, 2, 1, 0, 0).list, 2, 1)
  {
    hide SplitOf, OwnerOf;
    var r := Alloc(0, 4, Owner(7, 0, false, false));
    FirstIsCut(r, 2, 1);
    var a, b, c := Alloc(0, 2, PLAIN), Alloc(2, 1, PLAIN), Alloc(3, 1, r.owner);
    assert Pieces(r, 2, 1, 0, 0) == [a, b, c];
    OwnersOfThree(a, b, c, 0);
    OwnersOfThree(a, b, c, 3);
    OwnerOfOne(r, 0);
    assert !InRange(0, 2, 1);
  }

  lemma FirstIsCut(r: Alloc, offset: nat, length: nat)
    requires Within(r, offset, length) && Overlaps(r, offset, length)
    ensures SplitOf([r], offset, length, 0, 0) == Cut(Pieces(r, offset, length, 0, 0))
  {
    assert [r][1..] == [] && Pieces(r, offset, length, 0, 0) + [] == Pieces(r, offset, length, 0, 0);
  }

  lemma OwnerOfOne(r: Alloc, x: nat)
    requires r.Has(x)
    ensures OwnerOf([r], x) == r.owner
  {
  }

  lemma OwnersOfThree(a: Alloc, b: Alloc, c: Alloc, x: nat)
    requires a.Has(x) || b.Has(x) || c.Has(x)
    ensures OwnerOf([a, b, c], x) == if a.Has(x) then a.owner else if b.Has(x) then b.owner else c.owner
  {
    assert [a, b, c][1..] == [b, c] && [b, c][1..] == [c];
    assert OwnerOf([b, c], x) == if b.Has(x) then b.owner else OwnerOf([c], x);
  }

  // A range is left alone exactly when none of its clusters is in a run.
  lemma {:induction false} UntouchedIsUncovered(list: seq<Alloc>, offset: nat, length: nat, inode: nat,
                                                fileOffset: nat, from: nat, to: nat)
    requires Sorted(list, from, to) && 0 < length
    ensures SplitOf(list, offset, length, inode, fileOffset) == Untouched
       <==> forall x: nat :: InRange(x, offset, length) ==> !Covered(list, x)
    decreases |list|
  {
    if list != [] {
      UntouchedIsUncovered(list[1..], offset, length, inode, fileOffset, list[0].End(), to);
      if Overlaps(list[0], offset, length) {
        var x := if offset < list[0].offset then list[0].offset else offset;
        assert InRange(x, offset, length) && Covered(list, x);
      } else {
        assert forall x: nat :: InRange(x, offset, length) ==> (Covered(list, x) <==> Covered(list[1..], x));
      }
    }
  }

  type RunMap = map<nat, seq<Alloc>>

  function ListOf(runs: RunMap, k: nat): seq<Alloc> {
    if k in runs then runs[k] else []
  }

  // Each chunk's list is in order and inside the chunk.
  predicate RunsOk(runs: RunMap, n: nat) {
    forall k :: k in runs ==> Sorted(runs[k], First(k, n), First(k, n) + n)
  }

  predicate CoveredAt(runs: RunMap, x: nat, n: nat)
    requires 0 < n
  {
    Covered(ListOf(runs, Index(x, n)), x)
  }

  function OwnerAt(runs: RunMap, x: nat, n: nat): Owner
    requires 0 < n
  {
    OwnerOf(ListOf(runs, Index(x, n)), x)
  }

  lemma {:induction false} OneIsNeverPartial(list: seq<Alloc>, offset: nat, inode: nat, fileOffset: nat)
    ensures SplitOf(list, offset, 1, inode, fileOffset) != Partial
    decreases |list|
  {
    if list != [] {
      OneIsNeverPartial(list[1..], offset, inode, fileOffset);
    }
  }

  // A range within one chunk is cut out of that chunk's list.
  predicate IsCutIn(runs: RunMap, runs': RunMap, k: nat, offset: nat, length: nat, inode: nat, fileOffset: nat) {
    && k in runs && SplitOf(runs[k], offset, length, inode, fileOffset).Cut?
    && runs' == runs[k := SplitOf(runs[k], offset, length, inode, fileOffset).list]
  }

  // Runs that are protected, or hold a protected cluster's copy, are of one cluster each.
  predicate Units(list: seq<Alloc>) {
    forall a :: a in list && (a.owner.inode == DUMMY || a.owner.relocated) ==> a.length == 1
  }

  predicate AllUnits(runs: RunMap) {
    forall k :: k in runs ==> Units(runs[k])
  }

  lemma {:induction false} SplitKeepsUnits(list: seq<Alloc>, offset: nat, length: nat, inode: nat, fileOffset: nat)
    requires SplitOf(list, offset, length, inode, fileOffset).Cut? && Units(list) && 0 < length
    requires (inode == DUMMY ==> length == 1)
    ensures Units(SplitOf(list, offset, length, inode, fileOffset).list)
    decreases |list|
  {
    assert list[0] in list;
    if !Overlaps(list[0], offset, length) {
      assert Units(list[1..]);
      SplitKeepsUnits(list[1..], offset, length, inode, fileOffset);
    }
  }

  datatype Outcome = Changed | Unchanged | Corrupt

  // A cluster in front of the range, in the run the range was cut from, that has lost its owner.
  predicate LeftOver(runs: RunMap, runs': RunMap, x: nat, n: nat, from: nat)
    requires 0 < n
  {
    && x < from && Index(x, n) == Index(from, n) && OwnerAt(runs', x, n) == PLAIN
    && CoveredAt(runs, x, n) && OwnerAt(runs, x, n) == OwnerAt(runs, from, n)
    && SameRun(ListOf(runs, Index(x, n)), x, from)
  }

  predicate SameRun(list: seq<Alloc>, x: nat, y: nat) {
    exists a :: a in list && a.Has(x) && a.Has(y) && a.owner == OwnerOf(list, x)
  }

  // What `split_runs` has done to the clusters of the range before `offset`.
  ghost predicate Given(runs: RunMap, runs': RunMap, n: nat, from: nat, offset: nat, inode: nat, fileOffset: nat)
    requires 0 < n
  {
    && (forall x: nat :: CoveredAt(runs', x, n) <==> CoveredAt(runs, x, n))
    && (forall x: nat :: from <= x < offset && CoveredAt(runs, x, n) ==>
          OwnerAt(runs', x, n) == Owner(inode, fileOffset, OwnerAt(runs, x, n).relocated, false))
    && (forall x: nat :: !(from <= x < offset) ==>
         OwnerAt(runs', x, n) == OwnerAt(runs, x, n) || LeftOver(runs, runs', x, n, from))
  }

  ghost predicate Touched(runs: RunMap, n: nat, from: nat, offset: nat)
    requires 0 < n
  {
    exists x: nat :: from <= x < offset && CoveredAt(runs, x, n)
  }

  // `split_runs`: chunk by chunk. The file offset is the same for every chunk.
  method SplitRuns(before: RunMap, n: nat, offset: nat, length: nat, inode: nat, fileOffset: nat)
    returns (runs: RunMap, o: Outcome)
    requires 0 < n && 0 < length && RunsOk(before, n)
    ensures o != Corrupt ==> RunsOk(runs, n) && Given(before, runs, n, offset, offset + length, inode, fileOffset)
    ensures o != Corrupt ==> (o == Changed <==> Touched(before, n, offset, offset + length))
    ensures AllUnits(before) && (inode == DUMMY ==> length == 1) ==> AllUnits(runs)
    ensures length == 1 ==> o != Corrupt
    ensures o == Corrupt && length <= n - Rem(offset, n) ==>
      SplitOf(ListOf(before, Index(offset, n)), offset, length, inode, fileOffset) == Partial
    ensures o == Changed && length <= n - Rem(offset, n) ==>
      IsCutIn(before, runs, Index(offset, n), offset, length, inode, fileOffset)
  {
    hide Given, Touched, SplitOf, Sorted, CoveredAt, OwnerAt, First, Units;
    runs := before;
    o := Unchanged;
    GivenNothing(before, n, offset, inode, fileOffset);
    var at, left := offset, length;
    while true
      invariant 0 < left && at + left == offset + length && RunsOk(runs, n)
      invariant length == 1 ==> at == offset && left == 1
      invariant length <= n - Rem(offset, n) ==> at == offset && o == Unchanged
      invariant offset <= at && if at == offset then runs == before else at == First(Index(at, n), n)
      invariant Given(before, runs, n, offset, at, inode, fileOffset)
      invariant AllUnits(before) && (inode == DUMMY ==> length == 1) ==> AllUnits(runs)
      invariant o == (if Touched(before, n, offset, at) then Changed else Unchanged)
      decreases left
    {
      var chunk := Index(at, n);
      var part := if n - Rem(at, n) < left then n - Rem(at, n) else left;
      ghost var was := runs;
      var s := Untouched;
      NotThere(chunk, runs, at, part, inode, fileOffset);
      if chunk in runs {
        s := SplitList(runs[chunk], at, part, inode, fileOffset, First(chunk, n), First(chunk, n) + n);
        if s == Partial {
          if length == 1 {
            OneIsNeverPartial(runs[chunk], at, inode, fileOffset);
          }
          o := Corrupt;
          return;
        }
        if s.Cut? {
          if AllUnits(runs) && (inode == DUMMY ==> length == 1) {
            SplitKeepsUnits(runs[chunk], at, part, inode, fileOffset);
          }
          runs := runs[chunk := s.list];
          o := Changed;
        }
      }
      PartGiven(before, was, runs, n, offset, at, part, inode, fileOffset);
      if part == left {
        return;
      }
      NextChunk(at, part, n);
      at, left := at + part, left - part;
    }
  }

  lemma GivenNothing(runs: RunMap, n: nat, offset: nat, inode: nat, fileOffset: nat)
    requires 0 < n
    ensures Given(runs, runs, n, offset, offset, inode, fileOffset) && !Touched(runs, n, offset, offset)
  {
  }

  lemma NotThere(k: nat, runs: RunMap, offset: nat, length: nat, inode: nat, fileOffset: nat)
    ensures k !in runs ==> SplitOf(ListOf(runs, k), offset, length, inode, fileOffset) == Untouched
  {
  }

  lemma NextChunk(at: nat, part: nat, n: nat)
    requires 0 < n && part == n - Rem(at, n)
    ensures at + part == First(Index(at, n) + 1, n) && Index(at + part, n) == Index(at, n) + 1
  {
    IndexIsUnique(at + part, n, Index(at, n) + 1);
  }

  // The part of the range in one chunk.
  lemma PartGiven(before: RunMap, was: RunMap, runs: RunMap, n: nat, from: nat, at: nat, part: nat, inode: nat,
                  fileOffset: nat)
    requires 0 < n && RunsOk(was, n) && from <= at && 0 < part <= n - Rem(at, n)
    requires if at == from then was == before else at == First(Index(at, n), n)
    requires Given(before, was, n, from, at, inode, fileOffset)
    requires var s := SplitOf(ListOf(was, Index(at, n)), at, part, inode, fileOffset);
      s != Partial && runs == if s.Cut? then was[Index(at, n) := s.list] else was
    ensures RunsOk(runs, n) && Given(before, runs, n, from, at + part, inode, fileOffset)
    ensures Touched(before, n, from, at + part)
       <==> Touched(before, n, from, at) || SplitOf(ListOf(was, Index(at, n)), at, part, inode, fileOffset).Cut?
  {
    hide Sorted, Covered, OwnerOf, SplitOf, Given;
    var k := Index(at, n);
    var list := ListOf(was, k);
    NoneSorted(k, n);
    UntouchedIsUncovered(list, at, part, inode, fileOffset, First(k, n), First(k, n) + n);
    forall x: nat | InRange(x, at, part)
      ensures Index(x, n) == k
    {
      IndexBounds(at, n);
      IndexIsUnique(x, n, k);
    }
    TouchedOn(before, was, n, from, at, part, inode, fileOffset, list);
    if SplitOf(list, at, part, inode, fileOffset).Cut? {
      SplitKeeps(list, at, part, inode, fileOffset, First(k, n), First(k, n) + n, at);
      SplitNone([], at, part, inode, fileOffset);
      CutGiven(was, runs, n, at, part, inode, fileOffset);
    } else {
      NoneGiven(was, n, at, part, inode, fileOffset);
    }
    GivenOn(before, was, runs, n, from, at, part, inode, fileOffset);
  }

  lemma TouchedOn(before: RunMap, was: RunMap, n: nat, from: nat, at: nat, part: nat, inode: nat, fileOffset: nat,
                  list: seq<Alloc>)
    requires 0 < n && from <= at && Given(before, was, n, from, at, inode, fileOffset)
    requires list == ListOf(was, Index(at, n))
    requires forall x: nat :: InRange(x, at, part) ==> Index(x, n) == Index(at, n)
    ensures Touched(before, n, from, at + part)
       <==> Touched(before, n, from, at) || exists x: nat :: InRange(x, at, part) && Covered(list, x)
  {
    if x: nat :| InRange(x, at, part) && Covered(list, x) {
      assert CoveredAt(was, x, n) && CoveredAt(before, x, n);
    }
    if Touched(before, n, from, at + part) && !Touched(before, n, from, at) {
      var x: nat :| from <= x < at + part && CoveredAt(before, x, n);
      assert CoveredAt(was, x, n) && InRange(x, at, part);
      assert Covered(list, x);
    }
  }

  lemma NoneSorted(k: nat, n: nat)
    ensures Sorted([], First(k, n), First(k, n) + n)
  {
  }

  lemma NoneGiven(runs: RunMap, n: nat, at: nat, part: nat, inode: nat, fileOffset: nat)
    requires 0 < n
    requires forall x: nat :: InRange(x, at, part) ==>
      Index(x, n) == Index(at, n) && !Covered(ListOf(runs, Index(at, n)), x)
    ensures Given(runs, runs, n, at, at + part, inode, fileOffset)
  {
    assert forall x: nat :: InRange(x, at, part) ==> !CoveredAt(runs, x, n);
  }

  lemma CutGiven(was: RunMap, runs: RunMap, n: nat, at: nat, part: nat, inode: nat, fileOffset: nat)
    requires 0 < n && RunsOk(was, n) && 0 < part && Index(at, n) in was
    requires forall x: nat :: InRange(x, at, part) ==> Index(x, n) == Index(at, n)
    requires SplitOf(was[Index(at, n)], at, part, inode, fileOffset).Cut?
    requires runs == was[Index(at, n) := SplitOf(was[Index(at, n)], at, part, inode, fileOffset).list]
    ensures RunsOk(runs, n) && Given(was, runs, n, at, at + part, inode, fileOffset)
  {
    hide Sorted, Covered, OwnerOf, SplitOf;
    var k := Index(at, n);
    var from, to := First(k, n), First(k, n) + n;
    SplitKeeps(was[k], at, part, inode, fileOffset, from, to, at);
    forall x: nat
      ensures CoveredAt(runs, x, n) <==> CoveredAt(was, x, n)
      ensures InRange(x, at, part) && CoveredAt(was, x, n) ==>
        OwnerAt(runs, x, n) == Owner(inode, fileOffset, OwnerAt(was, x, n).relocated, false)
      ensures !InRange(x, at, part) ==> OwnerAt(runs, x, n) == OwnerAt(was, x, n) || LeftOver(was, runs, x, n, at)
    {
      if Index(x, n) == k {
        assert InRange(at, at, part);
        SameKind(was[k], at, part, inode, fileOffset);
        HitIsThere(was[k], at, part);
        SplitOwners(was[k], at, part, inode, fileOffset, from, to, at);
        SplitKeeps(was[k], at, part, inode, fileOffset, from, to, x);
        SplitOwners(was[k], at, part, inode, fileOffset, from, to, x);
      }
    }
    assert forall x: nat :: InRange(x, at, part) <==> at <= x < at + part;
  }

  lemma GivenOn(before: RunMap, was: RunMap, runs: RunMap, n: nat, from: nat, at: nat, part: nat, inode: nat,
                fileOffset: nat)
    requires 0 < n && from <= at && Given(before, was, n, from, at, inode, fileOffset)
    requires if at == from then was == before else at == First(Index(at, n), n)
    requires Given(was, runs, n, at, at + part, inode, fileOffset)
    ensures Given(before, runs, n, from, at + part, inode, fileOffset)
  {
    hide Covered, OwnerOf;
    forall x: nat
      ensures at != from ==> !LeftOver(was, runs, x, n, at)
    {
      IndexBounds(x, n);
    }
  }

  // The runs after a cut are those before it, but for the pieces of the one that was cut.
  lemma {:induction false} SplitEntries(list: seq<Alloc>, offset: nat, length: nat, inode: nat, fileOffset: nat,
                                        a: Alloc, from: nat, to: nat)
    requires Sorted(list, from, to) && SplitOf(list, offset, length, inode, fileOffset).Cut? && 0 < length
    ensures SplitOf(list, offset, length, 0, 0) != Untouched
    ensures Within(Hit(list, offset, length), offset, length)
    ensures a in SplitOf(list, offset, length, inode, fileOffset).list
       <==> (a in list && a != Hit(list, offset, length))
            || a in Pieces(Hit(list, offset, length), offset, length, inode, fileOffset)
    decreases |list|
  {
    SameKind(list, offset, length, inode, fileOffset);
    if Overlaps(list[0], offset, length) {
      LaterStartsLater(list[1..], list[0].End(), to, a);
    } else {
      SplitEntries(list[1..], offset, length, inode, fileOffset, a, list[0].End(), to);
      HitIsLater(list[1..], offset, length, list[0].End(), to);
    }
  }

  lemma {:induction false} LaterStartsLater(list: seq<Alloc>, from: nat, to: nat, a: Alloc)
    requires Sorted(list, from, to)
    ensures a in list ==> from <= a.offset && 0 < a.length
    decreases |list|
  {
    if list != [] && a != list[0] {
      LaterStartsLater(list[1..], list[0].End(), to, a);
    }
  }

  lemma {:induction false} EntryOwns(list: seq<Alloc>, a: Alloc, from: nat, to: nat, x: nat)
    requires Sorted(list, from, to) && a in list && a.Has(x)
    ensures Covered(list, x) && OwnerOf(list, x) == a.owner && from <= x < to && from <= a.offset && a.End() <= to
    ensures 0 < a.length
    decreases |list|
  {
    SortedBounds(list[1..], list[0].End(), to, x);
    if a != list[0] {
      EntryOwns(list[1..], a, list[0].End(), to, x);
    }
  }
}
