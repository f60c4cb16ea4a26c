/**
 * The free lists of the planner: ordered lists of byte ranges, edited in
 * place by `space_list_remove` and by the first-fit allocators.
 */
module SpaceList {
  import opened ChunkMath

  datatype Space = Space(offset: nat, length: nat) {
    function End(): nat {
      offset + length
    }

    predicate Has(x: int) {
      offset <= x < End()
    }
  }

  // The ranges are nonempty and in ascending order, none overlapping the next, and all
  // within [from, to).
  predicate Sorted(list: seq<Space>, from: int, to: int)
    decreases |list|
  {
    if list == [] then
      from <= to
    else
      from <= list[0].offset && 0 < list[0].length && Sorted(list[1..], list[0].End(), to)
  }

  predicate Covers(list: seq<Space>, x: int) {
    exists s :: s in list && s.Has(x)
  }

  lemma {:induction false} CoveredInBounds(list: seq<Space>, from: int, to: int, x: int)
    requires Sorted(list, from, to)
    ensures from <= to
    ensures Covers(list, x) ==> from <= x < to
    decreases |list|
  {
    if list != [] {
      CoveredInBounds(list[1..], list[0].End(), to, x);
      CoversSplit(list, 1, x);
    }
  }

  lemma EntryIsCovered(list: seq<Space>, k: nat, x: int)
    requires k < |list| && list[k].Has(x)
    ensures Covers(list, x)
  {
    assert list[k] in list;
  }

  lemma CoversSplit(list: seq<Space>, k: nat, x: int)
    requires k <= |list|
    ensures Covers(list, x) <==> Covers(list[..k], x) || Covers(list[k..], x)
  {
    assert list == list[..k] + list[k..];
  }

  // What ascending order means for any two entries.
  lemma {:induction false} SortedIsDisjoint(list: seq<Space>, from: int, to: int, i: nat, j: nat)
    requires Sorted(list, from, to) && i < j < |list|
    ensures from <= list[i].offset < list[i].End() <= list[j].offset < list[j].End() <= to
    decreases |list|
  {
    SortedEntry(list, from, to, i);
    if i == 0 {
      SortedEntry(list[1..], list[0].End(), to, j - 1);
    } else {
      SortedIsDisjoint(list[1..], list[0].End(), to, i - 1, j - 1);
    }
  }

  lemma {:induction false} SortedEntry(list: seq<Space>, from: int, to: int, k: nat)
    requires Sorted(list, from, to) && k < |list|
    ensures from <= list[k].offset < list[k].End() <= to
    decreases |list|
  {
    if k == 0 {
      CoveredInBounds(list[1..], list[0].End(), to, 0);
    } else {
      SortedEntry(list[1..], list[0].End(), to, k - 1);
    }
  }

  lemma {:induction false} SortedConcat(a: seq<Space>, b: seq<Space>, from: int, mid: int, to: int)
    requires Sorted(a, from, mid) && Sorted(b, mid, to)
    ensures Sorted(a + b, from, to)
    decreases |a|
  {
    if a == [] {
      assert a + b == b;
      SortedWiden(b, mid, to, from, to);
    } else {
      SortedConcat(a[1..], b, a[0].End(), mid, to);
      assert (a + b)[1..] == a[1..] + b;
    }
  }

  lemma {:induction false} SortedWiden(list: seq<Space>, from: int, to: int, from': int, to': int)
    requires Sorted(list, from, to) && from' <= from && to <= to'
    ensures Sorted(list, from', to')
    decreases |list|
  {
    if list != [] {
      SortedWiden(list[1..], list[0].End(), to, list[0].End(), to');
    }
  }

  // One entry with [lo, hi) cut out of it.
  function Cut(s: Space, lo: nat, hi: nat): seq<Space>
    requires lo <= hi
  {
    if s.End() <= lo || hi <= s.offset then
      [s]
    else
      (if s.offset < lo then [Space(s.offset, lo - s.offset)] else [])
      + (if hi < s.End() then [Space(hi, s.End() - hi)] else [])
  }

  function Removed(list: seq<Space>, lo: nat, hi: nat): seq<Space>
    requires lo <= hi
  {
    if list == [] then [] else Cut(list[0], lo, hi) + Removed(list[1..], lo, hi)
  }

  // Removal is exact set difference.
  lemma {:induction false} RemovedIsDifference(list: seq<Space>, lo: nat, hi: nat, x: int)
    requires lo <= hi
    ensures Covers(Removed(list, lo, hi), x) <==> Covers(list, x) && !(lo <= x < hi)
  {
    if list != [] {
      RemovedIsDifference(list[1..], lo, hi, x);
      CoversSplit(list, 1, x);
      var cut := Cut(list[0], lo, hi);
      CutIsDifference(list[0], lo, hi, x);
      CoversSplit(Removed(list, lo, hi), |cut|, x);
      assert Removed(list, lo, hi)[..|cut|] == cut;
      assert Removed(list, lo, hi)[|cut|..] == Removed(list[1..], lo, hi);
    }
  }

  lemma CutIsDifference(s: Space, lo: nat, hi: nat, x: int)
    requires lo <= hi
    ensures Covers(Cut(s, lo, hi), x) <==> s.Has(x) && !(lo <= x < hi)
  {
    var cut := Cut(s, lo, hi);
    if s.Has(x) && !(lo <= x < hi) {
      if s.End() <= lo || hi <= s.offset {
        assert cut[0] in cut && cut[0].Has(x);
      } else if x < lo {
        assert cut[0] in cut && cut[0].Has(x);
      } else {
        assert cut[|cut| - 1] in cut && cut[|cut| - 1].Has(x);
      }
    }
  }

  lemma {:induction false} RemovedIsSorted(list: seq<Space>, lo: nat, hi: nat, from: int, to: int)
    requires lo <= hi && Sorted(list, from, to)
    ensures Sorted(Removed(list, lo, hi), from, to)
    decreases |list|
  {
    if list != [] {
      var cut := Cut(list[0], lo, hi);
      RemovedIsSorted(list[1..], lo, hi, list[0].End(), to);
      assert Sorted(cut, from, list[0].End()) by {
        if |cut| == 2 {
          assert cut[1..][1..] == [];
        } else if |cut| == 1 {
          assert cut[1..] == [];
        }
      }
      SortedConcat(cut, Removed(list[1..], lo, hi), from, list[0].End(), to);
    }
  }

  // Some entry is at least `n` bytes long.
  predicate HasRoom(list: seq<Space>, n: nat) {
    exists s :: s in list && n <= s.length
  }

  lemma LessRoom(list: seq<Space>, m: nat, n: nat)
    requires HasRoom(list, m) && n <= m
    ensures HasRoom(list, n)
  {
    var s :| s in list && m <= s.length;
    assert n <= s.length;
  }

  // Cutting a hole leaves at least half of what the hole did not take.
  lemma {:induction false} RemovedLeavesRoom(list: seq<Space>, lo: nat, hi: nat, n: nat)
    requires lo <= hi && 0 < n && HasRoom(list, 2 * n + (hi - lo))
    ensures HasRoom(Removed(list, lo, hi), n)
  {
    var s, cut := list[0], Cut(list[0], lo, hi);
    if 2 * n + (hi - lo) <= s.length {
      assert exists p :: p in cut && n <= p.length by {
        assert cut[0] in cut && cut[|cut| - 1] in cut;
      }
      var p :| p in cut && n <= p.length;
      assert p in Removed(list, lo, hi);
    } else {
      RemovedLeavesRoom(list[1..], lo, hi, n);
      var p :| p in Removed(list[1..], lo, hi) && n <= p.length;
      assert p in Removed(list, lo, hi);
    }
  }

  // What is left after its front has been removed begins where that ended.
  lemma {:induction false} RemovedStartsLater(list: seq<Space>, lo: nat, hi: nat, from: int, to: int)
    requires Sorted(list, from, to) && lo <= from && lo <= hi <= to
    ensures Sorted(Removed(list, lo, hi), hi, to)
    decreases |list|
  {
    if list != [] {
      var cut, rest := Cut(list[0], lo, hi), Removed(list[1..], lo, hi);
      if list[0].End() <= hi {
        RemovedStartsLater(list[1..], lo, hi, list[0].End(), to);
        assert cut == [] && Removed(list, lo, hi) == rest;
      } else {
        CoveredInBounds(list[1..], list[0].End(), to, 0);
        RemovedBeyond(list[1..], lo, hi, list[0].End(), to);
        assert Sorted(cut, hi, list[0].End()) by {
          assert cut[1..] == [];
        }
        SortedConcat(cut, rest, hi, list[0].End(), to);
      }
    }
  }

  // Entries past the removed range are not touched, which is why the scan may stop early.
  lemma {:induction false} RemovedBeyond(list: seq<Space>, lo: nat, hi: nat, from: int, to: int)
    requires lo <= hi <= from && Sorted(list, from, to)
    ensures Removed(list, lo, hi) == list
    decreases |list|
  {
    if list != [] {
      RemovedBeyond(list[1..], lo, hi, list[0].End(), to);
      assert list == [list[0]] + list[1..];
    }
  }

  lemma {:induction false} SortedSuffix(list: seq<Space>, from: int, to: int, k: nat)
    requires Sorted(list, from, to) && k <= |list|
    ensures Sorted(list[k..], if k == 0 then from else list[k - 1].End(), to)
    decreases |list|
  {
    if 0 < k {
      SortedSuffix(list[1..], list[0].End(), to, k - 1);
      assert list[1..][k - 1..] == list[k..];
    } else {
      assert list[0..] == list;
    }
  }

  lemma {:induction false} SortedPrefix(list: seq<Space>, from: int, to: int, k: nat)
    requires Sorted(list, from, to) && k < |list|
    ensures Sorted(list[..k], from, list[k].offset)
    decreases |list|
  {
    if 0 < k {
      SortedPrefix(list[1..], list[0].End(), to, k - 1);
      assert list[..k][1..] == list[1..][..k - 1];
    }
  }

  // `space_list_remove`: the list is walked once with `it`; entries are erased, trimmed or
  // split where they stand.
  method SpaceListRemove(list: seq<Space>, offset: nat, length: nat, ghost from: int, ghost to: int)
    returns (r: seq<Space>)
    requires Sorted(list, from, to)
    ensures r == Removed(list, offset, offset + length)
  {
    hide Removed;
    r := list;
    var it: nat := 0;
    var end := offset + length;
    ghost var front, rest, low := [], list, from;
    while it < |r|
      invariant r == front + rest && it == |front|
      invariant Sorted(rest, low, to)
      invariant front + Removed(rest, offset, end) == Removed(list, offset, end)
      decreases |rest|
    {
      var s := r[it];
      assert s == rest[0] && r[..it] == front && r[it + 1..] == rest[1..];
      var pieces := [s];
      if s.offset > end {
        RemovedBeyond(rest, offset, end, s.offset, to);
        return;
      }
      if s.offset >= offset && s.End() <= end {
        pieces := [];
      } else if end > s.offset && end < s.End() {
        if offset > s.offset {
          r := r[..it] + [Space(s.offset, offset - s.offset), Space(end, s.End() - end)] + r[it + 1..];
          HoleIsCut(front, rest, offset, end, low, to);
          return;
        } else {
          pieces := [Space(end, s.length - (end - s.offset))];
        }
      } else if offset > s.offset && offset < s.End() {
        pieces := [Space(s.offset, offset - s.offset)];
      }
      assert pieces == Cut(s, offset, end);
      RemovedStep(front, rest, offset, end);
      r := r[..it] + pieces + r[it + 1..];
      it := it + |pieces|;
      front, rest, low := front + pieces, rest[1..], s.End();
    }
    RemovedNone(front, rest, offset, end);
  }

  lemma RemovedStep(front: seq<Space>, rest: seq<Space>, lo: nat, hi: nat)
    requires lo <= hi && rest != []
    ensures (front + Cut(rest[0], lo, hi)) + Removed(rest[1..], lo, hi) == front + Removed(rest, lo, hi)
  {
  }

  lemma RemovedNone(front: seq<Space>, rest: seq<Space>, lo: nat, hi: nat)
    requires lo <= hi && rest == []
    ensures front + rest == front + Removed(rest, lo, hi)
  {
  }

  lemma HoleIsCut(front: seq<Space>, rest: seq<Space>, lo: nat, hi: nat, from: int, to: int)
    requires rest != [] && Sorted(rest, from, to) && rest[0].offset < lo <= hi < rest[0].End()
    ensures front + [Space(rest[0].offset, lo - rest[0].offset), Space(hi, rest[0].End() - hi)] + rest[1..]
         == front + Removed(rest, lo, hi)
  {
    RemovedBeyond(rest[1..], lo, hi, rest[0].End(), to);
    assert Cut(rest[0], lo, hi) == [Space(rest[0].offset, lo - rest[0].offset), Space(hi, rest[0].End() - hi)];
  }

  // The entry at `k` gives up its first `size` bytes.
  function Taken(list: seq<Space>, k: nat, size: nat): seq<Space>
    requires k < |list| && size <= list[k].length
  {
    if k == 0 then
      (if list[0].length == size then [] else [Space(list[0].offset + size, list[0].length - size)]) + list[1..]
    else
      [list[0]] + Taken(list[1..], k - 1, size)
  }

  // The two edits the allocators make in place.
  lemma {:induction false} TakenInPlace(list: seq<Space>, k: nat, size: nat)
    requires k < |list| && size <= list[k].length
    ensures Taken(list, k, size) == if list[k].length == size then list[..k] + list[k + 1..]
                                    else list[k := Space(list[k].offset + size, list[k].length - size)]
  {
    if 0 < k {
      var tail := list[1..];
      TakenInPlace(tail, k - 1, size);
      assert tail[k - 1] == list[k] && list == [list[0]] + tail;
      assert list[..k] == [list[0]] + tail[..k - 1];
      assert list[k + 1..] == tail[k..];
    }
  }

  lemma TakenFirst(list: seq<Space>, size: nat, from: int, to: int)
    requires Sorted(list, from, to) && list != [] && 0 < size <= list[0].length
    ensures Taken(list, 0, size) == Removed(list, list[0].offset, list[0].offset + size)
  {
    RemovedBeyond(list[1..], list[0].offset, list[0].offset + size, list[0].End(), to);
  }

  lemma RemovedRest(list: seq<Space>, lo: nat, hi: nat)
    requires list != [] && list[0].End() <= lo <= hi
    ensures Removed(list, lo, hi) == [list[0]] + Removed(list[1..], lo, hi)
  {
  }

  // Taking from the front of an entry removes exactly that range and nothing else.
  lemma {:induction false} TakenIsRemoved(list: seq<Space>, k: nat, size: nat, from: int, to: int)
    requires Sorted(list, from, to) && k < |list| && 0 < size <= list[k].length
    ensures Taken(list, k, size) == Removed(list, list[k].offset, list[k].offset + size)
    decreases |list|
  {
    hide Removed, Cut;
    if k == 0 {
      TakenFirst(list, size, from, to);
    } else {
      TakenIsRemoved(list[1..], k - 1, size, list[0].End(), to);
      SortedIsDisjoint(list, from, to, 0, k);
      RemovedRest(list, list[k].offset, list[k].offset + size);
    }
  }

  // The bytes in the list.
  function Total(list: seq<Space>): nat {
    if list == [] then 0 else list[0].length + Total(list[1..])
  }

  lemma {:induction false} SortedTotal(list: seq<Space>, from: int, to: int)
    requires Sorted(list, from, to)
    ensures Total(list) <= to - from
    decreases |list|
  {
    if list != [] {
      SortedTotal(list[1..], list[0].End(), to);
    }
  }

  lemma {:induction false} TakenTotal(list: seq<Space>, k: nat, size: nat)
    requires k < |list| && size <= list[k].length
    ensures Total(Taken(list, k, size)) + size == Total(list)
    decreases |list|
  {
    var tail := list[1..];
    if k == 0 {
      if list[0].length != size {
        var s := Space(list[0].offset + size, list[0].length - size);
        assert ([s] + tail)[1..] == tail;
      } else {
        assert [] + tail == tail;
      }
    } else {
      TakenTotal(tail, k - 1, size);
      assert ([list[0]] + Taken(tail, k - 1, size))[1..] == Taken(tail, k - 1, size);
    }
  }

  // Every entry begins at a multiple of `u`.
  ghost predicate EvenStarts(list: seq<Space>, u: nat) {
    forall s :: s in list ==> Even(s.offset, u)
  }

  lemma EvenStartsConcat(a: seq<Space>, b: seq<Space>, u: nat)
    requires EvenStarts(a, u) && EvenStarts(b, u)
    ensures EvenStarts(a + b, u)
  {
  }

  lemma {:induction false} RemovedIsEven(list: seq<Space>, lo: nat, hi: nat, u: nat)
    requires lo <= hi && EvenStarts(list, u) && Even(hi, u)
    ensures EvenStarts(Removed(list, lo, hi), u)
    decreases |list|
  {
    if list != [] {
      hide Even;
      assert list[0] in list;
      assert EvenStarts(Cut(list[0], lo, hi), u);
      RemovedIsEven(list[1..], lo, hi, u);
      EvenStartsConcat(Cut(list[0], lo, hi), Removed(list[1..], lo, hi), u);
    }
  }

  lemma {:induction false} TakenIsEven(list: seq<Space>, k: nat, size: nat, u: nat)
    requires k < |list| && size <= list[k].length && EvenStarts(list, u) && Even(size, u)
    ensures EvenStarts(Taken(list, k, size), u)
    decreases |list|
  {
    hide Even;
    assert list[0] in list;
    if k == 0 {
      EvenAdds(list[0].offset, size, u);
    } else {
      TakenIsEven(list[1..], k - 1, size, u);
      EvenStartsConcat([list[0]], Taken(list[1..], k - 1, size), u);
    }
  }

  predicate TooShort(list: seq<Space>, size: nat) {
    forall s :: s in list ==> s.length < size
  }

  // First fit: the search both allocators run over a chunk's free list.
  method FindFit(list: seq<Space>, size: nat) returns (k: nat)
    ensures k <= |list| && TooShort(list[..k], size)
    ensures k < |list| ==> size <= list[k].length
  {
    k := 0;
    while k < |list| && list[k].length < size
      invariant k <= |list| && TooShort(list[..k], size)
    {
      assert list[..k + 1] == list[..k] + [list[k]];
      k := k + 1;
    }
  }
}
