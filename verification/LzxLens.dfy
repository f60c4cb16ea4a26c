/**
 Writing codeword lengths in the LZX format: each as a difference from the length the symbol had before, or as a
 run of zeros or of one length, in symbols of a precode.
 */
module LzxLens {
  import opened Options
  import opened Shifts
  import opened Bitstream
  import opened BitWriter
  import opened CanonicalCode
  import opened HuffmanTable
  import opened HuffmanDecode
  import opened LzxFormat

  // ----- fields of one size -----

  function FieldOps(n: nat, xs: seq<nat>): (ops: seq<Op>) {
    if xs == [] then [] else FieldOps(n, xs[..|xs| - 1]) + [Field(n, n, xs[|xs| - 1])]
  }

  lemma {:induction false} FieldOpsOk(n: nat, xs: seq<nat>)
    requires n <= 17 && forall i :: 0 <= i < |xs| ==> xs[i] < Pow2(n)
    ensures AllOk(FieldOps(n, xs))
  {
    hide Pow2;
    if xs != [] {
      FieldOpsOk(n, xs[..|xs| - 1]);
    }
  }

  lemma BitsAreRead(buf: seq<byte>, r: Reader, n: nat, x: nat, rest: seq<Op>)
    requires Ahead(buf, r, [Field(n, n, x)] + rest)
    ensures n <= 17 && Sound(buf, r)
    ensures var (v, r') := BitsRead(buf, r, n); v == x && Ahead(buf, r', rest)
  {
    hide Ahead, Peeked, Dropped, Ensured;
    AheadIsSound(buf, r, [Field(n, n, x)] + rest);
    FieldIsRead(buf, r, n, n, x, rest);
  }

  lemma {:induction false} FieldsAreRead(buf: seq<byte>, r: Reader, n: nat, xs: seq<nat>, rest: seq<Op>)
    requires n <= 17 && Ahead(buf, r, FieldOps(n, xs) + rest)
    ensures Sound(buf, r)
    ensures var (vs, r') := FieldsRead(buf, r, n, |xs|); vs == xs && Ahead(buf, r', rest)
    decreases |xs|
  {
    hide Ahead, BitsRead;
    AheadIsSound(buf, r, FieldOps(n, xs) + rest);
    if xs == [] {
      assert FieldOps(n, xs) + rest == rest;
    } else {
      var front, x := xs[..|xs| - 1], xs[|xs| - 1];
      assert FieldOps(n, xs) + rest == FieldOps(n, front) + ([Field(n, n, x)] + rest);
      FieldsAreRead(buf, r, n, front, [Field(n, n, x)] + rest);
      BitsAreRead(buf, FieldsRead(buf, r, n, |front|).1, n, x, rest);
    }
  }

  // ----- runs of lengths -----

  datatype Item = One(len: nat) | Zeros(n: nat) | Same(n: nat, len: nat)

  function LensOfItem(item: Item): Lens {
    match item
    case One(len) => [len]
    case Zeros(n) => seq(n, _ => 0)
    case Same(n, len) => seq(n, _ => len)
  }

  function LensOfItems(items: seq<Item>): Lens {
    if items == [] then [] else LensOfItem(items[0]) + LensOfItems(items[1..])
  }

  /** How the difference to the length before is named: what was before less what is, modulo 17. */
  function Presym(previous: nat, len: nat): nat {
    (previous + 17 - len % 17) % 17
  }

  function ItemSym(item: Item, previous: nat): nat {
    match item
    case One(len) => Presym(previous, len)
    case Zeros(n) => if n < 20 then 17 else 18
    case Same(_, _) => 19
  }

  /** The item can be written with this precode, where the first of its symbols had the length `previous`. */
  predicate ItemOk(pre: Lens, item: Item, previous: nat) {
    && |pre| == 20 && 0 < pre[ItemSym(item, previous)]
    && match item
       case One(len) => len <= 16
       case Zeros(n) => 4 <= n < 52
       case Same(n, len) => 4 <= n <= 5 && len <= 16 && 0 < pre[Presym(previous, len)]
  }

  function ItemTail(pre: Lens, item: Item, previous: nat): seq<Op>
    requires ItemOk(pre, item, previous)
  {
    match item
    case One(_) => []
    case Zeros(n) => if n < 20 then [Field(4, 4, n - 4)] else [Field(5, 5, n - 20)]
    case Same(n, len) => [Field(1, 1, n - 4), SymOp(pre, 15, Presym(previous, len))]
  }

  function ItemOps(pre: Lens, item: Item, previous: nat): seq<Op>
    requires ItemOk(pre, item, previous)
  {
    [SymOp(pre, 15, ItemSym(item, previous))] + ItemTail(pre, item, previous)
  }

  lemma ItemOpsOk(pre: Lens, item: Item, previous: nat)
    requires ItemOk(pre, item, previous) && Complete(pre, 15)
    ensures AllOk(ItemOps(pre, item, previous))
  {
    hide Codeword;
    Pow2Literals();
    SymOpOk(pre, 15, ItemSym(item, previous));
    if item.Same? {
      SymOpOk(pre, 15, Presym(previous, item.len));
    }
  }

  /** The length is found again from the difference. */
  lemma DeltaIsRead(previous: nat, len: nat)
    requires previous <= 16 && len <= 16
    ensures Presym(previous, len) < 17 && Delta(previous, Presym(previous, len)) == len
  {
  }

  lemma ItemIsRead(buf: seq<byte>, pre: Lens, item: Item, previous: nat, r: Reader, rest: seq<Op>)
    requires |pre| == 20 && Complete(pre, 15) && previous <= 16 && ItemOk(pre, item, previous)
    requires Ahead(buf, r, ItemTail(pre, item, previous) + rest)
    ensures Sound(buf, r)
    ensures var run := RunRead(buf, pre, ItemSym(item, previous), previous, r);
      && run.Some? && |LensOfItem(item)| == run.value.0
      && (forall i :: 0 <= i < run.value.0 ==> LensOfItem(item)[i] == run.value.1)
      && Ahead(buf, run.value.2, rest)
  {
    hide Ahead, BitsRead, SymRead, SymOp, Complete;
    AheadIsSound(buf, r, ItemTail(pre, item, previous) + rest);
    match item
    case One(len) =>
      DeltaIsRead(previous, len);
      assert ItemTail(pre, item, previous) + rest == rest;
    case Zeros(n) =>
      if n < 20 {
        BitsAreRead(buf, r, 4, n - 4, rest);
      } else {
        BitsAreRead(buf, r, 5, n - 20, rest);
      }
    case Same(n, len) =>
      DeltaIsRead(previous, len);
      var sym := SymOp(pre, 15, Presym(previous, len));
      assert ItemTail(pre, item, previous) + rest == [Field(1, 1, n - 4)] + ([sym] + rest);
      BitsAreRead(buf, r, 1, n - 4, [sym] + rest);
      SymIsRead(buf, BitsRead(buf, r, 1).1, pre, 15, Presym(previous, len), rest);
  }

  // ----- all the lengths of a part of a code -----

  /** The items fill the lengths from `pos` to `end`, and can be written. */
  predicate ItemsOk(pre: Lens, lens: Lens, pos: nat, end: nat, items: seq<Item>)
    decreases |items|
  {
    if items == [] then pos == end
    else
      && pos < end <= |lens| && ItemOk(pre, items[0], lens[pos])
      && ItemsOk(pre, lens, pos + |LensOfItem(items[0])|, end, items[1..])
  }

  function ItemsOps(pre: Lens, lens: Lens, pos: nat, end: nat, items: seq<Item>): seq<Op>
    requires ItemsOk(pre, lens, pos, end, items)
    decreases |items|
  {
    if items == [] then []
    else
      ItemOps(pre, items[0], lens[pos]) + ItemsOps(pre, lens, pos + |LensOfItem(items[0])|, end, items[1..])
  }

  lemma {:induction false} ItemsOpsOk(pre: Lens, lens: Lens, pos: nat, end: nat, items: seq<Item>)
    requires ItemsOk(pre, lens, pos, end, items) && Complete(pre, 15)
    ensures AllOk(ItemsOps(pre, lens, pos, end, items))
    decreases |items|
  {
    hide ItemOk, ItemOps, OpOk, Complete;
    if items != [] {
      ItemOpsOk(pre, items[0], lens[pos]);
      ItemsOpsOk(pre, lens, pos + |LensOfItem(items[0])|, end, items[1..]);
    }
  }

  lemma {:induction false} ItemsEnd(pre: Lens, lens: Lens, pos: nat, end: nat, items: seq<Item>)
    requires ItemsOk(pre, lens, pos, end, items)
    ensures pos + |LensOfItems(items)| == end
    decreases |items|
  {
    if items != [] {
      ItemsEnd(pre, lens, pos + |LensOfItem(items[0])|, end, items[1..]);
    }
  }

  /** Lengths from `pos` on replaced. */
  function Replaced(lens: Lens, pos: nat, part: Lens): Lens
    requires pos + |part| <= |lens|
  {
    lens[..pos] + part + lens[pos + |part|..]
  }

  lemma RunIsReplaced(lens: Lens, pos: nat, n: nat, v: nat, part: Lens)
    requires |part| == n && pos + n <= |lens| && forall i :: 0 <= i < n ==> part[i] == v
    ensures Run(lens, pos, n, v) == Replaced(lens, pos, part)
  {
    assert part == seq(n, _ => v);
  }

  lemma ReplacedTwice(lens: Lens, pos: nat, a: Lens, b: Lens)
    requires pos + |a| + |b| <= |lens|
    ensures Replaced(Replaced(lens, pos, a), pos + |a|, b) == Replaced(lens, pos, a + b)
    ensures forall i :: pos + |a| <= i < |lens| ==> Replaced(lens, pos, a)[i] == lens[i]
  {
  }

  /** Items look only at the lengths that are still to be set. */
  lemma {:induction false} ItemsLookAhead(pre: Lens, lens: Lens, lens': Lens, pos: nat, end: nat, items: seq<Item>)
    requires ItemsOk(pre, lens, pos, end, items) && |lens'| == |lens|
    requires forall i :: pos <= i < |lens| ==> lens'[i] == lens[i]
    ensures ItemsOk(pre, lens', pos, end, items)
    ensures ItemsOps(pre, lens', pos, end, items) == ItemsOps(pre, lens, pos, end, items)
    decreases |items|
  {
    hide ItemOk, ItemOps;
    if items != [] {
      ItemsLookAhead(pre, lens, lens', pos + |LensOfItem(items[0])|, end, items[1..]);
    }
  }

  lemma StepIsRead(buf: seq<byte>, pre: Lens, s: LensState, end: nat, item: Item, rest: seq<Op>)
    returns (next: LensState)
    requires LensSound(buf, pre, s, end) && s.pos < end && Complete(pre, 15) && ItemOk(pre, item, s.lens[s.pos])
    requires s.pos + |LensOfItem(item)| <= end
    requires Ahead(buf, s.r, ItemOps(pre, item, s.lens[s.pos]) + rest)
    ensures LensStep(buf, pre, s, end) == Some(next) && LensSound(buf, pre, next, end)
    ensures s.pos + |LensOfItem(item)| <= |s.lens| && next.lens == Replaced(s.lens, s.pos, LensOfItem(item))
    ensures next.pos == s.pos + |LensOfItem(item)| && Ahead(buf, next.r, rest)
  {
    hide Ahead, SymRead, SymOp, RunRead, Complete, ItemTail, LensOfItem, ItemOk;
    var previous := s.lens[s.pos];
    var tail := ItemTail(pre, item, previous) + rest;
    SymOfItem(pre, item, previous);
    assert ItemOps(pre, item, previous) + rest == [SymOp(pre, 15, ItemSym(item, previous))] + tail;
    SymIsRead(buf, s.r, pre, 15, ItemSym(item, previous), tail);
    var r1 := SymRead(buf, s.r, pre, 15).1;
    ItemIsRead(buf, pre, item, previous, r1, rest);
    var run := RunRead(buf, pre, ItemSym(item, previous), previous, r1);
    RunIsReplaced(s.lens, s.pos, run.value.0, run.value.1, LensOfItem(item));
    next := LensStep(buf, pre, s, end).value;
  }

  lemma SymOfItem(pre: Lens, item: Item, previous: nat)
    requires ItemOk(pre, item, previous)
    ensures ItemSym(item, previous) < |pre| && 0 < pre[ItemSym(item, previous)]
  {
  }

  /** Running the precode symbols gives these lengths, and leaves this to read. */
  ghost predicate RunGives(buf: seq<byte>, pre: Lens, s: LensState, end: nat, lens: Lens, rest: seq<Op>)
    requires LensSound(buf, pre, s, end)
  {
    var run := LensRun(buf, pre, s, end);
    run.Some? && run.value.lens == lens && Ahead(buf, run.value.r, rest)
  }

  lemma {:induction false} ItemsAreRead(buf: seq<byte>, pre: Lens, s: LensState, end: nat, items: seq<Item>,
                                        rest: seq<Op>)
    requires LensSound(buf, pre, s, end) && Complete(pre, 15) && ItemsOk(pre, s.lens, s.pos, end, items)
    requires Ahead(buf, s.r, ItemsOps(pre, s.lens, s.pos, end, items) + rest)
    ensures s.pos + |LensOfItems(items)| == end <= |s.lens|
    ensures RunGives(buf, pre, s, end, Replaced(s.lens, s.pos, LensOfItems(items)), rest)
    decreases |items|
  {
    ItemsEnd(pre, s.lens, s.pos, end, items);
    SoundLens(buf, pre, s, end);
    hide *;
    if items == [] {
      NoItems(buf, pre, s, end, rest);
    } else {
      var item, more := items[0], items[1..];
      var pos' := s.pos + |LensOfItem(item)|;
      ItemsParts(pre, s.lens, s.pos, end, items, rest);
      var tail := ItemsOps(pre, s.lens, pos', end, more);
      ItemsEnd(pre, s.lens, pos', end, more);
      var next := StepIsRead(buf, pre, s, end, item, tail + rest);
      AfterItem(pre, s.lens, s.pos, end, item, more);
      ItemsAreRead(buf, pre, next, end, more, rest);
      RunGoesOn(buf, pre, s, end, next, Replaced(next.lens, pos', LensOfItems(more)), rest);
    }
  }

  lemma AfterItem(pre: Lens, lens: Lens, pos: nat, end: nat, item: Item, more: seq<Item>)
    requires pos + |LensOfItem(item)| <= end <= |lens| && ItemsOk(pre, lens, pos + |LensOfItem(item)|, end, more)
    requires pos + |LensOfItem(item)| + |LensOfItems(more)| == end
    ensures var lens', pos' := Replaced(lens, pos, LensOfItem(item)), pos + |LensOfItem(item)|;
      && |lens'| == |lens| && ItemsOk(pre, lens', pos', end, more)
      && ItemsOps(pre, lens', pos', end, more) == ItemsOps(pre, lens, pos', end, more)
      && Replaced(lens', pos', LensOfItems(more)) == Replaced(lens, pos, LensOfItem(item) + LensOfItems(more))
  {
    hide ItemsOk, ItemsOps, LensOfItem, LensOfItems;
    ReplacedTwice(lens, pos, LensOfItem(item), LensOfItems(more));
    ItemsLookAhead(pre, lens, Replaced(lens, pos, LensOfItem(item)), pos + |LensOfItem(item)|, end, more);
  }

  lemma NoItems(buf: seq<byte>, pre: Lens, s: LensState, end: nat, rest: seq<Op>)
    requires LensSound(buf, pre, s, end) && ItemsOk(pre, s.lens, s.pos, end, [])
    requires Ahead(buf, s.r, ItemsOps(pre, s.lens, s.pos, end, []) + rest)
    ensures s.pos <= |s.lens| && |LensOfItems([])| == 0
    ensures RunGives(buf, pre, s, end, Replaced(s.lens, s.pos, LensOfItems([])), rest)
  {
    hide Ahead;
    SoundLens(buf, pre, s, end);
    assert ItemsOps(pre, s.lens, s.pos, end, []) + rest == rest;
    assert Replaced(s.lens, s.pos, LensOfItems([])) == s.lens;
  }

  lemma RunGoesOn(buf: seq<byte>, pre: Lens, s: LensState, end: nat, next: LensState, lens: Lens, rest: seq<Op>)
    requires LensSound(buf, pre, s, end) && s.pos < end && LensStep(buf, pre, s, end) == Some(next)
    requires LensSound(buf, pre, next, end) && RunGives(buf, pre, next, end, lens, rest)
    ensures RunGives(buf, pre, s, end, lens, rest)
  {
    hide LensSound, LensStep, Ahead;
  }

  lemma ItemsParts(pre: Lens, lens: Lens, pos: nat, end: nat, items: seq<Item>, rest: seq<Op>)
    requires ItemsOk(pre, lens, pos, end, items) && items != []
    ensures var item, more := items[0], items[1..];
      var pos' := pos + |LensOfItem(item)|;
      && pos < end <= |lens| && ItemOk(pre, item, lens[pos]) && ItemsOk(pre, lens, pos', end, more)
      && LensOfItems(items) == LensOfItem(item) + LensOfItems(more)
      && ItemsOps(pre, lens, pos, end, items) + rest
         == ItemOps(pre, item, lens[pos]) + (ItemsOps(pre, lens, pos', end, more) + rest)
  {
    hide ItemOk, ItemOps, LensOfItem;
  }

  lemma SoundLens(buf: seq<byte>, pre: Lens, s: LensState, end: nat)
    requires LensSound(buf, pre, s, end)
    ensures end + READ_LENS_MAX_OVERRUN <= |s.lens|
  {
  }

  /** A precode and the lengths written with it. */
  datatype Plan = Plan(pre: Lens, items: seq<Item>)

  ghost predicate PlanOk(plan: Plan, lens: Lens, start: nat, end: nat) {
    && |plan.pre| == 20 && Complete(plan.pre, 15) && ItemsOk(plan.pre, lens, start, end, plan.items)
    && end + READ_LENS_MAX_OVERRUN <= |lens|
  }

  ghost function PlanOps(plan: Plan, lens: Lens, start: nat, end: nat): seq<Op>
    requires PlanOk(plan, lens, start, end)
  {
    FieldOps(4, plan.pre) + ItemsOps(plan.pre, lens, start, end, plan.items)
  }

  /** The lengths afterwards. */
  ghost function Planned(plan: Plan, lens: Lens, start: nat, end: nat): (r: Lens)
    requires PlanOk(plan, lens, start, end)
    ensures |r| == |lens|
  {
    ItemsEnd(plan.pre, lens, start, end, plan.items);
    Replaced(lens, start, LensOfItems(plan.items))
  }

  lemma PlanOpsOk(plan: Plan, lens: Lens, start: nat, end: nat)
    requires PlanOk(plan, lens, start, end)
    ensures AllOk(PlanOps(plan, lens, start, end))
  {
    hide OpOk;
    Pow2Literals();
    FieldOpsOk(4, plan.pre);
    ItemsOpsOk(plan.pre, lens, start, end, plan.items);
  }

  /** Lengths that were written are read. */
  lemma LensAreRead(buf: seq<byte>, lens: Lens, start: nat, end: nat, r: Reader, plan: Plan, rest: seq<Op>)
    requires PlanOk(plan, lens, start, end) && LensUpTo(lens, 16)
    requires Ahead(buf, r, PlanOps(plan, lens, start, end) + rest)
    ensures Sound(buf, r)
    ensures var read := LensRead(buf, lens, start, end, r);
      read.Some? && read.value.0 == Planned(plan, lens, start, end) && Ahead(buf, read.value.1, rest)
  {
    hide Ahead, FieldsRead, FieldOps, LensRun, Complete, Empty, LensUpTo, ItemsOk, ItemsOps;
    var items := ItemsOps(plan.pre, lens, start, end, plan.items);
    assert PlanOps(plan, lens, start, end) + rest == FieldOps(4, plan.pre) + (items + rest);
    FieldsAreRead(buf, r, 4, plan.pre, items + rest);
    var r1 := FieldsRead(buf, r, 4, |plan.pre|).1;
    AheadIsSound(buf, r1, items + rest);
    ItemsAreRead(buf, plan.pre, LensState(lens, start, r1), end, plan.items, rest);
    assert RunGives(buf, plan.pre, LensState(lens, start, r1), end, Planned(plan, lens, start, end), rest);
  }
}
