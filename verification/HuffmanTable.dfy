/**
 The two-level decode table: a root table indexed by `tb` bits, and one subtable for each root
 entry whose codewords are longer than `tb` bits.  `MakeDecodeTable` builds it; `Decodes` says
 what the finished table must hold for every `m`-bit window.
 */
module HuffmanTable {
  import opened Shifts
  import opened CanonicalCode

  /** An entry: the symbol (or subtable index) above a four-bit length. */
  function Entry(symbol: nat, length: nat): nat {
    16 * symbol + length
  }

  ghost predicate Dimensions(lens: Lens, tb: nat, m: nat) {
    1 <= tb <= m && tb <= 15 && m - tb <= 15 && |lens| <= Pow2(tb) && Bounded(lens, m)
  }

  // ----- where the subtables lie -----

  /** Length of the last, hence longest, codeword in block `k` of the codespace. */
  function LongestIn(lens: Lens, tb: nat, m: nat, k: nat): (l: nat)
    requires 1 <= tb <= m
    ensures 1 <= l <= m
  {
    LenAt(lens, m, Shl(k + 1, m - tb) - 1)
  }

  /** Number of bits that index the subtable of root entry `k`. */
  function SubBits(lens: Lens, tb: nat, m: nat, k: nat): (b: nat)
    requires 1 <= tb <= m
    ensures b <= m - tb
  {
    var l := LongestIn(lens, tb, m, k);
    if l <= tb then 0 else l - tb
  }

  function SubEntries(lens: Lens, tb: nat, m: nat, k: nat): nat
    requires 1 <= tb <= m
  {
    if LongestIn(lens, tb, m, k) <= tb then 0 else Pow2(SubBits(lens, tb, m, k))
  }

  /** Where the subtable of root entry `k` starts. */
  function SubStart(lens: Lens, tb: nat, m: nat, k: nat): (p: nat)
    requires 1 <= tb <= m
    ensures p >= Pow2(tb)
  {
    if k == 0 then Pow2(tb) else SubStart(lens, tb, m, k - 1) + SubEntries(lens, tb, m, k - 1)
  }

  /** The size of the whole table. */
  function EntriesNeeded(lens: Lens, tb: nat, m: nat): nat
    requires 1 <= tb <= m
  {
    SubStart(lens, tb, m, Pow2(tb))
  }

  /** The root entry for window `w`: its first `tb` bits. */
  function Block(tb: nat, m: nat, w: nat): nat
    requires tb <= m
  {
    Shr(w, m - tb)
  }

  /** The subtable entry for window `w`: indexed by the bits after the first `tb`. */
  function Slot(lens: Lens, tb: nat, m: nat, w: nat): (i: nat)
    requires 1 <= tb <= m
    ensures i >= Pow2(tb)
  {
    var k := Block(tb, m, w);
    var b := SubBits(lens, tb, m, k);
    SubStart(lens, tb, m, k) + Low(Shr(w, m - tb - b), b)
  }

  ghost predicate SlotHolds(t: seq<nat>, lens: Lens, tb: nat, m: nat, w: nat)
    requires 1 <= tb <= m && Complete(lens, m) && w < Pow2(m)
  {
    var k := Block(tb, m, w);
    var l := LenAt(lens, m, w);
    k < |t| &&
    if l <= tb then t[k] == Entry(SymAt(lens, m, w), l)
    else
      && t[k] == Entry(SubStart(lens, tb, m, k), SubBits(lens, tb, m, k))
      && Slot(lens, tb, m, w) < |t|
      && t[Slot(lens, tb, m, w)] == Entry(SymAt(lens, m, w), l - tb)
  }

  /** Every window below `limit` is decoded by the table. */
  ghost predicate DecodesBelow(t: seq<nat>, lens: Lens, tb: nat, m: nat, limit: nat)
    requires 1 <= tb <= m && Complete(lens, m) && limit <= Pow2(m)
  {
    forall w | 0 <= w < limit :: SlotHolds(t, lens, tb, m, w)
  }

  ghost predicate Decodes(t: seq<nat>, lens: Lens, tb: nat, m: nat)
    requires 1 <= tb <= m && Complete(lens, m)
  {
    DecodesBelow(t, lens, tb, m, Pow2(m))
  }

  lemma {:induction false} SubStartMonotone(lens: Lens, tb: nat, m: nat, j: nat, k: nat)
    requires 1 <= tb <= m && j <= k
    ensures SubStart(lens, tb, m, j) <= SubStart(lens, tb, m, k)
  {
    if j < k { SubStartMonotone(lens, tb, m, j, k - 1); }
  }

  lemma BlockBound(tb: nat, m: nat, w: nat)
    requires tb <= m && w < Pow2(m)
    ensures Block(tb, m, w) < Pow2(tb)
  {
    ShrBelow(w, m - tb, tb);
  }

  lemma SlotKept(t: seq<nat>, u: seq<nat>, lens: Lens, tb: nat, m: nat, w: nat)
    requires 1 <= tb <= m && Complete(lens, m) && w < Pow2(m)
    requires SlotHolds(t, lens, tb, m, w) && |u| == |t|
    requires u[Block(tb, m, w)] == t[Block(tb, m, w)]
    requires LenAt(lens, m, w) > tb ==> u[Slot(lens, tb, m, w)] == t[Slot(lens, tb, m, w)]
    ensures SlotHolds(u, lens, tb, m, w)
  {}

  // ----- counting and sorting the symbols -----

  /** How many symbols have a codeword shorter than `l`, no codeword included. */
  function Off(lens: Lens, l: nat): nat {
    if l == 0 then 0 else Off(lens, l - 1) + Count(lens, l - 1)
  }

  lemma {:induction false} OffMonotone(lens: Lens, k: nat, l: nat)
    requires k <= l
    ensures Off(lens, k) <= Off(lens, l)
  {
    if k < l { OffMonotone(lens, k, l - 1); }
  }

  lemma {:induction false} OffAppend(lens: Lens, x: nat, l: nat)
    ensures Off(lens + [x], l) == Off(lens, l) + if x < l then 1 else 0
  {
    assert (lens + [x])[..|lens|] == lens;
    if l > 0 { OffAppend(lens, x, l - 1); }
  }

  lemma {:induction false} OffTotal(lens: Lens, m: nat)
    requires Bounded(lens, m)
    ensures Off(lens, m + 1) == |lens|
  {
    if lens == [] {
      OffNone(m + 1);
    } else {
      var n := |lens| - 1;
      assert lens == lens[..n] + [lens[n]];
      OffTotal(lens[..n], m);
      OffAppend(lens[..n], lens[n], m + 1);
    }
  }

  lemma {:induction false} OffNone(l: nat)
    ensures Off([], l) == 0
  {
    if l > 0 { OffNone(l - 1); }
  }

  ghost predicate Counted(counts: seq<nat>, lens: Lens, m: nat) {
    |counts| == m + 1 && forall l {:trigger counts[l]} | 0 <= l <= m :: counts[l] == Count(lens, l)
  }

  /** The `j`-th symbol of length `l` stands where the counting sort puts it. */
  ghost predicate InPlace(sorted: seq<nat>, lens: Lens, l: nat, j: nat) {
    j < Count(lens, l) && Off(lens, l) + j < |sorted| && sorted[Off(lens, l) + j] == NthSym(lens, l, j)
  }

  ghost predicate Sorted(sorted: seq<nat>, lens: Lens, m: nat) {
    |sorted| == |lens| && Bounded(lens, m) &&
    forall l, j | 0 <= l <= m && 0 <= j < Count(lens, l) :: InPlace(sorted, lens, l, j)
  }

  lemma SortedAt(sorted: seq<nat>, lens: Lens, m: nat, l: nat, j: nat)
    requires Sorted(sorted, lens, m) && l <= m && j < Count(lens, l)
    ensures Off(lens, l) + j < |sorted| && sorted[Off(lens, l) + j] == NthSym(lens, l, j)
  {
    assert InPlace(sorted, lens, l, j);
  }

  lemma CountSteps(lens: Lens, s: nat, m: nat)
    requires s < |lens|
    ensures forall l | 0 <= l <= m :: Count(lens[..s + 1], l) == Count(lens[..s], l) + if lens[s] == l then 1 else 0
  {
    forall l | 0 <= l <= m { CountStep(lens, s, l); }
  }

  method CountLens(lens: Lens, m: nat) returns (counts: array<nat>)
    requires Bounded(lens, m)
    ensures fresh(counts) && Counted(counts[..], lens, m)
  {
    counts := new nat[m + 1](_ => 0);
    for sym := 0 to |lens|
      invariant forall l {:trigger counts[l]} | 0 <= l <= m :: counts[l] == Count(lens[..sym], l)
    {
      CountSteps(lens, sym, m);
      counts[lens[sym]] := counts[lens[sym]] + 1;
    }
    assert lens[..|lens|] == lens;
  }

  /** The slot of the next symbol is free, and nobody else's. */
  lemma SortSlot(lens: Lens, m: nat, sym: nat)
    requires Bounded(lens, m) && sym < |lens|
    ensures var l := lens[sym]; var j := Count(lens[..sym], l);
            j < Count(lens, l) && NthSym(lens, l, j) == sym && Off(lens, l) + j < |lens|
  {
    hide NthSym;
    var l := lens[sym];
    RankBound(lens, sym);
    NthSymUnique(lens, sym, NthSym(lens, l, Count(lens[..sym], l)));
    OffTotal(lens, m);
    OffMonotone(lens, l + 1, m + 1);
  }

  lemma SlotsDistinct(lens: Lens, k: nat, i: nat, l: nat, j: nat)
    requires i < Count(lens, k) && j < Count(lens, l) && Off(lens, k) + i == Off(lens, l) + j
    ensures k == l && i == j
  {
    if k < l { OffMonotone(lens, k + 1, l); }
    if l < k { OffMonotone(lens, l + 1, k); }
  }

  /** The symbols below `sym` are in place. */
  ghost predicate Placed(sorted: seq<nat>, lens: Lens, m: nat, sym: nat) {
    |sorted| == |lens| && sym <= |lens| &&
    forall l, j | 0 <= l <= m && 0 <= j < Count(lens[..sym], l) :: InPlace(sorted, lens, l, j)
  }

  lemma NonePlaced(sorted: seq<nat>, lens: Lens, m: nat)
    requires |sorted| == |lens|
    ensures Placed(sorted, lens, m, 0)
  {
    forall l: nat
      ensures Count(lens[..0], l) == 0
    {
      CountNone(l);
    }
  }

  lemma PlaceNext(before: seq<nat>, lens: Lens, m: nat, sym: nat)
    requires Bounded(lens, m) && sym < |lens| && Placed(before, lens, m, sym)
    ensures var p := Off(lens, lens[sym]) + Count(lens[..sym], lens[sym]);
            p < |lens| && Placed(before[p := sym], lens, m, sym + 1)
  {
    var x := lens[sym];
    var r := Count(lens[..sym], x);
    SortSlot(lens, m, sym);
    var after := before[Off(lens, x) + r := sym];
    forall l, j {:trigger InPlace(after, lens, l, j)} | 0 <= l <= m && 0 <= j < Count(lens[..sym + 1], l)
      ensures InPlace(after, lens, l, j)
    {
      CountStep(lens, sym, l);
      if l != x || j != r {
        assert InPlace(before, lens, l, j);
        if Off(lens, l) + j == Off(lens, x) + r { SlotsDistinct(lens, l, j, x, r); }
      }
    }
  }

  method MakeOffsets(lens: Lens, m: nat, counts: array<nat>) returns (offsets: array<nat>)
    requires Bounded(lens, m) && Counted(counts[..], lens, m)
    ensures fresh(offsets) && offsets.Length == m + 1
    ensures forall l {:trigger offsets[l]} | 0 <= l <= m :: offsets[l] == Off(lens, l)
  {
    offsets := new nat[m + 1](_ => 0);
    for l := 0 to m
      invariant forall k {:trigger offsets[k]} | 0 <= k <= l :: offsets[k] == Off(lens, k)
    {
      assert counts[..][l] == counts[l];
      offsets[l + 1] := offsets[l] + counts[l];
    }
  }

  method SortSymbols(lens: Lens, m: nat, counts: array<nat>) returns (sorted: array<nat>, first: nat)
    requires Bounded(lens, m) && Counted(counts[..], lens, m)
    ensures fresh(sorted) && Sorted(sorted[..], lens, m)
    ensures first == Off(lens, 1)
  {
    var offsets := MakeOffsets(lens, m, counts);
    sorted := new nat[|lens|](_ => 0);
    assert lens[..0] == [];
    NonePlaced(sorted[..], lens, m);
    for sym := 0 to |lens|
      invariant forall l {:trigger offsets[l]} | 0 <= l <= m :: offsets[l] == Off(lens, l) + Count(lens[..sym], l)
      invariant Placed(sorted[..], lens, m, sym)
    {
      PlaceNext(sorted[..], lens, m, sym);
      CountSteps(lens, sym, m);
      ghost var before := sorted[..];
      var p := offsets[lens[sym]];
      sorted[p] := sym;
      assert sorted[..] == before[p := sym];
      offsets[lens[sym]] := p + 1;
    }
    assert lens[..|lens|] == lens;
    first := offsets[0];
  }

  // ----- the root table -----

  /** How far into the codespace the codewords shorter than `l` reach. */
  function ReachBefore(lens: Lens, m: nat, l: nat): nat
    requires 1 <= l <= m + 1
  {
    if l == 1 then 0 else Hi(lens, m, l - 1)
  }

  lemma ReachBeforeIsLo(lens: Lens, m: nat, l: nat)
    requires 1 <= l <= m
    ensures ReachBefore(lens, m, l) == Lo(lens, m, l)
  {
    if l > 1 { LoIsPreviousHi(lens, m, l); } else { ShlZero(m - 1); }
  }

  /** Below `Hi(tb)` there are only codewords that the root table holds directly. */
  lemma ShortBelow(lens: Lens, tb: nat, m: nat, w: nat)
    requires 1 <= tb <= m && Complete(lens, m) && w < Hi(lens, m, tb)
    ensures w < Pow2(m) && LenAt(lens, m, w) <= tb
  {
    CompleteHi(lens, m);
    HiMonotone(lens, m, tb, m);
    LenAtInterval(lens, m, w);
    var l := LenAt(lens, m, w);
    if l > tb {
      LoIsPreviousHi(lens, m, l);
      HiMonotone(lens, m, tb, l - 1);
    }
  }

  ghost predicate FilledWith(before: seq<nat>, after: seq<nat>, p: nat, n: nat, v: nat) {
    |after| == |before| && p + n <= |after| &&
    (forall i | 0 <= i < p :: after[i] == before[i]) &&
    forall i | p <= i < p + n :: after[i] == v
  }

  lemma BlockBelow(tb: nat, m: nat, w: nat, p: nat)
    requires tb <= m
    ensures w < Shl(p, m - tb) <==> Block(tb, m, w) < p
  {
    ShrBounds(w, m - tb);
    ShlCancel(Block(tb, m, w), p, m - tb);
    ShlCancel(p, Block(tb, m, w), m - tb);
  }

  /** The first `j` codewords of length `l` are in, and fill the root table up to entry `p`. */
  ghost predicate FillState(t: seq<nat>, lens: Lens, tb: nat, m: nat, l: nat, j: nat, p: nat) {
    && Dimensions(lens, tb, m) && Complete(lens, m)
    && 1 <= l <= tb
    && Shl(p, m - tb) == Shl(FirstCode(lens, l) + j, m - l) <= Pow2(m)
    && DecodesBelow(t, lens, tb, m, Shl(p, m - tb))
  }

  /** One more codeword of length `l` takes `2^(tb-l)` more root entries. */
  lemma RootScale(lens: Lens, tb: nat, m: nat, l: nat, j: nat, p: nat)
    requires 1 <= l <= tb <= m && Complete(lens, m) && j < Count(lens, l)
    requires Shl(p, m - tb) == Shl(FirstCode(lens, l) + j, m - l)
    ensures Shl(p + Pow2(tb - l), m - tb) == Shl(FirstCode(lens, l) + j + 1, m - l)
    ensures Shl(p + Pow2(tb - l), m - tb) <= Hi(lens, m, tb) <= Pow2(m)
    ensures p + Pow2(tb - l) <= Pow2(tb)
  {
    hide Shl, Count, FirstCode;
    ShlAdd(p, Pow2(tb - l), m - tb);
    Pow2Shl(tb - l, m - tb);
    ShlNext(FirstCode(lens, l) + j, m - l);
    ShlMonotone(FirstCode(lens, l) + j + 1, EndCode(lens, l), m - l);
    HiMonotone(lens, m, l, tb);
    HiMonotone(lens, m, tb, m);
    CompleteHi(lens, m);
    Pow2Shl(tb, m - tb);
    ShlCancel(p + Pow2(tb - l), Pow2(tb), m - tb);
  }

  /** Filling the entries of the `j`-th codeword of length `l` decodes its windows as well. */
  lemma RootFilled(lens: Lens, tb: nat, m: nat, l: nat, j: nat, before: seq<nat>, after: seq<nat>, p: nat)
    requires FillState(before, lens, tb, m, l, j, p) && j < Count(lens, l)
    requires FilledWith(before, after, p, Pow2(tb - l), Entry(NthSym(lens, l, j), l))
    ensures FillState(after, lens, tb, m, l, j + 1, p + Pow2(tb - l))
  {
    RootScale(lens, tb, m, l, j, p);
    forall w | 0 <= w < Shl(p + Pow2(tb - l), m - tb)
      ensures SlotHolds(after, lens, tb, m, w)
    {
      RootFilledAt(lens, tb, m, l, j, before, after, p, w);
    }
  }

  lemma RootFilledAt(lens: Lens, tb: nat, m: nat, l: nat, j: nat, before: seq<nat>, after: seq<nat>, p: nat, w: nat)
    requires FillState(before, lens, tb, m, l, j, p) && j < Count(lens, l)
    requires FilledWith(before, after, p, Pow2(tb - l), Entry(NthSym(lens, l, j), l))
    requires w < Shl(p + Pow2(tb - l), m - tb)
    ensures w < Pow2(m) && SlotHolds(after, lens, tb, m, w)
  {
    hide Block, Slot, Shr, Shl, LenAt, FirstCode, EndCode, Pow2;
    RootScale(lens, tb, m, l, j, p);
    BlockBelow(tb, m, w, p);
    BlockBelow(tb, m, w, p + Pow2(tb - l));
    ShortBelow(lens, tb, m, w);
    if w < Shl(p, m - tb) {
      assert SlotHolds(before, lens, tb, m, w);
      SlotKept(before, after, lens, tb, m, w);
    } else {
      ShlNext(FirstCode(lens, l) + j, m - l);
      ShrUnique(w, FirstCode(lens, l) + j, m - l);
      CodewordOwns(lens, m, l, j, w);
    }
  }

  /** `n` stores of `2^log` equal entries each, as the vector, word and entry loops do them. */
  method StoreRepeated(table: array<nat>, p: nat, v: nat, n: nat, log: nat) returns (q: nat)
    requires n > 0 && p + Shl(n, log) <= table.Length
    modifies table
    ensures q == p + Shl(n, log)
    ensures FilledWith(old(table[..]), table[..], p, Shl(n, log), v)
  {
    q := p;
    var left := n;
    while left != 0
      invariant 0 <= left <= n && q + Shl(left, log) == p + Shl(n, log)
      invariant p <= q
      invariant forall i | 0 <= i < p :: table[i] == old(table[i])
      invariant forall i | p <= i < q :: table[i] == v
    {
      ShlNext(left - 1, log);
      forall i | q <= i < q + Pow2(log) {
        table[i] := v;
      }
      q := q + Pow2(log);
      left := left - 1;
    }
    ShlZero(log);
  }

  ghost predicate RootState(t: seq<nat>, lens: Lens, tb: nat, m: nat, l: nat, sym: nat, p: nat) {
    && Dimensions(lens, tb, m) && Complete(lens, m)
    && 1 <= l <= tb + 1
    && sym == Off(lens, l)
    && Shl(p, m - tb) == ReachBefore(lens, m, l) <= Pow2(m)
    && DecodesBelow(t, lens, tb, m, Shl(p, m - tb))
  }

  /** Fills the entries of every codeword of length `l`, `n` stores of `2^log` entries a symbol. */
  method FillLength(lens: Lens, tb: nat, m: nat, sorted: array<nat>, counts: array<nat>, table: array<nat>,
                    l: nat, sym0: nat, p0: nat, n: nat, log: nat)
    returns (sym: nat, p: nat)
    requires l <= tb && RootState(table[..], lens, tb, m, l, sym0, p0)
    requires Sorted(sorted[..], lens, m) && Counted(counts[..], lens, m)
    requires table != sorted && table != counts && table.Length >= Pow2(tb)
    requires n > 0 && Shl(n, log) == Pow2(tb - l)
    modifies table
    ensures RootState(table[..], lens, tb, m, l + 1, sym, p)
  {
    sym, p := sym0, p0;
    ReachBeforeIsLo(lens, m, l);
    assert counts[..][l] == counts[l];
    var end := sym + counts[l];
    ghost var j := 0;
    while sym < end
      invariant sym == Off(lens, l) + j && j <= Count(lens, l)
      invariant FillState(table[..], lens, tb, m, l, j, p)
      decreases end - sym
    {
      SortedAt(sorted[..], lens, m, l, j);
      assert sorted[..][sym] == sorted[sym];
      RootScale(lens, tb, m, l, j, p);
      ghost var before, start := table[..], p;
      p := StoreRepeated(table, p, Entry(sorted[sym], l), n, log);
      RootFilled(lens, tb, m, l, j, before, table[..], start);
      sym, j := sym + 1, j + 1;
    }
  }

  /**
   One of the root-filling loops: stores of `2^log` entries each, for as many lengths as a
   codeword still has that many entries.
   */
  method FillRootPhase(lens: Lens, tb: nat, m: nat, sorted: array<nat>, counts: array<nat>, table: array<nat>,
                       l0: nat, sym0: nat, p0: nat, log: nat)
    returns (l: nat, sym: nat, p: nat)
    requires l0 <= tb && RootState(table[..], lens, tb, m, l0, sym0, p0)
    requires Sorted(sorted[..], lens, m) && Counted(counts[..], lens, m)
    requires table != sorted && table != counts && table.Length >= Pow2(tb)
    modifies table
    ensures RootState(table[..], lens, tb, m, l, sym, p)
    ensures l + log > tb && (log > 0 ==> l <= tb)
  {
    l, sym, p := l0, sym0, p0;
    StoresPerLoop(tb - l, log);
    var stores := Shr(Pow2(tb - l), log);
    while stores != 0
      invariant 1 <= l <= tb + 1 && (log > 0 ==> l <= tb)
      invariant stores == if l + log <= tb then Pow2(tb - l - log) else 0
      invariant RootState(table[..], lens, tb, m, l, sym, p)
      decreases tb + 1 - l
    {
      Pow2Shl(tb - l - log, log);
      sym, p := FillLength(lens, tb, m, sorted, counts, table, l, sym, p, stores, log);
      l := l + 1;
      stores := stores / 2;
    }
  }

  lemma StoresPerLoop(e: nat, log: nat)
    ensures Shr(Pow2(e), log) == if log <= e then Pow2(e - log) else 0
  {
    if log <= e {
      Pow2Shl(e - log, log);
      ShrOfShl(Pow2(e - log), log, 0);
    } else {
      Pow2Monotone(e + 1, log);
      ShlZero(log);
      ShrUnique(Pow2(e), 0, log);
    }
  }
}
