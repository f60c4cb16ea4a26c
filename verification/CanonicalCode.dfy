/**
 The canonical prefix code that an array of codeword lengths denotes, defined without any
 decode table: codewords of one length are consecutive in symbol order, and a longer codeword
 never precedes a shorter one.  A codeword of length `l` stands for an interval of the
 codespace `0 .. 2^m`, where `m` is the longest length allowed.
 */
module CanonicalCode {
  import opened Shifts

  type Lens = seq<nat>

  ghost predicate Bounded(lens: Lens, m: nat) {
    forall s | 0 <= s < |lens| :: lens[s] <= m
  }

  /** How many symbols have a codeword of length `l`. */
  function Count(lens: Lens, l: nat): nat {
    if lens == [] then 0
    else Count(lens[..|lens| - 1], l) + if lens[|lens| - 1] == l then 1 else 0
  }

  /** The first codeword of length `l` (the recurrence of RFC 1951, section 3.2.2). */
  function FirstCode(lens: Lens, l: nat): nat
    requires l >= 1
    decreases l, 0
  {
    if l == 1 then 0 else 2 * EndCode(lens, l - 1)
  }

  /** One past the last codeword of length `l`. */
  function EndCode(lens: Lens, l: nat): nat
    requires l >= 1
    decreases l, 1
  {
    FirstCode(lens, l) + Count(lens, l)
  }

  /** The codeword of symbol `s`, as a number of `lens[s]` bits. */
  function Codeword(lens: Lens, s: nat): nat
    requires s < |lens| && lens[s] > 0
  {
    FirstCode(lens, lens[s]) + Count(lens[..s], lens[s])
  }

  /** The share of the codespace that the lengths use, in units of `2^-m`. */
  function Kraft(lens: Lens, m: nat): nat
    requires Bounded(lens, m)
  {
    if lens == [] then 0
    else
      var l := lens[|lens| - 1];
      Kraft(lens[..|lens| - 1], m) + if l == 0 then 0 else Pow2(m - l)
  }

  ghost predicate Complete(lens: Lens, m: nat) {
    Bounded(lens, m) && Kraft(lens, m) == Pow2(m)
  }

  ghost predicate Empty(lens: Lens) {
    forall s | 0 <= s < |lens| :: lens[s] == 0
  }

  /** The codeword of `s` is a prefix of the `m`-bit window `w`. */
  ghost predicate Prefixes(lens: Lens, m: nat, s: nat, w: nat)
    requires Bounded(lens, m)
  {
    s < |lens| && lens[s] > 0 && Shr(w, m - lens[s]) == Codeword(lens, s)
  }

  // ----- Kraft sum, by length -----

  lemma {:induction false} CountNone(l: nat)
    ensures Count([], l) == 0
  {}

  lemma {:induction false} EndOfNone(l: nat)
    requires l >= 1
    ensures EndCode([], l) == 0
  {
    if l > 1 { EndOfNone(l - 1); }
  }

  /** Appending one symbol of length `x` adds its share of the codespace. */
  lemma {:induction false} EndOfAppend(lens: Lens, x: nat, l: nat)
    requires l >= 1
    ensures EndCode(lens + [x], l) == EndCode(lens, l) + if 1 <= x <= l then Pow2(l - x) else 0
  {
    assert (lens + [x])[..|lens|] == lens;
    if l > 1 { EndOfAppend(lens, x, l - 1); }
  }

  /** Counted length by length, the code uses exactly its Kraft sum. */
  lemma {:induction false} KraftIsEnd(lens: Lens, m: nat)
    requires m >= 1 && Bounded(lens, m)
    ensures Kraft(lens, m) == EndCode(lens, m)
  {
    if lens == [] {
      EndOfNone(m);
    } else {
      var n := |lens| - 1;
      assert lens == lens[..n] + [lens[n]];
      KraftIsEnd(lens[..n], m);
      EndOfAppend(lens[..n], lens[n], m);
    }
  }

  lemma {:induction false} EndGrows(lens: Lens, l: nat, m: nat)
    requires 1 <= l <= m
    ensures EndCode(lens, m) >= Shl(EndCode(lens, l), m - l)
  {
    if l < m { EndGrows(lens, l, m - 1); }
  }

  /** Once the lengths overflow the codespace, no later length can bring them back. */
  lemma OverflowIsIncomplete(lens: Lens, l: nat, m: nat)
    requires 1 <= l <= m && Bounded(lens, m)
    requires EndCode(lens, l) > Pow2(l)
    ensures !Complete(lens, m) && !Empty(lens)
  {
    KraftIsEnd(lens, m);
    EndGrows(lens, l, m);
    Pow2Shl(l, m - l);
    ShlMonotone(Pow2(l), EndCode(lens, l), m - l);
    EmptyKraft(lens, m);
  }

  lemma {:induction false} EmptyKraft(lens: Lens, m: nat)
    requires Bounded(lens, m)
    ensures Empty(lens) <==> Kraft(lens, m) == 0
  {
    if lens != [] {
      var n := |lens| - 1;
      EmptyKraft(lens[..n], m);
      assert lens == lens[..n] + [lens[n]];
      assert Empty(lens) <==> Empty(lens[..n]) && lens[n] == 0 by {
        assert forall s | 0 <= s < n :: lens[..n][s] == lens[s];
      }
    }
  }

  // ----- the codespace, cut into one interval per codeword -----

  /** Where the codewords of length `l` start in the codespace. */
  function Lo(lens: Lens, m: nat, l: nat): nat
    requires 1 <= l <= m
  {
    Shl(FirstCode(lens, l), m - l)
  }

  /** Where they end. */
  function Hi(lens: Lens, m: nat, l: nat): nat
    requires 1 <= l <= m
  {
    Shl(EndCode(lens, l), m - l)
  }

  lemma LoIsPreviousHi(lens: Lens, m: nat, l: nat)
    requires 1 < l <= m
    ensures Lo(lens, m, l) == Hi(lens, m, l - 1)
  {
    ShlDouble(EndCode(lens, l - 1), m - l);
  }

  lemma LoLeHi(lens: Lens, m: nat, l: nat)
    requires 1 <= l <= m
    ensures Lo(lens, m, l) <= Hi(lens, m, l)
  {
    ShlMonotone(FirstCode(lens, l), EndCode(lens, l), m - l);
  }

  lemma {:induction false} HiMonotone(lens: Lens, m: nat, k: nat, l: nat)
    requires 1 <= k <= l <= m
    ensures Hi(lens, m, k) <= Hi(lens, m, l)
    decreases l
  {
    if k < l {
      HiMonotone(lens, m, k, l - 1);
      LoIsPreviousHi(lens, m, l);
      LoLeHi(lens, m, l);
    }
  }

  lemma CompleteHi(lens: Lens, m: nat)
    requires m >= 1 && Complete(lens, m)
    ensures Hi(lens, m, m) == Pow2(m)
  {
    KraftIsEnd(lens, m);
    assert Hi(lens, m, m) == EndCode(lens, m);
  }

  /** The length of the codeword whose interval holds `w`, looking from length `l` up. */
  function LenFrom(lens: Lens, m: nat, w: nat, l: nat): (r: nat)
    requires 1 <= l <= m
    ensures l <= r <= m
    decreases m - l
  {
    if l == m || w < Hi(lens, m, l) then l else LenFrom(lens, m, w, l + 1)
  }

  function LenAt(lens: Lens, m: nat, w: nat): (r: nat)
    requires m >= 1
    ensures 1 <= r <= m
  {
    LenFrom(lens, m, w, 1)
  }

  lemma {:induction false} LenFromInterval(lens: Lens, m: nat, w: nat, l: nat)
    requires m >= 1 && Complete(lens, m) && w < Pow2(m)
    requires 1 <= l <= m && Lo(lens, m, l) <= w
    ensures var r := LenFrom(lens, m, w, l); Lo(lens, m, r) <= w < Hi(lens, m, r)
    decreases m - l
  {
    CompleteHi(lens, m);
    if l < m && w >= Hi(lens, m, l) {
      LoIsPreviousHi(lens, m, l + 1);
      LenFromInterval(lens, m, w, l + 1);
    }
  }

  lemma LenAtInterval(lens: Lens, m: nat, w: nat)
    requires m >= 1 && Complete(lens, m) && w < Pow2(m)
    ensures var r := LenAt(lens, m, w); Lo(lens, m, r) <= w < Hi(lens, m, r)
  {
    ShlZero(m - 1);
    LenFromInterval(lens, m, w, 1);
  }

  /** The intervals of different lengths are disjoint, so the length is determined. */
  lemma LenAtUnique(lens: Lens, m: nat, w: nat, l: nat)
    requires m >= 1 && Complete(lens, m)
    requires 1 <= l <= m && Lo(lens, m, l) <= w < Hi(lens, m, l)
    ensures w < Pow2(m) && LenAt(lens, m, w) == l
  {
    CompleteHi(lens, m);
    HiMonotone(lens, m, l, m);
    LenAtInterval(lens, m, w);
    var r := LenAt(lens, m, w);
    if r < l {
      LoIsPreviousHi(lens, m, l);
      HiMonotone(lens, m, r, l - 1);
    } else if l < r {
      LoIsPreviousHi(lens, m, r);
      HiMonotone(lens, m, l, r - 1);
    }
  }

  // ----- symbols of one length, in symbol order -----

  lemma {:induction false} CountMonotone(lens: Lens, s: nat, l: nat)
    requires s <= |lens|
    ensures Count(lens[..s], l) <= Count(lens, l)
  {
    if s < |lens| {
      var n := |lens| - 1;
      assert lens[..n][..s] == lens[..s];
      CountMonotone(lens[..n], s, l);
    } else {
      assert lens[..s] == lens;
    }
  }

  lemma CountStep(lens: Lens, s: nat, l: nat)
    requires s < |lens|
    ensures Count(lens[..s + 1], l) == Count(lens[..s], l) + if lens[s] == l then 1 else 0
  {
    assert lens[..s + 1][..s] == lens[..s];
  }

  lemma RankBound(lens: Lens, s: nat)
    requires s < |lens|
    ensures Count(lens[..s], lens[s]) < Count(lens, lens[s])
  {
    CountStep(lens, s, lens[s]);
    CountMonotone(lens, s + 1, lens[s]);
  }

  /** The `j`-th symbol, in symbol order, among those of length `l`. */
  function NthSym(lens: Lens, l: nat, j: nat): (s: nat)
    requires j < Count(lens, l)
    ensures s < |lens| && lens[s] == l && Count(lens[..s], l) == j
  {
    var n := |lens| - 1;
    if lens[n] == l && Count(lens[..n], l) == j then n
    else
      var s := NthSym(lens[..n], l, j);
      assert lens[..n][..s] == lens[..s];
      s
  }

  lemma NthSymUnique(lens: Lens, s: nat, t: nat)
    requires s < |lens| && t < |lens| && lens[s] == lens[t]
    requires Count(lens[..s], lens[s]) == Count(lens[..t], lens[t])
    ensures s == t
  {
    var a, b := if s < t then s else t, if s < t then t else s;
    if a < b {
      assert lens[..b][..a] == lens[..a];
      RankBound(lens[..b], a);
    }
  }

  /** The symbol whose codeword's interval holds `w`. */
  function SymAt(lens: Lens, m: nat, w: nat): (s: nat)
    requires m >= 1 && Complete(lens, m) && w < Pow2(m)
    ensures s < |lens| && lens[s] == LenAt(lens, m, w)
  {
    LenAtInterval(lens, m, w);
    var l := LenAt(lens, m, w);
    RankInRange(lens, m, w, l);
    NthSym(lens, l, Shr(w, m - l) - FirstCode(lens, l))
  }

  lemma RankInRange(lens: Lens, m: nat, w: nat, l: nat)
    requires 1 <= l <= m
    ensures Lo(lens, m, l) <= w < Hi(lens, m, l) <==> FirstCode(lens, l) <= Shr(w, m - l) < EndCode(lens, l)
  {
    var q := Shr(w, m - l);
    ShrBounds(w, m - l);
    ShlCancel(FirstCode(lens, l), q, m - l);
    ShlCancel(q, EndCode(lens, l), m - l);
    ShlCancel(q + 1, EndCode(lens, l), m - l);
    ShlNext(q, m - l);
    ShlCancel(FirstCode(lens, l), q + 1, m - l);
  }

  /** A window that starts with the `j`-th codeword of length `l` is decoded as that codeword. */
  lemma CodewordOwns(lens: Lens, m: nat, l: nat, j: nat, w: nat)
    requires m >= 1 && Complete(lens, m) && 1 <= l <= m && j < Count(lens, l)
    requires Shr(w, m - l) == FirstCode(lens, l) + j
    ensures w < Pow2(m) && LenAt(lens, m, w) == l && SymAt(lens, m, w) == NthSym(lens, l, j)
  {
    RankInRange(lens, m, w, l);
    LenAtUnique(lens, m, w, l);
  }

  lemma SymAtPrefixes(lens: Lens, m: nat, w: nat)
    requires m >= 1 && Complete(lens, m) && w < Pow2(m)
    ensures Prefixes(lens, m, SymAt(lens, m, w), w)
  {
    var l := LenAt(lens, m, w);
    LenAtInterval(lens, m, w);
    RankInRange(lens, m, w, l);
  }

  /** In a complete code exactly one symbol's codeword starts a window: the one `SymAt` names. */
  lemma UniqueSymbol(lens: Lens, m: nat, w: nat, s: nat)
    requires m >= 1 && Complete(lens, m) && w < Pow2(m)
    ensures Prefixes(lens, m, s, w) <==> s == SymAt(lens, m, w)
  {
    SymAtPrefixes(lens, m, w);
    if Prefixes(lens, m, s, w) {
      RankBound(lens, s);
      CodewordOwns(lens, m, lens[s], Count(lens[..s], lens[s]), w);
      NthSymUnique(lens, s, SymAt(lens, m, w));
    }
  }
}
