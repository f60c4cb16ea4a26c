/** The second half of table construction: one subtable per root entry with long codewords. */
module HuffmanSubtables {
  import opened Shifts
  import opened CanonicalCode
  import opened HuffmanTable

  /** How far the codespace is used up before codeword `c` of length `l`. */
  function Reach(m: nat, l: nat, c: nat): nat
    requires l <= m
  {
    Shl(c, m - l)
  }

  /** The root entry whose subtable codeword `c` of length `l` belongs to. */
  function CodeBlock(tb: nat, l: nat, c: nat): nat
    requires tb < l
  {
    Shr(c, l - tb)
  }

  lemma LenAtMonotone(lens: Lens, m: nat, v: nat, w: nat)
    requires m >= 1 && Complete(lens, m) && v <= w < Pow2(m)
    ensures LenAt(lens, m, v) <= LenAt(lens, m, w)
  {
    LenAtInterval(lens, m, v);
    LenAtInterval(lens, m, w);
    var a, b := LenAt(lens, m, v), LenAt(lens, m, w);
    if b < a {
      HiMonotone(lens, m, b, a - 1);
      LoIsPreviousHi(lens, m, a);
    }
  }

  /** The last window of block `k`. */
  lemma LastWindow(tb: nat, m: nat, k: nat)
    requires tb <= m && k < Pow2(tb)
    ensures Shl(k + 1, m - tb) == Shl(k, m - tb) + Pow2(m - tb) <= Pow2(m)
    ensures Block(tb, m, Shl(k + 1, m - tb) - 1) == k
  {
    ShlNext(k, m - tb);
    ShlMonotone(k + 1, Pow2(tb), m - tb);
    Pow2Shl(tb, m - tb);
    ShrUnique(Shl(k + 1, m - tb) - 1, k, m - tb);
  }

  /** A window with a long codeword lies in a block whose subtable is wide enough for it. */
  lemma LongSubtable(lens: Lens, tb: nat, m: nat, w: nat)
    requires 1 <= tb <= m && Complete(lens, m) && w < Pow2(m) && LenAt(lens, m, w) > tb
    ensures var k := Block(tb, m, w);
            && k < Pow2(tb)
            && LenAt(lens, m, w) <= tb + SubBits(lens, tb, m, k)
            && SubEntries(lens, tb, m, k) == Pow2(SubBits(lens, tb, m, k))
  {
    var k := Block(tb, m, w);
    BlockBound(tb, m, w);
    LastWindow(tb, m, k);
    ShrBounds(w, m - tb);
    LenAtMonotone(lens, m, w, Shl(k + 1, m - tb) - 1);
  }

  /** The windows of codeword `c` are those that start with it; they all lie in its block. */
  lemma WindowOfCode(tb: nat, m: nat, l: nat, c: nat, w: nat)
    requires tb < l <= m
    ensures Reach(m, l, c) <= w < Reach(m, l, c + 1) <==> Shr(w, m - l) == c
    ensures Shr(w, m - l) == c ==> Block(tb, m, w) == CodeBlock(tb, l, c)
  {
    ShrBounds(w, m - l);
    ShlNext(c, m - l);
    if Reach(m, l, c) <= w < Reach(m, l, c + 1) { ShrUnique(w, c, m - l); }
    ShrShr(w, m - l, l - tb);
  }

  lemma ReachIsWindow(m: nat, l: nat, c: nat)
    requires l <= m
    ensures Shr(Reach(m, l, c), m - l) == c
    ensures Reach(m, l, c) < Reach(m, l, c + 1)
  {
    ShrOfShl(c, m - l, 0);
    ShlNext(c, m - l);
  }

  /** Every codeword of a block fits the subtable chosen for the block. */
  lemma FitsSubtable(lens: Lens, tb: nat, m: nat, l: nat, c: nat)
    requires 1 <= tb < l <= m && Complete(lens, m) && FirstCode(lens, l) <= c < EndCode(lens, l)
    ensures var k := CodeBlock(tb, l, c);
            && k < Pow2(tb)
            && l <= tb + SubBits(lens, tb, m, k)
            && SubEntries(lens, tb, m, k) == Pow2(SubBits(lens, tb, m, k))
            && Block(tb, m, Reach(m, l, c)) == k
  {
    var w := Reach(m, l, c);
    ReachIsWindow(m, l, c);
    WindowOfCode(tb, m, l, c, w);
    CodewordOwns(lens, m, l, c - FirstCode(lens, l), w);
    LongSubtable(lens, tb, m, w);
  }

  /** How many slots codeword `c` of length `l` takes in its subtable. */
  function Width(lens: Lens, tb: nat, m: nat, l: nat, c: nat): nat
    requires 1 <= tb < l <= m
  {
    var t := tb + SubBits(lens, tb, m, CodeBlock(tb, l, c));
    if l <= t then Pow2(t - l) else 0
  }

  /** The bits of `w` that the root entry and subtable of block `k` look at. */
  function Seen(lens: Lens, tb: nat, m: nat, k: nat, w: nat): nat
    requires 1 <= tb <= m
  {
    Shr(w, m - tb - SubBits(lens, tb, m, k))
  }

  lemma SlotOf(lens: Lens, tb: nat, m: nat, k: nat, w: nat)
    requires 1 <= tb <= m && Block(tb, m, w) == k
    ensures var b := SubBits(lens, tb, m, k); var x := Seen(lens, tb, m, k, w);
            && Slot(lens, tb, m, w) == SubStart(lens, tb, m, k) + x - Shl(k, b)
            && Shl(k, b) <= x < Shl(k, b) + Pow2(b)
  {
    var b := SubBits(lens, tb, m, k);
    ShrShr(w, m - tb - b, b);
    ShrBounds(Seen(lens, tb, m, k, w), b);
  }

  /** The slots of a codeword's windows: exactly `Width` of them, from the first window's slot on. */
  lemma SlotsOfCode(lens: Lens, tb: nat, m: nat, l: nat, c: nat, w: nat)
    requires 1 <= tb < l <= m && Complete(lens, m) && FirstCode(lens, l) <= c < EndCode(lens, l)
    requires Shr(w, m - l) == c
    ensures var s := Slot(lens, tb, m, Reach(m, l, c));
            s <= Slot(lens, tb, m, w) < s + Width(lens, tb, m, l, c)
  {
    var k := CodeBlock(tb, l, c);
    var b := SubBits(lens, tb, m, k);
    FitsSubtable(lens, tb, m, l, c);
    WindowOfCode(tb, m, l, c, w);
    SlotOf(lens, tb, m, k, w);
    SlotOf(lens, tb, m, k, Reach(m, l, c));
    SeenOfCode(lens, tb, m, l, c, k);
    ShrShr(w, m - tb - b, tb + b - l);
    ShrBounds(Seen(lens, tb, m, k, w), tb + b - l);
  }

  lemma SeenOfCode(lens: Lens, tb: nat, m: nat, l: nat, c: nat, k: nat)
    requires 1 <= tb < l <= m && l <= tb + SubBits(lens, tb, m, k)
    ensures Seen(lens, tb, m, k, Reach(m, l, c)) == Shl(c, tb + SubBits(lens, tb, m, k) - l)
  {
    var b := SubBits(lens, tb, m, k);
    ShlShl(c, tb + b - l, m - tb - b);
    ShrOfShl(Shl(c, tb + b - l), m - tb - b, 0);
  }

  lemma SlotAtBlockStart(lens: Lens, tb: nat, m: nat, k: nat)
    requires 1 <= tb <= m
    ensures Block(tb, m, Shl(k, m - tb)) == k
    ensures Slot(lens, tb, m, Shl(k, m - tb)) == SubStart(lens, tb, m, k)
  {
    var b := SubBits(lens, tb, m, k);
    ShrOfShl(k, m - tb, 0);
    SlotOf(lens, tb, m, k, Shl(k, m - tb));
    ShlShl(k, b, m - tb - b);
    ShrOfShl(Shl(k, b), m - tb - b, 0);
  }

  /** A block ends where a whole number of codewords end. */
  lemma NextBlock(tb: nat, m: nat, l: nat, c: nat)
    requires tb < l <= m
    ensures var k := CodeBlock(tb, l, c);
            || (CodeBlock(tb, l, c + 1) == k && Reach(m, l, c + 1) > Shl(k, m - tb))
            || (CodeBlock(tb, l, c + 1) == k + 1 && Reach(m, l, c + 1) == Shl(k + 1, m - tb)
                && c + 1 == Shl(k + 1, l - tb))
  {
    hide Shl, Shr;
    var k, e := CodeBlock(tb, l, c), l - tb;
    ShrBounds(c, e);
    ShlNext(k, e);
    ShlShl(k, e, m - l);
    ShlShl(k + 1, e, m - l);
    if c + 1 == Shl(k + 1, e) {
      ShrOfShl(k + 1, e, 0);
    } else {
      ShrUnique(c + 1, k, e);
      ShlMonotone(Shl(k, e), c + 1, m - l);
    }
  }

  /** After a codeword's slots come the next codeword's, in this subtable or the next. */
  lemma NextSlot(lens: Lens, tb: nat, m: nat, l: nat, c: nat)
    requires 1 <= tb < l <= m && Complete(lens, m) && FirstCode(lens, l) <= c < EndCode(lens, l)
    ensures Slot(lens, tb, m, Reach(m, l, c + 1)) == Slot(lens, tb, m, Reach(m, l, c)) + Width(lens, tb, m, l, c)
    ensures Slot(lens, tb, m, Reach(m, l, c + 1)) <= SubStart(lens, tb, m, CodeBlock(tb, l, c) + 1)
    ensures Block(tb, m, Reach(m, l, c + 1)) == CodeBlock(tb, l, c + 1)
  {
    var k := CodeBlock(tb, l, c);
    ReachIsWindow(m, l, c + 1);
    WindowOfCode(tb, m, l, c + 1, Reach(m, l, c + 1));
    SlotWithin(lens, tb, m, l, c);
    NextBlock(tb, m, l, c);
    if CodeBlock(tb, l, c + 1) == k {
      NextSlotInside(lens, tb, m, l, c);
    } else {
      NextSlotAtEnd(lens, tb, m, l, c);
    }
  }

  /** The first slot of a codeword, from the start of its subtable. */
  lemma SlotWithin(lens: Lens, tb: nat, m: nat, l: nat, c: nat)
    requires 1 <= tb < l <= m && Complete(lens, m) && FirstCode(lens, l) <= c < EndCode(lens, l)
    ensures var k := CodeBlock(tb, l, c); var b := SubBits(lens, tb, m, k);
            && l <= tb + b
            && SubStart(lens, tb, m, k + 1) == SubStart(lens, tb, m, k) + Pow2(b)
            && Slot(lens, tb, m, Reach(m, l, c)) == SubStart(lens, tb, m, k) + Shl(c, tb + b - l) - Shl(k, b)
  {
    var k := CodeBlock(tb, l, c);
    FitsSubtable(lens, tb, m, l, c);
    SeenOfCode(lens, tb, m, l, c, k);
    SlotOf(lens, tb, m, k, Reach(m, l, c));
  }

  lemma NextSlotInside(lens: Lens, tb: nat, m: nat, l: nat, c: nat)
    requires 1 <= tb < l <= m && Complete(lens, m) && FirstCode(lens, l) <= c < EndCode(lens, l)
    requires CodeBlock(tb, l, c + 1) == CodeBlock(tb, l, c) == Block(tb, m, Reach(m, l, c + 1))
    ensures Slot(lens, tb, m, Reach(m, l, c + 1)) == Slot(lens, tb, m, Reach(m, l, c)) + Width(lens, tb, m, l, c)
    ensures Slot(lens, tb, m, Reach(m, l, c + 1)) < SubStart(lens, tb, m, CodeBlock(tb, l, c) + 1)
  {
    var k := CodeBlock(tb, l, c);
    SlotWithin(lens, tb, m, l, c);
    SeenOfCode(lens, tb, m, l, c + 1, k);
    SlotOf(lens, tb, m, k, Reach(m, l, c + 1));
    ShlNext(c, tb + SubBits(lens, tb, m, k) - l);
  }

  lemma NextSlotAtEnd(lens: Lens, tb: nat, m: nat, l: nat, c: nat)
    requires 1 <= tb < l <= m && Complete(lens, m) && FirstCode(lens, l) <= c < EndCode(lens, l)
    requires c + 1 == Shl(CodeBlock(tb, l, c) + 1, l - tb)
    requires Reach(m, l, c + 1) == Shl(CodeBlock(tb, l, c) + 1, m - tb)
    ensures Slot(lens, tb, m, Reach(m, l, c + 1)) == Slot(lens, tb, m, Reach(m, l, c)) + Width(lens, tb, m, l, c)
    ensures Slot(lens, tb, m, Reach(m, l, c + 1)) == SubStart(lens, tb, m, CodeBlock(tb, l, c) + 1)
  {
    hide Slot, Reach, CodeBlock, SubBits, SubStart, Shl, Shr, FirstCode, EndCode;
    var k := CodeBlock(tb, l, c);
    var b := SubBits(lens, tb, m, k);
    SlotWithin(lens, tb, m, l, c);
    SlotAtBlockStart(lens, tb, m, k + 1);
    ShlShl(k + 1, l - tb, tb + b - l);
    ShlNext(c, tb + b - l);
    ShlNext(k, b);
  }

  lemma SlotEarlier(lens: Lens, tb: nat, m: nat, l: nat, c: nat, w: nat)
    requires 1 <= tb < l <= m && Complete(lens, m) && FirstCode(lens, l) <= c < EndCode(lens, l)
    requires w < Reach(m, l, c) < Pow2(m) && LenAt(lens, m, w) > tb
    ensures Slot(lens, tb, m, w) < Slot(lens, tb, m, Reach(m, l, c))
  {
    hide Slot, Block, Shl, Shr, LenAt, FirstCode, EndCode, SubBits, Reach;
    var k := CodeBlock(tb, l, c);
    FitsSubtable(lens, tb, m, l, c);
    SlotOf(lens, tb, m, k, Reach(m, l, c));
    if Block(tb, m, w) == k {
      SlotOf(lens, tb, m, k, w);
      SeenEarlier(lens, tb, m, l, c, k, w);
    } else {
      SlotInEarlierBlock(lens, tb, m, w, Reach(m, l, c), k);
    }
  }

  lemma SlotInEarlierBlock(lens: Lens, tb: nat, m: nat, w: nat, w0: nat, k: nat)
    requires 1 <= tb <= m && Complete(lens, m) && w < w0 < Pow2(m)
    requires Block(tb, m, w) != k == Block(tb, m, w0) && LenAt(lens, m, w) > tb
    ensures Slot(lens, tb, m, w) < SubStart(lens, tb, m, k)
  {
    hide Slot, Shl, Shr, LenAt, SubBits;
    var j := Block(tb, m, w);
    ShrMonotone(w, w0, m - tb);
    SlotOf(lens, tb, m, j, w);
    LongSubtable(lens, tb, m, w);
    SubStartMonotone(lens, tb, m, j + 1, k);
  }

  lemma SeenEarlier(lens: Lens, tb: nat, m: nat, l: nat, c: nat, k: nat, w: nat)
    requires 1 <= tb < l <= m && l <= tb + SubBits(lens, tb, m, k) && w < Reach(m, l, c)
    ensures Seen(lens, tb, m, k, w) < Seen(lens, tb, m, k, Reach(m, l, c))
  {
    var b := SubBits(lens, tb, m, k);
    var g := m - tb - b;
    SeenOfCode(lens, tb, m, l, c, k);
    ShlShl(c, tb + b - l, g);
    ShrBounds(w, g);
    ShlCancel(Shl(c, tb + b - l), Shr(w, g), g);
  }

  // ----- the size of a subtable -----

  /** The subtable needs the least number of bits at which its block is full. */
  lemma BitsAreLeast(lens: Lens, tb: nat, m: nat, l: nat, k: nat, b: nat)
    requires 1 <= tb < l <= m && Complete(lens, m) && k < Pow2(tb)
    requires FirstCode(lens, l) <= Shl(k, l - tb)
    requires l - tb <= b <= m - tb && Shl(k + 1, b) <= EndCode(lens, tb + b)
    requires b > l - tb ==> EndCode(lens, tb + b - 1) < Shl(k + 1, b - 1)
    ensures SubBits(lens, tb, m, k) == b
  {
    hide Block, Shl, Shr, Count, Low, SubEntries;
    var g, w := m - tb - b, Shl(k + 1, m - tb) - 1;
    LastWindow(tb, m, k);
    ShlShl(k + 1, b, g);
    ShlMonotone(Shl(k + 1, b), EndCode(lens, tb + b), g);
    if b > l - tb {
      LoIsPreviousHi(lens, m, tb + b);
      ShlShl(k + 1, b - 1, g + 1);
      ShlMonotone(EndCode(lens, tb + b - 1), Shl(k + 1, b - 1), g + 1);
    } else {
      ShlShl(k, l - tb, m - l);
      ShlMonotone(FirstCode(lens, l), Shl(k, l - tb), m - l);
    }
    LenAtUnique(lens, m, w, tb + b);
  }

  ghost predicate Remaining(counts: seq<nat>, lens: Lens, m: nat, l: nat, c: nat) {
    && |counts| == m + 1 && 1 <= l <= m
    && FirstCode(lens, l) <= c <= EndCode(lens, l)
    && counts[l] == EndCode(lens, l) - c
    && forall x {:trigger counts[x]} | l < x <= m :: counts[x] == Count(lens, x)
  }

  method ComputeSubBits(lens: Lens, tb: nat, m: nat, counts: array<nat>, l: nat, c: nat, ghost k: nat)
    returns (bits: nat)
    requires 1 <= tb < l <= m && Complete(lens, m) && k < Pow2(tb)
    requires Remaining(counts[..], lens, m, l, c) && c == Shl(k, l - tb)
    ensures bits == SubBits(lens, tb, m, k)
  {
    bits := l - tb;
    var remainder: int := Pow2(bits);
    ShlNext(k, bits);
    while true
      invariant l - tb <= bits <= m - tb
      invariant remainder == Shl(k + 1, bits) - EndCode(lens, tb + bits) + counts[tb + bits]
      invariant bits > l - tb ==> EndCode(lens, tb + bits - 1) < Shl(k + 1, bits - 1)
      decreases m - tb - bits
    {
      remainder := remainder - counts[tb + bits];
      if remainder <= 0 {
        break;
      }
      LastLengthFills(lens, tb, m, k, bits);
      bits := bits + 1;
      remainder := 2 * remainder;
      assert counts[..][tb + bits] == counts[tb + bits];
    }
    BitsAreLeast(lens, tb, m, l, k, bits);
  }

  /** At the longest length a complete code has filled every block. */
  lemma LastLengthFills(lens: Lens, tb: nat, m: nat, k: nat, bits: nat)
    requires 1 <= tb <= m && Complete(lens, m) && k < Pow2(tb) && bits <= m - tb
    requires Shl(k + 1, bits) > EndCode(lens, tb + bits)
    ensures bits < m - tb
  {
    KraftIsEnd(lens, m);
    LastWindow(tb, m, k);
  }

  // ----- the subtable loop -----

  /** The subtable of root entry `k` has been started. */
  ghost predicate Opened(t: seq<nat>, lens: Lens, tb: nat, m: nat, k: nat, bits: nat)
    requires 1 <= tb <= m
  {
    k < |t| && bits == SubBits(lens, tb, m, k) && t[k] == Entry(SubStart(lens, tb, m, k), bits)
  }

  /** What the loop's variables say when the codespace is used up to `w0`. */
  ghost predicate Cursor(t: seq<nat>, lens: Lens, tb: nat, m: nat, w0: nat, p: nat, bits: nat, prefix: int)
    requires 1 <= tb <= m
  {
    var k := Block(tb, m, w0);
    && w0 < Pow2(m)
    && p == Slot(lens, tb, m, w0)
    && if w0 == Shl(k, m - tb) then prefix < k else prefix == k && Opened(t, lens, tb, m, k, bits)
  }

  ghost predicate SubState(t: seq<nat>, counts: seq<nat>, lens: Lens, tb: nat, m: nat,
                           l: nat, c: nat, sym: nat, p: nat, bits: nat, prefix: int)
  {
    && Dimensions(lens, tb, m) && Complete(lens, m) && tb < l <= m
    && |t| >= EntriesNeeded(lens, tb, m)
    && Remaining(counts, lens, m, l, c)
    && sym == Off(lens, l) + c - FirstCode(lens, l)
    && Reach(m, l, c) <= Pow2(m)
    && DecodesBelow(t, lens, tb, m, Reach(m, l, c))
    && (sym < |lens| ==> Cursor(t, lens, tb, m, Reach(m, l, c), p, bits, prefix))
  }

  lemma {:induction false} MoreToCome(lens: Lens, m: nat, k: nat, l: nat)
    requires 1 <= k <= l <= m && Off(lens, k + 1) < Off(lens, l + 1)
    ensures Hi(lens, m, k) < Hi(lens, m, l)
    decreases l
  {
    LoIsPreviousHi(lens, m, l);
    HiMonotone(lens, m, k, l - 1);
    if Count(lens, l) == 0 {
      MoreToCome(lens, m, k, l - 1);
    } else {
      ShlMonotone(FirstCode(lens, l), EndCode(lens, l), m - l);
    }
  }

  lemma {:induction false} AllPlaced(lens: Lens, m: nat, l: nat)
    requires 1 <= l <= m && Off(lens, l + 1) == Off(lens, m + 1)
    ensures Hi(lens, m, l) == Hi(lens, m, m)
    decreases m - l
  {
    if l < m {
      OffMonotone(lens, l + 2, m + 1);
      LoIsPreviousHi(lens, m, l + 1);
      AllPlaced(lens, m, l + 1);
    }
  }

  /** Codespace remains exactly as long as symbols do. */
  lemma ReachBelowEnd(lens: Lens, m: nat, l: nat, c: nat)
    requires 1 <= l <= m && Complete(lens, m) && FirstCode(lens, l) <= c <= EndCode(lens, l)
    ensures Reach(m, l, c) <= Pow2(m)
    ensures Reach(m, l, c) < Pow2(m) <==> Off(lens, l) + c - FirstCode(lens, l) < |lens|
  {
    CompleteHi(lens, m);
    HiMonotone(lens, m, l, m);
    OffTotal(lens, m);
    OffMonotone(lens, l + 1, m + 1);
    ShlMonotone(c, EndCode(lens, l), m - l);
    if Off(lens, l) + c - FirstCode(lens, l) < |lens| {
      if c == EndCode(lens, l) { MoreToCome(lens, m, l, m); }
    } else {
      AllPlaced(lens, m, l);
    }
  }

  lemma OpenSubtable(t: seq<nat>, lens: Lens, tb: nat, m: nat, k: nat)
    requires Dimensions(lens, tb, m) && Complete(lens, m) && k < Pow2(tb) <= |t|
    requires Shl(k, m - tb) <= Pow2(m) && DecodesBelow(t, lens, tb, m, Shl(k, m - tb))
    ensures var bits := SubBits(lens, tb, m, k);
            var u := t[k := Entry(SubStart(lens, tb, m, k), bits)];
            Opened(u, lens, tb, m, k, bits) && DecodesBelow(u, lens, tb, m, Shl(k, m - tb))
  {
    var u := t[k := Entry(SubStart(lens, tb, m, k), SubBits(lens, tb, m, k))];
    forall w {:trigger SlotHolds(u, lens, tb, m, w)} | 0 <= w < Shl(k, m - tb)
      ensures SlotHolds(u, lens, tb, m, w)
    {
      BlockBelow(tb, m, w, k);
      SlotKept(t, u, lens, tb, m, w);
    }
  }

  /** Filling the slots of one codeword decodes its windows as well. */
  lemma CodeFilled(lens: Lens, tb: nat, m: nat, l: nat, c: nat, t: seq<nat>, u: seq<nat>)
    requires Dimensions(lens, tb, m) && Complete(lens, m)
    requires tb < l <= m && FirstCode(lens, l) <= c < EndCode(lens, l)
    requires Reach(m, l, c) < Pow2(m) && Reach(m, l, c + 1) <= Pow2(m)
    requires DecodesBelow(t, lens, tb, m, Reach(m, l, c))
    requires Opened(t, lens, tb, m, CodeBlock(tb, l, c), SubBits(lens, tb, m, CodeBlock(tb, l, c)))
    requires FilledWith(t, u, Slot(lens, tb, m, Reach(m, l, c)), Width(lens, tb, m, l, c),
                        Entry(NthSym(lens, l, c - FirstCode(lens, l)), l - tb))
    ensures DecodesBelow(u, lens, tb, m, Reach(m, l, c + 1))
  {
    forall w | 0 <= w < Reach(m, l, c + 1)
      ensures SlotHolds(u, lens, tb, m, w)
    {
      if w < Reach(m, l, c) {
        CodeKept(lens, tb, m, l, c, t, u, w);
      } else {
        CodeAdded(lens, tb, m, l, c, t, u, w);
      }
    }
  }

  lemma CodeKept(lens: Lens, tb: nat, m: nat, l: nat, c: nat, t: seq<nat>, u: seq<nat>, w: nat)
    requires Dimensions(lens, tb, m) && Complete(lens, m)
    requires tb < l <= m && FirstCode(lens, l) <= c < EndCode(lens, l)
    requires w < Reach(m, l, c) < Pow2(m) && SlotHolds(t, lens, tb, m, w) && |u| == |t|
    requires forall i | 0 <= i < Slot(lens, tb, m, Reach(m, l, c)) && i < |u| :: u[i] == t[i]
    ensures SlotHolds(u, lens, tb, m, w)
  {
    hide Block, Slot, Reach, Pow2;
    BlockBound(tb, m, w);
    if LenAt(lens, m, w) > tb { SlotEarlier(lens, tb, m, l, c, w); }
    SlotKept(t, u, lens, tb, m, w);
  }

  lemma CodeAdded(lens: Lens, tb: nat, m: nat, l: nat, c: nat, t: seq<nat>, u: seq<nat>, w: nat)
    requires Dimensions(lens, tb, m) && Complete(lens, m)
    requires tb < l <= m && FirstCode(lens, l) <= c < EndCode(lens, l)
    requires Reach(m, l, c) <= w < Reach(m, l, c + 1) <= Pow2(m)
    requires Opened(t, lens, tb, m, CodeBlock(tb, l, c), SubBits(lens, tb, m, CodeBlock(tb, l, c)))
    requires FilledWith(t, u, Slot(lens, tb, m, Reach(m, l, c)), Width(lens, tb, m, l, c),
                        Entry(NthSym(lens, l, c - FirstCode(lens, l)), l - tb))
    ensures SlotHolds(u, lens, tb, m, w)
  {
    hide Block, Slot, Reach, Pow2, Width, CodeBlock, Entry, LenAt, SymAt;
    var k := CodeBlock(tb, l, c);
    BlockBound(tb, m, w);
    WindowOfCode(tb, m, l, c, w);
    SlotsOfCode(lens, tb, m, l, c, w);
    CodewordOwns(lens, m, l, c - FirstCode(lens, l), w);
    assert u[k] == t[k];
  }

  /** What the loop body needs to know about the symbol it adds. */
  lemma SymbolFacts(lens: Lens, tb: nat, m: nat, l: nat, c: nat)
    requires 1 <= tb < l <= m && Complete(lens, m) && FirstCode(lens, l) <= c < EndCode(lens, l)
    ensures var k := CodeBlock(tb, l, c);
            && k < Pow2(tb) && l <= tb + SubBits(lens, tb, m, k)
            && Block(tb, m, Reach(m, l, c)) == k
            && Slot(lens, tb, m, Reach(m, l, c)) + Width(lens, tb, m, l, c) <= EntriesNeeded(lens, tb, m)
    ensures Reach(m, l, c + 1) <= Pow2(m)
    ensures Off(lens, l) + c + 1 - FirstCode(lens, l) < |lens| ==> Reach(m, l, c + 1) < Pow2(m)
  {
    hide Block, Slot, Reach, Pow2, Width, SubBits;
    ReachBelowEnd(lens, m, l, c + 1);
    FitsSubtable(lens, tb, m, l, c);
    NextSlot(lens, tb, m, l, c);
    SubStartMonotone(lens, tb, m, CodeBlock(tb, l, c) + 1, Pow2(tb));
  }

  lemma CursorMoves(lens: Lens, tb: nat, m: nat, l: nat, c: nat, u: seq<nat>)
    requires Dimensions(lens, tb, m) && Complete(lens, m)
    requires tb < l <= m && FirstCode(lens, l) <= c < EndCode(lens, l)
    requires Reach(m, l, c + 1) < Pow2(m)
    requires Opened(u, lens, tb, m, CodeBlock(tb, l, c), SubBits(lens, tb, m, CodeBlock(tb, l, c)))
    ensures var k := CodeBlock(tb, l, c);
            Cursor(u, lens, tb, m, Reach(m, l, c + 1),
                   Slot(lens, tb, m, Reach(m, l, c)) + Width(lens, tb, m, l, c), SubBits(lens, tb, m, k), k)
  {
    NextSlot(lens, tb, m, l, c);
    NextBlock(tb, m, l, c);
  }

  /** Starts the subtable of root entry `head`, the first one not started yet. */
  method OpenNext(lens: Lens, tb: nat, m: nat, counts: array<nat>, table: array<nat>,
                  l: nat, c: nat, head: nat, p: nat, ghost bits0: nat, ghost prefix: int)
    returns (bits: nat)
    requires Dimensions(lens, tb, m) && Complete(lens, m) && tb < l <= m && table != counts
    requires table.Length >= Pow2(tb)
    requires Remaining(counts[..], lens, m, l, c) && c < EndCode(lens, l) && head == CodeBlock(tb, l, c)
    requires Reach(m, l, c) < Pow2(m) && DecodesBelow(table[..], lens, tb, m, Reach(m, l, c))
    requires Cursor(table[..], lens, tb, m, Reach(m, l, c), p, bits0, prefix) && head != prefix
    modifies table
    ensures Opened(table[..], lens, tb, m, head, bits)
    ensures DecodesBelow(table[..], lens, tb, m, Reach(m, l, c))
  {
    FitsSubtable(lens, tb, m, l, c);
    AtBlockStart(tb, m, l, c);
    SlotAtBlockStart(lens, tb, m, head);
    bits := ComputeSubBits(lens, tb, m, counts, l, c, head);
    OpenSubtable(table[..], lens, tb, m, head);
    ghost var before := table[..];
    table[head] := Entry(p, bits);
    assert table[..] == before[head := Entry(p, bits)];
  }

  lemma AtBlockStart(tb: nat, m: nat, l: nat, c: nat)
    requires tb < l <= m && Reach(m, l, c) == Shl(CodeBlock(tb, l, c), m - tb)
    ensures c == Shl(CodeBlock(tb, l, c), l - tb)
  {
    var k := CodeBlock(tb, l, c);
    ShlShl(k, l - tb, m - l);
    ShlCancel(c, Shl(k, l - tb), m - l);
  }

  method AddLongSymbol(lens: Lens, tb: nat, m: nat, sorted: array<nat>, counts: array<nat>, table: array<nat>,
                       l: nat, c: nat, sym: nat, p0: nat, bits0: nat, prefix0: int)
    returns (p: nat, bits: nat, prefix: int)
    requires SubState(table[..], counts[..], lens, tb, m, l, c, sym, p0, bits0, prefix0)
    requires sym < |lens| && counts[l] > 0 && Sorted(sorted[..], lens, m)
    requires table != counts && table != sorted && counts != sorted
    modifies table, counts
    ensures SubState(table[..], counts[..], lens, tb, m, l, c + 1, sym + 1, p, bits, prefix)
  {
    hide Slot, Block, Shr, LenAt, SubBits, Entry, SlotHolds;
    p, bits, prefix := p0, bits0, prefix0;
    var head := CodeBlock(tb, l, c);
    SymbolFacts(lens, tb, m, l, c);
    if head != prefix {
      SubStartMonotone(lens, tb, m, 0, Pow2(tb));
      bits := OpenNext(lens, tb, m, counts, table, l, c, head, p, bits, prefix);
      prefix := head;
    }
    SortedAt(sorted[..], lens, m, l, c - FirstCode(lens, l));
    assert sorted[..][sym] == sorted[sym];
    p := StoreCode(lens, tb, m, table, l, c, sorted[sym], p, bits);
    ghost var was := counts[..];
    counts[l] := counts[l] - 1;
    assert counts[..] == was[l := was[l] - 1];
  }

  /** Fills the slots of codeword `c`, of symbol `s`. */
  method StoreCode(lens: Lens, tb: nat, m: nat, table: array<nat>, l: nat, c: nat, s: nat, p0: nat, bits: nat)
    returns (p: nat)
    requires Dimensions(lens, tb, m) && Complete(lens, m) && tb < l <= m
    requires FirstCode(lens, l) <= c < EndCode(lens, l) && s == NthSym(lens, l, c - FirstCode(lens, l))
    requires table.Length >= EntriesNeeded(lens, tb, m) && p0 == Slot(lens, tb, m, Reach(m, l, c))
    requires Reach(m, l, c) < Pow2(m) && DecodesBelow(table[..], lens, tb, m, Reach(m, l, c))
    requires Opened(table[..], lens, tb, m, CodeBlock(tb, l, c), bits)
    modifies table
    ensures Reach(m, l, c + 1) <= Pow2(m)
    ensures DecodesBelow(table[..], lens, tb, m, Reach(m, l, c + 1))
    ensures Off(lens, l) + c + 1 - FirstCode(lens, l) < |lens|
            ==> Cursor(table[..], lens, tb, m, Reach(m, l, c + 1), p, bits, CodeBlock(tb, l, c))
  {
    hide Slot, Block, Shr, LenAt, SubBits, Entry, SlotHolds;
    ghost var t := table[..];
    SymbolFacts(lens, tb, m, l, c);
    p := StoreRepeated(table, p0, Entry(s, l - tb), Pow2(bits - (l - tb)), 0);
    CodeFilled(lens, tb, m, l, c, t, table[..]);
    if Off(lens, l) + c + 1 - FirstCode(lens, l) < |lens| { CursorMoves(lens, tb, m, l, c, table[..]); }
  }

  method FillSubtables(lens: Lens, tb: nat, m: nat, sorted: array<nat>, counts: array<nat>, table: array<nat>,
                       sym0: nat, p0: nat)
    requires tb < m && RootState(table[..], lens, tb, m, tb + 1, sym0, p0)
    requires sym0 < |lens| && Sorted(sorted[..], lens, m) && Counted(counts[..], lens, m)
    requires table != counts && table != sorted && counts != sorted
    requires table.Length >= EntriesNeeded(lens, tb, m)
    modifies table, counts
    ensures Decodes(table[..], lens, tb, m)
  {
    var l: nat, sym: nat, c: nat := tb + 1, sym0, 2 * p0;
    var p: nat, bits: nat := Pow2(tb), tb;
    var prefix: int := -1;
    FirstSubtable(lens, tb, m, table[..], p0, sym0);
    assert forall x {:trigger counts[x]} | 0 <= x <= m :: counts[..][x] == counts[x];
    while true
      invariant SubState(table[..], counts[..], lens, tb, m, l, c, sym, p, bits, prefix) && sym < |lens|
      decreases |lens| - sym
    {
      l, c := SkipLengths(lens, tb, m, counts, table, l, c, sym, p, bits, prefix);
      p, bits, prefix := AddLongSymbol(lens, tb, m, sorted, counts, table, l, c, sym, p, bits, prefix);
      c, sym := c + 1, sym + 1;
      if sym == |lens| {
        break;
      }
    }
    ReachBelowEnd(lens, m, l, c);
  }

  /** Where the root loops stop, the subtable loop starts: every block so far has no subtable. */
  lemma FirstSubtable(lens: Lens, tb: nat, m: nat, t: seq<nat>, p: nat, sym: nat)
    requires 1 <= tb < m && RootState(t, lens, tb, m, tb + 1, sym, p) && sym < |lens|
    ensures 2 * p == FirstCode(lens, tb + 1)
    ensures Reach(m, tb + 1, 2 * p) == Shl(p, m - tb) < Pow2(m)
    ensures Cursor(t, lens, tb, m, Shl(p, m - tb), Pow2(tb), tb, -1)
  {
    ShlCancel(p, EndCode(lens, tb), m - tb);
    ShlCancel(EndCode(lens, tb), p, m - tb);
    LoIsPreviousHi(lens, m, tb + 1);
    ReachBelowEnd(lens, m, tb + 1, 2 * p);
    SlotAtBlockStart(lens, tb, m, p);
    NoSubtables(lens, tb, m, p);
  }

  lemma {:induction false} NoSubtables(lens: Lens, tb: nat, m: nat, k: nat)
    requires 1 <= tb < m && Complete(lens, m) && k <= EndCode(lens, tb)
    ensures SubStart(lens, tb, m, k) == Pow2(tb)
  {
    if k > 0 {
      NoSubtables(lens, tb, m, k - 1);
      ShlMonotone(k, EndCode(lens, tb), m - tb);
      ShortBelow(lens, tb, m, Shl(k, m - tb) - 1);
    }
  }

  /** Moves on to the next length that still has a codeword. */
  lemma SubStateFits(lens: Lens, tb: nat, m: nat, counts: seq<nat>, t: seq<nat>,
                     l: nat, c: nat, sym: nat, p: nat, bits: nat, prefix: int)
    requires SubState(t, counts, lens, tb, m, l, c, sym, p, bits, prefix)
    ensures l <= m && l < |counts|
  {
  }

  lemma SkipLength(lens: Lens, tb: nat, m: nat, counts: seq<nat>, t: seq<nat>,
                   l: nat, c: nat, sym: nat, p: nat, bits: nat, prefix: int)
    requires SubState(t, counts, lens, tb, m, l, c, sym, p, bits, prefix) && sym < |lens|
    requires l < |counts| && counts[l] == 0
    ensures l < m && l + 1 < |counts|
    ensures SubState(t, counts, lens, tb, m, l + 1, 2 * c, sym, p, bits, prefix)
  {
    hide Cursor, DecodesBelow, Shl;
    LengthLeft(lens, m, l);
    assert counts[l + 1] == Count(lens, l + 1);
    ShlDouble(c, m - l - 1);
    assert Reach(m, l + 1, 2 * c) == Reach(m, l, c);
  }

  method SkipLengths(lens: Lens, tb: nat, m: nat, counts: array<nat>, table: array<nat>,
                     l0: nat, c0: nat, sym: nat, ghost p: nat, ghost bits: nat, ghost prefix: int)
    returns (l: nat, c: nat)
    requires SubState(table[..], counts[..], lens, tb, m, l0, c0, sym, p, bits, prefix) && sym < |lens|
    ensures SubState(table[..], counts[..], lens, tb, m, l, c, sym, p, bits, prefix) && counts[l] > 0
  {
    hide SubState;
    l, c := l0, c0;
    SubStateFits(lens, tb, m, counts[..], table[..], l, c, sym, p, bits, prefix);
    while counts[l] == 0
      invariant l <= m && l < counts.Length
      invariant SubState(table[..], counts[..], lens, tb, m, l, c, sym, p, bits, prefix)
      decreases m - l
    {
      SkipLength(lens, tb, m, counts[..], table[..], l, c, sym, p, bits, prefix);
      l := l + 1;
      c := 2 * c;
    }
  }

  /** When all codewords up to length `l` are in and symbols remain, there are longer ones. */
  lemma LengthLeft(lens: Lens, m: nat, l: nat)
    requires 1 <= l <= m && Bounded(lens, m) && Off(lens, l + 1) < |lens|
    ensures l < m
  {
    OffTotal(lens, m);
  }
}
