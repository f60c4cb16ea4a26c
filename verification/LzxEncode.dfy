/**
 Writing the tokens of an LZX block, and reading them back. A match names its offset by its place among the three
 most recent ones, or by the slot it falls in and how far into the slot it is.
 */
module LzxEncode {
  import opened Options
  import opened Shifts
  import opened Bitstream
  import opened BitWriter
  import opened CanonicalCode
  import opened HuffmanTable
  import opened HuffmanDecode
  import opened LzCopy
  import opened LzxFormat
  import opened LzxLens

  // ----- slots -----

  /** How many bits tell the offsets of a slot apart. */
  function Extra(slot: nat): nat {
    if slot < 4 then 0 else if slot < 36 then slot / 2 - 1 else 17
  }

  /** Each slot begins where the one before it ends. */
  function FirstOffset(slot: nat): nat {
    if slot <= 3 then 1 else FirstOffset(slot - 1) + Pow2(Extra(slot - 1))
  }

  lemma SlotStep(slot: nat)
    requires 3 <= slot < 50
    ensures ExtraOffsetBits(slot, false) == Extra(slot)
    ensures OffsetSlotBase(slot + 1) == OffsetSlotBase(slot) + Pow2(Extra(slot))
  {
    hide *;
    ExtraIs(slot);
    BaseStep(slot);
  }

  lemma ExtraIs(slot: nat)
    requires 3 <= slot < 50
    ensures ExtraOffsetBits(slot, false) == Extra(slot)
  {
    if slot < 8 {
      assert EXTRA_BITS_BELOW_ALIGNED[3] == 0 && EXTRA_BITS_BELOW_ALIGNED[4] == 1 && EXTRA_BITS_BELOW_ALIGNED[5] == 1;
      assert EXTRA_BITS_BELOW_ALIGNED[6] == 2 && EXTRA_BITS_BELOW_ALIGNED[7] == 2;
    }
  }

  lemma BaseStep(slot: nat)
    requires 3 <= slot < 50
    ensures OffsetSlotBase(slot + 1) == OffsetSlotBase(slot) + Pow2(Extra(slot))
  {
    hide *;
    if slot < 20 {
      LowBaseStep(slot);
    } else if slot < 36 {
      MiddleBaseStep(slot);
    } else {
      HighBaseStep(slot);
    }
  }

  lemma LowBaseStep(slot: nat)
    requires 3 <= slot < 20
    ensures OffsetSlotBase(slot + 1) == OffsetSlotBase(slot) + Pow2(Extra(slot))
  {
    Pow2Literals();
    hide Pow2;
  }

  lemma MiddleBaseStep(slot: nat)
    requires 20 <= slot < 36
    ensures OffsetSlotBase(slot + 1) == OffsetSlotBase(slot) + Pow2(Extra(slot))
  {
    Pow2Literals();
    hide Pow2;
  }

  lemma HighBaseStep(slot: nat)
    requires 36 <= slot < 50
    ensures OffsetSlotBase(slot + 1) == OffsetSlotBase(slot) + Pow2(Extra(slot))
  {
    Pow2Literals();
    hide Pow2;
  }

  lemma {:induction false} SlotsAre(slot: nat)
    requires 3 <= slot <= 50
    ensures FirstOffset(slot) == OffsetSlotBase(slot)
  {
    if slot != 3 {
      SlotStep(slot - 1);
      SlotsAre(slot - 1);
    }
  }

  predicate IsSlot(slot: nat, offset: nat) {
    3 <= slot < 50 && FirstOffset(slot) <= offset < FirstOffset(slot + 1)
  }

  // ----- tokens -----

  datatype Coded = Lit(b: byte) | Repeat(place: nat, length: nat) | Explicit(slot: nat, offset: nat, length: nat)

  function TokenOf(w: Coded, q: Recent): Token
    requires w.Repeat? ==> w.place < 3
  {
    match w
    case Lit(b) => Literal(b)
    case Repeat(place, length) => Match(length, if place == 0 then q.r0 else if place == 1 then q.r1 else q.r2)
    case Explicit(_, offset, length) => Match(length, offset)
  }

  /** A recent offset changes places with the first; a new one pushes the last out. */
  function QueueAfter(w: Coded, q: Recent): Recent {
    match w
    case Lit(_) => q
    case Repeat(place, _) =>
      if place == 0 then q else if place == 1 then Recent(q.r1, q.r0, q.r2) else Recent(q.r2, q.r1, q.r0)
    case Explicit(_, offset, _) => Recent(offset, q.r0, q.r1)
  }

  /** A literal is its own symbol; a match's names its slot, and its length up to 8. */
  function MainSym(w: Coded): nat
    requires !w.Lit? ==> 2 <= w.length
  {
    match w
    case Lit(b) => b
    case Repeat(place, length) => 256 + 8 * place + if length < 9 then length - 2 else 7
    case Explicit(slot, _, length) => 256 + 8 * slot + if length < 9 then length - 2 else 7
  }

  ghost predicate Usable(lens: Lens, m: nat, s: nat) {
    Complete(lens, m) && s < |lens| && 0 < lens[s]
  }

  predicate CodedFits(w: Coded) {
    match w
    case Lit(_) => true
    case Repeat(place, length) => place < 3 && 2 <= length < 258
    case Explicit(slot, offset, length) => IsSlot(slot, offset) && 2 <= length < 258
  }

  /** The token can be written with these codes. */
  ghost predicate CodedOk(c: Codes, w: Coded) {
    && CodedFits(w) && Usable(c.main, 16, MainSym(w))
    && (!w.Lit? && 9 <= w.length ==> Usable(c.length, 16, w.length - 9))
    && (w.Explicit? && c.isAligned && 8 <= w.slot ==> Usable(c.aligned, 7, (w.offset - FirstOffset(w.slot)) % 8))
  }

  ghost function LengthOps(c: Codes, w: Coded): seq<Op>
    requires CodedOk(c, w) && !w.Lit?
  {
    if w.length < 9 then [] else [SymOp(c.length, 16, w.length - 9)]
  }

  /** How far into its slot the offset is; in aligned blocks the lowest three bits are coded. */
  ghost function OffsetOps(c: Codes, w: Coded): seq<Op>
    requires CodedOk(c, w) && !w.Lit?
  {
    if w.Repeat? then []
    else
      var n, into := Extra(w.slot), w.offset - FirstOffset(w.slot);
      if c.isAligned && 8 <= w.slot then [Field(n - 3, n - 3, into / 8), SymOp(c.aligned, 7, into % 8)]
      else [Field(n, n, into)]
  }

  ghost function CodedOps(c: Codes, w: Coded): seq<Op>
    requires CodedOk(c, w)
  {
    [SymOp(c.main, 16, MainSym(w))] + if w.Lit? then [] else LengthOps(c, w) + OffsetOps(c, w)
  }

  lemma IntoFits(slot: nat, offset: nat)
    requires IsSlot(slot, offset)
    ensures Extra(slot) <= 17 && offset - FirstOffset(slot) < Pow2(Extra(slot))
    ensures 8 <= slot ==> 3 <= Extra(slot) && (offset - FirstOffset(slot)) / 8 < Pow2(Extra(slot) - 3)
  {
    Pow2Literals();
    assert 8 <= slot ==> Pow2(Extra(slot)) == 8 * Pow2(Extra(slot) - 3) by {
      if 8 <= slot {
        EightTimes(Extra(slot) - 3);
      }
    }
  }

  lemma EightTimes(n: nat)
    ensures Pow2(n + 3) == 8 * Pow2(n)
  {
    assert Pow2(n + 3) == 2 * Pow2(n + 2) && Pow2(n + 2) == 2 * Pow2(n + 1) && Pow2(n + 1) == 2 * Pow2(n);
  }

  lemma UsableOk(lens: Lens, m: nat, s: nat)
    requires Usable(lens, m, s) && 1 <= m <= 17
    ensures OpOk(SymOp(lens, m, s))
  {
    SymOpOk(lens, m, s);
  }

  lemma CodedOpsOk(c: Codes, w: Coded)
    requires CodedOk(c, w)
    ensures AllOk(CodedOps(c, w))
  {
    hide Usable, SymOp, Pow2, Extra, FirstOffset, IsSlot;
    UsableOk(c.main, 16, MainSym(w));
    if !w.Lit? {
      if 9 <= w.length {
        UsableOk(c.length, 16, w.length - 9);
      }
      if w.Explicit? {
        IntoFits(w.slot, w.offset);
        if c.isAligned && 8 <= w.slot {
          UsableOk(c.aligned, 7, (w.offset - FirstOffset(w.slot)) % 8);
        }
      }
    }
  }

  lemma UsableIsRead(buf: seq<byte>, r: Reader, lens: Lens, m: nat, s: nat, rest: seq<Op>)
    requires Usable(lens, m, s) && 1 <= m <= 17 && Ahead(buf, r, [SymOp(lens, m, s)] + rest)
    ensures Sound(buf, r)
    ensures var (t, r') := SymRead(buf, r, lens, m); t == s && Ahead(buf, r', rest)
  {
    hide Ahead, Complete, SymRead, SymOp;
    SymIsRead(buf, r, lens, m, s, rest);
  }

  lemma LengthIsRead(buf: seq<byte>, r: Reader, c: Codes, w: Coded, rest: seq<Op>)
    requires CodedOk(c, w) && !w.Lit? && Ahead(buf, r, LengthOps(c, w) + rest)
    ensures Sound(buf, r)
    ensures var (length, r') := LengthRead(buf, c, LengthHeader(MainSym(w)), r);
      length == w.length && Ahead(buf, r', rest)
  {
    hide Ahead, Usable, SymRead, SymOp, MainSym, CodedOk, Complete;
    AheadIsSound(buf, r, LengthOps(c, w) + rest);
    HeaderIsRead(c, w);
    if w.length < 9 {
      assert LengthOps(c, w) + rest == rest;
    } else {
      UsableIsRead(buf, r, c.length, 16, w.length - 9, rest);
    }
  }

  lemma HeaderIsRead(c: Codes, w: Coded)
    requires CodedOk(c, w) && !w.Lit?
    ensures 2 <= w.length && LengthHeader(MainSym(w)) == if w.length < 9 then w.length - 2 else 7
    ensures 9 <= w.length ==> Usable(c.length, 16, w.length - 9)
  {
  }

  lemma OffsetIsRead(buf: seq<byte>, r: Reader, c: Codes, w: Coded, rest: seq<Op>)
    requires CodedOk(c, w) && w.Explicit? && Ahead(buf, r, OffsetOps(c, w) + rest)
    ensures Sound(buf, r) && 3 <= w.slot < 50
    ensures var (offset, r') := OffsetRead(buf, c, w.slot, r); offset == w.offset && Ahead(buf, r', rest)
  {
    hide Ahead, Complete, SymRead, SymOp, BitsRead, Extra, FirstOffset, OffsetSlotBase, ExtraOffsetBits;
    AheadIsSound(buf, r, OffsetOps(c, w) + rest);
    var n, into := Extra(w.slot), w.offset - FirstOffset(w.slot);
    IntoFits(w.slot, w.offset);
    SlotStep(w.slot);
    SlotsAre(w.slot);
    AlignedBits(w.slot);
    if c.isAligned && 8 <= w.slot {
      var sym := SymOp(c.aligned, 7, into % 8);
      assert OffsetOps(c, w) + rest == [Field(n - 3, n - 3, into / 8)] + ([sym] + rest);
      BitsAreRead(buf, r, n - 3, into / 8, [sym] + rest);
      UsableIsRead(buf, BitsRead(buf, r, n - 3).1, c.aligned, 7, into % 8, rest);
    } else {
      BitsAreRead(buf, r, n, into, rest);
    }
  }

  lemma AlignedBits(slot: nat)
    requires slot < 50
    ensures var n := ExtraOffsetBits(slot, false); ExtraOffsetBits(slot, true) == if slot < 8 then n else n - 3
  {
  }

  /** A token that was written is read, and the recent offsets become what they should. */
  lemma CodedIsRead(buf: seq<byte>, r: Reader, c: Codes, w: Coded, q: Recent, rest: seq<Op>)
    requires CodedOk(c, w) && Nonzero(q) && NUM_CHARS < |c.main| <= MAINCODE_MAX_NUM_SYMBOLS
    requires Ahead(buf, r, CodedOps(c, w) + rest)
    ensures Sound(buf, r)
    ensures var (t, q', r') := TokenRead(buf, c, q, r);
      t == TokenOf(w, q) && q' == QueueAfter(w, q) && Ahead(buf, r', rest) && (t.Match? ==> 2 <= t.length)
  {
    hide Ahead, Complete, SymRead, SymOp, LengthRead, OffsetRead, LengthOps, OffsetOps;
    AheadIsSound(buf, r, CodedOps(c, w) + rest);
    if w.Lit? {
      assert CodedOps(c, w) == [SymOp(c.main, 16, w.b)];
      UsableIsRead(buf, r, c.main, 16, w.b, rest);
    } else {
      var tail := LengthOps(c, w) + (OffsetOps(c, w) + rest);
      assert CodedOps(c, w) + rest == [SymOp(c.main, 16, MainSym(w))] + tail;
      UsableIsRead(buf, r, c.main, 16, MainSym(w), tail);
      var r1 := SymRead(buf, r, c.main, 16).1;
      LengthIsRead(buf, r1, c, w, OffsetOps(c, w) + rest);
      var r2 := LengthRead(buf, c, LengthHeader(MainSym(w)), r1).1;
      SlotIsRead(w);
      if w.Explicit? {
        OffsetIsRead(buf, r2, c, w, rest);
      } else {
        NothingBetween(c, w, rest);
      }
    }
  }

  lemma SlotIsRead(w: Coded)
    requires CodedFits(w) && !w.Lit?
    ensures OffsetSlot(MainSym(w)) == if w.Repeat? then w.place else w.slot
    ensures 256 <= MainSym(w)
  {
  }

  lemma NothingBetween(c: Codes, w: Coded, rest: seq<Op>)
    requires CodedOk(c, w) && w.Repeat?
    ensures OffsetOps(c, w) + rest == rest
  {
  }

  // ----- all the tokens of a block -----

  ghost predicate CodedsOk(c: Codes, ws: seq<Coded>) {
    forall w :: w in ws ==> CodedOk(c, w)
  }

  ghost function CodedsOps(c: Codes, ws: seq<Coded>): seq<Op>
    requires CodedsOk(c, ws)
  {
    if ws == [] then [] else CodedOps(c, ws[0]) + CodedsOps(c, ws[1..])
  }

  predicate AllFits(ws: seq<Coded>) {
    forall w :: w in ws ==> CodedFits(w)
  }

  function TokensOf(ws: seq<Coded>, q: Recent): seq<Token>
    requires AllFits(ws)
  {
    if ws == [] then []
    else
      assert CodedFits(ws[0]);
      [TokenOf(ws[0], q)] + TokensOf(ws[1..], QueueAfter(ws[0], q))
  }

  function QueueAfterAll(ws: seq<Coded>, q: Recent): Recent {
    if ws == [] then q else QueueAfterAll(ws[1..], QueueAfter(ws[0], q))
  }

  lemma {:induction false} CodedsOpsOk(c: Codes, ws: seq<Coded>)
    requires CodedsOk(c, ws)
    ensures AllOk(CodedsOps(c, ws))
    decreases |ws|
  {
    hide CodedOps, CodedOk, OpOk;
    if ws != [] {
      assert ws[0] in ws;
      CodedOpsOk(c, ws[0]);
      CodedsOpsOk(c, ws[1..]);
    }
  }

  /** Running the tokens of a block gives this, and leaves that to read. */
  ghost predicate BlockGives(buf: seq<byte>, c: Codes, s: BlockState, end: nat, tokens: seq<Token>, q: Recent,
                             rest: seq<Op>)
    requires BlockSound(buf, s) && OutputLength(s.tokens) <= end && NUM_CHARS < |c.main| <= MAINCODE_MAX_NUM_SYMBOLS
  {
    var run := BlockRun(buf, c, s, end);
    run.Some? && run.value.tokens == tokens && run.value.recent == q && Ahead(buf, run.value.r, rest)
  }

  lemma {:induction false} CodedsAreRead(buf: seq<byte>, c: Codes, s: BlockState, ws: seq<Coded>, rest: seq<Op>)
    requires BlockSound(buf, s) && CodedsOk(c, ws) && AllFits(ws) && NUM_CHARS < |c.main| <= MAINCODE_MAX_NUM_SYMBOLS
    requires Expandable(s.tokens + TokensOf(ws, s.recent)) && Ahead(buf, s.r, CodedsOps(c, ws) + rest)
    ensures OutputLength(s.tokens) <= OutputLength(s.tokens + TokensOf(ws, s.recent))
    ensures BlockGives(buf, c, s, OutputLength(s.tokens + TokensOf(ws, s.recent)),
                       s.tokens + TokensOf(ws, s.recent), QueueAfterAll(ws, s.recent), rest)
    decreases |ws|
  {
    hide *;
    ExpandableFront(s.tokens, TokensOf(ws, s.recent));
    if ws == [] {
      NoCodeds(buf, c, s, rest);
    } else {
      var w, more := ws[0], ws[1..];
      CodedsParts(c, ws, s.recent, s.tokens, rest);
      BlockSoundIs(buf, s);
      CodedIsRead(buf, s.r, c, w, s.recent, CodedsOps(c, more) + rest);
      var (t, q, r) := TokenRead(buf, c, s.recent, s.r);
      var next := BlockState(s.tokens + [t], q, r);
      NextIsSound(buf, s, t, q, r, TokensOf(more, q));
      CodedsAreRead(buf, c, next, more, rest);
      BlockGoesOn(buf, c, s, t, q, r, TokensOf(more, q), QueueAfterAll(more, q), rest);
    }
  }

  lemma BlockSoundIs(buf: seq<byte>, s: BlockState)
    requires BlockSound(buf, s)
    ensures Sound(buf, s.r) && Nonzero(s.recent) && Expandable(s.tokens)
  {
  }

  lemma NoCodeds(buf: seq<byte>, c: Codes, s: BlockState, rest: seq<Op>)
    requires BlockSound(buf, s) && NUM_CHARS < |c.main| <= MAINCODE_MAX_NUM_SYMBOLS
    requires Ahead(buf, s.r, CodedsOps(c, []) + rest)
    ensures s.tokens + TokensOf([], s.recent) == s.tokens
    ensures BlockGives(buf, c, s, OutputLength(s.tokens), s.tokens, QueueAfterAll([], s.recent), rest)
  {
    hide Ahead, BlockSound;
    assert CodedsOps(c, []) + rest == rest;
  }

  lemma CodedsParts(c: Codes, ws: seq<Coded>, q: Recent, before: seq<Token>, rest: seq<Op>)
    requires CodedsOk(c, ws) && AllFits(ws) && ws != []
    ensures CodedOk(c, ws[0]) && CodedsOk(c, ws[1..]) && AllFits(ws[1..]) && CodedFits(ws[0])
    ensures CodedsOps(c, ws) + rest == CodedOps(c, ws[0]) + (CodedsOps(c, ws[1..]) + rest)
    ensures before + TokensOf(ws, q)
         == before + [TokenOf(ws[0], q)] + TokensOf(ws[1..], QueueAfter(ws[0], q))
    ensures QueueAfterAll(ws, q) == QueueAfterAll(ws[1..], QueueAfter(ws[0], q))
  {
    hide CodedOk, CodedFits, CodedOps, TokenOf, QueueAfter;
    assert ws[0] in ws;
  }

  lemma NextIsSound(buf: seq<byte>, s: BlockState, t: Token, q: Recent, r: Reader, more: seq<Token>)
    requires BlockSound(buf, s) && Expandable(s.tokens + [t] + more) && Nonzero(q) && Sound(buf, r)
    ensures BlockSound(buf, BlockState(s.tokens + [t], q, r))
  {
    hide Sound, Nonzero;
    ExpandableFront(s.tokens + [t], more);
  }

  lemma BlockGoesOn(buf: seq<byte>, c: Codes, s: BlockState, t: Token, q: Recent, r: Reader, more: seq<Token>,
                    q': Recent, rest: seq<Op>)
    requires BlockSound(buf, s) && NUM_CHARS < |c.main| <= MAINCODE_MAX_NUM_SYMBOLS && (t.Match? ==> 1 <= t.length)
    requires Sound(buf, s.r) && Nonzero(s.recent) && TokenRead(buf, c, s.recent, s.r) == (t, q, r)
    requires BlockSound(buf, BlockState(s.tokens + [t], q, r)) && Expandable(s.tokens + [t] + more)
    requires var all := s.tokens + [t] + more;
      && OutputLength(s.tokens) <= OutputLength(all) && OutputLength(s.tokens + [t]) <= OutputLength(all)
      && BlockGives(buf, c, BlockState(s.tokens + [t], q, r), OutputLength(all), all, q', rest)
    ensures BlockGives(buf, c, s, OutputLength(s.tokens + [t] + more), s.tokens + [t] + more, q', rest)
  {
    hide BlockSound, Sound, Nonzero, TokenRead, Ahead;
    ExpandableFront(s.tokens + [t], more);
    ExpandableAt(s.tokens + [t], |s.tokens|);
    assert (s.tokens + [t])[..|s.tokens|] == s.tokens && (s.tokens + [t])[..|s.tokens| + 1] == s.tokens + [t];
  }
}
