/** Building the whole decode table, and reading one symbol of the bitstream with it. */
module HuffmanDecode {
  import opened Shifts
  import opened Bitstream
  import opened CanonicalCode
  import opened HuffmanTable
  import opened HuffmanSubtables

  /** The table after construction: the code's, or all zeros when the code has no codewords. */
  ghost predicate TableFor(t: seq<nat>, lens: Lens, tb: nat, m: nat) {
    && Dimensions(lens, tb, m) && |t| >= Pow2(tb)
    && if Complete(lens, m) then Decodes(t, lens, tb, m)
       else Empty(lens) && forall i | 0 <= i < Pow2(tb) :: t[i] == 0
  }

  /** Accepts the lengths only if they fill the codespace exactly, or not at all. */
  method CheckLengths(lens: Lens, m: nat, counts: array<nat>) returns (remainder: int)
    requires m >= 1 && Bounded(lens, m) && Counted(counts[..], lens, m)
    ensures remainder == 0 <==> Complete(lens, m)
    ensures remainder == Pow2(m) <==> Empty(lens)
  {
    remainder := 1;
    for len := 1 to m + 1
      invariant remainder == Pow2(len - 1) - (if len == 1 then 0 else EndCode(lens, len - 1))
      invariant remainder >= 0
    {
      assert counts[..][len] == counts[len];
      remainder := 2 * remainder - counts[len];
      if remainder < 0 {
        OverflowIsIncomplete(lens, len, m);
        return;
      }
    }
    KraftIsEnd(lens, m);
    EmptyKraft(lens, m);
  }

  /**
   Builds the table for the code that `lens` denotes.  `sse2` and `wordLog` say which of the
   wide-store loops are compiled in: 128-bit vectors, and words of `2^wordLog` entries.
   */
  method MakeDecodeTable(table: array<nat>, tb: nat, lens: Lens, m: nat, sse2: bool, wordLog: nat)
    returns (ok: bool)
    requires Dimensions(lens, tb, m) && wordLog <= 2 && table.Length >= Pow2(tb)
    requires Complete(lens, m) ==> table.Length >= EntriesNeeded(lens, tb, m)
    modifies table
    ensures ok <==> Complete(lens, m) || Empty(lens)
    ensures ok ==> TableFor(table[..], lens, tb, m)
  {
    var counts := CountLens(lens, m);
    var remainder := CheckLengths(lens, m, counts);
    if remainder < 0 {
      return false;
    }
    if remainder != 0 {
      if remainder != Pow2(m) {
        return false;
      }
      forall i | 0 <= i < Pow2(tb) {
        table[i] := 0;
      }
      return true;
    }
    var sorted, sym := SortSymbols(lens, m, counts);
    var p;
    sym, p := FillRoot(lens, tb, m, sorted, counts, table, sym, sse2, wordLog);
    if sym == |lens| {
      NoLongCodewords(lens, tb, m, table[..], sym, p);
      return true;
    }
    OffTotal(lens, m);
    OffMonotone(lens, tb + 1, m + 1);
    FillSubtables(lens, tb, m, sorted, counts, table, sym, p);
    ok := true;
  }

  /** Fills the root table, with the widest stores first. */
  method FillRoot(lens: Lens, tb: nat, m: nat, sorted: array<nat>, counts: array<nat>, table: array<nat>,
                  sym0: nat, sse2: bool, wordLog: nat)
    returns (sym: nat, p: nat)
    requires Dimensions(lens, tb, m) && Complete(lens, m) && sym0 == Off(lens, 1)
    requires Sorted(sorted[..], lens, m) && Counted(counts[..], lens, m)
    requires table != sorted && table != counts && table.Length >= EntriesNeeded(lens, tb, m)
    modifies table
    ensures RootState(table[..], lens, tb, m, tb + 1, sym, p)
  {
    var l: nat := 1;
    sym, p := sym0, 0;
    ShlZero(m - tb);
    SubStartMonotone(lens, tb, m, 0, Pow2(tb));
    assert RootState(table[..], lens, tb, m, l, sym, p);
    if sse2 {
      l, sym, p := FillRootPhase(lens, tb, m, sorted, counts, table, l, sym, p, 3);
    }
    if wordLog > 0 {
      l, sym, p := FillRootPhase(lens, tb, m, sorted, counts, table, l, sym, p, wordLog);
    }
    l, sym, p := FillRootPhase(lens, tb, m, sorted, counts, table, l, sym, p, 0);
  }

  lemma NoLongCodewords(lens: Lens, tb: nat, m: nat, t: seq<nat>, sym: nat, p: nat)
    requires RootState(t, lens, tb, m, tb + 1, sym, p) && sym == |lens|
    ensures Decodes(t, lens, tb, m)
  {
    OffTotal(lens, m);
    AllPlaced(lens, m, tb);
    CompleteHi(lens, m);
  }

  /** No code needs more entries than one table of all `m`-bit windows would, beside the root. */
  lemma EntriesBound(lens: Lens, tb: nat, m: nat)
    requires 1 <= tb <= m
    ensures EntriesNeeded(lens, tb, m) <= Pow2(tb) + Pow2(m)
  {
    SubStartBound(lens, tb, m, Pow2(tb));
    Pow2Shl(tb, m - tb);
  }

  lemma {:induction false} SubStartBound(lens: Lens, tb: nat, m: nat, k: nat)
    requires 1 <= tb <= m
    ensures SubStart(lens, tb, m, k) <= Pow2(tb) + Shl(k, m - tb)
  {
    if k > 0 {
      SubStartBound(lens, tb, m, k - 1);
      ShlNext(k - 1, m - tb);
      Pow2Monotone(SubBits(lens, tb, m, k - 1), m - tb);
    }
  }

  // ----- reading a symbol -----

  /** The symbol at the head of the stream, and the reader after it, straight from the code. */
  ghost function SymRead(buf: seq<byte>, r: Reader, lens: Lens, m: nat): (nat, Reader)
    requires 1 <= m <= 17 && Sound(buf, r)
  {
    EnsuredSound(buf, r, m);
    var e := Ensured(buf, r, m);
    var w := Peeked(e, m);
    PeekBound(buf, e, m);
    if Complete(lens, m) then (SymAt(lens, m, w), Dropped(e, LenAt(lens, m, w)))
    else (0, e)
  }

  lemma PeekBound(buf: seq<byte>, r: Reader, n: nat)
    requires Sound(buf, r) && n <= r.have
    ensures Peeked(r, n) < Pow2(n)
  {
    ShrBelow(r.acc, r.have - n, n);
  }

  lemma SymReadSound(buf: seq<byte>, r: Reader, lens: Lens, m: nat)
    requires 1 <= m <= 17 && Sound(buf, r)
    ensures Sound(buf, SymRead(buf, r, lens, m).1)
    ensures SymRead(buf, r, lens, m).0 < |lens| || SymRead(buf, r, lens, m).0 == 0
  {
    EnsuredSound(buf, r, m);
    var e := Ensured(buf, r, m);
    PeekBound(buf, e, m);
    if Complete(lens, m) { DroppedSound(buf, e, LenAt(lens, m, Peeked(e, m))); }
  }

  /** Reading takes the one symbol whose codeword starts the stream, and exactly its bits. */
  lemma SymReadIsPrefix(buf: seq<byte>, r: Reader, lens: Lens, m: nat)
    requires 1 <= m <= 17 && Sound(buf, r) && Complete(lens, m)
    ensures var (s, r') := SymRead(buf, r, lens, m);
            && Sound(buf, r')
            && s < |lens| && 0 < lens[s] <= m
            && Look(buf, r, lens[s]) == Codeword(lens, s)
  {
    var e := Ensured(buf, r, m);
    EnsuredSound(buf, r, m);
    PeekBound(buf, e, m);
    var w := Peeked(e, m);
    var s := SymAt(lens, m, w);
    SymAtPrefixes(lens, m, w);
    HeadBits(buf, r, m, lens[s]);
    DroppedSound(buf, e, lens[s]);
  }

  /** What is left to read is the stream without that codeword. */
  lemma SymReadRest(buf: seq<byte>, r: Reader, lens: Lens, m: nat, n: nat)
    requires 1 <= m <= 17 && Sound(buf, r) && Complete(lens, m)
    ensures var (s, r') := SymRead(buf, r, lens, m);
            && s < |lens| && lens[s] > 0
            && Look(buf, r, lens[s] + n) == Shl(Codeword(lens, s), n) + Look(buf, r', n)
  {
    var e := Ensured(buf, r, m);
    EnsuredSound(buf, r, m);
    SymReadIsPrefix(buf, r, lens, m);
    var s := SymRead(buf, r, lens, m).0;
    EnsuredKeeps(buf, r, m, lens[s] + n);
    EnsuredKeeps(buf, r, m, lens[s]);
    DroppedKeeps(buf, e, lens[s], n);
  }

  /** No other codeword starts the stream. */
  lemma SymReadIsUnique(buf: seq<byte>, r: Reader, lens: Lens, m: nat, t: nat)
    requires 1 <= m <= 17 && Sound(buf, r) && Complete(lens, m)
    requires t < |lens| && lens[t] > 0 && Look(buf, r, lens[t]) == Codeword(lens, t)
    ensures t == SymRead(buf, r, lens, m).0
  {
    var e := Ensured(buf, r, m);
    EnsuredSound(buf, r, m);
    PeekBound(buf, e, m);
    HeadBits(buf, r, m, lens[t]);
    UniqueSymbol(lens, m, Peeked(e, m), t);
  }

  /** The first `k` bits of the stream are the first `k` bits of the `m`-bit window. */
  lemma HeadBits(buf: seq<byte>, r: Reader, m: nat, k: nat)
    requires 1 <= m <= 17 && Sound(buf, r) && k <= m
    ensures Ensured(buf, r, m).have >= m
    ensures Look(buf, r, k) == Shr(Peeked(Ensured(buf, r, m), m), m - k)
  {
    var e := Ensured(buf, r, m);
    EnsuredSound(buf, r, m);
    EnsuredKeeps(buf, r, m, k);
    ShrShr(e.acc, e.have - m, m - k);
  }

  lemma DropTwice(e: Reader, a: nat, b: nat)
    requires a + b <= e.have
    ensures Dropped(Dropped(e, a), b) == Dropped(e, a + b)
  {
    LowLow(e.acc, e.have - a - b, b);
  }

  lemma SlotIndex(lens: Lens, tb: nat, m: nat, e: Reader)
    requires 1 <= tb <= m <= e.have
    ensures var k := Block(tb, m, Peeked(e, m));
            var b := SubBits(lens, tb, m, k);
            && Peeked(e, tb) == k
            && Slot(lens, tb, m, Peeked(e, m)) == SubStart(lens, tb, m, k) + Peeked(Dropped(e, tb), b)
  {
    ShrShr(e.acc, e.have - m, m - tb);
    var b := SubBits(lens, tb, m, Block(tb, m, Peeked(e, m)));
    ShrShr(e.acc, e.have - m, m - tb - b);
    LowShr(e.acc, e.have - tb - b, b);
  }

  // The two parts of an entry, and whether it points to a subtable.
  function SymbolOf(entry: nat): nat {
    entry / 16
  }

  function LengthOf(entry: nat): nat {
    entry % 16
  }

  predicate IsPointer(entry: nat, tb: nat, m: nat) {
    m > tb && entry >= 16 * Pow2(tb)
  }

  /** One lookup, or two, find the symbol `s` and leave the reader `r'`. */
  predicate Finds(t: seq<nat>, tb: nat, m: nat, e: Reader, s: nat, r': Reader) {
    && tb <= m <= e.have && Peeked(e, tb) < |t|
    && var entry := t[Peeked(e, tb)];
    if IsPointer(entry, tb, m) then
      && LengthOf(entry) <= m - tb
      && var i := SymbolOf(entry) + Peeked(Dropped(e, tb), LengthOf(entry));
      && i < |t| && SymbolOf(t[i]) == s && LengthOf(t[i]) <= m - tb && r' == Dropped(e, tb + LengthOf(t[i]))
    else
      SymbolOf(entry) == s && LengthOf(entry) <= m && r' == Dropped(e, LengthOf(entry))
  }

  /** What the table says about the window at the head of the stream. */
  lemma TableLookup(t: seq<nat>, lens: Lens, tb: nat, m: nat, buf: seq<byte>, r: Reader)
    requires TableFor(t, lens, tb, m) && Sound(buf, r) && m <= 17
    ensures var (s, r') := SymRead(buf, r, lens, m);
      Finds(t, tb, m, Ensured(buf, r, m), s, r')
  {
    hide Slot, Block, Shl, Shr, Low, SubBits, LenAt;
    var e := Ensured(buf, r, m);
    EnsuredSound(buf, r, m);
    var w := Peeked(e, m);
    PeekBound(buf, e, m);
    PeekBound(buf, e, tb);
    SlotIndex(lens, tb, m, e);
    if Complete(lens, m) {
      SubStartMonotone(lens, tb, m, 0, Block(tb, m, w));
      LookupInCode(t, lens, tb, m, e);
    } else {
      assert t[Peeked(e, tb)] == 0;
      DropNothing(buf, e);
    }
  }

  lemma DropNothing(buf: seq<byte>, e: Reader)
    requires Sound(buf, e)
    ensures Dropped(e, 0) == e
  {
    ShlZero(e.have);
    ShrUnique(e.acc, 0, e.have);
  }

  lemma EntryParts(symbol: nat, length: nat)
    ensures 16 * symbol <= Entry(symbol, length)
    ensures length < 16 ==> SymbolOf(Entry(symbol, length)) == symbol && LengthOf(Entry(symbol, length)) == length
    ensures length < 16 ==> Entry(symbol, length) < 16 * symbol + 16
  {}

  lemma LookupInCode(t: seq<nat>, lens: Lens, tb: nat, m: nat, e: Reader)
    requires Dimensions(lens, tb, m) && Complete(lens, m) && Decodes(t, lens, tb, m) && m <= e.have
    requires Peeked(e, m) < Pow2(m)
    ensures Peeked(e, tb) < |t|
    ensures var entry := t[Peeked(e, tb)];
            var l := LenAt(lens, m, Peeked(e, m));
            if IsPointer(entry, tb, m) then
              && l > tb && LengthOf(entry) <= m - tb
              && var i := SymbolOf(entry) + Peeked(Dropped(e, tb), LengthOf(entry));
              && i < |t| && SymbolOf(t[i]) == SymAt(lens, m, Peeked(e, m)) && LengthOf(t[i]) == l - tb
            else
              l <= tb && SymbolOf(entry) == SymAt(lens, m, Peeked(e, m)) && LengthOf(entry) == l
  {
    hide Slot, Block, Peeked, Dropped, LenAt, SubStart, SubBits, Entry;
    var w := Peeked(e, m);
    SlotIndex(lens, tb, m, e);
    assert SlotHolds(t, lens, tb, m, w);
    var k, l := Block(tb, m, w), LenAt(lens, m, w);
    EntryParts(SymAt(lens, m, w), l);
    if l > tb {
      EntryParts(SymAt(lens, m, w), l - tb);
      EntryParts(SubStart(lens, tb, m, k), SubBits(lens, tb, m, k));
    }
  }

  method ReadHuffsym(stream: InputBitstream, table: array<nat>, tb: nat, m: nat, ghost lens: Lens)
    returns (symbol: nat)
    requires stream.Valid() && m <= 17 && TableFor(table[..], lens, tb, m)
    modifies stream
    ensures stream.Valid()
    ensures (symbol, stream.State()) == SymRead(stream.buf, old(stream.State()), lens, m)
  {
    assert 1 <= tb <= m && tb <= 15 && Sound(stream.buf, stream.State());
    hide *;
    TableLookup(table[..], lens, tb, m, stream.buf, stream.State());
    ghost var read := SymRead(stream.buf, stream.State(), lens, m);
    stream.EnsureBits(m);
    symbol := TakeSymbol(stream, table, tb, m, read.0, read.1);
  }

  /** Looks the symbol up and discards its bits. */
  method TakeSymbol(stream: InputBitstream, table: array<nat>, tb: nat, m: nat, ghost s: nat, ghost r': Reader)
    returns (symbol: nat)
    requires stream.Valid() && 1 <= tb <= m <= stream.bitsleft && tb <= 15
    requires Finds(table[..], tb, m, stream.State(), s, r')
    modifies stream
    ensures stream.Valid() && symbol == s && stream.State() == r'
  {
    hide Peeked, Dropped, Justified, Sound, SymbolOf, LengthOf, IsPointer, stream.PeekBits;
    ghost var e := stream.State();
    stream.PeekIsPeeked(tb);
    var entry := table[stream.PeekBits(tb)];
    if IsPointer(entry, tb, m) {
      PartIsShort(entry);
      entry := ReadSubtable(stream, table, tb, SymbolOf(entry), LengthOf(entry));
      DropTwice(e, tb, LengthOf(entry));
    }
    symbol := SymbolOf(entry);
    stream.RemoveBits(LengthOf(entry));
  }

  lemma PartIsShort(entry: nat)
    ensures LengthOf(entry) < 16
  {
  }

  /** Discards the bits that indexed the root table, and indexes the subtable with the next ones. */
  method ReadSubtable(stream: InputBitstream, table: array<nat>, tb: nat, start: nat, bits: nat)
    returns (entry: nat)
    requires stream.Valid() && tb + bits <= stream.bitsleft && bits <= 31
    requires start + Peeked(Dropped(stream.State(), tb), bits) < table.Length
    modifies stream
    ensures stream.Valid() && stream.State() == Dropped(old(stream.State()), tb)
    ensures entry == table[start + Peeked(Dropped(old(stream.State()), tb), bits)]
  {
    stream.RemoveBits(tb);
    stream.PeekIsPeeked(bits);
    entry := table[start + stream.PeekBits(bits)];
  }
}
