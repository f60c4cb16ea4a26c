/** The LZX decompressor, proved to do what `LzxFormat` reads out of the stream. */
module LzxDecompress {
  import opened Options
  import opened Shifts
  import opened Bitstream
  import opened CanonicalCode
  import opened HuffmanTable
  import opened HuffmanDecode
  import opened LzCopy
  import opened LzxFormat
  import E8Calls
  import E8Filter
  import E8Vector

  const MAINCODE_TABLEBITS: nat := 11
  const LENCODE_TABLEBITS: nat := 9
  const PRECODE_TABLEBITS: nat := 6
  const ALIGNEDCODE_TABLEBITS: nat := 7

  /** What the build and the processor decide: vector and word stores, word size, unaligned access. */
  datatype Machine = Machine(sse2: bool, wordLog: nat, wordBytes: nat, fastUnaligned: bool, align: nat)

  predicate Runnable(mach: Machine) {
    mach.wordLog <= 2 && mach.wordBytes >= 1 && mach.align >= 1
  }

  /** Builds a decode table with room for any code of these dimensions. */
  method BuildTable(lens: Lens, tb: nat, m: nat, mach: Machine) returns (ok: bool, table: array<nat>)
    requires Dimensions(lens, tb, m) && Runnable(mach)
    ensures fresh(table)
    ensures ok <==> Complete(lens, m) || Empty(lens)
    ensures ok ==> TableFor(table[..], lens, tb, m)
  {
    EntriesBound(lens, tb, m);
    table := new nat[Pow2(tb) + Pow2(m)](_ => 0);
    ok := MakeDecodeTable(table, tb, lens, m, mach.sse2, mach.wordLog);
  }

  method ReadFields(stream: InputBitstream, n: nat, count: nat) returns (fields: array<nat>)
    requires stream.Valid() && n <= 17
    modifies stream
    ensures fresh(fields) && stream.Valid()
    ensures (fields[..], stream.State()) == FieldsRead(stream.buf, old(stream.State()), n, count)
  {
    hide BitsRead, Justified, Shl;
    fields := new nat[count](_ => 0);
    for i := 0 to count
      invariant stream.Valid()
      invariant (fields[..i], stream.State()) == FieldsRead(stream.buf, old(stream.State()), n, i)
    {
      ghost var front := fields[..i];
      var v := ReadField(stream, n);
      fields[i] := v;
      assert fields[..i + 1] == front + [v];
    }
    assert fields[..] == fields[..count];
  }

  method ReadField(stream: InputBitstream, n: nat) returns (v: nat)
    requires stream.Valid() && n <= 17
    modifies stream
    ensures stream.Valid() && (v, stream.State()) == BitsRead(stream.buf, old(stream.State()), n)
  {
    v := stream.ReadBits(n);
  }

  // ----- codeword lengths -----

  /** `lens[pos..pos + n] := v`, in the loop that may run past the lengths asked for. */
  method FillRun(lens: array<nat>, pos: nat, n: nat, v: nat)
    requires n >= 1 && pos + n <= lens.Length
    modifies lens
    ensures lens[..] == Run(old(lens[..]), pos, n, v)
  {
    var left := n;
    while true
      invariant 1 <= left <= n
      invariant forall i | 0 <= i < lens.Length ::
          lens[i] == if pos <= i < pos + n - left then v else old(lens[i])
      decreases left
    {
      lens[pos + n - left] := v;
      left := left - 1;
      if left == 0 {
        break;
      }
    }
    assert lens[..] == Run(old(lens[..]), pos, n, v);
  }

  /** The lengths read so far are the beginning of what the stream holds. */
  ghost predicate ReadingLens(stream: InputBitstream, lens: array<nat>, pre: Lens, pos: nat, end: nat,
                              all: Option<LensState>)
    reads stream, lens
  {
    && stream.Valid()
    && LensSound(stream.buf, pre, LensState(lens[..], pos, stream.State()), end)
    && all == LensRun(stream.buf, pre, LensState(lens[..], pos, stream.State()), end)
  }

  /** What a precode symbol calls for: how many lengths, and which. */
  method ReadRun(stream: InputBitstream, table: array<nat>, presym: nat, previous: nat, ghost pre: Lens)
    returns (ok: bool, n: nat, len: nat)
    requires stream.Valid() && previous <= 16 && |pre| == PRECODE_NUM_SYMBOLS
    requires TableFor(table[..], pre, PRECODE_TABLEBITS, MAX_PRE_CODEWORD_LEN)
    modifies stream
    ensures stream.Valid()
    ensures var run := RunRead(stream.buf, pre, presym, previous, old(stream.State()));
            ok == run.Some? && (ok ==> run.value == (n, len, stream.State()))
  {
    hide SymRead, BitsRead, TableFor, Justified;
    ok, n, len := true, 1, 0;
    if presym < 17 {
      len := Delta(previous, presym);
    } else if presym == 17 {
      var extra := ReadField(stream, 4);
      n := 4 + extra;
    } else if presym == 18 {
      var extra := ReadField(stream, 5);
      n := 20 + extra;
    } else {
      var extra := ReadField(stream, 1);
      n := 4 + extra;
      var presym2 := ReadHuffsym(stream, table, PRECODE_TABLEBITS, MAX_PRE_CODEWORD_LEN, pre);
      if presym2 > 17 {
        return false, n, 0;
      }
      len := Delta(previous, presym2);
    }
  }

  /** Decodes one precode symbol and does what it calls for. */
  method ReadLen(stream: InputBitstream, table: array<nat>, lens: array<nat>, pos: nat, ghost end: nat, ghost pre: Lens)
    returns (ok: bool, pos': nat)
    requires stream.Valid() && pos < end && table != lens
    requires LensSound(stream.buf, pre, LensState(lens[..], pos, stream.State()), end)
    requires TableFor(table[..], pre, PRECODE_TABLEBITS, MAX_PRE_CODEWORD_LEN)
    modifies stream, lens
    ensures stream.Valid() && LensUpTo(lens[..], 16)
    ensures var next := LensStep(stream.buf, pre, old(LensState(lens[..], pos, stream.State())), end);
            ok == next.Some? && (ok ==> next.value == LensState(lens[..], pos', stream.State()))
  {
    assert lens[..][pos] == lens[pos] <= 16;
    hide SymRead, RunRead, TableFor, Justified, LensUpTo, Run, Complete, Empty;
    pos' := pos;
    var presym := ReadHuffsym(stream, table, PRECODE_TABLEBITS, MAX_PRE_CODEWORD_LEN, pre);
    var n, len;
    ok, n, len := ReadRun(stream, table, presym, lens[pos], pre);
    assert lens[..] == old(lens[..]);
    if ok {
      RunUpTo(lens[..], pos, n, len, 16);
      FillRun(lens, pos, n, len);
      pos' := pos + n;
    }
  }

  method ReadLenNext(stream: InputBitstream, table: array<nat>, lens: array<nat>, pos: nat, ghost end: nat,
                     ghost pre: Lens, ghost all: Option<LensState>)
    returns (ok: bool, pos': nat)
    requires pos < end && table != lens && ReadingLens(stream, lens, pre, pos, end, all)
    requires TableFor(table[..], pre, PRECODE_TABLEBITS, MAX_PRE_CODEWORD_LEN)
    modifies stream, lens
    ensures stream.Valid() && LensUpTo(lens[..], 16)
    ensures !ok ==> all.None?
    ensures ok ==> ReadingLens(stream, lens, pre, pos', end, all) && pos' > pos
  {
    hide LensStep, TableFor, LensUpTo;
    ok, pos' := ReadLen(stream, table, lens, pos, end, pre);
  }

  /** Decodes `lens[start..end]`. */
  method DecodeLens(stream: InputBitstream, table: array<nat>, lens: array<nat>, start: nat, end: nat, ghost pre: Lens)
    returns (ok: bool)
    requires start < end && table != lens && stream.Valid()
    requires LensSound(stream.buf, pre, LensState(lens[..], start, stream.State()), end)
    requires TableFor(table[..], pre, PRECODE_TABLEBITS, MAX_PRE_CODEWORD_LEN)
    modifies stream, lens
    ensures stream.Valid() && LensUpTo(lens[..], 16)
    ensures var run := LensRun(stream.buf, pre, old(LensState(lens[..], start, stream.State())), end);
            ok == run.Some? && (ok ==> run.value.lens == lens[..] && run.value.r == stream.State())
  {
    ghost var all := LensRun(stream.buf, pre, LensState(lens[..], start, stream.State()), end);
    hide LensStep, LensUpTo, Complete, Empty, Decodes;
    var pos := start;
    while true
      invariant ReadingLens(stream, lens, pre, pos, end, all) && start <= pos < end
      invariant table[..] == old(table[..])
      decreases end - pos
    {
      ok, pos := ReadLenNext(stream, table, lens, pos, end, pre, all);
      if !ok {
        return false;
      }
      if pos >= end {
        break;
      }
    }
  }

  /** Reads a precode, and with it `lens[start..end]`. */
  method ReadCodewordLens(stream: InputBitstream, lens: array<nat>, start: nat, end: nat, mach: Machine)
    returns (ok: bool)
    requires stream.Valid() && start < end && end + READ_LENS_MAX_OVERRUN <= lens.Length
    requires LensUpTo(lens[..], 16) && Runnable(mach)
    modifies stream, lens
    ensures stream.Valid() && LensUpTo(lens[..], 16)
    ensures var read := LensRead(stream.buf, old(lens[..]), start, end, old(stream.State()));
            ok == read.Some? && (ok ==> read.value == (lens[..], stream.State()))
  {
    hide FieldsRead, LensUpTo, LensRun, Complete, Empty, TableFor, Justified;
    var fields := ReadFields(stream, 4, PRECODE_NUM_SYMBOLS);
    ghost var pre := fields[..];
    PrecodeFits(pre);
    var table;
    ok, table := BuildTable(fields[..], PRECODE_TABLEBITS, MAX_PRE_CODEWORD_LEN, mach);
    if ok {
      ok := DecodeLens(stream, table, lens, start, end, pre);
    }
  }

  lemma PrecodeFits(pre: Lens)
    requires |pre| == PRECODE_NUM_SYMBOLS && forall i | 0 <= i < |pre| :: pre[i] < Pow2(4)
    ensures Dimensions(pre, PRECODE_TABLEBITS, MAX_PRE_CODEWORD_LEN)
  {
    Pow2Literals();
  }

  // ----- tokens of a block -----

  ghost function RecentOf(recent: array<nat>): Recent
    reads recent
    requires recent.Length == 3
  {
    Recent(recent[0], recent[1], recent[2])
  }

  /** The decode tables of one block; the aligned table is built only when it is used. */
  datatype BlockTables = BlockTables(main: array<nat>, length: array<nat>, aligned: array<nat>, isAligned: bool)

  ghost predicate TablesFor(t: BlockTables, c: Codes, numMain: nat)
    reads t.main, t.length, t.aligned
  {
    && CodesOk(c, numMain) && t.isAligned == c.isAligned
    && TableFor(t.main[..], c.main, MAINCODE_TABLEBITS, MAX_MAIN_CODEWORD_LEN)
    && TableFor(t.length[..], c.length, LENCODE_TABLEBITS, MAX_LEN_CODEWORD_LEN)
    && (c.isAligned ==> TableFor(t.aligned[..], c.aligned, ALIGNEDCODE_TABLEBITS, MAX_ALIGNED_CODEWORD_LEN))
  }

  method ReadLength(stream: InputBitstream, t: BlockTables, header: nat, ghost c: Codes, ghost numMain: nat)
    returns (length: nat)
    requires stream.Valid() && TablesFor(t, c, numMain)
    modifies stream
    ensures stream.Valid() && (length, stream.State()) == LengthRead(stream.buf, c, header, old(stream.State()))
  {
    hide SymRead, TableFor, Justified;
    length := header;
    if length == NUM_PRIMARY_LENS {
      var sym := ReadHuffsym(stream, t.length, LENCODE_TABLEBITS, MAX_LEN_CODEWORD_LEN, c.length);
      length := length + sym;
    }
    length := length + MIN_MATCH_LEN;
  }

  method ReadOffset(stream: InputBitstream, t: BlockTables, slot: nat, ghost c: Codes, ghost numMain: nat)
    returns (offset: nat)
    requires stream.Valid() && TablesFor(t, c, numMain) && 3 <= slot < MAX_OFFSET_SLOTS
    modifies stream
    ensures stream.Valid() && (offset, stream.State()) == OffsetRead(stream.buf, c, slot, old(stream.State()))
  {
    hide SymRead, TableFor, Justified, BitsRead, ExtraOffsetBits, OffsetSlotBase;
    offset := ReadField(stream, ExtraOffsetBits(slot, t.isAligned));
    if t.isAligned && slot >= MIN_ALIGNED_OFFSET_SLOT {
      // an aligned symbol is below 8, so the bitwise OR is a sum
      var low := ReadHuffsym(stream, t.aligned, ALIGNEDCODE_TABLEBITS, MAX_ALIGNED_CODEWORD_LEN, c.aligned);
      offset := 8 * offset + low;
    }
    offset := offset + OffsetSlotBase(slot);
  }

  /** The offset that a slot stands for, and the queue with it at the front. */
  method TakeOffset(stream: InputBitstream, recent: array<nat>, tables: BlockTables, slot: nat,
                    ghost c: Codes, ghost numMain: nat)
    returns (offset: nat)
    requires stream.Valid() && TablesFor(tables, c, numMain) && recent.Length == 3 && slot < MAX_OFFSET_SLOTS
    modifies stream, recent
    ensures stream.Valid()
    ensures (offset, RecentOf(recent), stream.State())
         == OffsetTaken(stream.buf, c, slot, old(RecentOf(recent)), old(stream.State()))
  {
    hide TableFor, Justified, OffsetRead, CodeOk, Sound;
    if slot < 3 {
      offset := recent[slot];
      recent[slot] := recent[0];
    } else {
      offset := ReadOffset(stream, tables, slot, c, numMain);
      recent[2] := recent[1];
      recent[1] := recent[0];
    }
    recent[0] := offset;
  }

  method ReadToken(stream: InputBitstream, recent: array<nat>, tables: BlockTables, ghost c: Codes, ghost numMain: nat)
    returns (t: Token)
    requires stream.Valid() && TablesFor(tables, c, numMain) && recent.Length == 3 && Nonzero(RecentOf(recent))
    requires recent !in {tables.main, tables.length, tables.aligned}
    modifies stream, recent
    ensures stream.Valid()
    ensures (t, RecentOf(recent), stream.State())
         == TokenRead(stream.buf, c, old(RecentOf(recent)), old(stream.State()))
  {
    assert |c.main| <= MAINCODE_MAX_NUM_SYMBOLS;
    hide SymRead, TableFor, Justified, LengthRead, OffsetTaken, CodeOk, Sound, OffsetSlot, LengthHeader;
    SymReadSound(stream.buf, stream.State(), c.main, MAX_MAIN_CODEWORD_LEN);
    var mainsym := ReadHuffsym(stream, tables.main, MAINCODE_TABLEBITS, MAX_MAIN_CODEWORD_LEN, c.main);
    if mainsym < NUM_CHARS {
      return Literal(mainsym);
    }
    var slot := OffsetSlot(mainsym);
    var length := ReadLength(stream, tables, LengthHeader(mainsym), c, numMain);
    var offset := TakeOffset(stream, recent, tables, slot, c, numMain);
    t := Match(length, offset);
  }

  /** How far a block has been decoded. */
  ghost predicate InBlock(stream: InputBitstream, recent: array<nat>, out: array<byte>, c: Codes, numMain: nat,
                          next: nat, end: nat, tokens: seq<Token>, all: Option<BlockState>)
    reads stream, recent, out
  {
    && stream.Valid() && recent.Length == 3 && CodesOk(c, numMain)
    && BlockSound(stream.buf, BlockState(tokens, RecentOf(recent), stream.State()))
    && next <= end <= out.Length && out[..next] == Expand(tokens)
    && all == BlockRun(stream.buf, c, BlockState(tokens, RecentOf(recent), stream.State()), end)
  }

  method DecodeToken(stream: InputBitstream, recent: array<nat>, out: array<byte>, tables: BlockTables,
                     next0: nat, end: nat, mach: Machine,
                     ghost c: Codes, ghost numMain: nat, ghost tokens0: seq<Token>, ghost all: Option<BlockState>)
    returns (ok: bool, next: nat, ghost tokens: seq<Token>)
    requires InBlock(stream, recent, out, c, numMain, next0, end, tokens0, all) && next0 < end && Runnable(mach)
    requires TablesFor(tables, c, numMain) && recent !in {tables.main, tables.length, tables.aligned}
    requires out as object !in {recent as object, tables.main, tables.length, tables.aligned}
    modifies stream, recent, out
    ensures stream.Valid()
    ensures !ok ==> all.None?
    ensures ok ==> InBlock(stream, recent, out, c, numMain, next, end, tokens, all) && next > next0
  {
    hide TokenRead, Expand, Expandable, TableFor, CodeOk, Justified;
    var t := ReadToken(stream, recent, tables, c, numMain);
    ok, next := Apply(out, next0, t, end, MIN_MATCH_LEN, mach.wordBytes, mach.fastUnaligned, tokens0);
    tokens := tokens0 + [t];
  }

  method BuildTables(c: Codes, numMain: nat, mach: Machine) returns (ok: bool, tables: BlockTables)
    requires MainSyms(numMain)
    requires |c.main| == numMain && LensUpTo(c.main, MAX_MAIN_CODEWORD_LEN)
    requires |c.length| == LENCODE_NUM_SYMBOLS && LensUpTo(c.length, MAX_LEN_CODEWORD_LEN)
    requires c.isAligned ==> |c.aligned| == ALIGNEDCODE_NUM_SYMBOLS && LensUpTo(c.aligned, MAX_ALIGNED_CODEWORD_LEN)
    requires Runnable(mach)
    ensures fresh(tables.main) && fresh(tables.length) && fresh(tables.aligned)
    ensures ok <==> CodesOk(c, numMain)
    ensures ok ==> TablesFor(tables, c, numMain)
  {
    Pow2Literals();
    var mainTable, lenTable;
    ok, mainTable := BuildTable(c.main, MAINCODE_TABLEBITS, MAX_MAIN_CODEWORD_LEN, mach);
    tables := BlockTables(mainTable, mainTable, mainTable, c.isAligned);
    if !ok {
      return;
    }
    ok, lenTable := BuildTable(c.length, LENCODE_TABLEBITS, MAX_LEN_CODEWORD_LEN, mach);
    tables := BlockTables(mainTable, lenTable, lenTable, c.isAligned);
    if !ok || !c.isAligned {
      return;
    }
    var alignedTable;
    ok, alignedTable := BuildTable(c.aligned, ALIGNEDCODE_TABLEBITS, MAX_ALIGNED_CODEWORD_LEN, mach);
    tables := BlockTables(mainTable, lenTable, alignedTable, c.isAligned);
  }

  /** Decodes a compressed block of `size` bytes after the first `next0`. */
  method DecompressBlock(stream: InputBitstream, recent: array<nat>, out: array<byte>, c: Codes, numMain: nat,
                         next0: nat, size: nat, mach: Machine, ghost tokens0: seq<Token>)
    returns (ok: bool, ghost tokens: seq<Token>)
    requires stream.Valid() && recent.Length == 3 && Nonzero(RecentOf(recent)) && Runnable(mach)
    requires MainSyms(numMain)
    requires |c.main| == numMain && LensUpTo(c.main, MAX_MAIN_CODEWORD_LEN)
    requires |c.length| == LENCODE_NUM_SYMBOLS && LensUpTo(c.length, MAX_LEN_CODEWORD_LEN)
    requires c.isAligned ==> |c.aligned| == ALIGNEDCODE_NUM_SYMBOLS && LensUpTo(c.aligned, MAX_ALIGNED_CODEWORD_LEN)
    requires size >= 1 && next0 + size <= out.Length && recent as object != out
    requires Expandable(tokens0) && out[..next0] == Expand(tokens0)
    modifies stream, recent, out
    ensures stream.Valid()
    ensures ok ==> CodesOk(c, numMain)
    ensures CodesOk(c, numMain) ==>
              var run := BlockRun(stream.buf, c, BlockState(tokens0, old(RecentOf(recent)), old(stream.State())),
                                  next0 + size);
              && ok == run.Some?
              && (ok ==> run.value == BlockState(tokens, RecentOf(recent), stream.State())
                         && out[..next0 + size] == Expand(tokens))
  {
    hide BlockRun, TablesFor, CodesOk, Expand, Expandable, LensUpTo, Justified;
    tokens := tokens0;
    var tables;
    ok, tables := BuildTables(c, numMain, mach);
    if ok {
      ok, tokens := DecodeBlock(stream, recent, out, tables, c, numMain, next0, next0 + size, mach, tokens0);
    }
  }

  method DecodeBlock(stream: InputBitstream, recent: array<nat>, out: array<byte>, tables: BlockTables,
                     ghost c: Codes, ghost numMain: nat, next0: nat, end: nat, mach: Machine, ghost tokens0: seq<Token>)
    returns (ok: bool, ghost tokens: seq<Token>)
    requires stream.Valid() && recent.Length == 3 && Nonzero(RecentOf(recent)) && Runnable(mach)
    requires TablesFor(tables, c, numMain) && recent !in {tables.main, tables.length, tables.aligned}
    requires out as object !in {recent as object, tables.main, tables.length, tables.aligned}
    requires next0 < end <= out.Length && Expandable(tokens0) && out[..next0] == Expand(tokens0)
    modifies stream, recent, out
    ensures stream.Valid()
    ensures var run := BlockRun(stream.buf, c, BlockState(tokens0, old(RecentOf(recent)), old(stream.State())), end);
            && ok == run.Some?
            && (ok ==> run.value == BlockState(tokens, RecentOf(recent), stream.State())
                       && out[..end] == Expand(tokens))
  {
    var next := next0;
    tokens := tokens0;
    ghost var all := BlockRun(stream.buf, c, BlockState(tokens0, RecentOf(recent), stream.State()), end);
    hide TokenRead, Expandable, TableFor, CodeOk, Justified;
    while true
      invariant InBlock(stream, recent, out, c, numMain, next, end, tokens, all) && next0 <= next < end
      invariant tables.main[..] == old(tables.main[..]) && tables.length[..] == old(tables.length[..])
      invariant tables.aligned[..] == old(tables.aligned[..])
      decreases end - next
    {
      ok, next, tokens := DecodeToken(stream, recent, out, tables, next, end, mach, c, numMain, tokens, all);
      if !ok {
        return;
      }
      if next == end {
        break;
      }
    }
  }

  // ----- the decompressor -----

  /** The window order for buffers of `size` bytes, or 0 when there is none. */
  method GetWindowOrder(size: nat) returns (order: nat)
    ensures order == 0 <==> size == 0 || size > MAX_WINDOW_SIZE
    ensures order != 0 ==> MIN_WINDOW_ORDER <= order <= MAX_WINDOW_ORDER && size <= Pow2(order)
    ensures order > MIN_WINDOW_ORDER ==> size > Pow2(order - 1)
  {
    if size == 0 || size > MAX_WINDOW_SIZE {
      return 0;
    }
    Pow2Literals();
    order := 0;
    var v := size - 1;
    while v != 0
      invariant v == Shr(size - 1, order) && order <= MAX_WINDOW_ORDER
      invariant order > 0 ==> Shr(size - 1, order - 1) > 0
      decreases v
    {
      if order == MAX_WINDOW_ORDER {
        ShrBelow(size - 1, MAX_WINDOW_ORDER, 0);
      }
      v := v / 2;
      order := order + 1;
    }
    ShrBounds(size - 1, order);
    ShlZero(order);
    if order > 0 {
      ShrBounds(size - 1, order - 1);
      ShlMonotone(1, Shr(size - 1, order - 1), order - 1);
    }
    if order < MIN_WINDOW_ORDER {
      Pow2Monotone(order, MIN_WINDOW_ORDER);
      order := MIN_WINDOW_ORDER;
    }
  }

  /** As many offset slots as the longest offset of the window needs, and no more beyond 30. */
  method GetNumMainSyms(order: nat) returns (n: nat)
    requires MIN_WINDOW_ORDER <= order <= MAX_WINDOW_ORDER
    ensures MainSyms(n)
    ensures var slots := (n - NUM_CHARS) / 8; var maxOffset := Pow2(order) - MIN_MATCH_LEN - 1;
            && 30 <= slots <= MAX_OFFSET_SLOTS && maxOffset < OffsetSlotBase(slots)
            && (slots > 30 ==> OffsetSlotBase(slots - 1) <= maxOffset)
  {
    Pow2Monotone(order, MAX_WINDOW_ORDER);
    Pow2Literals();
    assert OffsetSlotBase(MAX_OFFSET_SLOTS) == 2097150;
    var maxOffset := Pow2(order) - MIN_MATCH_LEN - 1;
    var slots := 30;
    while maxOffset >= OffsetSlotBase(slots)
      invariant 30 <= slots <= MAX_OFFSET_SLOTS
      invariant slots > 30 ==> OffsetSlotBase(slots - 1) <= maxOffset
      decreases MAX_OFFSET_SLOTS - slots
    {
      slots := slots + 1;
    }
    n := NUM_CHARS + slots * 8;
  }

  /** Where the E8 undo is needed, and in which form, is the last step. */
  ghost function Decompressed(input: seq<byte>, c0: Carried, numMain: nat, order: nat, size: nat): Option<seq<byte>>
    requires CarriedSound(c0, numMain) && size <= MAX_WINDOW_SIZE
  {
    var run := StreamRun(input, Stream([], c0, Reader(0, 0, 0), false), numMain, order, size);
    if run.None? then None else Some(E8Filter.Scan(E8Filter.Undo, Expand(run.value.tokens), 0))
  }

  /** The bytes are those the tokens stand for, but for the targets of calls, which are relative again. */
  ghost predicate TargetsUndone(input: seq<byte>, c0: Carried, numMain: nat, order: nat, d: seq<byte>)
    requires CarriedSound(c0, numMain) && |d| <= MAX_WINDOW_SIZE
  {
    var run := StreamRun(input, Stream([], c0, Reader(0, 0, 0), false), numMain, order, |d|);
    run.Some? && E8Calls.CallsChanged(E8Filter.Undo, Expand(run.value.tokens), d, 0)
  }

  lemma DecompressedIs(input: seq<byte>, c0: Carried, numMain: nat, order: nat, size: nat)
    requires CarriedSound(c0, numMain) && size <= MAX_WINDOW_SIZE
    ensures var d := Decompressed(input, c0, numMain, order, size);
      d.Some? && |d.value| == size ==> TargetsUndone(input, c0, numMain, order, d.value)
  {
    hide E8Filter.Scan, E8Calls.CallsChanged, StreamRun;
    var run := StreamRun(input, Stream([], c0, Reader(0, 0, 0), false), numMain, order, size);
    if run.Some? {
      E8Calls.FilterChanges(E8Filter.Undo, Expand(run.value.tokens));
    }
  }

  lemma CodesOfFits(buf: seq<byte>, s: Stream, h: Header, numMain: nat)
    requires StreamSound(buf, s, numMain) && HeaderSound(buf, h, numMain)
    ensures MainSyms(numMain) && Expandable(s.tokens) && Nonzero(h.carried.recent)
    ensures var c := CodesOf(h, numMain);
            && |c.main| == numMain && LensUpTo(c.main, MAX_MAIN_CODEWORD_LEN)
            && |c.length| == LENCODE_NUM_SYMBOLS && LensUpTo(c.length, MAX_LEN_CODEWORD_LEN)
            && (c.isAligned ==> |c.aligned| == ALIGNEDCODE_NUM_SYMBOLS && LensUpTo(c.aligned, MAX_ALIGNED_CODEWORD_LEN))
  {
    PartUpTo(h.carried.main, numMain, 16);
    PartUpTo(h.carried.length, LENCODE_NUM_SYMBOLS, 16);
  }

  /** A compressed block's meaning is the run of its tokens, when its codes are sound. */
  lemma CompressedIsRun(buf: seq<byte>, s: Stream, h: Header, numMain: nat)
    requires StreamSound(buf, s, numMain) && HeaderSound(buf, h, numMain)
    ensures var c := CodesOf(h, numMain); var read := CompressedRead(buf, s, h, numMain);
            if !CodesOk(c, numMain) then read.None?
            else
              var run := BlockRun(buf, c, BlockState(s.tokens, h.carried.recent, h.r), OutputLength(s.tokens) + h.size);
              if run.None? then read.None?
              else read == Some(Stream(run.value.tokens, h.carried.(recent := run.value.recent), run.value.r,
                                       s.e8 || h.carried.main[0xE8] != 0))
  {
    hide BlockRun, CodesOf, CodesOk, BlockSound, LensUpTo, OutputLength;
  }

  lemma PartUpTo(lens: Lens, n: nat, max: nat)
    requires LensUpTo(lens, max) && n <= |lens|
    ensures LensUpTo(lens[..n], max)
  {}

  /** A compressed block whose header has been read. */
  method CompressedBlock(stream: InputBitstream, recent: array<nat>, out: array<byte>, c: Codes, numMain: nat,
                         next: nat, size: nat, mach: Machine, ghost s: Stream, ghost h: Header)
    returns (ok: bool, ghost tokens: seq<Token>)
    requires stream.Valid() && recent.Length == 3 && recent as object != out && Runnable(mach)
    requires StreamSound(stream.buf, s, numMain) && HeaderSound(stream.buf, h, numMain)
    requires h.r == stream.State() && h.size == size && h.carried.recent == RecentOf(recent)
    requires c == CodesOf(h, numMain)
    requires next == OutputLength(s.tokens) && size >= 1 && next + size <= out.Length && out[..next] == Expand(s.tokens)
    modifies stream, recent, out
    ensures stream.Valid()
    ensures var read := CompressedRead(stream.buf, s, h, numMain);
            && ok == read.Some?
            && (ok ==> read.value == Stream(tokens, h.carried.(recent := RecentOf(recent)), stream.State(),
                                            s.e8 || h.carried.main[0xE8] != 0)
                       && out[..next + size] == Expand(tokens))
  {
    hide *;
    CodesOfFits(stream.buf, s, h, numMain);
    CompressedIsRun(stream.buf, s, h, numMain);
    ok, tokens := DecompressBlock(stream, recent, out, c, numMain, next, size, mach, s.tokens);
  }

  class Decompressor {
    const windowOrder: nat
    const numMainSyms: nat
    const mach: Machine
    const maincodeLens: array<nat>
    const lencodeLens: array<nat>

    ghost predicate Valid()
      reads this
    {
      && MainSyms(numMainSyms)
      && Runnable(mach) && maincodeLens != lencodeLens
      && maincodeLens.Length == MAINCODE_MAX_NUM_SYMBOLS + READ_LENS_MAX_OVERRUN
      && lencodeLens.Length == LENCODE_NUM_SYMBOLS + READ_LENS_MAX_OVERRUN
    }

    ghost function CarriedNow(recent: array<nat>): Carried
      reads this, maincodeLens, lencodeLens, recent
      requires recent.Length == 3
    {
      Carried(maincodeLens[..], lencodeLens[..], RecentOf(recent))
    }

    constructor (order: nat, numMain: nat, machine: Machine)
      requires MIN_WINDOW_ORDER <= order <= MAX_WINDOW_ORDER && Runnable(machine)
      requires MainSyms(numMain)
      ensures Valid() && windowOrder == order && numMainSyms == numMain && mach == machine
      ensures fresh(maincodeLens) && fresh(lencodeLens)
    {
      windowOrder, numMainSyms, mach := order, numMain, machine;
      maincodeLens := new nat[MAINCODE_MAX_NUM_SYMBOLS + READ_LENS_MAX_OVERRUN](_ => 0);
      lencodeLens := new nat[LENCODE_NUM_SYMBOLS + READ_LENS_MAX_OVERRUN](_ => 0);
    }

    /** The main code's lengths, in two parts, then the length code's. */
    method ReadCodes(stream: InputBitstream, ghost recent: array<nat>) returns (ok: bool)
      requires Valid() && stream.Valid() && recent.Length == 3
      requires CarriedSound(CarriedNow(recent), numMainSyms) && recent !in {maincodeLens, lencodeLens}
      modifies stream, maincodeLens, lencodeLens
      ensures stream.Valid()
      ensures var read := CodesRead(stream.buf, old(CarriedNow(recent)), numMainSyms, old(stream.State()));
              ok == read.Some? && (ok ==> read.value == (CarriedNow(recent), stream.State()))
    {
      hide LensRead, Justified, LensUpTo;
      ok := ReadCodewordLens(stream, maincodeLens, 0, NUM_CHARS, mach);
      if ok {
        ok := ReadCodewordLens(stream, maincodeLens, NUM_CHARS, numMainSyms, mach);
      }
      if ok {
        ok := ReadCodewordLens(stream, lencodeLens, 0, LENCODE_NUM_SYMBOLS, mach);
      }
    }

    method ReadType(stream: InputBitstream) returns (blockType: nat, isDefault: bool)
      requires stream.Valid()
      modifies stream
      ensures stream.Valid() && (blockType, isDefault, stream.State()) == TypeRead(stream.buf, old(stream.State()))
    {
      hide Justified, Shl, Shr, Low;
      stream.EnsureBits(4);
      blockType := stream.PopBits(3);
      var flag := stream.PopBits(1);
      isDefault := flag != 0;
    }

    method ReadSize(stream: InputBitstream, isDefault: bool) returns (size: nat)
      requires stream.Valid()
      modifies stream
      ensures stream.Valid()
      ensures (size, stream.State()) == SizeRead(stream.buf, old(stream.State()), isDefault, windowOrder)
    {
      hide Justified, BitsRead;
      if isDefault {
        return DEFAULT_BLOCK_SIZE;
      }
      size := ReadField(stream, 16);
      if windowOrder >= 16 {
        var low := ReadField(stream, 8);
        size := 256 * size + low;
      }
    }

    method ReadRecent(stream: InputBitstream, recent: array<nat>)
      requires stream.Valid() && recent.Length == 3
      modifies stream, recent
      ensures stream.Valid() && (RecentOf(recent), stream.State()) == RecentRead(stream.buf, old(stream.State()))
    {
      hide Justified;
      stream.EnsureBits(1);
      stream.Align();
      var v0 := stream.ReadU32();
      var v1 := stream.ReadU32();
      var v2 := stream.ReadU32();
      recent[0], recent[1], recent[2] := v0, v1, v2;
    }

    method ReadBlockHeader(stream: InputBitstream, recent: array<nat>)
      returns (ok: bool, blockType: nat, size: nat, aligned: Lens)
      requires Valid() && stream.Valid() && recent.Length == 3
      requires CarriedSound(CarriedNow(recent), numMainSyms) && recent !in {maincodeLens, lencodeLens}
      modifies stream, recent, maincodeLens, lencodeLens
      ensures stream.Valid()
      ensures var h := HeaderRead(stream.buf, old(CarriedNow(recent)), numMainSyms, windowOrder, old(stream.State()));
              && ok == h.Some?
              && (ok ==> h.value == Header(blockType, size, aligned, CarriedNow(recent), stream.State()))
    {
      hide Justified, TypeRead, SizeRead, FieldsRead, CodesRead, RecentRead, LensUpTo;
      var isDefault;
      blockType, isDefault := ReadType(stream);
      size := ReadSize(stream, isDefault);
      aligned := [];
      if blockType == BLOCKTYPE_ALIGNED || blockType == BLOCKTYPE_VERBATIM {
        var fields := ReadFields(stream, 3, if blockType == BLOCKTYPE_ALIGNED then ALIGNEDCODE_NUM_SYMBOLS else 0);
        aligned := fields[..];
        ok := ReadCodes(stream, recent);
      } else if blockType == BLOCKTYPE_UNCOMPRESSED {
        ReadRecent(stream, recent);
        ok := recent[0] != 0 && recent[1] != 0 && recent[2] != 0;
      } else {
        ok := false;
      }
    }

    /** How far the stream has been decompressed. */
    ghost predicate Decompressing(stream: InputBitstream, recent: array<nat>, out: array<byte>, next: nat, e8: bool,
                                  tokens: seq<Token>, all: Option<Stream>)
      reads this, maincodeLens, lencodeLens, stream, recent, out
    {
      && Valid() && stream.Valid() && recent.Length == 3
      && StreamSound(stream.buf, Stream(tokens, CarriedNow(recent), stream.State(), e8), numMainSyms)
      && next == OutputLength(tokens) <= out.Length && out[..next] == Expand(tokens)
      && all == StreamRun(stream.buf, Stream(tokens, CarriedNow(recent), stream.State(), e8),
                          numMainSyms, windowOrder, out.Length)
    }

    ghost predicate Separate(recent: array<nat>, out: array<byte>)
      reads this
    {
      && recent != maincodeLens && recent != lencodeLens && recent as object != out
      && maincodeLens as object != out && lencodeLens as object != out
    }

    /** An uncompressed block whose header has been read: its bytes are copied. */
    method UncompressedBlock(stream: InputBitstream, out: array<byte>, next: nat, size: nat,
                             ghost s: Stream, ghost h: Header)
      returns (ok: bool, ghost tokens: seq<Token>)
      requires stream.Valid() && StreamSound(stream.buf, s, numMainSyms) && HeaderSound(stream.buf, h, numMainSyms)
      requires h.r == stream.State() && h.size == size
      requires next == OutputLength(s.tokens) && size >= 1 && next + size <= out.Length
      requires out[..next] == Expand(s.tokens)
      modifies stream, out
      ensures stream.Valid()
      ensures var read := UncompressedRead(stream.buf, s, h, numMainSyms);
              && ok == read.Some?
              && (ok ==> read.value == Stream(tokens, h.carried, stream.State(), true)
                         && out[..next + size] == Expand(tokens))
    {
      hide Expand, Expandable, Justified, Literals;
      tokens := s.tokens;
      if |stream.buf| - stream.next < size {
        return false, tokens;
      }
      ghost var bytes := stream.buf[stream.next..stream.next + size];
      ExpandLiterals(s.tokens, bytes);
      tokens := s.tokens + Literals(bytes);
      forall i | 0 <= i < size {
        out[next + i] := stream.buf[stream.next + i];
      }
      assert out[..next + size] == old(out[..next]) + bytes;
      stream.next := stream.next + size;
      if size % 2 == 1 {
        var pad := stream.ReadByte();
      }
      ok := true;
    }

    /** One block, header and contents. */
    method DecompressNext(stream: InputBitstream, recent: array<nat>, out: array<byte>, next0: nat, e80: bool,
                          ghost tokens0: seq<Token>, ghost all: Option<Stream>)
      returns (ok: bool, next: nat, e8: bool, ghost tokens: seq<Token>)
      requires Decompressing(stream, recent, out, next0, e80, tokens0, all)
      requires next0 < out.Length && Separate(recent, out)
      modifies stream, recent, out, maincodeLens, lencodeLens
      ensures stream.Valid()
      ensures !ok ==> all.None?
      ensures ok ==> Decompressing(stream, recent, out, next, e8, tokens, all) && next > next0
    {
      hide HeaderRead, CompressedRead, UncompressedRead, Expand, Expandable, Justified, LensUpTo;
      next, e8, tokens := next0, e80, tokens0;
      ghost var s := Stream(tokens0, CarriedNow(recent), stream.State(), e80);
      var blockType, size, aligned;
      ok, blockType, size, aligned := ReadBlockHeader(stream, recent);
      if !ok {
        return;
      }
      if size < 1 || size > out.Length - next {
        return false, next, e8, tokens;
      }
      ghost var h := Header(blockType, size, aligned, CarriedNow(recent), stream.State());
      assert out[..next] == old(out[..next]);
      if blockType != BLOCKTYPE_UNCOMPRESSED {
        var c := Codes(maincodeLens[..numMainSyms], lencodeLens[..LENCODE_NUM_SYMBOLS], aligned,
                       blockType == BLOCKTYPE_ALIGNED);
        assert c == CodesOf(h, numMainSyms);
        ok, tokens := CompressedBlock(stream, recent, out, c, numMainSyms, next, size, mach, s, h);
        assert h.carried.main == maincodeLens[..] && h.carried.length == lencodeLens[..];
        assert h.carried.main[0xE8] == maincodeLens[0xE8];
        e8 := e8 || maincodeLens[0xE8] != 0;
      } else {
        ok, tokens := UncompressedBlock(stream, out, next, size, s, h);
        e8 := true;
      }
      next := next + size;
    }

    /** Decodes all blocks, before the E8 undo. */
    method DecodeStream(stream: InputBitstream, recent: array<nat>, out: array<byte>)
      returns (ok: bool, e8: bool, ghost tokens: seq<Token>)
      requires Valid() && stream.Valid() && recent.Length == 3 && Separate(recent, out)
      requires StreamSound(stream.buf, Stream([], CarriedNow(recent), stream.State(), false), numMainSyms)
      modifies stream, recent, out, maincodeLens, lencodeLens
      ensures var run := StreamRun(stream.buf, old(Stream([], CarriedNow(recent), stream.State(), false)),
                                   numMainSyms, windowOrder, out.Length);
              && ok == run.Some?
              && (ok ==> run.value.tokens == tokens && run.value.e8 == e8
                         && Expandable(tokens) && out[..] == Expand(tokens))
    {
      var next: nat := 0;
      ok, e8, tokens := true, false, [];
      assert out[..0] == [] == Expand(tokens);
      ghost var all := StreamRun(stream.buf, Stream([], CarriedNow(recent), stream.State(), false),
                                 numMainSyms, windowOrder, out.Length);
      hide BlockRead, Expand, Justified, LensUpTo;
      while next != out.Length
        invariant Decompressing(stream, recent, out, next, e8, tokens, all) && next <= out.Length
        decreases out.Length - next
      {
        ok, next, e8, tokens := DecompressNext(stream, recent, out, next, e8, tokens, all);
        if !ok {
          return;
        }
      }
      assert out[..] == out[..next];
      ok := true;
    }

    /** Decompresses `input` to fill `out`, whose address `addr` matters only to the vector loads. */
    method Decompress(input: seq<byte>, out: array<byte>, addr: nat) returns (ok: bool)
      requires Valid() && out.Length <= MAX_WINDOW_SIZE
      requires maincodeLens as object != out && lencodeLens as object != out
      modifies out, maincodeLens, lencodeLens
      ensures CarriedSound(FirstCarried(), numMainSyms)
      ensures var d := Decompressed(input, FirstCarried(), numMainSyms, windowOrder, out.Length);
              ok == d.Some? && (ok ==> out[..] == d.value)
      ensures ok ==> TargetsUndone(input, FirstCarried(), numMainSyms, windowOrder, out[..])
    {
      var recent := new nat[3](_ => 1);
      var stream := new InputBitstream(input);
      // the padding behind the lengths is written by overlong runs but never read
      forall i | 0 <= i < maincodeLens.Length {
        maincodeLens[i] := 0;
      }
      forall i | 0 <= i < lencodeLens.Length {
        lencodeLens[i] := 0;
      }
      assert CarriedNow(recent) == FirstCarried();
      hide StreamRun, LensUpTo, Justified, Expand, Sound, E8Filter.Scan, OutputLength, StreamSound, CarriedSound;
      hide FirstCarried;
      FirstIsSound(input, numMainSyms);
      DecompressedIs(input, FirstCarried(), numMainSyms, windowOrder, out.Length);
      hide TargetsUndone;
      ghost var start := Stream([], FirstCarried(), Reader(0, 0, 0), false);
      StreamNoE8(input, start, numMainSyms, windowOrder, out.Length);
      var e8;
      ghost var tokens;
      ok, e8, tokens := DecodeStream(stream, recent, out);
      if ok {
        if e8 {
          if mach.sse2 {
            E8Vector.VectorFilter(E8Filter.Undo, out, addr, mach.align);
          } else {
            E8Filter.ScalarFilter(E8Filter.Undo, out);
          }
        } else {
          ExpandBytes(tokens, E8Filter.E8);
          E8Filter.ScanNothing(E8Filter.Undo, out[..]);
        }
      }
    }
  }

  /** The window holds `size` bytes, and the main code has slots for every match in the window. */
  predicate Covers(order: nat, numMain: nat, size: nat) {
    && size <= Pow2(order) && NUM_CHARS + 30 * 8 <= numMain <= NUM_CHARS + MAX_OFFSET_SLOTS * 8
    && Pow2(order) - MIN_MATCH_LEN - 1 < OffsetSlotBase((numMain - NUM_CHARS) / 8)
  }

  /**
   * The decompressor for buffers of up to `size` bytes. There is none exactly when there are no such buffers, or
   * no window is large enough; else its window holds them, and its main code has slots for every match in one.
   */
  method AllocateDecompressor(size: nat, machine: Machine) returns (d: Decompressor?)
    requires Runnable(machine)
    ensures d == null <==> size == 0 || size > MAX_WINDOW_SIZE
    ensures d != null ==> fresh(d) && fresh(d.maincodeLens) && fresh(d.lencodeLens) && d.Valid() && d.mach == machine
    ensures d != null ==> Covers(d.windowOrder, d.numMainSyms, size)
  {
    var order := GetWindowOrder(size);
    if order == 0 {
      return null;
    }
    var numMain := GetNumMainSyms(order);
    assert Covers(order, numMain, size);
    hide Covers, Pow2, OffsetSlotBase;
    d := new Decompressor(order, numMain, machine);
  }

  lemma FirstIsSound(buf: seq<byte>, numMain: nat)
    requires MainSyms(numMain)
    ensures CarriedSound(FirstCarried(), numMain)
    ensures StreamSound(buf, Stream([], FirstCarried(), Reader(0, 0, 0), false), numMain)
  {
    ShlZero(0);
  }

  /** What the decoder starts from: no lengths, and recent offsets of one. */
  ghost function FirstCarried(): Carried {
    Carried(seq(MAINCODE_MAX_NUM_SYMBOLS + READ_LENS_MAX_OVERRUN, _ => 0),
            seq(LENCODE_NUM_SYMBOLS + READ_LENS_MAX_OVERRUN, _ => 0), Recent(1, 1, 1))
  }
}
