/**
 The LZX format as WIM files use it, read without decode tables: what a header says, which tokens
 a block holds, and what the recent-offset queue becomes.
 */
module LzxFormat {
  import opened Options
  import opened Shifts
  import opened Bitstream
  import opened CanonicalCode
  import opened HuffmanTable
  import opened HuffmanDecode
  import opened LzCopy

  const NUM_CHARS: nat := 256
  const MIN_MATCH_LEN: nat := 2
  const NUM_PRIMARY_LENS: nat := 7
  const BLOCKTYPE_VERBATIM: nat := 1
  const BLOCKTYPE_ALIGNED: nat := 2
  const BLOCKTYPE_UNCOMPRESSED: nat := 3
  const MIN_WINDOW_ORDER: nat := 15
  const MAX_WINDOW_ORDER: nat := 21
  const MAX_WINDOW_SIZE: nat := 0x20_0000
  const MAX_OFFSET_SLOTS: nat := 50
  const MAINCODE_MAX_NUM_SYMBOLS: nat := 656
  const LENCODE_NUM_SYMBOLS: nat := 249
  const PRECODE_NUM_SYMBOLS: nat := 20
  const ALIGNEDCODE_NUM_SYMBOLS: nat := 8
  const MAX_MAIN_CODEWORD_LEN: nat := 16
  const MAX_LEN_CODEWORD_LEN: nat := 16
  const MAX_PRE_CODEWORD_LEN: nat := 15
  const MAX_ALIGNED_CODEWORD_LEN: nat := 7
  const MIN_ALIGNED_OFFSET_SLOT: nat := 8
  const DEFAULT_BLOCK_SIZE: nat := 32768
  const READ_LENS_MAX_OVERRUN: nat := 50

  type Positive = n: int | n >= 1 witness 1
  type ExtraBits = n: nat | n <= 17
  type AlignedExtraBits = n: nat | 3 <= n <= 17 witness 3

  /** The first offset of each slot from 3 on; slots 0 to 2 name the recent offsets. */
  const OFFSET_SLOT_BASE: seq<Positive> := [
    1, 2, 4, 6, 10, 14, 22, 30, 46, 62, 94, 126, 190, 254, 382, 510, 766,
    1022, 1534, 2046, 3070, 4094, 6142, 8190] + [12286, 16382, 24574, 32766, 49150, 65534, 98302, 131070,
    196606, 262142, 393214, 524286, 655358, 786430, 917502, 1048574, 1179646, 1310718,
    1441790, 1572862, 1703934, 1835006, 1966078, 2097150]

  const EXTRA_BITS_BELOW_ALIGNED: seq<ExtraBits> := [0, 0, 0, 0, 1, 1, 2, 2]

  const EXTRA_BITS_FROM_ALIGNED: seq<AlignedExtraBits> := [
    3, 3, 4, 4, 5, 5, 6, 6, 7, 7, 8, 8, 9, 9, 10, 10, 11, 11, 12, 12, 13, 13, 14, 14, 15, 15, 16, 16,
    17, 17, 17, 17, 17, 17, 17, 17, 17, 17, 17, 17, 17, 17]

  function OffsetSlotBase(slot: nat): (b: int)
    requires 3 <= slot <= MAX_OFFSET_SLOTS
    ensures b >= 1
  {
    OFFSET_SLOT_BASE[slot - 3]
  }

  /** How many extra bits follow in the stream for an offset in `slot`. */
  function ExtraOffsetBits(slot: nat, isAligned: bool): (n: nat)
    requires slot < MAX_OFFSET_SLOTS
    ensures n <= 17
  {
    if slot < MIN_ALIGNED_OFFSET_SLOT then EXTRA_BITS_BELOW_ALIGNED[slot]
    else
      var n: nat := EXTRA_BITS_FROM_ALIGNED[slot - MIN_ALIGNED_OFFSET_SLOT];
      if isAligned then n - 3 else n
  }

  datatype Recent = Recent(r0: nat, r1: nat, r2: nat)

  ghost predicate Nonzero(q: Recent) {
    q.r0 >= 1 && q.r1 >= 1 && q.r2 >= 1
  }

  ghost predicate LensUpTo(lens: Lens, max: nat) {
    forall i | 0 <= i < |lens| :: lens[i] <= max
  }

  /** A number of `n` bits, and the reader after it. */
  function BitsRead(buf: seq<byte>, r: Reader, n: nat): (result: (nat, Reader))
    requires Sound(buf, r) && n <= 17
    ensures Sound(buf, result.1) && result.0 < Pow2(n)
  {
    EnsuredSound(buf, r, n);
    var e := Ensured(buf, r, n);
    PeekBound(buf, e, n);
    DroppedSound(buf, e, n);
    (Peeked(e, n), Dropped(e, n))
  }

  /** `count` numbers of `n` bits each. */
  function FieldsRead(buf: seq<byte>, r: Reader, n: nat, count: nat): (result: (Lens, Reader))
    requires Sound(buf, r) && n <= 17
    ensures Sound(buf, result.1) && |result.0| == count
    ensures forall i | 0 <= i < count :: result.0[i] < Pow2(n)
    decreases count
  {
    if count == 0 then ([], r)
    else
      var (front, r1) := FieldsRead(buf, r, n, count - 1);
      var (v, r2) := BitsRead(buf, r1, n);
      (front + [v], r2)
  }

  // ----- codeword lengths -----

  /** A length given as a difference, modulo 17, from the same symbol's length in the previous block. */
  function Delta(previous: nat, presym: nat): (len: nat)
    requires previous <= 16 && presym <= 17
    ensures len <= 16
  {
    if previous >= presym then previous - presym else previous + 17 - presym
  }

  function Run(lens: Lens, pos: nat, n: nat, v: nat): (r: Lens)
    requires pos + n <= |lens|
    ensures |r| == |lens|
  {
    lens[..pos] + seq(n, _ => v) + lens[pos + n..]
  }

  lemma RunUpTo(lens: Lens, pos: nat, n: nat, v: nat, max: nat)
    requires pos + n <= |lens| && LensUpTo(lens, max) && v <= max
    ensures LensUpTo(Run(lens, pos, n, v), max)
  {}

  datatype LensState = LensState(lens: Lens, pos: nat, r: Reader)

  ghost predicate LensSound(buf: seq<byte>, pre: Lens, s: LensState, end: nat) {
    && Sound(buf, s.r) && |pre| == PRECODE_NUM_SYMBOLS
    && LensUpTo(s.lens, 16) && end + READ_LENS_MAX_OVERRUN <= |s.lens|
  }

  /** How many lengths the symbol just read sets, and to what; `previous` is the first one's old value. */
  ghost function RunRead(buf: seq<byte>, pre: Lens, presym: nat, previous: nat, r: Reader)
    : (result: Option<(nat, nat, Reader)>)
    requires Sound(buf, r) && previous <= 16 && |pre| == PRECODE_NUM_SYMBOLS
    ensures result.Some? ==> var (n, len, r') := result.value;
                             1 <= n <= READ_LENS_MAX_OVERRUN + 1 && len <= 16 && Sound(buf, r')
  {
    Pow2Literals();
    if presym < 17 then
      Some((1, Delta(previous, presym), r))
    else if presym == 17 then
      var (extra, r2) := BitsRead(buf, r, 4);
      Some((4 + extra, 0, r2))
    else if presym == 18 then
      var (extra, r2) := BitsRead(buf, r, 5);
      Some((20 + extra, 0, r2))
    else
      var (extra, r2) := BitsRead(buf, r, 1);
      SymReadSound(buf, r2, pre, MAX_PRE_CODEWORD_LEN);
      var (presym2, r3) := SymRead(buf, r2, pre, MAX_PRE_CODEWORD_LEN);
      if presym2 > 17 then None else Some((4 + extra, Delta(previous, presym2), r3))
  }

  /** What the precode symbol at the head of the stream does to the lengths. */
  ghost function LensStep(buf: seq<byte>, pre: Lens, s: LensState, end: nat): (result: Option<LensState>)
    requires LensSound(buf, pre, s, end) && s.pos < end
    ensures result.Some? ==> LensSound(buf, pre, result.value, end)
                             && result.value.pos > s.pos && |result.value.lens| == |s.lens|
  {
    SymReadSound(buf, s.r, pre, MAX_PRE_CODEWORD_LEN);
    var (presym, r1) := SymRead(buf, s.r, pre, MAX_PRE_CODEWORD_LEN);
    var run := RunRead(buf, pre, presym, s.lens[s.pos], r1);
    if run.None? then None
    else
      var (n, len, r2) := run.value;
      RunUpTo(s.lens, s.pos, n, len, 16);
      Some(LensState(Run(s.lens, s.pos, n, len), s.pos + n, r2))
  }

  ghost function LensRun(buf: seq<byte>, pre: Lens, s: LensState, end: nat): (result: Option<LensState>)
    requires LensSound(buf, pre, s, end)
    ensures result.Some? ==> LensSound(buf, pre, result.value, end) && |result.value.lens| == |s.lens|
    decreases end - s.pos
  {
    if s.pos >= end then Some(s)
    else
      var next := LensStep(buf, pre, s, end);
      if next.None? then None else LensRun(buf, pre, next.value, end)
  }

  /** Reads a precode, and with it the lengths `start .. end`. */
  ghost function LensRead(buf: seq<byte>, lens: Lens, start: nat, end: nat, r: Reader): (result: Option<(Lens, Reader)>)
    requires Sound(buf, r) && LensUpTo(lens, 16) && end + READ_LENS_MAX_OVERRUN <= |lens|
    ensures result.Some? ==> LensUpTo(result.value.0, 16) && |result.value.0| == |lens| && Sound(buf, result.value.1)
  {
    var (pre, r1) := FieldsRead(buf, r, 4, PRECODE_NUM_SYMBOLS);
    if !Complete(pre, MAX_PRE_CODEWORD_LEN) && !Empty(pre) then None
    else
      var s := LensRun(buf, pre, LensState(lens, start, r1), end);
      if s.None? then None else Some((s.value.lens, s.value.r))
  }

  // ----- block headers -----

  /** The main code has a symbol for each byte and, for each offset slot, one for each of eight length headers. */
  predicate MainSyms(n: nat) {
    NUM_CHARS < n <= MAINCODE_MAX_NUM_SYMBOLS && (n - NUM_CHARS) % 8 == 0
  }

  function OffsetSlot(sym: nat): (slot: nat)
    requires NUM_CHARS <= sym
    ensures sym < MAINCODE_MAX_NUM_SYMBOLS ==> slot < MAX_OFFSET_SLOTS
  {
    (sym - NUM_CHARS) / 8
  }

  function LengthHeader(sym: nat): (header: nat)
    ensures header <= NUM_PRIMARY_LENS
  {
    sym % 8
  }

  /** What the decoder carries from one block to the next. */
  datatype Carried = Carried(main: Lens, length: Lens, recent: Recent)

  ghost predicate CarriedSound(c: Carried, numMain: nat) {
    && MainSyms(numMain)
    && |c.main| == MAINCODE_MAX_NUM_SYMBOLS + READ_LENS_MAX_OVERRUN && LensUpTo(c.main, 16)
    && |c.length| == LENCODE_NUM_SYMBOLS + READ_LENS_MAX_OVERRUN && LensUpTo(c.length, 16)
    && Nonzero(c.recent)
  }

  datatype Header = Header(blockType: nat, size: nat, aligned: Lens, carried: Carried, r: Reader)

  ghost predicate HeaderSound(buf: seq<byte>, h: Header, numMain: nat) {
    && Sound(buf, h.r) && CarriedSound(h.carried, numMain)
    && h.blockType in {BLOCKTYPE_VERBATIM, BLOCKTYPE_ALIGNED, BLOCKTYPE_UNCOMPRESSED}
    && (h.blockType == BLOCKTYPE_ALIGNED ==> |h.aligned| == ALIGNEDCODE_NUM_SYMBOLS && LensUpTo(h.aligned, 7))
  }

  /** The block type, three bits, and the flag for a block of the default size. */
  function TypeRead(buf: seq<byte>, r: Reader): (result: (nat, bool, Reader))
    requires Sound(buf, r)
    ensures Sound(buf, result.2)
  {
    EnsuredSound(buf, r, 4);
    var e := Ensured(buf, r, 4);
    DroppedSound(buf, e, 3);
    DroppedSound(buf, Dropped(e, 3), 1);
    (Peeked(e, 3), Peeked(Dropped(e, 3), 1) != 0, Dropped(Dropped(e, 3), 1))
  }

  /** The size of a block. */
  function SizeRead(buf: seq<byte>, r: Reader, isDefault: bool, order: nat): (result: (nat, Reader))
    requires Sound(buf, r)
    ensures Sound(buf, result.1)
  {
    if isDefault then (DEFAULT_BLOCK_SIZE, r)
    else
      var (size, r2) := BitsRead(buf, r, 16);
      if order >= 16 then
        var (low, r3) := BitsRead(buf, r2, 8);
        (256 * size + low, r3)
      else (size, r2)
  }

  /** The lengths of the main code, in two parts, and of the length code. */
  ghost function CodesRead(buf: seq<byte>, c: Carried, numMain: nat, r: Reader): (result: Option<(Carried, Reader)>)
    requires Sound(buf, r) && CarriedSound(c, numMain)
    ensures result.Some? ==> CarriedSound(result.value.0, numMain) && Sound(buf, result.value.1)
                             && result.value.0.recent == c.recent
  {
    var m1 := LensRead(buf, c.main, 0, NUM_CHARS, r);
    if m1.None? then None
    else
      var m2 := LensRead(buf, m1.value.0, NUM_CHARS, numMain, m1.value.1);
      if m2.None? then None
      else
        var l := LensRead(buf, c.length, 0, LENCODE_NUM_SYMBOLS, m2.value.1);
        if l.None? then None
        else Some((Carried(m2.value.0, l.value.0, c.recent), l.value.1))
  }

  /** New recent offsets, from the next coding-unit boundary on. */
  function RecentRead(buf: seq<byte>, r: Reader): (result: (Recent, Reader))
    requires Sound(buf, r)
    ensures Sound(buf, result.1)
  {
    EnsuredSound(buf, r, 1);
    var (r0, q0) := U32Read(buf, Reader(0, 0, Ensured(buf, r, 1).next));
    var (r1, q1) := U32Read(buf, q0);
    var (r2, q2) := U32Read(buf, q1);
    (Recent(r0, r1, r2), q2)
  }

  ghost function HeaderRead(buf: seq<byte>, c: Carried, numMain: nat, order: nat, r: Reader): (result: Option<Header>)
    requires Sound(buf, r) && CarriedSound(c, numMain)
    ensures result.Some? ==> HeaderSound(buf, result.value, numMain)
  {
    var (blockType, isDefault, r1) := TypeRead(buf, r);
    var (size, r2) := SizeRead(buf, r1, isDefault, order);
    if blockType == BLOCKTYPE_ALIGNED || blockType == BLOCKTYPE_VERBATIM then
      Pow2Literals();
      var (aligned, r3) := FieldsRead(buf, r2, 3,
           if blockType == BLOCKTYPE_ALIGNED then ALIGNEDCODE_NUM_SYMBOLS else 0);
      var codes := CodesRead(buf, c, numMain, r3);
      if codes.None? then None
      else Some(Header(blockType, size, aligned, codes.value.0, codes.value.1))
    else if blockType == BLOCKTYPE_UNCOMPRESSED then
      var (recent, r3) := RecentRead(buf, r2);
      if !Nonzero(recent) then None
      else Some(Header(blockType, size, [], c.(recent := recent), r3))
    else None
  }

  // ----- blocks -----

  datatype BlockState = BlockState(tokens: seq<Token>, recent: Recent, r: Reader)

  ghost predicate BlockSound(buf: seq<byte>, s: BlockState) {
    Sound(buf, s.r) && Nonzero(s.recent) && Expandable(s.tokens)
  }

  /** The codes of one compressed block. */
  datatype Codes = Codes(main: Lens, length: Lens, aligned: Lens, isAligned: bool)

  ghost predicate CodeOk(lens: Lens, n: nat, max: nat) {
    |lens| == n && LensUpTo(lens, max) && (Complete(lens, max) || Empty(lens))
  }

  ghost predicate CodesOk(c: Codes, numMain: nat) {
    && MainSyms(numMain)
    && CodeOk(c.main, numMain, MAX_MAIN_CODEWORD_LEN)
    && CodeOk(c.length, LENCODE_NUM_SYMBOLS, MAX_LEN_CODEWORD_LEN)
    && (c.isAligned ==> CodeOk(c.aligned, ALIGNEDCODE_NUM_SYMBOLS, MAX_ALIGNED_CODEWORD_LEN))
  }

  /** The recent offset that slot `slot` names, and the queue with it moved to the front. */
  function UseRecent(q: Recent, slot: nat): (nat, Recent)
    requires slot < 3
  {
    if slot == 0 then (q.r0, q)
    else if slot == 1 then (q.r1, Recent(q.r1, q.r0, q.r2))
    else (q.r2, Recent(q.r2, q.r1, q.r0))
  }

  /** An explicit offset: extra bits, the low three of them coded in aligned blocks. */
  ghost function OffsetRead(buf: seq<byte>, c: Codes, slot: nat, r: Reader): (result: (nat, Reader))
    requires Sound(buf, r) && 3 <= slot < MAX_OFFSET_SLOTS
    ensures Sound(buf, result.1) && result.0 >= 1
  {
    var (extra, r1) := BitsRead(buf, r, ExtraOffsetBits(slot, c.isAligned));
    if c.isAligned && slot >= MIN_ALIGNED_OFFSET_SLOT then
      SymReadSound(buf, r1, c.aligned, MAX_ALIGNED_CODEWORD_LEN);
      var (low, r2) := SymRead(buf, r1, c.aligned, MAX_ALIGNED_CODEWORD_LEN);
      (8 * extra + low + OffsetSlotBase(slot), r2)
    else
      (extra + OffsetSlotBase(slot), r1)
  }

  /** The offset that a slot stands for, and the queue with it at the front. */
  ghost function OffsetTaken(buf: seq<byte>, c: Codes, slot: nat, q: Recent, r: Reader): (result: (nat, Recent, Reader))
    requires Sound(buf, r) && slot < MAX_OFFSET_SLOTS
    ensures Sound(buf, result.2)
    ensures Nonzero(q) ==> result.0 >= 1 && Nonzero(result.1)
  {
    if slot < 3 then
      var (offset, q') := UseRecent(q, slot);
      (offset, q', r)
    else
      var (offset, r1) := OffsetRead(buf, c, slot, r);
      (offset, Recent(offset, q.r0, q.r1), r1)
  }

  ghost function LengthRead(buf: seq<byte>, c: Codes, header: nat, r: Reader): (result: (nat, Reader))
    requires Sound(buf, r)
    ensures Sound(buf, result.1) && result.0 >= MIN_MATCH_LEN
  {
    if header == NUM_PRIMARY_LENS then
      SymReadSound(buf, r, c.length, MAX_LEN_CODEWORD_LEN);
      var (sym, r1) := SymRead(buf, r, c.length, MAX_LEN_CODEWORD_LEN);
      (header + sym + MIN_MATCH_LEN, r1)
    else (header + MIN_MATCH_LEN, r)
  }

  /** The token at the head of the stream, the queue and the reader after it. */
  ghost function TokenRead(buf: seq<byte>, c: Codes, q: Recent, r: Reader): (result: (Token, Recent, Reader))
    requires Sound(buf, r) && Nonzero(q)
    requires NUM_CHARS < |c.main| <= MAINCODE_MAX_NUM_SYMBOLS
    ensures Nonzero(result.1) && Sound(buf, result.2)
    ensures result.0.Match? ==> result.0.offset >= 1 && result.0.length >= MIN_MATCH_LEN
  {
    SymReadSound(buf, r, c.main, MAX_MAIN_CODEWORD_LEN);
    var (sym, r1) := SymRead(buf, r, c.main, MAX_MAIN_CODEWORD_LEN);
    if sym < NUM_CHARS then (Literal(sym), q, r1)
    else
      var slot := OffsetSlot(sym);
      var (length, r2) := LengthRead(buf, c, LengthHeader(sym), r1);
      var (offset, q', r3) := OffsetTaken(buf, c, slot, q, r2);
      (Match(length, offset), q', r3)
  }

  /** The tokens of a compressed block, up to `end` bytes of output in all. */
  ghost function BlockRun(buf: seq<byte>, c: Codes, s: BlockState, end: nat): (result: Option<BlockState>)
    requires BlockSound(buf, s) && OutputLength(s.tokens) <= end
    requires NUM_CHARS < |c.main| <= MAINCODE_MAX_NUM_SYMBOLS
    ensures result.Some? ==> BlockSound(buf, result.value) && OutputLength(result.value.tokens) == end
    decreases end - OutputLength(s.tokens)
  {
    var produced := OutputLength(s.tokens);
    if produced == end then Some(s)
    else
      var (t, q, r) := TokenRead(buf, c, s.recent, s.r);
      if t.Match? && (t.offset > produced || t.length > end - produced) then None
      else
        ExpandNext(s.tokens, t);
        BlockRun(buf, c, BlockState(s.tokens + [t], q, r), end)
  }

  /** An uncompressed block is its bytes, as literals. */
  function Literals(bytes: seq<byte>): (tokens: seq<Token>)
    ensures |tokens| == |bytes|
  {
    seq(|bytes|, i requires 0 <= i < |bytes| => Literal(bytes[i]))
  }

  lemma {:induction false} ExpandLiterals(tokens: seq<Token>, bytes: seq<byte>)
    requires Expandable(tokens)
    ensures Expandable(tokens + Literals(bytes))
    ensures Expand(tokens + Literals(bytes)) == Expand(tokens) + bytes
  {
    if bytes == [] {
      assert tokens + Literals(bytes) == tokens;
    } else {
      var front, b := bytes[..|bytes| - 1], bytes[|bytes| - 1];
      ExpandLiterals(tokens, front);
      LiteralsNext(bytes);
      hide Expand, Expandable, Literals;
      ExpandNext(tokens + Literals(front), Literal(b));
      assert tokens + Literals(bytes) == tokens + Literals(front) + [Literal(b)];
      assert Expand(tokens) + bytes == Expand(tokens) + front + [b];
    }
  }

  lemma LiteralsNext(bytes: seq<byte>)
    requires bytes != []
    ensures Literals(bytes) == Literals(bytes[..|bytes| - 1]) + [Literal(bytes[|bytes| - 1])]
  {}

  // ----- the whole stream -----

  /** `e8` records whether the output may hold an E8 byte. */
  datatype Stream = Stream(tokens: seq<Token>, carried: Carried, r: Reader, e8: bool)

  ghost predicate StreamSound(buf: seq<byte>, s: Stream, numMain: nat) {
    Sound(buf, s.r) && CarriedSound(s.carried, numMain) && Expandable(s.tokens)
  }

  ghost function CodesOf(h: Header, numMain: nat): Codes
    requires numMain <= |h.carried.main| && LENCODE_NUM_SYMBOLS <= |h.carried.length|
  {
    Codes(h.carried.main[..numMain], h.carried.length[..LENCODE_NUM_SYMBOLS], h.aligned,
          h.blockType == BLOCKTYPE_ALIGNED)
  }

  /** One whole block. */
  ghost function BlockRead(buf: seq<byte>, s: Stream, numMain: nat, order: nat, size: nat): (result: Option<Stream>)
    requires StreamSound(buf, s, numMain) && OutputLength(s.tokens) < size
    ensures result.Some? ==> StreamSound(buf, result.value, numMain)
                             && OutputLength(s.tokens) < OutputLength(result.value.tokens) <= size
  {
    var produced := OutputLength(s.tokens);
    var header := HeaderRead(buf, s.carried, numMain, order, s.r);
    if header.None? then None
    else
      var h := header.value;
      if h.size < 1 || h.size > size - produced then None
      else if h.blockType != BLOCKTYPE_UNCOMPRESSED then
        CompressedRead(buf, s, h, numMain)
      else
        UncompressedRead(buf, s, h, numMain)
  }

  ghost function CompressedRead(buf: seq<byte>, s: Stream, h: Header, numMain: nat): (result: Option<Stream>)
    requires StreamSound(buf, s, numMain) && HeaderSound(buf, h, numMain)
    ensures result.Some? ==> StreamSound(buf, result.value, numMain)
                             && OutputLength(result.value.tokens) == OutputLength(s.tokens) + h.size
  {
    var c := CodesOf(h, numMain);
    if !CodesOk(c, numMain) then None
    else
      var b := BlockRun(buf, c, BlockState(s.tokens, h.carried.recent, h.r), OutputLength(s.tokens) + h.size);
      if b.None? then None
      else Some(Stream(b.value.tokens, h.carried.(recent := b.value.recent), b.value.r,
                       s.e8 || h.carried.main[0xE8] != 0))
  }

  ghost function UncompressedRead(buf: seq<byte>, s: Stream, h: Header, numMain: nat): (result: Option<Stream>)
    requires StreamSound(buf, s, numMain) && HeaderSound(buf, h, numMain)
    ensures result.Some? ==> StreamSound(buf, result.value, numMain)
                             && OutputLength(result.value.tokens) == OutputLength(s.tokens) + h.size
  {
    if |buf| - h.r.next < h.size then None
    else
      var bytes := buf[h.r.next..h.r.next + h.size];
      ExpandLiterals(s.tokens, bytes);
      var r1 := h.r.(next := h.r.next + h.size);
      var r2 := if h.size % 2 == 1 then ByteRead(buf, r1).1 else r1;
      Some(Stream(s.tokens + Literals(bytes), h.carried, r2, true))
  }

  ghost function StreamRun(buf: seq<byte>, s: Stream, numMain: nat, order: nat, size: nat): (result: Option<Stream>)
    requires StreamSound(buf, s, numMain) && OutputLength(s.tokens) <= size
    ensures result.Some? ==> StreamSound(buf, result.value, numMain) && OutputLength(result.value.tokens) == size
    decreases size - OutputLength(s.tokens)
  {
    if OutputLength(s.tokens) == size then Some(s)
    else
      var next := BlockRead(buf, s, numMain, order, size);
      if next.None? then None else StreamRun(buf, next.value, numMain, order, size)
  }

  // ----- when the E8 undo may be skipped -----

  ghost predicate NoE8(tokens: seq<Token>) {
    Literal(0xE8) !in tokens
  }

  /** A symbol without a codeword is never read, except symbol 0 of an empty code. */
  lemma ReadHasCodeword(buf: seq<byte>, r: Reader, lens: Lens, m: nat)
    requires Sound(buf, r) && 1 <= m <= 17 && |lens| > 0
    ensures var s := SymRead(buf, r, lens, m).0; s == 0 || (s < |lens| && lens[s] > 0)
  {
    SymReadSound(buf, r, lens, m);
    if Complete(lens, m) { SymReadIsPrefix(buf, r, lens, m); }
  }

  lemma {:induction false} BlockNoE8(buf: seq<byte>, c: Codes, s: BlockState, end: nat)
    requires BlockSound(buf, s) && OutputLength(s.tokens) <= end
    requires NUM_CHARS < |c.main| <= MAINCODE_MAX_NUM_SYMBOLS
    requires c.main[0xE8] == 0 && NoE8(s.tokens)
    ensures var b := BlockRun(buf, c, s, end); b.Some? ==> NoE8(b.value.tokens)
    decreases end - OutputLength(s.tokens)
  {
    hide SymRead, LengthRead, OffsetRead, Expand, Sound;
    var produced := OutputLength(s.tokens);
    if produced < end {
      var (t, q, r) := TokenRead(buf, c, s.recent, s.r);
      ReadHasCodeword(buf, s.r, c.main, MAX_MAIN_CODEWORD_LEN);
      if !(t.Match? && (t.offset > produced || t.length > end - produced)) {
        ExpandNext(s.tokens, t);
        BlockNoE8(buf, c, BlockState(s.tokens + [t], q, r), end);
      }
    }
  }

  lemma BlockReadNoE8(buf: seq<byte>, s: Stream, numMain: nat, order: nat, size: nat)
    requires StreamSound(buf, s, numMain) && OutputLength(s.tokens) < size
    requires !s.e8 ==> NoE8(s.tokens)
    ensures var next := BlockRead(buf, s, numMain, order, size);
            next.Some? && !next.value.e8 ==> NoE8(next.value.tokens)
  {
    hide HeaderRead, BlockRun, NoE8, Expandable, CarriedSound;
    var header := HeaderRead(buf, s.carried, numMain, order, s.r);
    if header.Some? {
      CompressedNoE8(buf, s, header.value, numMain);
    }
  }

  lemma CompressedNoE8(buf: seq<byte>, s: Stream, h: Header, numMain: nat)
    requires StreamSound(buf, s, numMain) && HeaderSound(buf, h, numMain)
    requires !s.e8 ==> NoE8(s.tokens)
    ensures var next := CompressedRead(buf, s, h, numMain);
            next.Some? && !next.value.e8 ==> NoE8(next.value.tokens)
  {
    hide BlockRun, NoE8, Expandable, OutputLength, Sound;
    var c := CodesOf(h, numMain);
    if !s.e8 && h.carried.main[0xE8] == 0 && CodesOk(c, numMain) {
      assert c.main[0xE8] == h.carried.main[0xE8];
      BlockNoE8(buf, c, BlockState(s.tokens, h.carried.recent, h.r), OutputLength(s.tokens) + h.size);
    }
  }

  /** As long as the flag is clear, no literal was an E8 byte. */
  lemma {:induction false} StreamNoE8(buf: seq<byte>, s: Stream, numMain: nat, order: nat, size: nat)
    requires StreamSound(buf, s, numMain) && OutputLength(s.tokens) <= size
    requires !s.e8 ==> NoE8(s.tokens)
    ensures var f := StreamRun(buf, s, numMain, order, size);
            f.Some? && !f.value.e8 ==> NoE8(f.value.tokens)
    decreases size - OutputLength(s.tokens)
  {
    hide BlockRead, NoE8, StreamSound, OutputLength;
    if OutputLength(s.tokens) != size {
      var next := BlockRead(buf, s, numMain, order, size);
      if next.Some? {
        BlockReadNoE8(buf, s, numMain, order, size);
        StreamNoE8(buf, next.value, numMain, order, size);
      }
    }
  }
}
