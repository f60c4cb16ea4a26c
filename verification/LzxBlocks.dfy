/**
 Writing whole LZX streams, and the round trip: what is written for any blocks is decoded as their tokens, and
 data whose call targets have been translated comes back as it was.
 */
module LzxBlocks {
  import opened Options
  import opened Shifts
  import opened Bitstream
  import opened BitWriter
  import opened CanonicalCode
  import opened HuffmanTable
  import opened HuffmanDecode
  import opened LzCopy
  import opened LzxFormat
  import opened LzxLens
  import opened LzxEncode
  import E8Filter
  import LzxDecompress
  import StreamBits

  datatype Block =
    | Compressed(standard: bool, isAligned: bool, aligned: Lens, low: Plan, high: Plan, length: Plan,
                 coded: seq<Coded>)
    | Stored(standard: bool, recent: Recent, bytes: seq<byte>)

  // ----- the type and the size -----

  predicate SizeOk(standard: bool, size: nat, order: nat) {
    0 < size && if standard then size == 0x8000 else size < if order >= 16 then 0x100_0000 else 0x1_0000
  }

  function SizeOps(standard: bool, size: nat, order: nat): seq<Op> {
    if standard then []
    else if order >= 16 then [Field(16, 16, size / 256), Field(8, 8, size % 256)]
    else [Field(16, 16, size)]
  }

  function TypeOps(blockType: nat, standard: bool): seq<Op> {
    [Field(4, 3, blockType), Field(1, 1, if standard then 1 else 0)]
  }

  lemma HeadOpsOk(blockType: nat, standard: bool, size: nat, order: nat)
    requires blockType < 8 && SizeOk(standard, size, order)
    ensures AllOk(TypeOps(blockType, standard) + SizeOps(standard, size, order))
  {
    Pow2Literals();
    hide Pow2;
  }

  lemma TypeIsRead(buf: seq<byte>, r: Reader, blockType: nat, standard: bool, rest: seq<Op>)
    requires Ahead(buf, r, TypeOps(blockType, standard) + rest)
    ensures Sound(buf, r)
    ensures var (t, d, r') := TypeRead(buf, r); t == blockType && d == standard && Ahead(buf, r', rest)
  {
    hide Ahead, Peeked, Dropped, Ensured;
    var flag := Field(1, 1, if standard then 1 else 0);
    assert TypeOps(blockType, standard) + rest == [Field(4, 3, blockType)] + ([flag] + rest);
    AheadIsSound(buf, r, TypeOps(blockType, standard) + rest);
    FieldIsRead(buf, r, 4, 3, blockType, [flag] + rest);
    var r1 := Dropped(Ensured(buf, r, 4), 3);
    FieldIsRead(buf, r1, 1, 1, flag.x, rest);
    EnoughThere(buf, r1);
  }

  lemma EnoughThere(buf: seq<byte>, r: Reader)
    requires 1 <= r.have <= 32
    ensures Ensured(buf, r, 1) == r
  {
  }

  lemma SizeIsRead(buf: seq<byte>, r: Reader, standard: bool, size: nat, order: nat, rest: seq<Op>)
    requires SizeOk(standard, size, order) && Ahead(buf, r, SizeOps(standard, size, order) + rest)
    ensures Sound(buf, r)
    ensures var (v, r') := SizeRead(buf, r, standard, order); v == size && Ahead(buf, r', rest)
  {
    hide Ahead, BitsRead;
    var ops := SizeOps(standard, size, order);
    AheadIsSound(buf, r, ops + rest);
    if standard {
      assert ops + rest == rest;
    } else if order >= 16 {
      assert ops + rest == [Field(16, 16, size / 256)] + ([Field(8, 8, size % 256)] + rest);
      BitsAreRead(buf, r, 16, size / 256, [Field(8, 8, size % 256)] + rest);
      BitsAreRead(buf, BitsRead(buf, r, 16).1, 8, size % 256, rest);
    } else {
      BitsAreRead(buf, r, 16, size, rest);
    }
  }

  // ----- the codes of a compressed block -----

  ghost predicate PlansOk(b: Block, c: Carried, numMain: nat)
    requires b.Compressed?
  {
    && PlanOk(b.low, c.main, 0, NUM_CHARS)
    && PlanOk(b.high, Planned(b.low, c.main, 0, NUM_CHARS), NUM_CHARS, numMain)
    && PlanOk(b.length, c.length, 0, LENCODE_NUM_SYMBOLS)
  }

  ghost function MainOf(b: Block, c: Carried, numMain: nat): Lens
    requires b.Compressed? && PlansOk(b, c, numMain)
  {
    Planned(b.high, Planned(b.low, c.main, 0, NUM_CHARS), NUM_CHARS, numMain)
  }

  /** The codeword lengths that the block's header leaves behind. */
  ghost function CarriedBy(b: Block, c: Carried, numMain: nat): (d: Carried)
    requires b.Compressed? && PlansOk(b, c, numMain)
    ensures |d.main| == |c.main| && |d.length| == |c.length| && d.recent == c.recent
  {
    Carried(MainOf(b, c, numMain), Planned(b.length, c.length, 0, LENCODE_NUM_SYMBOLS), c.recent)
  }

  ghost function PlansOps(b: Block, c: Carried, numMain: nat): seq<Op>
    requires b.Compressed? && PlansOk(b, c, numMain)
  {
    PlanOps(b.low, c.main, 0, NUM_CHARS)
    + PlanOps(b.high, Planned(b.low, c.main, 0, NUM_CHARS), NUM_CHARS, numMain)
    + PlanOps(b.length, c.length, 0, LENCODE_NUM_SYMBOLS)
  }

  lemma CodesAreRead(buf: seq<byte>, r: Reader, b: Block, c: Carried, numMain: nat, rest: seq<Op>)
    requires b.Compressed? && PlansOk(b, c, numMain) && CarriedSound(c, numMain)
    requires Ahead(buf, r, PlansOps(b, c, numMain) + rest)
    ensures Sound(buf, r) && CarriedSound(CarriedBy(b, c, numMain), numMain)
    ensures var read := CodesRead(buf, c, numMain, r);
      read.Some? && read.value.0 == CarriedBy(b, c, numMain) && Ahead(buf, read.value.1, rest)
  {
    hide Ahead, LensRead, PlanOps, Planned, PlanOk, LensUpTo, Nonzero;
    var low := Planned(b.low, c.main, 0, NUM_CHARS);
    var ops1 := PlanOps(b.low, c.main, 0, NUM_CHARS);
    var ops2 := PlanOps(b.high, low, NUM_CHARS, numMain);
    var ops3 := PlanOps(b.length, c.length, 0, LENCODE_NUM_SYMBOLS);
    assert PlansOps(b, c, numMain) + rest == ops1 + (ops2 + (ops3 + rest));
    LensAreRead(buf, c.main, 0, NUM_CHARS, r, b.low, ops2 + (ops3 + rest));
    var r1 := LensRead(buf, c.main, 0, NUM_CHARS, r).value.1;
    LensAreRead(buf, low, NUM_CHARS, numMain, r1, b.high, ops3 + rest);
    var r2 := LensRead(buf, low, NUM_CHARS, numMain, r1).value.1;
    LensAreRead(buf, c.length, 0, LENCODE_NUM_SYMBOLS, r2, b.length, rest);
  }

  // ----- compressed blocks -----

  lemma CarriedLengths(c: Carried, numMain: nat)
    requires CarriedSound(c, numMain)
    ensures numMain <= |c.main| && LENCODE_NUM_SYMBOLS <= |c.length|
  {
  }

  ghost function CodesBy(b: Block, c: Carried, numMain: nat): Codes
    requires b.Compressed? && PlansOk(b, c, numMain) && CarriedSound(c, numMain)
  {
    var d := CarriedBy(b, c, numMain);
    CarriedLengths(c, numMain);
    Codes(d.main[..numMain], d.length[..LENCODE_NUM_SYMBOLS], if b.isAligned then b.aligned else [], b.isAligned)
  }

  ghost predicate CompressedOk(b: Block, c: Carried, numMain: nat) {
    && b.Compressed? && CarriedSound(c, numMain) && PlansOk(b, c, numMain)
    && (b.isAligned ==> |b.aligned| == 8 && LensUpTo(b.aligned, 7))
    && CodesOk(CodesBy(b, c, numMain), numMain) && CodedsOk(CodesBy(b, c, numMain), b.coded) && AllFits(b.coded)
  }

  ghost function CompressedOps(b: Block, c: Carried, numMain: nat, order: nat): seq<Op>
    requires CompressedOk(b, c, numMain)
  {
    TypeOps(if b.isAligned then 2 else 1, b.standard)
    + SizeOps(b.standard, OutputLength(TokensOf(b.coded, c.recent)), order)
    + FieldOps(3, if b.isAligned then b.aligned else []) + PlansOps(b, c, numMain)
    + CodedsOps(CodesBy(b, c, numMain), b.coded)
  }

  lemma CompressedOpsOk(b: Block, c: Carried, numMain: nat, order: nat)
    requires CompressedOk(b, c, numMain)
    requires SizeOk(b.standard, OutputLength(TokensOf(b.coded, c.recent)), order)
    ensures AllOk(CompressedOps(b, c, numMain, order))
  {
    var size, aligned := OutputLength(TokensOf(b.coded, c.recent)), if b.isAligned then b.aligned else [];
    AlignedOk(b, c, numMain);
    hide *;
    var blockType: nat := if b.isAligned then 2 else 1;
    HeadOpsOk(blockType, b.standard, size, order);
    PlansOpsOk(b, c, numMain);
    CodedsOpsOk(CodesBy(b, c, numMain), b.coded);
    var head := TypeOps(blockType, b.standard) + SizeOps(b.standard, size, order);
    AllOkConcat(head, FieldOps(3, aligned));
    AllOkConcat(head + FieldOps(3, aligned), PlansOps(b, c, numMain));
    AllOkConcat(head + FieldOps(3, aligned) + PlansOps(b, c, numMain), CodedsOps(CodesBy(b, c, numMain), b.coded));
    CompressedOpsAre(b, c, numMain, order);
  }

  lemma CompressedOpsAre(b: Block, c: Carried, numMain: nat, order: nat)
    requires CompressedOk(b, c, numMain)
    ensures CompressedOps(b, c, numMain, order)
         == TypeOps(if b.isAligned then 2 else 1, b.standard)
            + SizeOps(b.standard, OutputLength(TokensOf(b.coded, c.recent)), order)
            + FieldOps(3, if b.isAligned then b.aligned else []) + PlansOps(b, c, numMain)
            + CodedsOps(CodesBy(b, c, numMain), b.coded)
  {
    hide TypeOps, SizeOps, FieldOps, PlansOps, CodedsOps, CodesBy, CarriedSound, CodesOk, CodedsOk, PlansOk;
  }

  lemma AlignedOk(b: Block, c: Carried, numMain: nat)
    requires CompressedOk(b, c, numMain)
    ensures b.Compressed? && PlansOk(b, c, numMain) && CarriedSound(c, numMain) && AllFits(b.coded)
    ensures CodedsOk(CodesBy(b, c, numMain), b.coded)
    ensures AllOk(FieldOps(3, if b.isAligned then b.aligned else []))
  {
    hide PlansOk, CarriedSound, CodedsOk, AllFits, CodesBy, CodesOk;
    Pow2Literals();
    FieldOpsOk(3, if b.isAligned then b.aligned else []);
  }

  lemma PlansOpsOk(b: Block, c: Carried, numMain: nat)
    requires b.Compressed? && PlansOk(b, c, numMain)
    ensures AllOk(PlansOps(b, c, numMain))
  {
    hide PlanOps, OpOk, PlanOk, Planned;
    PlanOpsOk(b.low, c.main, 0, NUM_CHARS);
    PlanOpsOk(b.high, Planned(b.low, c.main, 0, NUM_CHARS), NUM_CHARS, numMain);
    PlanOpsOk(b.length, c.length, 0, LENCODE_NUM_SYMBOLS);
  }

  /** The header of a compressed block. */
  lemma HeaderIsRead(buf: seq<byte>, r: Reader, b: Block, c: Carried, numMain: nat, order: nat, rest: seq<Op>)
    requires CompressedOk(b, c, numMain)
    requires SizeOk(b.standard, OutputLength(TokensOf(b.coded, c.recent)), order)
    requires Ahead(buf, r, CompressedOps(b, c, numMain, order) + rest)
    ensures Sound(buf, r)
    ensures var h := HeaderRead(buf, c, numMain, order, r);
      && h.Some? && HeaderFor(h.value, b, c, numMain, OutputLength(TokensOf(b.coded, c.recent)))
      && Ahead(buf, h.value.r, CodedsOps(CodesBy(b, c, numMain), b.coded) + rest)
  {
    hide Ahead, TypeRead, SizeRead, FieldsRead, CodesRead, TypeOps, SizeOps, FieldOps, PlansOps, CodedsOps, CarriedBy;
    hide CodesBy, CodesOk, CodedsOk, CarriedSound, PlansOk, OutputLength, LensUpTo;
    var blockType := if b.isAligned then 2 else 1;
    var size, aligned := OutputLength(TokensOf(b.coded, c.recent)), if b.isAligned then b.aligned else [];
    var tail := CodedsOps(CodesBy(b, c, numMain), b.coded) + rest;
    var rest3 := PlansOps(b, c, numMain) + tail;
    var rest2 := FieldOps(3, aligned) + rest3;
    var rest1 := SizeOps(b.standard, size, order) + rest2;
    assert CompressedOps(b, c, numMain, order) + rest == TypeOps(blockType, b.standard) + rest1;
    TypeIsRead(buf, r, blockType, b.standard, rest1);
    var r1 := TypeRead(buf, r).2;
    SizeIsRead(buf, r1, b.standard, size, order, rest2);
    var r2 := SizeRead(buf, r1, b.standard, order).1;
    FieldsAreRead(buf, r2, 3, aligned, rest3);
    CodesAreRead(buf, FieldsRead(buf, r2, 3, |aligned|).1, b, c, numMain, tail);
  }

  // ----- stored blocks -----

  function WordBytes(x: nat): (bytes: seq<byte>)
    requires x < 0x1_0000_0000
    ensures |bytes| == 4
  {
    [x % 256, x / 0x100 % 256, x / 0x1_0000 % 256, x / 0x100_0000]
  }

  predicate IsWord(x: nat) {
    0 < x < 0x1_0000_0000
  }

  predicate StoredOk(b: Block) {
    b.Stored? && IsWord(b.recent.r0) && IsWord(b.recent.r1) && IsWord(b.recent.r2)
  }

  /** After the break, the recent offsets and the bytes, with one more if their number is odd. */
  function StoredOps(b: Block, order: nat): seq<Op>
    requires StoredOk(b)
  {
    TypeOps(3, b.standard) + SizeOps(b.standard, |b.bytes|, order)
    + [Break, Raw(WordBytes(b.recent.r0)), Raw(WordBytes(b.recent.r1)), Raw(WordBytes(b.recent.r2)), Raw(b.bytes),
       Raw(if |b.bytes| % 2 == 1 then [0] else [])]
  }

  lemma WordIsRead(buf: seq<byte>, r: Reader, x: nat, rest: seq<Op>)
    requires IsWord(x) && Ahead(buf, r, [Raw(WordBytes(x))] + rest)
    ensures var (v, r') := U32Read(buf, r); v == x && Ahead(buf, r', rest) && r'.acc == r.acc && r'.have == r.have
  {
    hide Ahead, Unit;
    BytesAreRead(buf, r, WordBytes(x), rest);
    StreamBits.WordsAreRead(buf, r);
    var part := buf[r.next..r.next + 4];
    assert part[0] == buf[r.next] && part[1] == buf[r.next + 1] && part[2] == buf[r.next + 2];
    assert part[3] == buf[r.next + 3];
    WordIsItsBytes(x);
  }

  lemma WordIsItsBytes(x: nat)
    requires x < 0x1_0000_0000
    ensures x == x % 256 + 0x100 * (x / 0x100 % 256) + 0x1_0000 * (x / 0x1_0000 % 256) + 0x100_0000 * (x / 0x100_0000)
  {
    var a := x / 0x100;
    var b := a / 0x100;
    assert b == x / 0x1_0000 && b / 0x100 == x / 0x100_0000;
  }

  /** The header of a stored block. */
  lemma StoredHeaderIsRead(buf: seq<byte>, r: Reader, b: Block, c: Carried, numMain: nat, order: nat, rest: seq<Op>)
    requires StoredOk(b) && CarriedSound(c, numMain) && SizeOk(b.standard, |b.bytes|, order)
    requires Ahead(buf, r, StoredOps(b, order) + rest)
    ensures Sound(buf, r)
    ensures var h := HeaderRead(buf, c, numMain, order, r);
      && h.Some? && h.value.blockType == 3 && h.value.size == |b.bytes|
      && h.value.carried == c.(recent := b.recent)
      && Ahead(buf, h.value.r, [Raw(b.bytes), Raw(if |b.bytes| % 2 == 1 then [0] else [])] + rest)
  {
    hide Ahead, TypeRead, SizeRead, TypeOps, SizeOps, CarriedSound, U32Read, WordBytes, Ensured;
    var tail := [Raw(b.bytes), Raw(if |b.bytes| % 2 == 1 then [0] else [])] + rest;
    var w2 := [Raw(WordBytes(b.recent.r2))] + tail;
    var w1 := [Raw(WordBytes(b.recent.r1))] + w2;
    var w0 := [Raw(WordBytes(b.recent.r0))] + w1;
    var rest1 := SizeOps(b.standard, |b.bytes|, order) + ([Break] + w0);
    assert StoredOps(b, order) + rest == TypeOps(3, b.standard) + rest1;
    TypeIsRead(buf, r, 3, b.standard, rest1);
    var r1 := TypeRead(buf, r).2;
    SizeIsRead(buf, r1, b.standard, |b.bytes|, order, [Break] + w0);
    var r2 := SizeRead(buf, r1, b.standard, order).1;
    AheadIsSound(buf, r2, [Break] + w0);
    BreakIsRead(buf, r2, w0);
    var q := Reader(0, 0, Ensured(buf, r2, 1).next);
    WordIsRead(buf, q, b.recent.r0, w1);
    var q0 := U32Read(buf, q).1;
    WordIsRead(buf, q0, b.recent.r1, w2);
    WordIsRead(buf, U32Read(buf, q0).1, b.recent.r2, tail);
  }

  // ----- any block -----

  ghost predicate BlockOk(b: Block, c: Carried, numMain: nat, order: nat) {
    && CarriedSound(c, numMain)
    && (if b.Compressed? then CompressedOk(b, c, numMain) else StoredOk(b))
    && SizeOk(b.standard, OutputLength(TokensBy(b, c.recent)), order)
  }

  function TokensBy(b: Block, q: Recent): seq<Token> {
    if b.Stored? then Literals(b.bytes) else if AllFits(b.coded) then TokensOf(b.coded, q) else []
  }

  ghost function BlockOps(b: Block, c: Carried, numMain: nat, order: nat): seq<Op>
    requires BlockOk(b, c, numMain, order)
  {
    if b.Compressed? then CompressedOps(b, c, numMain, order) else StoredOps(b, order)
  }

  /** What the next block begins with. */
  ghost function CarriedAfter(b: Block, c: Carried, numMain: nat): Carried
    requires b.Compressed? ==> PlansOk(b, c, numMain)
  {
    if b.Stored? then c.(recent := b.recent)
    else CarriedBy(b, c, numMain).(recent := QueueAfterAll(b.coded, c.recent))
  }

  lemma {:induction false} LiteralsLength(bytes: seq<byte>)
    ensures OutputLength(Literals(bytes)) == |bytes|
  {
    if bytes != [] {
      LiteralsNext(bytes);
      LiteralsLength(bytes[..|bytes| - 1]);
      assert Literals(bytes)[..|bytes| - 1] == Literals(bytes[..|bytes| - 1]);
    }
  }

  lemma {:induction false} LengthsAdd(a: seq<Token>, b: seq<Token>)
    ensures OutputLength(a + b) == OutputLength(a) + OutputLength(b)
    decreases |b|
  {
    if b == [] {
      assert a + b == a;
    } else {
      var front := b[..|b| - 1];
      assert (a + b)[..|a + b| - 1] == a + front;
      LengthsAdd(a, front);
    }
  }

  /** Reading a block gives these tokens and what is carried, and leaves this to read. */
  ghost predicate ReadGives(buf: seq<byte>, s: Stream, numMain: nat, order: nat, size: nat, tokens: seq<Token>,
                            c: Carried, rest: seq<Op>)
    requires StreamSound(buf, s, numMain) && OutputLength(s.tokens) < size
  {
    var next := BlockRead(buf, s, numMain, order, size);
    next.Some? && next.value.tokens == tokens && next.value.carried == c && Ahead(buf, next.value.r, rest)
  }

  lemma StreamSoundIs(buf: seq<byte>, s: Stream, numMain: nat)
    requires StreamSound(buf, s, numMain)
    ensures Sound(buf, s.r) && CarriedSound(s.carried, numMain) && Expandable(s.tokens)
  {
  }

  lemma CompressedIsRead(buf: seq<byte>, s: Stream, b: Block, numMain: nat, order: nat, size: nat, rest: seq<Op>)
    requires StreamSound(buf, s, numMain) && BlockOk(b, s.carried, numMain, order) && b.Compressed?
    requires Expandable(s.tokens + TokensBy(b, s.carried.recent))
    requires OutputLength(s.tokens) < OutputLength(s.tokens + TokensBy(b, s.carried.recent)) <= size
    requires Ahead(buf, s.r, BlockOps(b, s.carried, numMain, order) + rest)
    ensures ReadGives(buf, s, numMain, order, size, s.tokens + TokensBy(b, s.carried.recent),
                      CarriedAfter(b, s.carried, numMain), rest)
  {
    var q := s.carried.recent;
    BlockOkIs(b, s.carried, numMain, order);
    StreamSoundIs(buf, s, numMain);
    hide *;
    HeaderIsRead(buf, s.r, b, s.carried, numMain, order, rest);
    var h := HeaderRead(buf, s.carried, numMain, order, s.r).value;
    LengthsAdd(s.tokens, TokensBy(b, q));
    BlockBegins(buf, s, h, b, numMain);
    CodedsAreRead(buf, CodesBy(b, s.carried, numMain), BlockState(s.tokens, q, h.r), b.coded, rest);
    BlockEnds(buf, s, h, b, numMain, order, size, rest);
  }

  lemma BlockOkIs(b: Block, c: Carried, numMain: nat, order: nat)
    requires BlockOk(b, c, numMain, order) && b.Compressed?
    ensures CompressedOk(b, c, numMain) && AllFits(b.coded) && PlansOk(b, c, numMain) && CarriedSound(c, numMain)
    ensures CodedsOk(CodesBy(b, c, numMain), b.coded) && TokensBy(b, c.recent) == TokensOf(b.coded, c.recent)
    ensures SizeOk(b.standard, OutputLength(TokensOf(b.coded, c.recent)), order)
    ensures BlockOps(b, c, numMain, order) == CompressedOps(b, c, numMain, order)
    ensures NUM_CHARS < |CodesBy(b, c, numMain).main| <= MAINCODE_MAX_NUM_SYMBOLS
  {
    hide CarriedBy, PlansOk, AllFits, CodedsOk, OutputLength, TokensOf, SizeOk, CompressedOps, LensUpTo, Nonzero;
  }

  /** What the header says is what the block was written with. */
  ghost predicate HeaderFor(h: Header, b: Block, c: Carried, numMain: nat, size: nat)
    requires b.Compressed? && PlansOk(b, c, numMain)
  {
    && h.blockType == (if b.isAligned then 2 else 1) && h.size == size
    && h.aligned == (if b.isAligned then b.aligned else []) && h.carried == CarriedBy(b, c, numMain)
  }

  lemma BlockBegins(buf: seq<byte>, s: Stream, h: Header, b: Block, numMain: nat)
    requires Sound(buf, s.r) && CarriedSound(s.carried, numMain) && Expandable(s.tokens) && Sound(buf, h.r)
    ensures BlockSound(buf, BlockState(s.tokens, s.carried.recent, h.r))
  {
    hide Sound, Expandable, Nonzero, LensUpTo, MainSyms;
  }

  lemma BlockEnds(buf: seq<byte>, s: Stream, h: Header, b: Block, numMain: nat, order: nat, size: nat, rest: seq<Op>)
    requires StreamSound(buf, s, numMain) && CompressedOk(b, s.carried, numMain) && AllFits(b.coded)
    requires Sound(buf, s.r) && HeaderRead(buf, s.carried, numMain, order, s.r) == Some(h)
    requires HeaderFor(h, b, s.carried, numMain, OutputLength(TokensOf(b.coded, s.carried.recent)))
    requires BlockSound(buf, BlockState(s.tokens, s.carried.recent, h.r))
    requires NUM_CHARS < |CodesBy(b, s.carried, numMain).main| <= MAINCODE_MAX_NUM_SYMBOLS
    requires var all := s.tokens + TokensOf(b.coded, s.carried.recent);
      && OutputLength(s.tokens) < OutputLength(all) <= size
      && OutputLength(all) == OutputLength(s.tokens) + OutputLength(TokensOf(b.coded, s.carried.recent))
      && BlockGives(buf, CodesBy(b, s.carried, numMain), BlockState(s.tokens, s.carried.recent, h.r),
                    OutputLength(all), all, QueueAfterAll(b.coded, s.carried.recent), rest)
    ensures ReadGives(buf, s, numMain, order, size, s.tokens + TokensOf(b.coded, s.carried.recent),
                      CarriedAfter(b, s.carried, numMain), rest)
  {
    hide Ahead, HeaderRead, OutputLength, CarriedBy, BlockRun, CodedsOk, PlansOk, BlockSound, StreamSound;
    hide Expandable, Sound, LensUpTo, Nonzero, TokensOf, QueueAfterAll, CarriedSound, CodesOk;
    CarriedLengths(s.carried, numMain);
    assert CodesOf(h, numMain) == CodesBy(b, s.carried, numMain);
  }

  lemma StoredIsRead(buf: seq<byte>, s: Stream, b: Block, numMain: nat, order: nat, size: nat, rest: seq<Op>)
    requires StreamSound(buf, s, numMain) && BlockOk(b, s.carried, numMain, order) && b.Stored?
    requires OutputLength(s.tokens) < OutputLength(s.tokens + TokensBy(b, s.carried.recent)) <= size
    requires Ahead(buf, s.r, BlockOps(b, s.carried, numMain, order) + rest)
    ensures ReadGives(buf, s, numMain, order, size, s.tokens + TokensBy(b, s.carried.recent),
                      CarriedAfter(b, s.carried, numMain), rest)
  {
    hide Ahead, HeaderRead, OutputLength, StreamSound, CarriedSound, SizeOk, StoredOps, Expandable, Literals;
    LiteralsLength(b.bytes);
    LengthsAdd(s.tokens, Literals(b.bytes));
    StreamSoundIs(buf, s, numMain);
    StoredHeaderIsRead(buf, s.r, b, s.carried, numMain, order, rest);
    var h := HeaderRead(buf, s.carried, numMain, order, s.r).value;
    var pad := if |b.bytes| % 2 == 1 then [0] else [];
    var tail := [Raw(pad)] + rest;
    assert [Raw(b.bytes), Raw(pad)] + rest == [Raw(b.bytes)] + tail;
    BytesAreRead(buf, h.r, b.bytes, tail);
    var r1 := h.r.(next := h.r.next + |b.bytes|);
    BytesAreRead(buf, r1, pad, rest);
    assert r1.(next := r1.next + 0) == r1;
  }

  // ----- streams -----

  ghost predicate BlocksOk(blocks: seq<Block>, c: Carried, numMain: nat, order: nat)
    decreases |blocks|
  {
    blocks == []
    || (BlockOk(blocks[0], c, numMain, order)
        && BlocksOk(blocks[1..], CarriedAfter(blocks[0], c, numMain), numMain, order))
  }

  ghost function BlocksOps(blocks: seq<Block>, c: Carried, numMain: nat, order: nat): seq<Op>
    requires BlocksOk(blocks, c, numMain, order)
    decreases |blocks|
  {
    if blocks == [] then []
    else
      BlockOps(blocks[0], c, numMain, order)
      + BlocksOps(blocks[1..], CarriedAfter(blocks[0], c, numMain), numMain, order)
  }

  /** The recent offsets that a block leaves behind. */
  function RecentAfter(b: Block, q: Recent): Recent {
    if b.Stored? then b.recent else QueueAfterAll(b.coded, q)
  }

  function AllTokens(blocks: seq<Block>, q: Recent): seq<Token> {
    if blocks == [] then [] else TokensBy(blocks[0], q) + AllTokens(blocks[1..], RecentAfter(blocks[0], q))
  }

  ghost predicate RunGivesTokens(buf: seq<byte>, s: Stream, numMain: nat, order: nat, tokens: seq<Token>)
    requires StreamSound(buf, s, numMain) && OutputLength(s.tokens) <= OutputLength(tokens)
  {
    var run := StreamRun(buf, s, numMain, order, OutputLength(tokens));
    run.Some? && run.value.tokens == tokens
  }

  lemma {:induction false} BlocksAreRead(buf: seq<byte>, s: Stream, blocks: seq<Block>, numMain: nat, order: nat)
    requires StreamSound(buf, s, numMain) && BlocksOk(blocks, s.carried, numMain, order)
    requires Expandable(s.tokens + AllTokens(blocks, s.carried.recent))
    requires Ahead(buf, s.r, BlocksOps(blocks, s.carried, numMain, order))
    ensures OutputLength(s.tokens) <= OutputLength(s.tokens + AllTokens(blocks, s.carried.recent))
    ensures RunGivesTokens(buf, s, numMain, order, s.tokens + AllTokens(blocks, s.carried.recent))
    decreases |blocks|
  {
    hide *;
    var q := s.carried.recent;
    ExpandableFront(s.tokens, AllTokens(blocks, q));
    if blocks == [] {
      NoBlocks(buf, s, numMain, order);
    } else {
      var b, more := blocks[0], blocks[1..];
      BlocksParts(blocks, s.carried, numMain, order, s.tokens);
      var tokens, c := s.tokens + TokensBy(b, q), CarriedAfter(b, s.carried, numMain);
      var all := tokens + AllTokens(more, c.recent);
      ExpandableFront(tokens, AllTokens(more, c.recent));
      BlockAdds(b, s.carried, numMain, order, s.tokens);
      var rest := BlocksOps(more, c, numMain, order);
      if b.Compressed? {
        CompressedIsRead(buf, s, b, numMain, order, OutputLength(all), rest);
      } else {
        StoredIsRead(buf, s, b, numMain, order, OutputLength(all), rest);
      }
      var next := GivenNext(buf, s, numMain, order, OutputLength(all), tokens, c, rest);
      BlocksAreRead(buf, next, more, numMain, order);
      StreamGoesOn(buf, s, next, numMain, order, all);
    }
  }

  lemma NoBlocks(buf: seq<byte>, s: Stream, numMain: nat, order: nat)
    requires StreamSound(buf, s, numMain)
    ensures s.tokens + AllTokens([], s.carried.recent) == s.tokens
    ensures RunGivesTokens(buf, s, numMain, order, s.tokens)
  {
    hide StreamSound, OutputLength;
  }

  lemma BlocksParts(blocks: seq<Block>, c: Carried, numMain: nat, order: nat, before: seq<Token>)
    requires BlocksOk(blocks, c, numMain, order) && blocks != []
    ensures BlockOk(blocks[0], c, numMain, order) && (blocks[0].Compressed? ==> PlansOk(blocks[0], c, numMain))
    ensures BlocksOk(blocks[1..], CarriedAfter(blocks[0], c, numMain), numMain, order)
    ensures BlocksOps(blocks, c, numMain, order) == BlockOps(blocks[0], c, numMain, order)
        + BlocksOps(blocks[1..], CarriedAfter(blocks[0], c, numMain), numMain, order)
    ensures before + AllTokens(blocks, c.recent) == before + TokensBy(blocks[0], c.recent)
        + AllTokens(blocks[1..], CarriedAfter(blocks[0], c, numMain).recent)
  {
    var b := blocks[0];
    assert BlockOk(b, c, numMain, order) && (b.Compressed? ==> PlansOk(b, c, numMain));
    AfterIs(b, c, numMain);
    hide BlockOps, BlockOk, TokensBy, CarriedAfter, PlansOk, RecentAfter;
    var more := AllTokens(blocks[1..], RecentAfter(b, c.recent));
    assert before + (TokensBy(b, c.recent) + more) == before + TokensBy(b, c.recent) + more;
  }

  lemma AfterIs(b: Block, c: Carried, numMain: nat)
    requires b.Compressed? ==> PlansOk(b, c, numMain)
    ensures CarriedAfter(b, c, numMain).recent == RecentAfter(b, c.recent)
  {
    hide CarriedBy, PlansOk, QueueAfterAll;
  }

  lemma BlockAdds(b: Block, c: Carried, numMain: nat, order: nat, before: seq<Token>)
    requires BlockOk(b, c, numMain, order)
    ensures OutputLength(before) < OutputLength(before + TokensBy(b, c.recent))
  {
    hide OutputLength, TokensBy, CompressedOk, StoredOk, CarriedSound;
    LengthsAdd(before, TokensBy(b, c.recent));
  }

  lemma GivenNext(buf: seq<byte>, s: Stream, numMain: nat, order: nat, size: nat, tokens: seq<Token>, c: Carried,
                  rest: seq<Op>)
    returns (next: Stream)
    requires StreamSound(buf, s, numMain) && OutputLength(s.tokens) < size
    requires ReadGives(buf, s, numMain, order, size, tokens, c, rest)
    ensures BlockRead(buf, s, numMain, order, size) == Some(next) && StreamSound(buf, next, numMain)
    ensures next.tokens == tokens && next.carried == c && Ahead(buf, next.r, rest)
  {
    hide StreamSound, BlockRead, Ahead, OutputLength;
    next := BlockRead(buf, s, numMain, order, size).value;
  }

  lemma StreamGoesOn(buf: seq<byte>, s: Stream, next: Stream, numMain: nat, order: nat, all: seq<Token>)
    requires StreamSound(buf, s, numMain) && OutputLength(s.tokens) < OutputLength(all)
    requires BlockRead(buf, s, numMain, order, OutputLength(all)) == Some(next) && StreamSound(buf, next, numMain)
    requires OutputLength(next.tokens) <= OutputLength(all) && RunGivesTokens(buf, next, numMain, order, all)
    ensures RunGivesTokens(buf, s, numMain, order, all)
  {
    hide StreamSound, BlockRead, OutputLength;
  }

  lemma StoredOpsOk(b: Block, order: nat)
    requires StoredOk(b) && SizeOk(b.standard, |b.bytes|, order)
    ensures AllOk(StoredOps(b, order))
  {
    HeadOpsOk(3, b.standard, |b.bytes|, order);
    hide TypeOps, SizeOps, WordBytes;
  }

  lemma BlockOpsOk(b: Block, c: Carried, numMain: nat, order: nat)
    requires BlockOk(b, c, numMain, order)
    ensures AllOk(BlockOps(b, c, numMain, order))
  {
    if b.Compressed? {
      hide CompressedOps, CompressedOk, OpOk, OutputLength;
      assert AllFits(b.coded) by {
        CodedFit(b, c, numMain);
      }
      CompressedOpsOk(b, c, numMain, order);
    } else {
      hide StoredOps, OpOk, CarriedSound, Literals;
      LiteralsLength(b.bytes);
      StoredOpsOk(b, order);
    }
  }

  lemma CodedFit(b: Block, c: Carried, numMain: nat)
    requires CompressedOk(b, c, numMain)
    ensures AllFits(b.coded)
  {
  }

  lemma {:induction false} BlocksOpsOk(blocks: seq<Block>, c: Carried, numMain: nat, order: nat)
    requires BlocksOk(blocks, c, numMain, order)
    ensures AllOk(BlocksOps(blocks, c, numMain, order))
    decreases |blocks|
  {
    hide BlockOps, BlockOk, OpOk, CarriedAfter;
    if blocks != [] {
      BlocksParts(blocks, c, numMain, order, []);
      BlockOpsOk(blocks[0], c, numMain, order);
      BlocksOpsOk(blocks[1..], CarriedAfter(blocks[0], c, numMain), numMain, order);
    }
  }

  ghost function Encode(blocks: seq<Block>, numMain: nat, order: nat): seq<byte>
    requires BlocksOk(blocks, LzxDecompress.FirstCarried(), numMain, order)
  {
    BlocksOpsOk(blocks, LzxDecompress.FirstCarried(), numMain, order);
    Written(BlocksOps(blocks, LzxDecompress.FirstCarried(), numMain, order))
  }

  /** What is written for any blocks is read as their tokens. */
  lemma StreamInvertsEncode(blocks: seq<Block>, numMain: nat, order: nat)
    requires MainSyms(numMain) && BlocksOk(blocks, LzxDecompress.FirstCarried(), numMain, order)
    requires Expandable(AllTokens(blocks, Recent(1, 1, 1)))
    ensures var c, tokens := LzxDecompress.FirstCarried(), AllTokens(blocks, Recent(1, 1, 1));
      && StreamSound(Encode(blocks, numMain, order), Stream([], c, Reader(0, 0, 0), false), numMain)
      && var run := StreamRun(Encode(blocks, numMain, order), Stream([], c, Reader(0, 0, 0), false), numMain, order,
                              OutputLength(tokens));
         run.Some? && run.value.tokens == tokens
  {
    var c := LzxDecompress.FirstCarried();
    assert c.recent == Recent(1, 1, 1);
    hide LzxDecompress.FirstCarried, Ahead, Written, BlocksOps, BlocksOk, StreamRun, AllTokens, Expandable, MainSyms;
    hide StreamSound;
    var tokens, buf := AllTokens(blocks, c.recent), Encode(blocks, numMain, order);
    BlocksOpsOk(blocks, c, numMain, order);
    LzxDecompress.FirstIsSound(buf, numMain);
    AheadFirst(BlocksOps(blocks, c, numMain, order));
    assert [] + tokens == tokens;
    BlocksAreRead(buf, Stream([], c, Reader(0, 0, 0), false), blocks, numMain, order);
  }

  /** Data comes back as it was, when the blocks stand for it with its call targets translated. */
  lemma DecodeInvertsEncode(data: seq<byte>, blocks: seq<Block>, numMain: nat, order: nat)
    requires MainSyms(numMain) && BlocksOk(blocks, LzxDecompress.FirstCarried(), numMain, order)
    requires |data| <= MAX_WINDOW_SIZE && Expandable(AllTokens(blocks, Recent(1, 1, 1)))
    requires Expand(AllTokens(blocks, Recent(1, 1, 1))) == E8Filter.Scan(E8Filter.Translate, data, 0)
    ensures CarriedSound(LzxDecompress.FirstCarried(), numMain)
    ensures LzxDecompress.Decompressed(Encode(blocks, numMain, order), LzxDecompress.FirstCarried(), numMain, order,
                                       |data|)
         == Some(data)
  {
    hide StreamRun, AllTokens, BlocksOk, Encode, E8Filter.Scan, LzxDecompress.FirstCarried;
    StreamInvertsEncode(blocks, numMain, order);
    LzxDecompress.FirstIsSound([], numMain);
    E8Filter.ScanInverse(E8Filter.Translate, data, 0);
  }

  /** Any data that fits one block can be written, as it is. */
  lemma AnyDataIsWritable(bytes: seq<byte>, numMain: nat)
    requires MainSyms(numMain) && 0 < |bytes| < 0x1_0000
    ensures var blocks := [Stored(false, Recent(1, 1, 1), bytes)];
      && BlocksOk(blocks, LzxDecompress.FirstCarried(), numMain, 15)
      && Expandable(AllTokens(blocks, Recent(1, 1, 1))) && Expand(AllTokens(blocks, Recent(1, 1, 1))) == bytes
  {
    var b, c := Stored(false, Recent(1, 1, 1), bytes), LzxDecompress.FirstCarried();
    LzxDecompress.FirstIsSound([], numMain);
    StoredIsOk(b, c, numMain);
    hide *;
    OneBlock(b, c, numMain);
    OneBlocksTokens(b);
  }

  lemma StoredIsOk(b: Block, c: Carried, numMain: nat)
    requires StoredOk(b) && !b.standard && 0 < |b.bytes| < 0x1_0000 && CarriedSound(c, numMain)
    ensures BlockOk(b, c, numMain, 15)
  {
    hide CarriedSound, Literals, OutputLength;
    LiteralsLength(b.bytes);
  }

  lemma OneBlock(b: Block, c: Carried, numMain: nat)
    requires BlockOk(b, c, numMain, 15) && b.Stored?
    ensures BlocksOk([b], c, numMain, 15)
  {
    hide BlockOk, CarriedAfter;
    assert [b][1..] == [];
  }

  lemma OneBlocksTokens(b: Block)
    requires b.Stored?
    ensures Expandable(AllTokens([b], Recent(1, 1, 1))) && Expand(AllTokens([b], Recent(1, 1, 1))) == b.bytes
  {
    hide Literals, Expand, Expandable;
    assert [b][1..] == [] && AllTokens([b], Recent(1, 1, 1)) == Literals(b.bytes) + [] == [] + Literals(b.bytes);
    NothingExpands();
    ExpandLiterals([], b.bytes);
  }

  lemma NothingExpands()
    ensures Expandable([]) && Expand([]) == []
  {
  }
}
