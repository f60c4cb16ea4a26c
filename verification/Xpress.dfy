/**
 The XPRESS decompressor, against a reading of the format that knows nothing of decode tables or
 machine words: canonical codewords taken from the bitstream, and bytewise expansion of the tokens.
 */
module Xpress {
  import opened Options
  import opened Shifts
  import opened Bitstream
  import opened CanonicalCode
  import opened HuffmanTable
  import opened HuffmanDecode
  import opened LzCopy

  const NUM_CHARS: nat := 256
  const NUM_SYMBOLS: nat := 512
  const MAX_CODEWORD_LEN: nat := 15
  const MIN_MATCH_LEN: nat := 3
  const TABLEBITS: nat := 11

  /** Two four-bit lengths a byte, low half first. */
  function LensOf(input: seq<byte>): (lens: Lens)
    requires |input| >= 256
    ensures |lens| == NUM_SYMBOLS && forall i | 0 <= i < NUM_SYMBOLS :: lens[i] <= MAX_CODEWORD_LEN
  {
    seq(NUM_SYMBOLS, i requires 0 <= i < NUM_SYMBOLS =>
      var b: nat := input[i / 2];
      if i % 2 == 0 then b % 16 else b / 16)
  }

  /** The length that follows a match header of `sym`: a nibble, a byte, or a 16-bit unit. */
  function MatchLength(buf: seq<byte>, r: Reader, sym: nat): (nat, Reader) {
    var low := sym % 16;
    if low < 15 then (low + MIN_MATCH_LEN, r)
    else
      var (b, r1) := ByteRead(buf, r);
      if b < 255 then (15 + b + MIN_MATCH_LEN, r1)
      else
        var (u, r2) := U16Read(buf, r1);
        (u + MIN_MATCH_LEN, r2)
  }

  /** The next token of the stream, and the reader after it. */
  ghost function NextToken(buf: seq<byte>, r: Reader, lens: Lens): (result: (Token, Reader))
    requires Sound(buf, r) && |lens| == NUM_SYMBOLS
    ensures Sound(buf, result.1)
    ensures result.0.Match? ==> result.0.offset >= 1 && result.0.length >= MIN_MATCH_LEN
  {
    var (sym, r1) := SymRead(buf, r, lens, MAX_CODEWORD_LEN);
    SymReadSound(buf, r, lens, MAX_CODEWORD_LEN);
    if sym < NUM_CHARS then (Literal(sym), r1)
    else
      var log2 := sym / 16 % 16;
      EnsuredSound(buf, r1, 16);
      var e := Ensured(buf, r1, 16);
      var offset := Pow2(log2) + Peeked(e, log2);
      DroppedSound(buf, e, log2);
      var (length, r2) := MatchLength(buf, Dropped(e, log2), sym);
      (Match(length, offset), r2)
  }

  /** The tokens of `size` bytes of output, if every match stays inside the output. */
  ghost function Tokens(buf: seq<byte>, r: Reader, lens: Lens, produced: nat, size: nat): Option<seq<Token>>
    requires Sound(buf, r) && |lens| == NUM_SYMBOLS && produced <= size
    decreases size - produced
  {
    if produced == size then Some([])
    else
      var (t, r1) := NextToken(buf, r, lens);
      if t.Match? && (t.offset > produced || t.length > size - produced) then None
      else
        var rest := Tokens(buf, r1, lens, produced + TokenLength(t), size);
        if rest.None? then None else Some([t] + rest.value)
  }

  /** The tokens of a compressed buffer, if it has a valid code and valid matches. */
  ghost function Decode(input: seq<byte>, size: nat): Option<seq<Token>> {
    if |input| < NUM_SYMBOLS / 2 then None
    else
      var lens := LensOf(input);
      if !Complete(lens, MAX_CODEWORD_LEN) && !Empty(lens) then None
      else Tokens(input[NUM_SYMBOLS / 2..], Reader(0, 0, 0), lens, 0, size)
  }

  method ReadLens(input: seq<byte>) returns (lens: array<nat>)
    requires |input| >= NUM_SYMBOLS / 2
    ensures fresh(lens) && lens[..] == LensOf(input)
  {
    lens := new nat[NUM_SYMBOLS](_ => 0);
    for i := 0 to NUM_SYMBOLS / 2
      invariant forall k | 0 <= k < 2 * i :: lens[k] == LensOf(input)[k]
    {
      var b: nat := input[i];
      lens[2 * i] := b % 16;
      lens[2 * i + 1] := b / 16;
    }
  }

  /** Reads one token, with the decode table. */
  method ReadToken(stream: InputBitstream, table: array<nat>, ghost lens: Lens) returns (t: Token)
    requires stream.Valid() && |lens| == NUM_SYMBOLS
    requires TableFor(table[..], lens, TABLEBITS, MAX_CODEWORD_LEN)
    modifies stream
    ensures stream.Valid() && (t, stream.State()) == NextToken(stream.buf, old(stream.State()), lens)
  {
    hide Shl, Shr, Low, SymRead, Ensured, TableFor, Justified, Peeked, Dropped, MatchLength;
    SymReadSound(stream.buf, stream.State(), lens, MAX_CODEWORD_LEN);
    var sym := ReadHuffsym(stream, table, TABLEBITS, MAX_CODEWORD_LEN, lens);
    if sym < NUM_CHARS {
      return Literal(sym);
    }
    var log2 := sym / 16 % 16;
    stream.EnsureBits(16);
    var low := stream.PopBits(log2);
    // the popped bits lie below bit `log2`, so the bitwise OR is a sum
    var offset := Pow2(log2) + low;
    var length := ReadMatchLength(stream, sym);
    t := Match(length, offset);
  }

  method ReadMatchLength(stream: InputBitstream, sym: nat) returns (length: nat)
    requires stream.Valid()
    modifies stream`next
    ensures stream.Valid() && (length, stream.State()) == MatchLength(stream.buf, old(stream.State()), sym)
  {
    length := sym % 16;
    if length == 0xf {
      var b: nat := stream.ReadByte();
      length := length + b;
      if length == 0xf + 0xff {
        length := stream.ReadU16();
      }
    }
    length := length + MIN_MATCH_LEN;
  }

  /** Appending the token just decoded keeps the whole decoding of the stream the same. */
  lemma TokensStep(buf: seq<byte>, r: Reader, lens: Lens, produced: nat, size: nat,
                   done: seq<Token>, all: Option<seq<Token>>)
    requires Sound(buf, r) && |lens| == NUM_SYMBOLS && produced < size
    requires all == Joined(done, Tokens(buf, r, lens, produced, size))
    ensures var (t, r1) := NextToken(buf, r, lens);
            if t.Match? && (t.offset > produced || t.length > size - produced) then all.None?
            else all == Joined(done + [t], Tokens(buf, r1, lens, produced + TokenLength(t), size))
  {
    hide NextToken;
    var (t, r1) := NextToken(buf, r, lens);
    if !(t.Match? && (t.offset > produced || t.length > size - produced)) {
      var rest := Tokens(buf, r1, lens, produced + TokenLength(t), size);
      if rest.Some? { assert done + ([t] + rest.value) == done + [t] + rest.value; }
    }
  }

  ghost function Joined(done: seq<Token>, rest: Option<seq<Token>>): Option<seq<Token>> {
    if rest.None? then None else Some(done + rest.value)
  }

  /** Decompresses to fill `out`; `sse2`, `wordLog`, `w` and `fast` describe the machine. */
  method Decompress(input: seq<byte>, out: array<byte>, sse2: bool, wordLog: nat, w: nat, fast: bool)
    returns (ok: bool)
    requires wordLog <= 2 && w >= 1
    modifies out
    ensures ok <==> Decode(input, out.Length).Some?
    ensures ok ==> var tokens := Decode(input, out.Length).value;
                   Expandable(tokens) && out[..] == Expand(tokens)
  {
    if |input| < NUM_SYMBOLS / 2 {
      return false;
    }
    var lens := ReadLens(input);
    ghost var code := lens[..];
    var table := new nat[Pow2(TABLEBITS) + Pow2(MAX_CODEWORD_LEN)](_ => 0);
    CodeFits(code);
    var built := MakeDecodeTable(table, TABLEBITS, lens[..], MAX_CODEWORD_LEN, sse2, wordLog);
    if !built {
      return false;
    }
    var stream := new InputBitstream(input[NUM_SYMBOLS / 2..]);
    ok := Decode'(stream, table, out, w, fast, code);
  }

  lemma CodeFits(lens: Lens)
    requires |lens| == NUM_SYMBOLS && forall i | 0 <= i < NUM_SYMBOLS :: lens[i] <= MAX_CODEWORD_LEN
    ensures Dimensions(lens, TABLEBITS, MAX_CODEWORD_LEN)
    ensures EntriesNeeded(lens, TABLEBITS, MAX_CODEWORD_LEN) <= Pow2(TABLEBITS) + Pow2(MAX_CODEWORD_LEN)
  {
    Pow2Literals();
    EntriesBound(lens, TABLEBITS, MAX_CODEWORD_LEN);
  }

  /** How far decoding has come: the tokens read so far, and the whole decoding they begin. */
  ghost predicate Decoding(stream: InputBitstream, out: array<byte>, lens: Lens, next: nat,
                           done: seq<Token>, all: Option<seq<Token>>)
    reads stream, out
  {
    && stream.Valid() && |lens| == NUM_SYMBOLS && next <= out.Length
    && Expandable(done) && out[..next] == Expand(done)
    && all == Joined(done, Tokens(stream.buf, stream.State(), lens, next, out.Length))
  }

  /** Reads one token and appends what it stands for. */
  method DecodeToken(stream: InputBitstream, table: array<nat>, out: array<byte>, next0: nat, w: nat, fast: bool,
                     ghost lens: Lens, ghost done0: seq<Token>, ghost all: Option<seq<Token>>)
    returns (ok: bool, next: nat, ghost done: seq<Token>)
    requires Decoding(stream, out, lens, next0, done0, all) && next0 < out.Length && w >= 1
    requires TableFor(table[..], lens, TABLEBITS, MAX_CODEWORD_LEN) && table as object != out
    modifies stream, out
    ensures !ok ==> all.None?
    ensures ok ==> Decoding(stream, out, lens, next, done, all) && next > next0
  {
    hide NextToken, TableFor, Expand, Expandable, Tokens, Joined;
    TokensStep(stream.buf, stream.State(), lens, next0, out.Length, done0, all);
    var t := ReadToken(stream, table, lens);
    ok, next := Apply(out, next0, t, out.Length, MIN_MATCH_LEN, w, fast, done0);
    done := done0 + [t];
  }

  /** The decoding loop. */
  method Decode'(stream: InputBitstream, table: array<nat>, out: array<byte>, w: nat, fast: bool, ghost lens: Lens)
    returns (ok: bool)
    requires stream.Valid() && |lens| == NUM_SYMBOLS && w >= 1
    requires TableFor(table[..], lens, TABLEBITS, MAX_CODEWORD_LEN) && table as object != out
    modifies stream, out
    ensures ok <==> Tokens(stream.buf, old(stream.State()), lens, 0, out.Length).Some?
    ensures ok ==> var tokens := Tokens(stream.buf, old(stream.State()), lens, 0, out.Length).value;
                   Expandable(tokens) && out[..] == Expand(tokens)
  {
    var next: nat := 0;
    ghost var done: seq<Token> := [];
    ghost var all := Tokens(stream.buf, stream.State(), lens, 0, out.Length);
    assert all == Joined(done, all) by { assert all.Some? ==> done + all.value == all.value; }
    while next != out.Length
      invariant Decoding(stream, out, lens, next, done, all)
      invariant table[..] == old(table[..])
      decreases out.Length - next
    {
      ok, next, done := DecodeToken(stream, table, out, next, w, fast, lens, done, all);
      if !ok {
        return false;
      }
    }
    assert out[..] == out[..next];
    TokensEnd(stream.buf, stream.State(), lens, next, done);
    ok := true;
  }

  lemma TokensEnd(buf: seq<byte>, r: Reader, lens: Lens, size: nat, done: seq<Token>)
    requires Sound(buf, r) && |lens| == NUM_SYMBOLS
    ensures Joined(done, Tokens(buf, r, lens, size, size)) == Some(done)
  {
    assert done + [] == done;
  }
}
