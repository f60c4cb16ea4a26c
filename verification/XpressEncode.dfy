/**
 Writing the XPRESS format, and the round trip: what is written for a list of tokens is decoded as those tokens.
 */
module XpressEncode {
  import opened Options
  import opened Shifts
  import opened Bitstream
  import opened BitWriter
  import opened CanonicalCode
  import opened HuffmanTable
  import opened LzCopy
  import HuffmanDecode
  import Xpress

  /** The place of the highest bit. */
  function Log2(x: nat): nat
    requires 1 <= x
  {
    if x == 1 then 0 else 1 + Log2(x / 2)
  }

  lemma {:induction false} Log2Is(x: nat)
    requires 1 <= x
    ensures Pow2(Log2(x)) <= x < 2 * Pow2(Log2(x))
  {
    if 1 < x {
      Log2Is(x / 2);
    }
  }

  lemma OffsetFits(offset: nat)
    requires 1 <= offset < 0x1_0000
    ensures Log2(offset) < 16 && Pow2(Log2(offset)) <= offset < 2 * Pow2(Log2(offset))
  {
    Log2Is(offset);
    Pow2Literals();
    if 16 <= Log2(offset) {
      Pow2Monotone(16, Log2(offset));
    }
  }

  /** A literal is its own symbol; a match's names the size of its offset, and its length up to 17. */
  function SymbolFor(t: Token): (s: nat)
    requires t.Match? ==> 1 <= t.offset && 3 <= t.length
  {
    match t
    case Literal(b) => b
    case Match(length, offset) => 256 + 16 * Log2(offset) + if length < 18 then length - 3 else 15
  }

  /** What a match's symbol does not say of its length. */
  function LengthBytes(length: nat): seq<byte>
    requires 3 <= length < 0x1_0003
  {
    if length < 18 then []
    else if length < 273 then [length - 18]
    else [255, (length - 3) % 256, (length - 3) / 256]
  }

  /** The token can be written with this code. */
  predicate Writable(lens: Lens, t: Token) {
    && (t.Match? ==> 1 <= t.offset < 0x1_0000 && 3 <= t.length < 0x1_0003)
    && SymbolFor(t) < |lens| && 0 < lens[SymbolFor(t)]
  }

  predicate AllWritable(lens: Lens, tokens: seq<Token>) {
    forall t :: t in tokens ==> Writable(lens, t)
  }

  /** What follows a match's symbol: the offset without its highest bit, and more of the length. */
  function MatchTail(t: Token): seq<Op>
    requires t.Match? && 1 <= t.offset && 3 <= t.length < 0x1_0003
  {
    var k := Log2(t.offset);
    Log2Is(t.offset);
    [Field(16, k, t.offset - Pow2(k)), Raw(LengthBytes(t.length))]
  }

  function TokenOps(lens: Lens, t: Token): seq<Op>
    requires Writable(lens, t)
  {
    [SymOp(lens, 15, SymbolFor(t))] + if t.Literal? then [] else MatchTail(t)
  }

  function TokensOps(lens: Lens, tokens: seq<Token>): seq<Op>
    requires AllWritable(lens, tokens)
  {
    if tokens == [] then [] else TokenOps(lens, tokens[0]) + TokensOps(lens, tokens[1..])
  }

  lemma TokenOpsOk(lens: Lens, t: Token)
    requires Complete(lens, 15) && Writable(lens, t)
    ensures AllOk(TokenOps(lens, t))
  {
    SymOpOk(lens, 15, SymbolFor(t));
    if t.Match? {
      OffsetFits(t.offset);
    }
  }

  lemma {:induction false} TokensOpsOk(lens: Lens, tokens: seq<Token>)
    requires Complete(lens, 15) && AllWritable(lens, tokens)
    ensures AllOk(TokensOps(lens, tokens))
    decreases |tokens|
  {
    hide TokenOps, OpOk, Writable;
    if tokens != [] {
      assert tokens[0] in tokens;
      TokenOpsOk(lens, tokens[0]);
      TokensOpsOk(lens, tokens[1..]);
    }
  }

  /** Two lengths a byte. */
  function PackLens(lens: Lens): (bytes: seq<byte>)
    requires |lens| == 512 && forall i :: 0 <= i < 512 ==> lens[i] <= 15
    ensures |bytes| == 256
  {
    seq(256, i requires 0 <= i < 256 => lens[2 * i] + 16 * lens[2 * i + 1])
  }

  lemma LensAreRead(lens: Lens, rest: seq<byte>)
    requires |lens| == 512 && forall i :: 0 <= i < 512 ==> lens[i] <= 15
    ensures Xpress.LensOf(PackLens(lens) + rest) == lens
  {
    var input := PackLens(lens) + rest;
    forall i | 0 <= i < 512
      ensures Xpress.LensOf(input)[i] == lens[i]
    {
      var b: nat := input[i / 2];
      assert b == lens[2 * (i / 2)] + 16 * lens[2 * (i / 2) + 1];
    }
  }

  function Encode(lens: Lens, tokens: seq<Token>): (bytes: seq<byte>)
    requires |lens| == 512 && (forall i :: 0 <= i < 512 ==> lens[i] <= 15) && AllWritable(lens, tokens)
    requires AllOk(TokensOps(lens, tokens))
  {
    PackLens(lens) + Written(TokensOps(lens, tokens))
  }

  lemma LengthIsRead(buf: seq<byte>, r: Reader, length: nat, sym: nat, rest: seq<Op>)
    requires 3 <= length < 0x1_0003 && sym % 16 == (if length < 18 then length - 3 else 15)
    requires Ahead(buf, r, [Raw(LengthBytes(length))] + rest)
    ensures var (l, r') := Xpress.MatchLength(buf, r, sym); l == length && Ahead(buf, r', rest)
  {
    hide Ahead;
    var bytes := LengthBytes(length);
    BytesAreRead(buf, r, bytes, rest);
    forall i | 0 <= i < |bytes|
      ensures buf[r.next + i] == bytes[i]
    {
      assert buf[r.next..r.next + |bytes|][i] == bytes[i];
    }
    assert length >= 18 ==> buf[r.next] == bytes[0];
    assert length >= 273 ==> buf[r.next + 1] == bytes[1] && buf[r.next + 2] == bytes[2];
    assert r.(next := r.next + 0) == r;
  }

  lemma TokenIsRead(buf: seq<byte>, r: Reader, lens: Lens, t: Token, rest: seq<Op>)
    requires |lens| == 512 && Complete(lens, 15) && Writable(lens, t)
    requires Ahead(buf, r, TokenOps(lens, t) + rest)
    ensures Sound(buf, r)
    ensures var (t', r') := Xpress.NextToken(buf, r, lens); t' == t && Ahead(buf, r', rest)
  {
    hide Ahead, Complete, SymOp, Writable, HuffmanDecode.SymRead;
    AheadIsSound(buf, r, TokenOps(lens, t) + rest);
    WritableIs(lens, t);
    var s := SymbolFor(t);
    if t.Literal? {
      assert TokenOps(lens, t) == [SymOp(lens, 15, s)];
      SymIsRead(buf, r, lens, 15, s, rest);
    } else {
      hide Log2, Pow2, Xpress.MatchLength, LengthBytes;
      Log2Is(t.offset);
      var tail := MatchTail(t) + rest;
      assert TokenOps(lens, t) + rest == [SymOp(lens, 15, s)] + tail;
      SymIsRead(buf, r, lens, 15, s, tail);
      MatchIsRead(buf, HuffmanDecode.SymRead(buf, r, lens, 15).1, t, rest);
    }
  }

  lemma WritableIs(lens: Lens, t: Token)
    requires Writable(lens, t)
    ensures t.Match? ==> 1 <= t.offset < 0x1_0000 && 3 <= t.length < 0x1_0003
    ensures SymbolFor(t) < |lens| && 0 < lens[SymbolFor(t)]
  {
  }

  lemma MatchIsRead(buf: seq<byte>, r: Reader, t: Token, rest: seq<Op>)
    requires t.Match? && 1 <= t.offset < 0x1_0000 && 3 <= t.length < 0x1_0003
    requires Pow2(Log2(t.offset)) <= t.offset && Ahead(buf, r, MatchTail(t) + rest)
    ensures Sound(buf, r) && SymbolFor(t) >= 256
    ensures var k, e := SymbolFor(t) / 16 % 16, Ensured(buf, r, 16);
      && k <= e.have && Pow2(k) + Peeked(e, k) == t.offset
      && var (l, r') := Xpress.MatchLength(buf, Dropped(e, k), SymbolFor(t));
         l == t.length && Ahead(buf, r', rest)
  {
    hide Ahead, Log2, Pow2, Xpress.MatchLength, LengthBytes, Peeked, Dropped, Ensured;
    OffsetFits(t.offset);
    var k := Log2(t.offset);
    var field, tail := Field(16, k, t.offset - Pow2(k)), [Raw(LengthBytes(t.length))] + rest;
    assert MatchTail(t) + rest == [field] + tail;
    AheadIsSound(buf, r, [field] + tail);
    FieldIsRead(buf, r, 16, k, t.offset - Pow2(k), tail);
    assert SymbolFor(t) / 16 % 16 == k;
    LengthIsRead(buf, Dropped(Ensured(buf, r, 16), k), t.length, SymbolFor(t), rest);
  }

  lemma {:induction false} TokensAreRead(buf: seq<byte>, r: Reader, lens: Lens, tokens: seq<Token>, i: nat)
    requires |lens| == 512 && Complete(lens, 15) && AllWritable(lens, tokens) && Expandable(tokens) && i <= |tokens|
    requires Ahead(buf, r, TokensOps(lens, tokens[i..]))
    ensures Sound(buf, r) && OutputLength(tokens[..i]) <= OutputLength(tokens)
    ensures Xpress.Tokens(buf, r, lens, OutputLength(tokens[..i]), OutputLength(tokens)) == Some(tokens[i..])
    decreases |tokens| - i
  {
    hide Ahead, Complete, TokenOps, Xpress.NextToken, Writable;
    AheadIsSound(buf, r, TokensOps(lens, tokens[i..]));
    if i < |tokens| {
      var t := tokens[i];
      assert t in tokens && tokens[i..][0] == t && tokens[i..][1..] == tokens[i + 1..];
      TokenIsRead(buf, r, lens, t, TokensOps(lens, tokens[i + 1..]));
      TokensAreRead(buf, Xpress.NextToken(buf, r, lens).1, lens, tokens, i + 1);
      ExpandableAt(tokens, i);
      WritableLength(lens, t);
      assert tokens[i..] == [t] + tokens[i + 1..];
    } else {
      assert tokens[..i] == tokens;
    }
  }

  lemma WritableLength(lens: Lens, t: Token)
    requires Writable(lens, t)
    ensures 1 <= TokenLength(t)
  {
  }

  /** What is written for a complete code and any tokens it can write is decoded as those tokens. */
  lemma DecodeInvertsEncode(lens: Lens, tokens: seq<Token>)
    requires |lens| == 512 && Complete(lens, 15) && AllWritable(lens, tokens) && Expandable(tokens)
    ensures (forall i :: 0 <= i < 512 ==> lens[i] <= 15) && AllOk(TokensOps(lens, tokens))
    ensures Xpress.Decode(Encode(lens, tokens), OutputLength(tokens)) == Some(tokens)
  {
    hide Ahead, TokensOps, Xpress.Tokens, Xpress.LensOf, PackLens, Written;
    CompleteIsBounded(lens);
    TokensOpsOk(lens, tokens);
    var body := Written(TokensOps(lens, tokens));
    LensAreRead(lens, body);
    assert Encode(lens, tokens)[256..] == body;
    AheadFirst(TokensOps(lens, tokens));
    assert tokens[0..] == tokens && tokens[..0] == [];
    TokensAreRead(body, Reader(0, 0, 0), lens, tokens, 0);
  }

  lemma CompleteIsBounded(lens: Lens)
    requires Complete(lens, 15)
    ensures forall i :: 0 <= i < |lens| ==> lens[i] <= 15
  {
  }

  /** The decompressor, given what was written: the output is what the tokens expand to. */
  method DecompressEncoded(lens: Lens, tokens: seq<Token>, out: array<byte>, sse2: bool, wordLog: nat, w: nat,
                           fast: bool)
    requires |lens| == 512 && Complete(lens, 15) && AllWritable(lens, tokens) && Expandable(tokens)
    requires out.Length == OutputLength(tokens) && wordLog <= 2 && w >= 1
    modifies out
    ensures out[..] == Expand(tokens)
  {
    DecodeInvertsEncode(lens, tokens);
    var ok := Xpress.Decompress(Encode(lens, tokens), out, sse2, wordLog, w, fast);
  }
}
