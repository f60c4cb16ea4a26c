/**
 * Whole LZNT1 streams: chunks written one after the other, raw or as tokens, and what decompressing them gives.
 */
module Lznt1Stream {
  import opened Bitstream
  import opened LzCopy
  import opened Lznt1

  datatype Written = Raw(data: seq<byte>) | Coded(tokens: seq<Token>)

  // A chunk holds 1 to 4096 bytes of data.
  ghost predicate Writable(c: Written) {
    match c
    case Raw(data) => 1 <= |data| <= 4096
    case Coded(tokens) => AllEncodable(tokens, 0) && 1 <= |Encode(tokens, 0)| <= 4096
  }

  ghost function DataOf(c: Written): (d: seq<byte>)
    requires Writable(c)
    ensures 1 <= |d| <= 4096
  {
    match c
    case Raw(data) => data
    case Coded(tokens) => Encode(tokens, 0)
  }

  // Two bytes of header: the data's length less one, the signature 3, and the top bit for tokens.
  ghost function Bytes(c: Written): (b: seq<byte>)
    requires Writable(c)
  {
    var n := |DataOf(c)| - 1;
    [n % 256, n / 256 + if c.Coded? then 0xB0 else 0x30] + DataOf(c)
  }

  // What the chunk stands for.
  ghost function Contents(c: Written): seq<byte>
    requires Writable(c)
  {
    match c
    case Raw(data) => data
    case Coded(tokens) => DecodeInvertsEncode(tokens); Expand(tokens)
  }

  ghost predicate AllWritable(cs: seq<Written>) {
    forall i :: 0 <= i < |cs| ==> Writable(cs[i])
  }

  // The chunks, and two zero bytes.
  ghost function Stream(cs: seq<Written>): seq<byte>
    requires AllWritable(cs)
  {
    if cs == [] then [0, 0] else Bytes(cs[0]) + Stream(cs[1..])
  }

  ghost function AllContents(cs: seq<Written>): seq<byte>
    requires AllWritable(cs)
  {
    if cs == [] then [] else Contents(cs[0]) + AllContents(cs[1..])
  }

  // Cut off at `size` bytes, or filled with zeros.
  function Fitted(s: seq<byte>, size: nat): seq<byte> {
    seq(size, i requires 0 <= i < size => if i < |s| then s[i] else 0)
  }

  lemma HeaderIsRead(c: Written, rest: seq<byte>)
    requires Writable(c)
    ensures var comp, h := Bytes(c) + rest, HeaderOf(Word(Bytes(c) + rest));
      && 2 <= |comp| && Word(comp) != 0 && h == Header(c.Coded?, 3, |DataOf(c)|)
      && comp[2..][..h.len] == DataOf(c) && comp[2..][h.len..] == rest && h.len <= |comp[2..]|
  {
    hide DataOf, Writable;
    var n, comp := |DataOf(c)| - 1, Bytes(c) + rest;
    var top := if c.Coded? then 0xB0 else 0x30;
    assert comp[0] == n % 256 && comp[1] == n / 256 + top;
    assert comp[2..] == DataOf(c) + rest;
    WordParts(n, top);
  }

  lemma WordParts(n: nat, top: nat)
    requires n < 4096 && (top == 0x30 || top == 0xB0)
    ensures var w := n % 256 + 256 * (n / 256 + top);
      w / 0x8000 % 2 == (if top == 0xB0 then 1 else 0) && w / 0x1000 % 8 == 3 && w % 0x1000 == n
  {
    var w := n % 256 + 256 * (n / 256 + top);
    assert w == n + 256 * top;
  }

  lemma PieceIs(c: Written)
    requires Writable(c)
    ensures Piece(Header(c.Coded?, 3, |DataOf(c)|), DataOf(c)) == Out(Contents(c))
  {
    if c.Coded? {
      DecodeInvertsEncode(c.tokens);
    }
  }

  lemma NextIsRead(c: Written, rest: seq<byte>)
    requires Writable(c)
    ensures 2 <= |Bytes(c) + rest| && Word(Bytes(c) + rest) != 0
    ensures Next(Bytes(c) + rest) == Taken(Contents(c), rest)
  {
    hide Bytes, Word, HeaderOf, Piece, Contents, Writable, DataOf;
    HeaderIsRead(c, rest);
    PieceIs(c);
  }

  lemma {:induction false} ChunksAreRead(cs: seq<Written>, out: seq<byte>, size: nat)
    requires AllWritable(cs) && |out| <= size
    ensures Chunks(Stream(cs), out, size) == Done(Fitted(out + AllContents(cs), size))
    decreases |cs|
  {
    hide Bytes, Contents, Next, Writable;
    if cs == [] {
      assert out + Zeros(size - |out|) == Fitted(out + AllContents(cs), size);
    } else {
      NextIsRead(cs[0], Stream(cs[1..]));
      var now := out + Contents(cs[0]);
      assert now + AllContents(cs[1..]) == out + AllContents(cs);
      if size <= |now| {
        assert now[..size] == Fitted(out + AllContents(cs), size);
      } else {
        ChunksAreRead(cs[1..], now, size);
      }
    }
  }

  // Whatever chunks were written, decompressing gives what they stand for, cut off or filled with zeros.
  method DecompressWritten(comp: seq<byte>, size: nat, ghost cs: seq<Written>) returns (r: Outcome)
    requires AllWritable(cs) && comp == Stream(cs)
    ensures r == Done(Fitted(AllContents(cs), size))
  {
    ChunksAreRead(cs, [], size);
    assert [] + AllContents(cs) == AllContents(cs);
    r := Decompress(comp, size);
  }
}
