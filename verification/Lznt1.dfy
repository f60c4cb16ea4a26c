/**
 * LZNT1 (section 2.5 of [MS-XCA]): the chunk decoder, an encoder of token lists that it undoes, and
 * the loop over chunks.
 */
module Lznt1 {
  import opened Shifts
  import opened Bitstream
  import opened LzCopy

  // Out, and what stops a chunk from being decoded: a match cut off by the end of the data, or one
  // that reaches outside what has been written, which the program does not check for.
  datatype Decoded = Out(s: seq<byte>) | Short | Undefined

  // How often the length field gives up a bit to the displacement field.
  function Excess(u: nat): nat {
    if u < 0x10 then 0 else 1 + Excess(u / 2)
  }

  // Bits of the length field when `size` bytes have been written.
  function LengthBits(size: nat): int {
    12 - Excess(size - 1 + if size == 0 then 1 else 0)
  }

  predicate Splits(size: nat) {
    0 < size && Excess(size - 1) <= 12
  }

  lemma {:induction false} ExcessIsLeast(u: nat)
    ensures u < Pow2(4 + Excess(u)) && (0 < Excess(u) ==> Pow2(3 + Excess(u)) <= u)
    decreases u
  {
    Pow2Literals();
    if 0x10 <= u {
      ExcessIsLeast(u / 2);
    }
  }

  lemma ExcessOfChunk(u: nat)
    requires u < 4096
    ensures Excess(u) <= 8
  {
    ExcessIsLeast(u);
    Pow2Literals();
    if 8 < Excess(u) {
      Pow2Monotone(12, 3 + Excess(u));
    }
  }

  // For every size up to that of a chunk, the displacement field is the smallest, of at least
  // four bits, that reaches back over everything written.
  lemma SplitIsLeast(size: nat)
    requires 1 <= size <= 4096
    ensures Splits(size) && 4 <= LengthBits(size) <= 12
    ensures size <= Pow2((16 - LengthBits(size)) as nat)
    ensures LengthBits(size) < 12 ==> Pow2((15 - LengthBits(size)) as nat) < size
  {
    ExcessIsLeast(size - 1);
    ExcessOfChunk(size - 1);
  }

  // The loop that finds the split: a mask for the length field, and its bits.
  method FindSplit(size: nat) returns (lm: nat, os: nat)
    requires Splits(size)
    ensures os == LengthBits(size) && lm == Pow2(os) - 1
  {
    var u: nat := size - 1;
    lm, os := 0xfff, 12;
    Pow2Literals();
    while u >= 0x10
      invariant Excess(u) <= os <= 12 && os - Excess(u) == LengthBits(size)
      invariant lm == Pow2(os) - 1
    {
      lm, os, u := lm / 2, os - 1, u / 2;
    }
  }

  function Word(data: seq<byte>): nat
    requires 2 <= |data|
  {
    var lo: nat, hi: nat := data[0], data[1];
    lo + 256 * hi
  }

  // A match, from the word that encodes it; masking with `lm` keeps the low bits.
  function MatchOf(v: nat, size: nat): Token
    requires Splits(size)
  {
    Match(Low(v, LengthBits(size)) + 3, Shr(v, LengthBits(size)) + 1)
  }

  predicate CanCopy(t: Token, size: nat) {
    t.Match? ==> 1 <= t.offset <= size
  }

  function Step(out: seq<byte>, t: Token): seq<byte>
    requires CanCopy(t, |out|)
  {
    match t
    case Literal(b) => out + [b]
    case Match(l, d) => Copied(out, d, l)
  }

  // The items of a group: `n` of them are left, the low bit of `fg` says what the next one is.
  function Items(fg: nat, n: nat, data: seq<byte>, out: seq<byte>): Decoded
    decreases |data|, n + 1
  {
    if n == 0 then Groups(data, out)
    else if data == [] then Out(out)
    else if fg % 2 == 0 then Items(fg / 2, n - 1, data[1..], out + [data[0]])
    else if |data| < 2 then Short
    else if !Splits(|out|) || !CanCopy(MatchOf(Word(data), |out|), |out|) then Undefined
    else Items(fg / 2, n - 1, data[2..], Step(out, MatchOf(Word(data), |out|)))
  }

  // Groups of eight items, each behind a byte of flags.
  function Groups(data: seq<byte>, out: seq<byte>): Decoded
    decreases |data|, 0
  {
    if data == [] then Out(out) else Items(data[0], 8, data[1..], out)
  }

  // A byte of flags without a bit set stands for eight literals, or as many as there are.
  lemma {:induction false} NoFlagsIsLiterals(n: nat, data: seq<byte>, out: seq<byte>)
    ensures Items(0, n, data, out) == if |data| < n then Out(out + data) else Groups(data[n..], out + data[..n])
    decreases n
  {
    if n == 0 {
      assert data[0..] == data && out + data[..0] == out;
    } else if data == [] {
      assert out + data == out;
    } else {
      NoFlagsIsLiterals(n - 1, data[1..], out + [data[0]]);
      assert out + [data[0]] + data[1..] == out + data;
      if n <= |data| {
        assert data[1..][n - 1..] == data[n..];
        assert out + [data[0]] + data[1..][..n - 1] == out + data[..n];
      }
    }
  }

  method CopyMatch(out0: seq<byte>, l0: nat, d: nat) returns (out: seq<byte>)
    requires 1 <= d <= |out0|
    ensures out == Copied(out0, d, l0)
  {
    out := out0;
    var l: nat := l0;
    while l > 0
      invariant l <= l0 && out == Copied(out0, d, l0 - l)
    {
      assert Copied(out0, d, l0 - l + 1) == out + [out[|out| - d]];
      out := out + [out[|out| - d]];
      l := l - 1;
    }
  }

  // The eight items behind a byte of flags that has a bit set.
  method DecodeItems(flags: nat, data0: seq<byte>, out0: seq<byte>) returns (stop: bool, r: Decoded, data: seq<byte>)
    ensures stop ==> r == Items(flags, 8, data0, out0)
    ensures !stop ==> r.Out? && |data| <= |data0| && Items(flags, 8, data0, out0) == Groups(data, r.s)
  {
    hide Items, Groups, Step, LengthBits;
    var fg, out, i: nat := flags, out0, 0;
    data := data0;
    while i < 8
      invariant i <= 8 && |data| <= |data0| && Items(flags, 8, data0, out0) == Items(fg, 8 - i, data, out)
    {
      ItemCases(fg, 8 - i, data, out);
      if data == [] {
        return true, Out(out), data;
      }
      if fg % 2 == 0 {
        out := out + [data[0]];
        data := data[1..];
      } else {
        if |data| < 2 {
          return true, Short, data;
        }
        var v := Word(data);
        if |out| == 0 || Excess(|out| - 1) > 12 {
          return true, Undefined, data;
        }
        var lm, os := FindSplit(|out|);
        var l, d := Low(v, os) + 3, Shr(v, os) + 1;
        if d > |out| {
          return true, Undefined, data;
        }
        StepIsCopy(out, l, d);
        out := CopyMatch(out, l, d);
        data := data[2..];
      }
      fg := fg / 2;
      i := i + 1;
    }
    ItemsOver(fg, data, out);
    return false, Out(out), data;
  }

  lemma StepIsCopy(out: seq<byte>, l: nat, d: nat)
    requires 1 <= d <= |out|
    ensures Step(out, Match(l, d)) == Copied(out, d, l)
  {
  }

  lemma ItemsOver(fg: nat, data: seq<byte>, out: seq<byte>)
    ensures Items(fg, 0, data, out) == Groups(data, out)
  {
  }

  // What becomes of the next item.
  lemma ItemCases(fg: nat, n: nat, data: seq<byte>, out: seq<byte>)
    requires 0 < n
    ensures data == [] ==> Items(fg, n, data, out) == Out(out)
    ensures data != [] && fg % 2 == 0 ==> Items(fg, n, data, out) == Items(fg / 2, n - 1, data[1..], out + [data[0]])
    ensures |data| == 1 && fg % 2 != 0 ==> Items(fg, n, data, out) == Short
    ensures 2 <= |data| && fg % 2 != 0 && !(Splits(|out|) && CanCopy(MatchOf(Word(data), |out|), |out|)) ==>
      Items(fg, n, data, out) == Undefined
    ensures 2 <= |data| && fg % 2 != 0 && Splits(|out|) && CanCopy(MatchOf(Word(data), |out|), |out|) ==>
      Items(fg, n, data, out) == Items(fg / 2, n - 1, data[2..], Step(out, MatchOf(Word(data), |out|)))
  {
  }

  // `lznt1_decompress_chunk`.
  method DecompressChunk(data0: seq<byte>) returns (r: Decoded)
    ensures r == Groups(data0, [])
  {
    var data, out: seq<byte> := data0, [];
    while data != []
      invariant Groups(data0, []) == Groups(data, out)
      decreases |data|
    {
      var fg := data[0];
      var rest := data[1..];
      if fg == 0 {
        NoFlagsIsLiterals(8, rest, out);
        if |rest| < 8 {
          return Out(out + rest);
        }
        out, data := out + rest[..8], rest[8..];
      } else {
        var stop, s, after := DecodeItems(fg, rest, out);
        if stop {
          return s;
        }
        out, data := s.s, after;
      }
    }
    r := Out(out);
  }

  // A token that can be encoded when `size` bytes have been written.
  predicate Encodable(t: Token, size: nat) {
    t.Literal? || (Splits(size) && 3 <= t.length < Pow2(LengthBits(size)) + 3
                   && 1 <= t.offset <= size && t.offset <= Pow2(16 - LengthBits(size)))
  }

  predicate AllEncodable(tokens: seq<Token>, size: nat)
    decreases |tokens|
  {
    tokens == [] || (Encodable(tokens[0], size) && AllEncodable(tokens[1..], size + TokenLength(tokens[0])))
  }

  function EncodeToken(t: Token, size: nat): (e: seq<byte>)
    requires Encodable(t, size)
    ensures e != []
  {
    match t
    case Literal(b) => [b]
    case Match(l, d) =>
      var v := Shl(d - 1, LengthBits(size)) + (l - 3);
      MatchFits(l, d, size);
      [v % 256, v / 256]
  }

  lemma MatchFits(l: nat, d: nat, size: nat)
    requires Encodable(Match(l, d), size)
    ensures Shl(d - 1, LengthBits(size)) + (l - 3) < 0x1_0000
    ensures MatchOf(Shl(d - 1, LengthBits(size)) + (l - 3), size) == Match(l, d)
  {
    var os: nat := LengthBits(size);
    ShlBelow(d - 1, 16 - os, os, l - 3);
    Pow2Literals();
    LowOfShl(d - 1, os, l - 3);
    ShrOfShl(d - 1, os, l - 3);
  }

  function Flags(g: seq<Token>): nat {
    if g == [] then 0 else (if g[0].Match? then 1 else 0) + 2 * Flags(g[1..])
  }

  lemma {:induction false} FlagsFit(g: seq<Token>)
    ensures Flags(g) < Pow2(|g|)
    decreases |g|
  {
    if g != [] {
      FlagsFit(g[1..]);
    }
  }

  function Bodies(g: seq<Token>, size: nat): seq<byte>
    requires AllEncodable(g, size)
    decreases |g|
  {
    if g == [] then [] else EncodeToken(g[0], size) + Bodies(g[1..], size + TokenLength(g[0]))
  }

  function SizeAfter(g: seq<Token>, size: nat): nat
    decreases |g|
  {
    if g == [] then size else SizeAfter(g[1..], size + TokenLength(g[0]))
  }

  lemma {:induction false} EncodableParts(tokens: seq<Token>, size: nat, n: nat)
    requires AllEncodable(tokens, size) && n <= |tokens|
    ensures AllEncodable(tokens[..n], size) && AllEncodable(tokens[n..], SizeAfter(tokens[..n], size))
    decreases n
  {
    if 0 < n {
      EncodableParts(tokens[1..], size + TokenLength(tokens[0]), n - 1);
      assert tokens[..n][1..] == tokens[1..][..n - 1] && tokens[n..] == tokens[1..][n - 1..];
    } else {
      assert tokens[0..] == tokens;
    }
  }

  // A chunk's data for a list of tokens.
  function Encode(tokens: seq<Token>, size: nat): seq<byte>
    requires AllEncodable(tokens, size)
    decreases |tokens|
  {
    if tokens == [] then []
    else
      var n := if |tokens| < 8 then |tokens| else 8;
      EncodableParts(tokens, size, n);
      FlagsFit(tokens[..n]);
      Pow2Literals();
      Pow2Monotone(n, 8);
      [Flags(tokens[..n])] + Bodies(tokens[..n], size) + Encode(tokens[n..], SizeAfter(tokens[..n], size))
  }

  // The tokens carried out from `out` on.
  function Run(tokens: seq<Token>, out: seq<byte>): (r: seq<byte>)
    requires AllEncodable(tokens, |out|)
    ensures |r| == SizeAfter(tokens, |out|)
    decreases |tokens|
  {
    if tokens == [] then out else Run(tokens[1..], Step(out, tokens[0]))
  }

  lemma {:induction false} RunParts(tokens: seq<Token>, out: seq<byte>, n: nat)
    requires AllEncodable(tokens, |out|) && n <= |tokens|
    ensures AllEncodable(tokens[..n], |out|) && AllEncodable(tokens[n..], SizeAfter(tokens[..n], |out|))
    ensures Run(tokens, out) == Run(tokens[n..], Run(tokens[..n], out))
    decreases n
  {
    EncodableParts(tokens, |out|, n);
    if 0 < n {
      RunParts(tokens[1..], Step(out, tokens[0]), n - 1);
      assert tokens[..n][1..] == tokens[1..][..n - 1] && tokens[n..] == tokens[1..][n - 1..];
    } else {
      assert tokens[0..] == tokens;
    }
  }

  lemma StepExpands(done: seq<Token>, t: Token)
    requires Expandable(done) && Encodable(t, OutputLength(done))
    ensures Expandable(done + [t]) && Expand(done + [t]) == Step(Expand(done), t)
    ensures OutputLength(done + [t]) == OutputLength(done) + TokenLength(t)
  {
    ExpandNext(done, t);
  }

  // Carrying the tokens out is their LZ77 expansion.
  lemma {:induction false} RunIsExpansion(done: seq<Token>, tokens: seq<Token>)
    requires Expandable(done) && AllEncodable(tokens, OutputLength(done))
    ensures Expandable(done + tokens) && Run(tokens, Expand(done)) == Expand(done + tokens)
    decreases |tokens|
  {
    hide Encodable, Expand, Expandable, Step, OutputLength, TokenLength;
    if tokens == [] {
      assert done + tokens == done;
    } else {
      StepExpands(done, tokens[0]);
      RunIsExpansion(done + [tokens[0]], tokens[1..]);
      assert done + [tokens[0]] + tokens[1..] == done + tokens;
    }
  }

  lemma LiteralStep(b: byte, more: nat, n: nat, rest: seq<byte>, out: seq<byte>)
    requires 0 < n
    ensures Items(2 * more, n, [b] + rest, out) == Items(more, n - 1, rest, out + [b])
  {
    hide Items;
    ItemCases(2 * more, n, [b] + rest, out);
    assert ([b] + rest)[1..] == rest;
  }

  lemma MatchStep(v: nat, lo: byte, hi: byte, more: nat, n: nat, rest: seq<byte>, out: seq<byte>)
    requires 0 < n && Splits(|out|) && CanCopy(MatchOf(v, |out|), |out|)
    requires var h: nat := hi; v == lo + 256 * h
    ensures Items(1 + 2 * more, n, [lo, hi] + rest, out) == Items(more, n - 1, rest, Step(out, MatchOf(v, |out|)))
  {
    hide Items, Step, MatchOf, Splits;
    var data := [lo, hi] + rest;
    assert data[2..] == rest && Word(data) == v;
    ItemCases(1 + 2 * more, n, data, out);
  }

  // One encoded item is decoded to its token.
  lemma ItemDecodes(t: Token, more: nat, n: nat, rest: seq<byte>, out: seq<byte>)
    requires Encodable(t, |out|) && 0 < n
    ensures Items((if t.Match? then 1 else 0) + 2 * more, n, EncodeToken(t, |out|) + rest, out)
         == Items(more, n - 1, rest, Step(out, t))
  {
    hide Items, Step, MatchOf;
    match t
    case Literal(b) =>
      StepLiteral(out, b);
      LiteralStep(b, more, n, rest, out);
    case Match(l, d) =>
      MatchFits(l, d, |out|);
      var v := Shl(d - 1, LengthBits(|out|)) + (l - 3);
      MatchStep(v, v % 256, v / 256, more, n, rest, out);
  }

  lemma StepLiteral(out: seq<byte>, b: byte)
    ensures Step(out, Literal(b)) == out + [b]
  {
  }

  // A group.
  lemma {:induction false} GroupDecodes(g: seq<Token>, n: nat, rest: seq<byte>, out: seq<byte>)
    requires AllEncodable(g, |out|) && |g| <= n && (|g| < n ==> rest == [])
    ensures Items(Flags(g), n, Bodies(g, |out|) + rest, out) == Groups(rest, Run(g, out))
    decreases |g|
  {
    hide Items, Groups, EncodeToken, Step, Encodable, Bodies, Flags, Run, AllEncodable, TokenLength;
    if g == [] {
      GroupEnds(g, n, rest, out);
    } else {
      FrontOf(g, out);
      var body := EncodeToken(g[0], |out|);
      var after := Bodies(g[1..], |out| + TokenLength(g[0])) + rest;
      assert Bodies(g, |out|) + rest == body + after;
      ItemDecodes(g[0], Flags(g[1..]), n, after, out);
      GroupDecodes(g[1..], n - 1, rest, Step(out, g[0]));
    }
  }

  // A group, taken apart at its first token.
  lemma FrontOf(g: seq<Token>, out: seq<byte>)
    requires AllEncodable(g, |out|) && g != []
    ensures Encodable(g[0], |out|) && CanCopy(g[0], |out|)
    ensures |Step(out, g[0])| == |out| + TokenLength(g[0]) && AllEncodable(g[1..], |out| + TokenLength(g[0]))
    ensures Flags(g) == (if g[0].Match? then 1 else 0) + 2 * Flags(g[1..])
    ensures Bodies(g, |out|) == EncodeToken(g[0], |out|) + Bodies(g[1..], |out| + TokenLength(g[0]))
    ensures Run(g, out) == Run(g[1..], Step(out, g[0]))
  {
    StepLength(out, g[0]);
  }

  lemma StepLength(out: seq<byte>, t: Token)
    requires Encodable(t, |out|)
    ensures CanCopy(t, |out|) && |Step(out, t)| == |out| + TokenLength(t)
  {
  }

  lemma GroupEnds(g: seq<Token>, n: nat, rest: seq<byte>, out: seq<byte>)
    requires g == [] && AllEncodable(g, |out|) && (0 < n ==> rest == [])
    ensures Items(Flags(g), n, Bodies(g, |out|) + rest, out) == Groups(rest, Run(g, out))
  {
    assert Bodies(g, |out|) + rest == rest;
  }

  lemma EncodeIs(tokens: seq<Token>, size: nat, n: nat)
    requires AllEncodable(tokens, size) && tokens != [] && n == if |tokens| < 8 then |tokens| else 8
    ensures AllEncodable(tokens[..n], size) && AllEncodable(tokens[n..], SizeAfter(tokens[..n], size))
    ensures Flags(tokens[..n]) < 256
    ensures Encode(tokens, size)
         == [Flags(tokens[..n])] + Bodies(tokens[..n], size) + Encode(tokens[n..], SizeAfter(tokens[..n], size))
  {
    EncodableParts(tokens, size, n);
    FlagsFit(tokens[..n]);
    Pow2Literals();
    Pow2Monotone(n, 8);
  }

  lemma GroupsBegin(fg: byte, data: seq<byte>, out: seq<byte>)
    ensures Groups([fg] + data, out) == Items(fg, 8, data, out)
  {
    assert ([fg] + data)[1..] == data;
  }

  lemma {:induction false} GroupsDecode(tokens: seq<Token>, out: seq<byte>)
    requires AllEncodable(tokens, |out|)
    ensures Groups(Encode(tokens, |out|), out) == Out(Run(tokens, out))
    decreases |tokens|
  {
    hide Items, Groups, Bodies, Run, Flags, Encode, AllEncodable, SizeAfter;
    if tokens == [] {
      NothingDecoded(tokens, out);
    } else {
      var n := if |tokens| < 8 then |tokens| else 8;
      RunParts(tokens, out, n);
      EncodeIs(tokens, |out|, n);
      var g, more := tokens[..n], tokens[n..];
      var rest := Encode(more, SizeAfter(g, |out|));
      assert Encode(tokens, |out|) == [Flags(g)] + (Bodies(g, |out|) + rest);
      GroupsBegin(Flags(g), Bodies(g, |out|) + rest, out);
      if n < 8 {
        NothingEncoded(more, SizeAfter(g, |out|));
      }
      GroupDecodes(g, 8, rest, out);
      GroupsDecode(more, Run(g, out));
    }
  }

  lemma NothingDecoded(tokens: seq<Token>, out: seq<byte>)
    requires tokens == [] && AllEncodable(tokens, |out|)
    ensures Groups(Encode(tokens, |out|), out) == Out(Run(tokens, out))
  {
  }

  lemma NothingEncoded(tokens: seq<Token>, size: nat)
    requires AllEncodable(tokens, size) && tokens == []
    ensures Encode(tokens, size) == []
  {
  }

  // Decoding undoes encoding: every list of tokens that can be encoded comes back as its LZ77
  // expansion.
  lemma DecodeInvertsEncode(tokens: seq<Token>)
    requires AllEncodable(tokens, 0)
    ensures Expandable(tokens) && Groups(Encode(tokens, 0), []) == Out(Expand(tokens))
  {
    GroupsDecode(tokens, []);
    RunIsExpansion([], tokens);
    assert [] + tokens == tokens;
  }

  datatype Outcome = Done(data: seq<byte>) | Bad

  function Zeros(n: nat): (z: seq<byte>)
    ensures |z| == n
  {
    seq(n, _ => 0)
  }

  // What a chunk's header says: whether the chunk is compressed, and the size of its data.
  datatype Header = Header(compressed: bool, sig: nat, len: nat)

  function HeaderOf(h: nat): Header {
    Header(h / 0x8000 % 2 == 1, h / 0x1000 % 8, h % 0x1000 + 1)
  }

  // A chunk's bytes.
  function Piece(h: Header, data: seq<byte>): Decoded {
    if h.compressed then Groups(data, []) else Out(data)
  }

  // The next chunk's bytes, and the data after it.
  datatype Taken = Taken(s: seq<byte>, rest: seq<byte>) | Refused

  function Next(comp: seq<byte>): (t: Taken)
    requires 2 <= |comp|
    ensures t.Taken? ==> |t.rest| < |comp|
  {
    var h, rest := HeaderOf(Word(comp)), comp[2..];
    if h.sig != 3 || |rest| < h.len then Refused
    else
      match Piece(h, rest[..h.len])
      case Out(s) => Taken(s, rest[h.len..])
      case Short => Refused
      case Undefined => Refused
  }

  // The chunks of `comp`, after `out`, up to `size` bytes; what they do not fill is zero.
  function Chunks(comp: seq<byte>, out: seq<byte>, size: nat): (r: Outcome)
    requires |out| <= size
    ensures r.Done? ==> |r.data| == size
    decreases |comp|
  {
    if |comp| < 2 then Bad
    else if Word(comp) == 0 then Done(out + Zeros(size - |out|))
    else
      match Next(comp)
      case Refused => Bad
      case Taken(s, rest) => if |out| + |s| >= size then Done((out + s)[..size]) else Chunks(rest, out + s, size)
  }

  method TakeChunk(comp0: seq<byte>) returns (t: Taken)
    requires 2 <= |comp0|
    ensures t == Next(comp0)
  {
    hide Groups, Items;
    var h := Word(comp0);
    var comp := comp0[2..];
    var len := h % 0x1000 + 1;
    if h / 0x1000 % 8 != 3 || |comp| < len {
      return Refused;
    }
    var c := Out(comp[..len]);
    if h / 0x8000 % 2 == 1 {
      c := DecompressChunk(comp[..len]);
    }
    t := if c.Out? then Taken(c.s, comp[len..]) else Refused;
  }

  // `memcpy`
  method CopyTo(ret: array<byte>, ptr: nat, data: seq<byte>)
    requires ptr + |data| <= ret.Length
    modifies ret
    ensures ret[..] == old(ret[..])[..ptr] + data + old(ret[..])[ptr + |data|..]
  {
    forall i | 0 <= i < |data| {
      ret[ptr + i] := data[i];
    }
  }

  // `lznt1_decompress`: chunk after chunk into a buffer that was zeroed.
  method Decompress(comp0: seq<byte>, size: nat) returns (r: Outcome)
    ensures r == Chunks(comp0, [], size)
    ensures r.Done? ==> |r.data| == size
  {
    hide Next;
    var ret := new byte[size](_ => 0);
    var comp, ptr: nat := comp0, 0;
    ghost var out: seq<byte> := [];
    assert ret[..] == out + Zeros(size);
    while true
      invariant ptr == |out| <= size && ret.Length == size && fresh(ret)
      invariant ret[..] == out + Zeros(size - ptr)
      invariant Chunks(comp, out, size) == Chunks(comp0, [], size)
      decreases |comp|
    {
      if |comp| < 2 {
        return Bad;
      }
      if Word(comp) == 0 {
        return Done(ret[..]);
      }
      var t := TakeChunk(comp);
      if t == Refused {
        return Bad;
      }
      if ptr + |t.s| >= size {
        CopyTo(ret, ptr, t.s[..size - ptr]);
        LastPiece(out, t.s, size);
        return Done(ret[..]);
      }
      CopyTo(ret, ptr, t.s);
      NextPiece(out, t.s, size);
      out, comp := out + t.s, t.rest;
      ptr := ptr + |t.s|;
    }
  }

  lemma NextPiece(out: seq<byte>, s: seq<byte>, size: nat)
    requires |out| + |s| <= size
    ensures var old' := out + Zeros(size - |out|);
      old'[..|out|] + s + old'[|out| + |s|..] == (out + s) + Zeros(size - |out| - |s|)
  {
  }

  lemma LastPiece(out: seq<byte>, s: seq<byte>, size: nat)
    requires |out| <= size <= |out| + |s|
    ensures var old', cut := out + Zeros(size - |out|), s[..size - |out|];
      old'[..|out|] + cut + old'[|out| + |cut|..] == (out + s)[..size]
  {
  }
}
