/**
 LZ77 expansion, byte by byte, as the meaning of a decoded stream; and the match copier, whose
 word-at-a-time paths may write past the match, proved to agree with it on the match.
 */
module LzCopy {
  import opened Bitstream

  datatype Token = Literal(b: byte) | Match(length: nat, offset: nat)

  /** `out` followed by `n` bytes, each equal to the one `offset` before it. */
  function Copied(out: seq<byte>, offset: nat, n: nat): (r: seq<byte>)
    requires 1 <= offset <= |out|
    ensures |r| == |out| + n
  {
    if n == 0 then out
    else
      var r := Copied(out, offset, n - 1);
      r + [r[|r| - offset]]
  }

  function TokenLength(t: Token): nat {
    if t.Literal? then 1 else t.length
  }

  function OutputLength(tokens: seq<Token>): nat {
    if tokens == [] then 0
    else OutputLength(tokens[..|tokens| - 1]) + TokenLength(tokens[|tokens| - 1])
  }

  /** Every match reaches back no further than the output so far. */
  ghost predicate Expandable(tokens: seq<Token>) {
    tokens == [] ||
    (var front, t := tokens[..|tokens| - 1], tokens[|tokens| - 1];
     Expandable(front) && (t.Match? ==> 1 <= t.offset <= OutputLength(front)))
  }

  /** The output that the tokens stand for. */
  ghost function Expand(tokens: seq<Token>): (r: seq<byte>)
    requires Expandable(tokens)
    ensures |r| == OutputLength(tokens)
  {
    if tokens == [] then []
    else
      var front := Expand(tokens[..|tokens| - 1]);
      match tokens[|tokens| - 1]
      case Literal(b) => front + [b]
      case Match(length, offset) => Copied(front, offset, length)
  }

  lemma ExpandNext(tokens: seq<Token>, t: Token)
    requires Expandable(tokens)
    requires t.Match? ==> 1 <= t.offset <= OutputLength(tokens)
    ensures Expandable(tokens + [t]) && OutputLength(tokens + [t]) == OutputLength(tokens) + TokenLength(t)
    ensures Expand(tokens + [t])
         == (if t.Literal? then Expand(tokens) + [t.b] else Copied(Expand(tokens), t.offset, t.length))
  {
    assert (tokens + [t])[..|tokens|] == tokens;
  }

  /** A token among others: its match is inside the output so far, and it adds its length. */
  lemma {:induction false} ExpandableAt(tokens: seq<Token>, i: nat)
    requires Expandable(tokens) && i < |tokens|
    ensures tokens[i].Match? ==> tokens[i].offset <= OutputLength(tokens[..i])
    ensures OutputLength(tokens[..i + 1]) == OutputLength(tokens[..i]) + TokenLength(tokens[i])
    decreases |tokens|
  {
    assert tokens[..i + 1][..i] == tokens[..i];
    if i < |tokens| - 1 {
      var front := tokens[..|tokens| - 1];
      ExpandableAt(front, i);
      assert front[..i] == tokens[..i];
    }
  }

  /** Tokens at the beginning can be expanded by themselves, to no more than all of them. */
  lemma {:induction false} ExpandableFront(tokens: seq<Token>, more: seq<Token>)
    requires Expandable(tokens + more)
    ensures Expandable(tokens) && OutputLength(tokens) <= OutputLength(tokens + more)
    decreases |more|
  {
    if more == [] {
      assert tokens + more == tokens;
    } else {
      var front := more[..|more| - 1];
      assert (tokens + more)[..|tokens + more| - 1] == tokens + front;
      ExpandableFront(tokens, front);
    }
  }

  /** From `next` up to `limit` every byte repeats the one `offset` before it. */
  ghost predicate Repeats(s: seq<byte>, next: nat, limit: nat, offset: nat) {
    1 <= offset <= next && limit <= |s| &&
    forall i {:trigger s[i]} | next <= i < limit :: s[i] == s[i - offset]
  }

  /** Such a stretch is exactly the bytewise copy, wherever it is cut off. */
  lemma {:induction false} RepeatsIsCopied(s: seq<byte>, next: nat, limit: nat, offset: nat)
    requires Repeats(s, next, limit, offset) && next <= limit
    ensures s[..limit] == Copied(s[..next], offset, limit - next)
  {
    if next < limit {
      RepeatsIsCopied(s, next, limit - 1, offset);
      var r := s[..limit - 1];
      assert s[limit - 1] == s[limit - 1 - offset] == r[|r| - offset];
      assert s[..limit] == r + [s[limit - 1]];
    }
  }

  /** Copies one machine word of `w` bytes; source and destination do not overlap. */
  method CopyWord(out: array<byte>, src: nat, dst: nat, w: nat)
    requires src + w <= dst && dst + w <= out.Length
    modifies out
    ensures forall i | 0 <= i < out.Length :: out[i] == if dst <= i < dst + w then old(out[src + i - dst])
                                                        else old(out[i])
  {
    forall i | 0 <= i < w {
      out[dst + i] := out[src + i];
    }
  }

  /** The word loop: copies whole words until `stop` is reached or passed. */
  method CopyWords(out: array<byte>, next: nat, stop: nat, limit: nat, offset: nat, w: nat)
    requires 1 <= w <= offset <= next < stop && stop + w - 1 <= limit <= out.Length
    modifies out
    ensures Repeats(out[..], next, stop, offset)
    ensures out[..next] == old(out[..next]) && out[limit..] == old(out[limit..])
  {
    var pos := next;
    while true
      invariant next <= pos < stop
      invariant Repeats(out[..], next, pos, offset)
      invariant out[..next] == old(out[..next]) && out[limit..] == old(out[limit..])
      decreases stop - pos
    {
      pos := WordStep(out, next, pos, limit, offset, w);
      if pos >= stop {
        break;
      }
    }
  }

  method WordStep(out: array<byte>, ghost next: nat, pos0: nat, ghost limit: nat, offset: nat, w: nat)
    returns (pos: nat)
    requires 1 <= w <= offset <= next <= pos0 && pos0 + w <= limit <= out.Length
    requires Repeats(out[..], next, pos0, offset)
    modifies out
    ensures pos == pos0 + w && Repeats(out[..], next, pos, offset)
    ensures out[..next] == old(out[..next]) && out[limit..] == old(out[limit..])
  {
    CopyWord(out, pos0 - offset, pos0, w);
    pos := pos0 + w;
    forall i {:trigger out[i]} | next <= i < pos
      ensures out[i] == out[i - offset]
    {
      assert i < pos0 ==> old(out[..])[i] == old(out[..])[i - offset];
    }
  }

  /** A match of offset 1 repeats one byte; a word of it is stored at a time. */
  method FillWords(out: array<byte>, next: nat, stop: nat, limit: nat, w: nat)
    requires 1 <= w && 1 <= next < stop && stop + w - 1 <= limit <= out.Length
    modifies out
    ensures Repeats(out[..], next, stop, 1)
    ensures out[..next] == old(out[..next]) && out[limit..] == old(out[limit..])
  {
    var v := out[next - 1];
    var pos := next;
    while true
      invariant next <= pos < stop
      invariant forall i | next - 1 <= i < pos :: out[i] == v
      invariant out[..next] == old(out[..next]) && out[limit..] == old(out[limit..])
      decreases stop - pos
    {
      forall i | pos <= i < pos + w {
        out[i] := v;
      }
      pos := pos + w;
      if pos >= stop {
        break;
      }
    }
  }

  method ByteStep(out: array<byte>, ghost next: nat, pos0: nat, ghost limit: nat, offset: nat) returns (pos: nat)
    requires 1 <= offset <= next <= pos0 < limit <= out.Length
    requires Repeats(out[..], next, pos0, offset)
    modifies out
    ensures pos == pos0 + 1 && Repeats(out[..], next, pos, offset)
    ensures out[..next] == old(out[..next]) && out[limit..] == old(out[limit..])
  {
    out[pos0] := out[pos0 - offset];
    pos := pos0 + 1;
  }

  /** The plain copy, with the first bytes of every match unrolled. */
  method CopyBytes(out: array<byte>, next: nat, stop: nat, offset: nat, minLength: nat)
    requires 1 <= offset <= next < stop <= out.Length && 1 <= minLength <= stop - next
    modifies out
    ensures Repeats(out[..], next, stop, offset)
    ensures out[..next] == old(out[..next]) && out[stop..] == old(out[stop..])
  {
    var pos := next;
    if minLength >= 2 {
      pos := ByteStep(out, next, pos, stop, offset);
    }
    if minLength >= 3 {
      pos := ByteStep(out, next, pos, stop, offset);
    }
    if minLength >= 4 {
      pos := ByteStep(out, next, pos, stop, offset);
    }
    while true
      invariant next <= pos < stop
      invariant Repeats(out[..], next, pos, offset)
      invariant out[..next] == old(out[..next]) && out[stop..] == old(out[stop..])
      decreases stop - pos
    {
      pos := ByteStep(out, next, pos, stop, offset);
      if pos == stop {
        break;
      }
    }
  }

  /**
   Copies a match to `out[next..next + length]`; `limit` is the end of the room for it.  `w` is
   the size of a machine word and `fast` whether unaligned words may be used.
   */
  method Copy(length: nat, offset: nat, out: array<byte>, next: nat, limit: nat, minLength: nat, w: nat, fast: bool)
    returns (ok: bool)
    requires next <= limit <= out.Length && 1 <= offset && 1 <= minLength <= length && 1 <= w
    modifies out
    ensures ok <==> offset <= next && length <= limit - next
    ensures ok ==> out[..next + length] == Copied(old(out[..next]), offset, length)
    ensures out[..next] == old(out[..next]) && out[limit..] == old(out[limit..])
  {
    if offset > next {
      return false;
    }
    if fast && length <= 3 * w && offset >= w && limit - next >= 3 * w {
      var pos := WordStep(out, next, next, limit, offset, w);
      pos := WordStep(out, next, pos, limit, offset, w);
      pos := WordStep(out, next, pos, limit, offset, w);
      RepeatsIsCopied(out[..], next, next + length, offset);
      assert out[..][..next] == out[..next];
      return true;
    }
    if length > limit - next {
      return false;
    }
    var stop := next + length;
    if fast && limit - stop >= w - 1 && offset >= w {
      CopyWords(out, next, stop, limit, offset, w);
    } else if fast && limit - stop >= w - 1 && offset == 1 {
      FillWords(out, next, stop, limit, w);
    } else {
      ghost var before := out[..];
      CopyBytes(out, next, stop, offset, minLength);
      assert out[limit..] == out[stop..][limit - stop..];
      assert before[limit..] == before[stop..][limit - stop..];
    }
    RepeatsIsCopied(out[..], next, stop, offset);
    assert out[..][..next] == out[..next];
    ok := true;
  }

  /** Appends what the token stands for to the output so far, if it fits below `limit`. */
  method Apply(out: array<byte>, next0: nat, t: Token, limit: nat, minLength: nat, w: nat, fast: bool,
               ghost done: seq<Token>)
    returns (ok: bool, next: nat)
    requires next0 < limit <= out.Length && w >= 1
    requires Expandable(done) && out[..next0] == Expand(done)
    requires t.Match? ==> t.offset >= 1 && t.length >= minLength >= 1
    modifies out
    ensures ok <==> t.Literal? || (t.offset <= next0 && t.length <= limit - next0)
    ensures ok ==> next == next0 + TokenLength(t) <= limit
                   && Expandable(done + [t]) && out[..next] == Expand(done + [t])
  {
    ok, next := true, next0;
    match t
    case Literal(b) =>
      ExpandNext(done, t);
      out[next] := b;
      next := next + 1;
    case Match(length, offset) =>
      if offset <= next { ExpandNext(done, t); }
      ok := Copy(length, offset, out, next, limit, minLength, w, fast);
      if ok {
        next := next + length;
      }
  }

  /** A match never brings in a byte value that is not there already. */
  lemma {:induction false} CopiedBytes(out: seq<byte>, offset: nat, n: nat, b: byte)
    requires 1 <= offset <= |out| && b !in out
    ensures b !in Copied(out, offset, n)
  {
    if n > 0 { CopiedBytes(out, offset, n - 1, b); }
  }

  lemma {:induction false} ExpandBytes(tokens: seq<Token>, b: byte)
    requires Expandable(tokens) && Literal(b) !in tokens
    ensures b !in Expand(tokens)
  {
    if tokens != [] {
      var front, t := tokens[..|tokens| - 1], tokens[|tokens| - 1];
      ExpandBytes(front, b);
      if t.Match? { CopiedBytes(Expand(front), t.offset, t.length, b); }
    }
  }
}
