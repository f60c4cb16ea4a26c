/**
 The input bitstream: little-endian 16-bit coding units, bits taken high to low, with literal
 bytes interleaved.  `Reader` is what is left to read, as numbers; `InputBitstream` is the
 program's 32-bit left-justified buffer, proved to do what `Reader` says.
 */
module Bitstream {
  import opened Shifts

  type byte = b: nat | b < 256

  /** `have` bits are buffered, and read as the number `acc`; the next input byte is `next`. */
  datatype Reader = Reader(acc: nat, have: nat, next: nat)

  ghost predicate Sound(buf: seq<byte>, r: Reader) {
    r.have <= 32 && r.acc < Pow2(r.have) && r.next <= |buf|
  }

  function Unit(buf: seq<byte>, i: nat): (u: nat)
    requires i + 2 <= |buf|
    ensures u < Pow2(16)
  {
    Pow2Literals();
    var low: nat, high: nat := buf[i], buf[i + 1];
    low + 256 * high
  }

  /** Takes in one more coding unit; past the end of the input all bits are zero. */
  function Refill(buf: seq<byte>, r: Reader): Reader {
    if r.next + 2 <= |buf| then
      Reader(Shl(r.acc, 16) + Unit(buf, r.next), r.have + 16, r.next + 2)
    else
      Reader(Shl(r.acc, 16), r.have + 16, r.next)
  }

  /** The next `n` bits of the stream, as a number: buffered bits, then units, then zeros. */
  function Look(buf: seq<byte>, r: Reader, n: nat): nat
    decreases n - r.have
  {
    if n <= r.have then Shr(r.acc, r.have - n)
    else Look(buf, Refill(buf, r), n)
  }

  function Padded(r: Reader): Reader
    requires r.have <= 32
  {
    Reader(Shl(r.acc, 32 - r.have), 32, r.next)
  }

  /** What the buffer holds once at least `n` bits have been asked for. */
  function Ensured(buf: seq<byte>, r: Reader, n: nat): Reader
    requires r.have <= 32
  {
    if r.have >= n then r
    else if r.next + 2 > |buf| then Padded(r)
    else
      var r1 := Refill(buf, r);
      if n == 17 && r1.have == 16 then
        if r1.next + 2 > |buf| then Padded(r1) else Refill(buf, r1)
      else r1
  }

  function Peeked(r: Reader, n: nat): nat
    requires n <= r.have
  {
    Shr(r.acc, r.have - n)
  }

  function Dropped(r: Reader, n: nat): (d: Reader)
    requires n <= r.have
    ensures d.have == r.have - n && d.next == r.next
  {
    Reader(Low(r.acc, r.have - n), r.have - n, r.next)
  }

  // ----- reading never disturbs the stream -----

  lemma RefillSound(buf: seq<byte>, r: Reader)
    requires Sound(buf, r) && r.have <= 16
    ensures Sound(buf, Refill(buf, r))
  {
    ShlBelow(r.acc, r.have, 16, if r.next + 2 <= |buf| then Unit(buf, r.next) else 0);
  }

  lemma PaddedSound(buf: seq<byte>, r: Reader)
    requires Sound(buf, r)
    ensures Sound(buf, Padded(r))
  {
    ShlBelow(r.acc, r.have, 32 - r.have, 0);
  }

  lemma EnsuredSound(buf: seq<byte>, r: Reader, n: nat)
    requires Sound(buf, r) && n <= 17
    ensures Sound(buf, Ensured(buf, r, n)) && Ensured(buf, r, n).have >= n
  {
    if r.have < n {
      PaddedSound(buf, r);
      if r.next + 2 <= |buf| {
        RefillSound(buf, r);
        var r1 := Refill(buf, r);
        if n == 17 && r1.have == 16 {
          RefillSound(buf, r1);
          PaddedSound(buf, r1);
        }
      }
    }
  }

  lemma RefillKeeps(buf: seq<byte>, r: Reader, n: nat)
    ensures Look(buf, Refill(buf, r), n) == Look(buf, r, n)
  {
    if n <= r.have {
      var q := Refill(buf, r);
      var u := if r.next + 2 <= |buf| then Unit(buf, r.next) else 0;
      ShrOfShl(r.acc, 16, u);
      ShrShr(q.acc, 16, r.have - n);
    }
  }

  /** Zero bits appended past the end of the input were there all along. */
  lemma {:induction false} ZerosKeep(buf: seq<byte>, r: Reader, k: nat, n: nat)
    requires r.next + 2 > |buf|
    ensures Look(buf, Reader(Shl(r.acc, k), r.have + k, r.next), n) == Look(buf, r, n)
    decreases n - r.have
  {
    var z := Reader(Shl(r.acc, k), r.have + k, r.next);
    if n <= r.have {
      ShrOfShl(r.acc, k, 0);
      ShrShr(z.acc, k, r.have - n);
    } else {
      var q := Refill(buf, r);
      ZerosKeep(buf, q, k, n);
      var qz := Reader(Shl(q.acc, k), q.have + k, q.next);
      ShlShl(r.acc, 16, k);
      ShlShl(r.acc, k, 16);
      assert qz == Refill(buf, z);
      RefillKeeps(buf, z, n);
    }
  }

  /** Asking for bits changes what is buffered, never what the stream holds. */
  lemma EnsuredKeeps(buf: seq<byte>, r: Reader, k: nat, n: nat)
    requires r.have <= 32
    ensures Look(buf, Ensured(buf, r, k), n) == Look(buf, r, n)
  {
    if r.have < k {
      if r.next + 2 > |buf| {
        ZerosKeep(buf, r, 32 - r.have, n);
      } else {
        RefillKeeps(buf, r, n);
        var r1 := Refill(buf, r);
        if k == 17 && r1.have == 16 {
          RefillKeeps(buf, r1, n);
          if r1.next + 2 > |buf| { ZerosKeep(buf, r1, 16, n); }
        }
      }
    }
  }

  lemma DroppedSound(buf: seq<byte>, r: Reader, k: nat)
    requires Sound(buf, r) && k <= r.have
    ensures Sound(buf, Dropped(r, k))
  {
    ShrBounds(r.acc, r.have - k);
  }

  /** Removing `k` bits leaves exactly the bits after them. */
  lemma {:induction false} DroppedKeeps(buf: seq<byte>, r: Reader, k: nat, n: nat)
    requires k <= r.have
    ensures Look(buf, r, k + n) == Shl(Look(buf, r, k), n) + Look(buf, Dropped(r, k), n)
    decreases k + n - r.have
  {
    var d := Dropped(r, k);
    if k + n <= r.have {
      var e := r.have - (k + n);
      LowShr(r.acc, e, n);
      ShrShr(r.acc, e, n);
      ShrBounds(Shr(r.acc, e), n);
    } else {
      var q := Refill(buf, r);
      DroppedKeeps(buf, q, k, n);
      RefillKeeps(buf, r, k);
      RefillDropped(buf, r, k);
    }
  }

  lemma RefillDropped(buf: seq<byte>, r: Reader, k: nat)
    requires k <= r.have
    ensures Refill(buf, Dropped(r, k)) == Dropped(Refill(buf, r), k)
  {
    var u := if r.next + 2 <= |buf| then Unit(buf, r.next) else 0;
    LowShl(r.acc, r.have - k, 16, u);
  }

  /** `acc`, as `have` bits at the top of a 32-bit word. */
  function Justified(acc: nat, have: nat): nat {
    if have <= 32 then Shl(acc, 32 - have) else 0
  }

  lemma JustifiedFits(acc: nat, have: nat)
    requires have <= 32 && acc < Pow2(have)
    ensures Justified(acc, have) < Pow2(32)
  {
    ShlBelow(acc, have, 32 - have, 0);
  }

  /** A unit shifted in below the buffered bits. */
  lemma JustifiedUnit(acc: nat, have: nat, u: nat)
    requires have <= 16 && acc < Pow2(have) && u < Pow2(16)
    ensures Justified(acc, have) + Shl(u, 16 - have) == Justified(Shl(acc, 16) + u, have + 16) < Pow2(32)
  {
    ShlShl(acc, 16, 16 - have);
    ShlAdd(Shl(acc, 16), u, 16 - have);
    ShlBelow(acc, have, 16, u);
    JustifiedFits(Shl(acc, 16) + u, have + 16);
  }

  /** A word shifted left by `n` loses its top `n` bits. */
  lemma JustifiedDrop(acc: nat, have: nat, n: nat)
    requires n <= have <= 32 && acc < Pow2(have)
    ensures Low(Shl(Justified(acc, have), n), 32) == Justified(Low(acc, have - n), have - n) < Pow2(32)
  {
    var left := have - n;
    ShlShl(acc, 32 - have, n);
    LowShl(acc, left, 32 - left, 0);
    JustifiedFits(Low(acc, left), left);
  }

  /** Looking at the top `n` bits of the word is looking at the top `n` buffered bits. */
  lemma JustifiedPeek(acc: nat, have: nat, n: nat)
    requires n <= 31 && n <= have <= 32
    ensures Shr(Shr(Justified(acc, have), 1), 31 - n) == Shr(acc, have - n)
  {
    var word := Justified(acc, have);
    ShrShr(word, 1, 31 - n);
    ShrOfShl(acc, 32 - have, 0);
    ShrShr(word, 32 - have, have - n);
  }

  class InputBitstream {
    var bitbuf: nat
    var bitsleft: nat
    var next: nat
    const buf: seq<byte>
    ghost var acc: nat  // the buffered bits, as a number

    /** The buffer is left-justified in 32 bits, and zero below the bits it holds. */
    ghost predicate Valid()
      reads this
    {
      bitbuf == Justified(acc, bitsleft) < Pow2(32) && Sound(buf, State())
    }

    ghost function State(): Reader
      reads this
    {
      Reader(acc, bitsleft, next)
    }

    constructor (buffer: seq<byte>)
      ensures Valid() && buf == buffer && State() == Reader(0, 0, 0)
    {
      bitbuf, bitsleft, next := 0, 0, 0;
      buf := buffer;
      acc := 0;
      ShlZero(32);
    }

    /** Makes sure that `n` bits are buffered; works for at most 17. */
    method EnsureBits(n: nat)
      requires Valid() && n <= 17
      modifies this
      ensures Valid() && State() == Ensured(buf, old(State()), n) && bitsleft >= n
    {
      ghost var r := State();
      EnsuredSound(buf, r, n);
      if bitsleft >= n {
        return;
      }
      if |buf| - next < 2 {
        Overflow();
        return;
      }
      TakeUnit();
      if n == 17 && bitsleft == 16 {
        if |buf| - next < 2 {
          Overflow();
          return;
        }
        TakeUnit();
      }
    }

    /** Takes the next coding unit into the buffer, below the bits already there. */
    method TakeUnit()
      requires Valid() && bitsleft <= 16 && next + 2 <= |buf|
      modifies this
      ensures Valid() && State() == Refill(buf, old(State()))
    {
      hide Justified, Shl, Unit;
      JustifiedUnit(acc, bitsleft, Unit(buf, next));
      RefillSound(buf, State());
      // the bits below the buffered ones are zero, so the bitwise OR is a sum
      bitbuf := bitbuf + Shl(Unit(buf, next), 16 - bitsleft);
      acc := Shl(acc, 16) + Unit(buf, next);
      next := next + 2;
      bitsleft := bitsleft + 16;
    }

    /** Past the end of the input, the rest of the buffer counts as zeros. */
    method Overflow()
      requires Valid()
      modifies this
      ensures Valid() && State() == Padded(old(State()))
    {
      PaddedSound(buf, State());
      acc := bitbuf;
      bitsleft := 32;
    }

    /** The next `n` buffered bits. */
    function PeekBits(n: nat): nat
      reads this
      requires n <= 31
    {
      Shr(Shr(bitbuf, 1), 31 - n)
    }

    lemma PeekIsPeeked(n: nat)
      requires Valid() && n <= 31 && n <= bitsleft
      ensures PeekBits(n) == Peeked(State(), n)
    {
      JustifiedPeek(acc, bitsleft, n);
    }

    method RemoveBits(n: nat)
      requires Valid() && n <= bitsleft
      modifies this
      ensures Valid() && State() == Dropped(old(State()), n)
    {
      hide Shl, Shr, Low, Justified;
      JustifiedDrop(acc, bitsleft, n);
      DroppedSound(buf, State(), n);
      bitbuf := Low(Shl(bitbuf, n), 32);
      acc := Low(acc, bitsleft - n);
      bitsleft := bitsleft - n;
    }

    method PopBits(n: nat) returns (bits: nat)
      requires Valid() && n <= bitsleft && n <= 31
      modifies this
      ensures Valid() && bits == Peeked(old(State()), n) && State() == Dropped(old(State()), n)
    {
      PeekIsPeeked(n);
      bits := PeekBits(n);
      RemoveBits(n);
    }

    method ReadBits(n: nat) returns (bits: nat)
      requires Valid() && n <= 17
      modifies this
      ensures Valid()
      ensures var e := Ensured(buf, old(State()), n);
              n <= e.have && bits == Peeked(e, n) && State() == Dropped(e, n)
    {
      EnsureBits(n);
      bits := PopBits(n);
    }

    /** A literal byte; zero once the input is used up. */
    method ReadByte() returns (v: byte)
      requires Valid()
      modifies this`next
      ensures Valid() && (v, State()) == ByteRead(buf, old(State()))
    {
      if next == |buf| {
        return 0;
      }
      v := buf[next];
      next := next + 1;
    }

    method ReadU16() returns (v: nat)
      requires Valid()
      modifies this`next
      ensures Valid() && (v, State()) == U16Read(buf, old(State()))
    {
      if |buf| - next < 2 {
        return 0;
      }
      v := Unit(buf, next);
      next := next + 2;
    }

    method ReadU32() returns (v: nat)
      requires Valid()
      modifies this`next
      ensures Valid() && (v, State()) == U32Read(buf, old(State()))
    {
      if |buf| - next < 4 {
        return 0;
      }
      v := Unit(buf, next) + 0x1_0000 * Unit(buf, next + 2);
      next := next + 4;
    }

    /** Throws away the buffered bits, so that reading goes on at a coding-unit boundary. */
    method Align()
      requires Valid()
      modifies this
      ensures Valid() && State() == Reader(0, 0, old(State()).next)
    {
      bitsleft := 0;
      bitbuf := 0;
      acc := 0;
      ShlZero(32);
    }
  }

  function ByteRead(buf: seq<byte>, r: Reader): (byte, Reader) {
    if r.next < |buf| then (buf[r.next], r.(next := r.next + 1)) else (0, r)
  }

  function U16Read(buf: seq<byte>, r: Reader): (nat, Reader) {
    if r.next + 2 <= |buf| then (Unit(buf, r.next), r.(next := r.next + 2)) else (0, r)
  }

  function U32Read(buf: seq<byte>, r: Reader): (nat, Reader) {
    if r.next + 4 <= |buf| then (Unit(buf, r.next) + 0x1_0000 * Unit(buf, r.next + 2), r.(next := r.next + 4))
    else (0, r)
  }
}
