/**
 The bits of the input stream, from its bytes alone: each pair of bytes is a little-endian 16-bit unit, whose bits
 come high to low, and zeros follow the last whole unit.
 */
module StreamBits {
  import opened Shifts
  import opened Bitstream
  import opened CanonicalCode
  import opened HuffmanTable
  import opened HuffmanDecode

  /** Bit `k` of the stream that `buf` holds. */
  function BitOf(buf: seq<byte>, k: nat): (b: nat)
    ensures b < 2
  {
    var u := k / 16;
    if 2 * u + 1 < |buf| then
      var low: nat, high: nat := buf[2 * u], buf[2 * u + 1];
      Shr(low + 256 * high, 15 - k % 16) % 2
    else 0
  }

  /** The number that the `n` bits from number `p` on make. */
  function Bits(buf: seq<byte>, p: nat, n: nat): nat {
    if n == 0 then 0 else 2 * Bits(buf, p, n - 1) + BitOf(buf, p + n - 1)
  }

  lemma {:induction false} BitsConcat(buf: seq<byte>, p: nat, a: nat, b: nat)
    ensures Bits(buf, p, a + b) == Shl(Bits(buf, p, a), b) + Bits(buf, p + a, b)
  {
    if 0 < b {
      BitsConcat(buf, p, a, b - 1);
      assert Bits(buf, p, a + b) == 2 * Bits(buf, p, a + (b - 1)) + BitOf(buf, p + a + b - 1);
    }
  }

  lemma {:induction false} BitsBelow(buf: seq<byte>, p: nat, n: nat)
    ensures Bits(buf, p, n) < Pow2(n)
  {
    if 0 < n {
      BitsBelow(buf, p, n - 1);
    }
  }

  /** The first bits of a number of bits. */
  lemma BitsFront(buf: seq<byte>, p: nat, a: nat, b: nat)
    ensures Shr(Bits(buf, p, a + b), b) == Bits(buf, p, a)
  {
    BitsConcat(buf, p, a, b);
    BitsBelow(buf, p + a, b);
    ShrOfShl(Bits(buf, p, a), b, Bits(buf, p + a, b));
  }

  /** A unit's bits are those of its two bytes. */
  lemma {:induction false} BitsOfUnit(buf: seq<byte>, u: nat, n: nat)
    requires 2 * u + 2 <= |buf| && n <= 16
    ensures Bits(buf, 16 * u, n) == Shr(Unit(buf, 2 * u), 16 - n)
    decreases n
  {
    if n == 0 {
      ShrBelow(Unit(buf, 2 * u), 16, 0);
    } else {
      BitsOfUnit(buf, u, n - 1);
      InUnit(u, n - 1);
      assert BitOf(buf, 16 * u + (n - 1)) == Shr(Unit(buf, 2 * u), 16 - n) % 2;
    }
  }

  lemma InUnit(u: nat, j: nat)
    requires j < 16
    ensures (16 * u + j) / 16 == u && (16 * u + j) % 16 == j
  {
  }

  /** Behind the last whole unit all bits are zero. */
  lemma {:induction false} NoBitsPast(buf: seq<byte>, p: nat, n: nat)
    requires 8 * (|buf| - |buf| % 2) <= p
    ensures Bits(buf, p, n) == 0
  {
    if 0 < n {
      NoBitsPast(buf, p, n - 1);
      UnitPast(buf, p + n - 1);
    }
  }

  lemma UnitPast(buf: seq<byte>, k: nat)
    requires 8 * (|buf| - |buf| % 2) <= k
    ensures BitOf(buf, k) == 0
  {
    var u := k / 16;
    assert |buf| - |buf| % 2 == 2 * (|buf| / 2);
    assert |buf| / 2 <= u;
  }

  /** The bits from number `p` on are what is left to read, some of them buffered. */
  ghost predicate Reached(buf: seq<byte>, r: Reader, p: nat) {
    && r.acc == Bits(buf, p, r.have)
    && if r.next + 2 <= |buf| then r.next % 2 == 0 && p + r.have == 8 * r.next
       else 8 * (|buf| - |buf| % 2) <= p + r.have
  }

  lemma RefillReached(buf: seq<byte>, r: Reader, p: nat)
    requires Reached(buf, r, p)
    ensures Reached(buf, Refill(buf, r), p)
  {
    hide Bits, Shl;
    BitsConcat(buf, p, r.have, 16);
    if r.next + 2 <= |buf| {
      BitsOfUnit(buf, r.next / 2, 16);
      assert Shr(Unit(buf, r.next), 0) == Unit(buf, r.next);
    } else {
      NoBitsPast(buf, p + r.have, 16);
    }
  }

  /** Wherever reading has got to, what it reads next are the bits from there on. */
  lemma {:induction false} LookIsBits(buf: seq<byte>, r: Reader, p: nat, n: nat)
    requires Reached(buf, r, p)
    ensures Look(buf, r, n) == Bits(buf, p, n)
    decreases n - r.have
  {
    hide Bits, Reached, Refill;
    if n <= r.have {
      ReachedIs(buf, r, p);
      BitsFront(buf, p, n, r.have - n);
    } else {
      RefillReached(buf, r, p);
      RefillGrows(buf, r);
      LookIsBits(buf, Refill(buf, r), p, n);
    }
  }

  lemma ReachedIs(buf: seq<byte>, r: Reader, p: nat)
    requires Reached(buf, r, p)
    ensures r.acc == Bits(buf, p, r.have)
  {
  }

  lemma RefillGrows(buf: seq<byte>, r: Reader)
    ensures Refill(buf, r).have == r.have + 16
  {
  }

  /** From the beginning: the stream is its bits. */
  lemma StreamIsBits(buf: seq<byte>, n: nat)
    ensures Reached(buf, Reader(0, 0, 0), 0)
    ensures Look(buf, Reader(0, 0, 0), n) == Bits(buf, 0, n)
  {
    LookIsBits(buf, Reader(0, 0, 0), 0, n);
  }

  lemma PaddedReached(buf: seq<byte>, r: Reader, p: nat)
    requires Reached(buf, r, p) && |buf| < r.next + 2 && r.have <= 32
    ensures Reached(buf, Padded(r), p)
  {
    hide Bits, Shl;
    BitsConcat(buf, p, r.have, 32 - r.have);
    NoBitsPast(buf, p + r.have, 32 - r.have);
  }

  lemma EnsuredReached(buf: seq<byte>, r: Reader, p: nat, n: nat)
    requires Reached(buf, r, p) && r.have <= 32
    ensures Reached(buf, Ensured(buf, r, n), p)
  {
    hide Reached, Refill, Padded;
    if r.have < n {
      if r.next + 2 > |buf| {
        PaddedReached(buf, r, p);
      } else {
        RefillReached(buf, r, p);
        var r1 := Refill(buf, r);
        if n == 17 && r1.have == 16 {
          if r1.next + 2 > |buf| {
            PaddedReached(buf, r1, p);
          } else {
            RefillReached(buf, r1, p);
          }
        }
      }
    }
  }

  lemma DroppedReached(buf: seq<byte>, r: Reader, p: nat, n: nat)
    requires Reached(buf, r, p) && n <= r.have
    ensures Reached(buf, Dropped(r, n), p + n)
  {
    hide Bits;
    var m := r.have - n;
    BitsConcat(buf, p, n, m);
    BitsBelow(buf, p + n, m);
    LowOfShl(Bits(buf, p, n), m, Bits(buf, p + n, m));
  }

  /** The next symbol of a code: its codeword is the next bits, and reading goes on behind it. */
  lemma SymReadIsBits(buf: seq<byte>, r: Reader, p: nat, lens: Lens, m: nat)
    requires Reached(buf, r, p) && 1 <= m <= 17 && Sound(buf, r) && Complete(lens, m)
    ensures var (s, r') := SymRead(buf, r, lens, m);
      && s < |lens| && 0 < lens[s] && Bits(buf, p, lens[s]) == Codeword(lens, s)
      && Sound(buf, r') && Reached(buf, r', p + lens[s])
  {
    hide Bits, Reached, Ensured, Dropped, Look, Codeword, Complete, Sound;
    SymReadIsPrefix(buf, r, lens, m);
    var s := SymRead(buf, r, lens, m).0;
    LookIsBits(buf, r, p, lens[s]);
    SoundIs(buf, r);
    EnsuredSound(buf, r, m);
    EnsuredReached(buf, r, p, m);
    SymReadDrops(buf, r, lens, m);
    DroppedReached(buf, Ensured(buf, r, m), p, lens[s]);
  }

  lemma SoundIs(buf: seq<byte>, r: Reader)
    requires Sound(buf, r)
    ensures r.have <= 32
  {
  }

  lemma SymReadDrops(buf: seq<byte>, r: Reader, lens: Lens, m: nat)
    requires 1 <= m <= 17 && Sound(buf, r) && Complete(lens, m)
    ensures var (s, r') := SymRead(buf, r, lens, m);
      && s < |lens| && r.have <= 32 && lens[s] <= m <= Ensured(buf, r, m).have
      && r' == Dropped(Ensured(buf, r, m), lens[s])
  {
    EnsuredSound(buf, r, m);
    PeekBound(buf, Ensured(buf, r, m), m);
    SymAtPrefixes(lens, m, Peeked(Ensured(buf, r, m), m));
  }

  /** Numbers between the bits are little-endian. */
  lemma WordsAreRead(buf: seq<byte>, r: Reader)
    ensures r.next + 2 <= |buf| ==>
      var b0: nat, b1: nat := buf[r.next], buf[r.next + 1];
      U16Read(buf, r) == (b0 + 0x100 * b1, r.(next := r.next + 2))
    ensures r.next + 4 <= |buf| ==>
      var b0: nat, b1: nat, b2: nat, b3: nat := buf[r.next], buf[r.next + 1], buf[r.next + 2], buf[r.next + 3];
      U32Read(buf, r) == (b0 + 0x100 * b1 + 0x1_0000 * b2 + 0x100_0000 * b3, r.(next := r.next + 4))
  {
  }
}
