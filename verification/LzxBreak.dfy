/**
 The break before a stored block. What the block's header goes on with is on the next 16-bit boundary of the
 stream, and is read there as long as no more than one unit is buffered.
 */
module LzxBreak {
  import opened Shifts
  import opened Bitstream
  import opened CanonicalCode
  import opened HuffmanTable
  import opened HuffmanDecode
  import opened LzxFormat
  import opened StreamBits

  /** With `p` bits read, the next boundary is behind the unit of bit `p`. */
  function Boundary(p: nat): nat {
    2 * (p / 16) + 2
  }

  /** The break leads to the next boundary exactly when no second unit has been taken in. */
  lemma BreakIsBoundary(buf: seq<byte>, r: Reader, p: nat)
    requires Reached(buf, r, p) && r.have <= 32 && r.next + 2 <= |buf|
    ensures Ensured(buf, r, 1).next == Boundary(p) <==> r.have <= 16
  {
    hide Bits;
    var u := r.next / 2;
    assert p == 16 * u - r.have;
    if r.have == 0 {
      assert p / 16 == u;
    } else if r.have <= 16 {
      assert p / 16 == u - 1;
    } else {
      assert p / 16 == u - 2;
    }
  }

  /** A bit, a codeword of one bit, and the header of a stored block of the default size. */
  const SAMPLE: seq<byte> := [0, 0x1C, 1, 0, 0, 0, 1, 0, 0, 0, 1, 0, 0, 0, 0, 0]

  lemma SampleIs()
    ensures |SAMPLE| == 16
    ensures SAMPLE[0] == SAMPLE[3] == SAMPLE[4] == SAMPLE[5] == SAMPLE[7] == SAMPLE[8] == SAMPLE[9] == 0
    ensures SAMPLE[11] == SAMPLE[12] == SAMPLE[13] == SAMPLE[14] == SAMPLE[15] == 0
    ensures SAMPLE[1] == 0x1C && SAMPLE[2] == SAMPLE[6] == SAMPLE[10] == 1
  {
  }

  const TWO: Lens := [1, 1]

  lemma TwoIsComplete()
    ensures Complete(TWO, 16)
  {
    Pow2Literals();
    assert TWO[..1] == [1] && TWO[..1][..0] == [];
    assert Kraft([1], 16) == Pow2(15);
  }

  lemma TwoHasOneBit(s: nat)
    ensures s < |TWO| ==> TWO[s] == 1
  {
  }

  lemma FirstBit() returns (r: Reader)
    ensures Sound(SAMPLE, Reader(0, 0, 0)) && r == BitsRead(SAMPLE, Reader(0, 0, 0), 1).1
    ensures Sound(SAMPLE, r) && Reached(SAMPLE, r, 1) && r.have == 15 && r.next == 2
  {
    SampleIs();
    hide SAMPLE, Bits, Reached, Unit, Peeked;
    ShlZero(0);
    StreamIsBits(SAMPLE, 0);
    EnsuredReached(SAMPLE, Reader(0, 0, 0), 0, 1);
    EnsuredSound(SAMPLE, Reader(0, 0, 0), 1);
    DroppedReached(SAMPLE, Ensured(SAMPLE, Reader(0, 0, 0), 1), 0, 1);
    r := BitsRead(SAMPLE, Reader(0, 0, 0), 1).1;
  }

  lemma OneSymbol(r: Reader) returns (r': Reader)
    requires Sound(SAMPLE, r) && Reached(SAMPLE, r, 1) && r.have == 15 && r.next == 2
    ensures r' == SymRead(SAMPLE, r, TWO, 16).1
    ensures Sound(SAMPLE, r') && Reached(SAMPLE, r', 2) && r'.have == 30 && r'.next == 4
  {
    hide Reached, Sound, SymAt, LenAt, Complete, Codeword, Bits;
    TwoIsComplete();
    SymReadIsBits(SAMPLE, r, 1, TWO, 16);
    SymReadDrops(SAMPLE, r, TWO, 16);
    TwoHasOneBit(SymRead(SAMPLE, r, TWO, 16).0);
    r' := SymRead(SAMPLE, r, TWO, 16).1;
  }

  lemma BitsOfSample()
    ensures Bits(SAMPLE, 2, 3) == 3 && Bits(SAMPLE, 5, 1) == 1
  {
    SampleIs();
    hide SAMPLE;
    ShrsOfUnit();
    hide Shr;
    assert BitOf(SAMPLE, 2) == 0 && BitOf(SAMPLE, 3) == 1 && BitOf(SAMPLE, 4) == 1 && BitOf(SAMPLE, 5) == 1;
    assert Bits(SAMPLE, 2, 1) == 0 && Bits(SAMPLE, 2, 2) == 1 && Bits(SAMPLE, 5, 0) == 0;
  }

  lemma ShrsOfUnit()
    ensures Shr(0x1C00, 13) == 0 && Shr(0x1C00, 12) == 1 && Shr(0x1C00, 11) == 3 && Shr(0x1C00, 10) == 7
  {
    Pow2Literals();
    ShrUnique(0x1C00, 7, 10);
    ShrShr(0x1C00, 10, 1);
    ShrShr(0x1C00, 10, 2);
    ShrShr(0x1C00, 10, 3);
  }

  lemma PeekedIsBits(r: Reader, p: nat, n: nat)
    requires Reached(SAMPLE, r, p) && n <= r.have
    ensures Peeked(r, n) == Bits(SAMPLE, p, n) && Reached(SAMPLE, Dropped(r, n), p + n)
  {
    hide Reached, Bits;
    LookIsBits(SAMPLE, r, p, n);
    DroppedReached(SAMPLE, r, p, n);
  }

  lemma TypeOfSample(r: Reader)
    requires Sound(SAMPLE, r) && Reached(SAMPLE, r, 2) && r.have == 30 && r.next == 4
    ensures var (t, d, r') := TypeRead(SAMPLE, r);
      t == BLOCKTYPE_UNCOMPRESSED && d && Reached(SAMPLE, r', 6) && r'.have == 26 && r'.next == 4
  {
    hide Reached, Sound, Bits;
    BitsOfSample();
    PeekedIsBits(r, 2, 3);
    PeekedIsBits(Dropped(r, 3), 5, 1);
  }

  /**
   * After one bit and a codeword of one bit, 30 bits are buffered, and the offsets of a stored block of the default
   * size are taken from two bytes too far: those on the boundary are all 1, and the last of those read is 0.
   */
  lemma BreakSkipsAUnit()
    ensures Sound(SAMPLE, Reader(0, 0, 0))
    ensures var r1 := BitsRead(SAMPLE, Reader(0, 0, 0), 1).1;
      Sound(SAMPLE, r1) && Sound(SAMPLE, SymRead(SAMPLE, r1, TWO, 16).1)
    ensures var r2 := SymRead(SAMPLE, BitsRead(SAMPLE, Reader(0, 0, 0), 1).1, TWO, 16).1;
      var (t, d, r3) := TypeRead(SAMPLE, r2);
      && t == BLOCKTYPE_UNCOMPRESSED && d && Reached(SAMPLE, r3, 6) && r3.have == 26
      && Ensured(SAMPLE, r3, 1).next == Boundary(6) + 2 && !Nonzero(RecentRead(SAMPLE, r3).0)
    ensures Sound(SAMPLE, Reader(0, 16, Boundary(6)))
    ensures RecentRead(SAMPLE, Reader(0, 16, Boundary(6))).0 == Recent(1, 1, 1)
  {
    var r1 := FirstBit();
    var r2 := OneSymbol(r1);
    TypeOfSample(r2);
    hide *;
    OffsetsAhead(TypeRead(SAMPLE, r2).2);
    OffsetsOnBoundary();
  }

  lemma OffsetsAhead(r: Reader)
    requires Sound(SAMPLE, r) && r.have == 26 && r.next == 4
    ensures Ensured(SAMPLE, r, 1).next == Boundary(6) + 2 && !Nonzero(RecentRead(SAMPLE, r).0)
  {
    SampleIs();
    hide SAMPLE, Unit;
    WordsAreRead(SAMPLE, Reader(0, 0, 4));
    WordsAreRead(SAMPLE, Reader(0, 0, 8));
    WordsAreRead(SAMPLE, Reader(0, 0, 12));
    hide U32Read;
  }

  lemma OffsetsOnBoundary()
    ensures Sound(SAMPLE, Reader(0, 16, Boundary(6)))
    ensures RecentRead(SAMPLE, Reader(0, 16, Boundary(6))).0 == Recent(1, 1, 1)
  {
    SampleIs();
    hide SAMPLE, Unit;
    Pow2Literals();
    WordsAreRead(SAMPLE, Reader(0, 0, 2));
    WordsAreRead(SAMPLE, Reader(0, 0, 6));
    WordsAreRead(SAMPLE, Reader(0, 0, 10));
    hide U32Read;
  }
}
