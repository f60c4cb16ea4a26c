/**
 Writing what the input bitstream reads: fields of bits, whole bytes among them, and breaks to the next unit. The
 bits go high to low into little-endian units, and a unit stands where the reader takes it in: before the
 bytes that it reads only after asking for some of the unit's bits.
 */
module BitWriter {
  import opened Shifts
  import opened Bitstream
  import opened CanonicalCode
  import opened HuffmanTable
  import opened HuffmanDecode

  type Bit = b: nat | b < 2

  /** Bit `k`; zeros follow the last one. */
  function At(bits: seq<Bit>, k: nat): Bit {
    if k < |bits| then bits[k] else 0
  }

  /** The number that the `n` bits from number `p` on make. */
  function Num(bits: seq<Bit>, p: nat, n: nat): nat {
    if n == 0 then 0 else 2 * Num(bits, p, n - 1) + At(bits, p + n - 1)
  }

  /** The last `n` bits of `x`, high to low. */
  function ToBits(x: nat, n: nat): (bits: seq<Bit>)
    ensures |bits| == n
  {
    if n == 0 then [] else ToBits(x / 2, n - 1) + [x % 2]
  }

  lemma {:induction false} ToBitsIsNum(x: nat, n: nat, before: seq<Bit>, after: seq<Bit>)
    requires x < Pow2(n)
    ensures Num(before + ToBits(x, n) + after, |before|, n) == x
  {
    if 0 < n {
      ToBitsIsNum(x / 2, n - 1, before, [x % 2] + after);
      assert before + ToBits(x, n) + after == before + ToBits(x / 2, n - 1) + ([x % 2] + after);
    }
  }

  lemma {:induction false} NumConcat(bits: seq<Bit>, p: nat, a: nat, b: nat)
    ensures Num(bits, p, a + b) == Shl(Num(bits, p, a), b) + Num(bits, p + a, b)
  {
    if 0 < b {
      NumConcat(bits, p, a, b - 1);
      assert Num(bits, p, a + b) == 2 * Num(bits, p, a + (b - 1)) + At(bits, p + a + b - 1);
    }
  }

  lemma {:induction false} NumBelow(bits: seq<Bit>, p: nat, n: nat)
    ensures Num(bits, p, n) < Pow2(n)
  {
    if 0 < n {
      NumBelow(bits, p, n - 1);
    }
  }

  // ----- the layout -----

  /**
   * A field of `n` bits, before which the reader asks for `room` of them; bytes between the bits; or a break,
   * where the reader gives up what is left of the units it has.
   */
  datatype Op = Field(room: nat, n: nat, x: nat) | Raw(bytes: seq<byte>) | Break

  predicate OpOk(op: Op) {
    op.Field? ==> op.n <= op.room <= 17 && op.x < Pow2(op.n)
  }

  predicate AllOk(ops: seq<Op>) {
    forall op :: op in ops ==> OpOk(op)
  }

  lemma AllOkConcat(a: seq<Op>, b: seq<Op>)
    requires AllOk(a) && AllOk(b)
    ensures AllOk(a + b)
  {
    hide OpOk;
  }

  /** The bits up to the next break. */
  function OpBits(ops: seq<Op>): seq<Bit> {
    if ops == [] || ops[0].Break? then []
    else if ops[0].Raw? then OpBits(ops[1..])
    else ToBits(ops[0].x, ops[0].n) + OpBits(ops[1..])
  }

  function UnitBytes(bits: seq<Bit>, u: nat): (bytes: seq<byte>)
    ensures |bytes| == 2
  {
    var x := Num(bits, 16 * u, 16);
    NumBelow(bits, 16 * u, 16);
    Pow2Literals();
    [x % 256, x / 256]
  }

  function UnitsBytes(bits: seq<Bit>, u: nat, count: nat): (bytes: seq<byte>)
    ensures |bytes| == 2 * count
    decreases count
  {
    if count == 0 then [] else UnitBytes(bits, u) + UnitsBytes(bits, u + 1, count - 1)
  }

  /** How many units the reader takes in when it asks for `room` bits and has `have`. */
  function Taken(have: nat, room: nat): nat {
    if have >= room then 0 else if room == 17 && have == 0 then 2 else 1
  }

  /** What is written, when `p` of the bits have been read and `u` units been taken in. */
  function Layout(bits: seq<Bit>, ops: seq<Op>, p: nat, u: nat): seq<byte>
    requires p <= 16 * u && AllOk(ops)
    decreases |ops|
  {
    if ops == [] then []
    else
      match ops[0]
      case Field(room, n, _) =>
        var k := Taken(16 * u - p, room);
        assert OpOk(ops[0]);
        UnitsBytes(bits, u, k) + Layout(bits, ops[1..], p + n, u + k)
      case Raw(bytes) => bytes + Layout(bits, ops[1..], p, u)
      case Break => UnitsBytes(bits, u, Taken(16 * u - p, 1)) + Layout(OpBits(ops[1..]), ops[1..], 0, 0)
  }

  function Written(ops: seq<Op>): seq<byte>
    requires AllOk(ops)
  {
    Layout(OpBits(ops), ops, 0, 0)
  }

  // ----- reading it -----

  /** The reader has taken in `u` units of the bits and given out the first `p`. */
  ghost predicate Stands(bits: seq<Bit>, r: Reader, p: nat, u: nat) {
    p <= 16 * u && r.have == 16 * u - p <= 32 && r.acc == Num(bits, p, r.have)
  }

  /** These operations are what is left to read. */
  ghost predicate AheadAt(buf: seq<byte>, r: Reader, ops: seq<Op>, bits: seq<Bit>, p: nat, u: nat) {
    && Stands(bits, r, p, u) && AllOk(ops) && p <= |bits| && bits[p..] == OpBits(ops)
    && r.next <= |buf| && buf[r.next..] == Layout(bits, ops, p, u)
  }

  ghost predicate Ahead(buf: seq<byte>, r: Reader, ops: seq<Op>) {
    exists bits, p, u :: AheadAt(buf, r, ops, bits, p, u)
  }

  lemma AheadFirst(ops: seq<Op>)
    requires AllOk(ops)
    ensures Ahead(Written(ops), Reader(0, 0, 0), ops)
  {
    assert AheadAt(Written(ops), Reader(0, 0, 0), ops, OpBits(ops), 0, 0);
  }

  lemma AheadIsSound(buf: seq<byte>, r: Reader, ops: seq<Op>)
    requires Ahead(buf, r, ops)
    ensures Sound(buf, r)
  {
    var bits: seq<Bit>, p: nat, u: nat :| AheadAt(buf, r, ops, bits, p, u);
    NumBelow(bits, p, r.have);
  }

  lemma RefillStands(buf: seq<byte>, r: Reader, bits: seq<Bit>, p: nat, u: nat)
    requires Stands(bits, r, p, u) && r.have <= 16 && r.next + 2 <= |buf|
    requires buf[r.next..r.next + 2] == UnitBytes(bits, u)
    ensures Stands(bits, Refill(buf, r), p, u + 1)
  {
    hide Num, Shl;
    NumConcat(bits, p, r.have, 16);
    assert UnitBytes(bits, u) == [buf[r.next], buf[r.next + 1]];
  }

  /** Asking for bits takes in the units that are there. */
  lemma EnsuredStands(buf: seq<byte>, r: Reader, bits: seq<Bit>, p: nat, u: nat, room: nat, rest: seq<byte>)
    requires Stands(bits, r, p, u) && room <= 17 && r.next <= |buf|
    requires buf[r.next..] == UnitsBytes(bits, u, Taken(r.have, room)) + rest
    ensures var k, e := Taken(r.have, room), Ensured(buf, r, room);
      Stands(bits, e, p, u + k) && room <= e.have && e.next == r.next + 2 * k <= |buf| && buf[e.next..] == rest
  {
    hide Stands, Refill, UnitBytes;
    StandsHave(bits, r, p, u);
    var k := Taken(r.have, room);
    if 0 < k {
      var more := UnitsBytes(bits, u + 1, k - 1) + rest;
      assert buf[r.next..] == UnitBytes(bits, u) + more;
      OneTaken(buf, r, bits, p, u, more);
      var r1 := Refill(buf, r);
      if 1 < k {
        assert more == UnitBytes(bits, u + 1) + rest;
        OneTaken(buf, r1, bits, p, u + 1, rest);
      }
    }
  }

  lemma StandsHave(bits: seq<Bit>, r: Reader, p: nat, u: nat)
    requires Stands(bits, r, p, u)
    ensures p <= 16 * u && r.have == 16 * u - p <= 32
  {
  }

  lemma OneTaken(buf: seq<byte>, r: Reader, bits: seq<Bit>, p: nat, u: nat, more: seq<byte>)
    requires Stands(bits, r, p, u) && r.have <= 16 && r.next <= |buf|
    requires buf[r.next..] == UnitBytes(bits, u) + more
    ensures r.next + 2 <= |buf| && Stands(bits, Refill(buf, r), p, u + 1)
    ensures Refill(buf, r).next == r.next + 2 && Refill(buf, r).have == r.have + 16 && buf[r.next + 2..] == more
  {
    hide Stands, UnitBytes;
    assert |buf[r.next..]| == 2 + |more|;
    assert buf[r.next..r.next + 2] == buf[r.next..][..2] == UnitBytes(bits, u);
    assert buf[r.next + 2..] == buf[r.next..][2..] == more;
    RefillStands(buf, r, bits, p, u);
  }

  lemma DroppedStands(r: Reader, bits: seq<Bit>, p: nat, u: nat, n: nat)
    requires Stands(bits, r, p, u) && n <= r.have
    ensures Peeked(r, n) == Num(bits, p, n) && Stands(bits, Dropped(r, n), p + n, u)
  {
    hide Num, Shl, Shr, Low;
    var m := r.have - n;
    NumConcat(bits, p, n, m);
    NumBelow(bits, p + n, m);
    LowOfShl(Num(bits, p, n), m, Num(bits, p + n, m));
    ShrOfShl(Num(bits, p, n), m, Num(bits, p + n, m));
  }

  /** A field is read as the number that was written, and what follows it is ahead. */
  lemma FieldIsRead(buf: seq<byte>, r: Reader, room: nat, n: nat, x: nat, rest: seq<Op>)
    requires Ahead(buf, r, [Field(room, n, x)] + rest)
    ensures n <= room <= 17 && r.have <= 32 && room <= Ensured(buf, r, room).have && x < Pow2(n)
    ensures var e := Ensured(buf, r, room); Peeked(e, n) == x && Ahead(buf, Dropped(e, n), rest)
  {
    hide Stands, Num, Peeked, Dropped, Pow2, Ensured, UnitsBytes;
    var ops := [Field(room, n, x)] + rest;
    assert ops[0] == Field(room, n, x) && ops[1..] == rest && OpOk(ops[0]);
    var bits: seq<Bit>, p: nat, u: nat :| AheadAt(buf, r, ops, bits, p, u);
    StandsHave(bits, r, p, u);
    var k := Taken(r.have, room);
    EnsuredStands(buf, r, bits, p, u, room, Layout(bits, rest, p + n, u + k));
    var e := Ensured(buf, r, room);
    DroppedStands(e, bits, p, u + k, n);
    assert bits == bits[..p] + ToBits(x, n) + OpBits(rest);
    ToBitsIsNum(x, n, bits[..p], OpBits(rest));
    assert bits[p + n..] == OpBits(rest);
    assert AheadAt(buf, Dropped(e, n), rest, bits, p + n, u + k);
  }

  /** Bytes are where the reader goes on. */
  lemma BytesAreRead(buf: seq<byte>, r: Reader, bytes: seq<byte>, rest: seq<Op>)
    requires Ahead(buf, r, [Raw(bytes)] + rest)
    ensures r.next + |bytes| <= |buf| && buf[r.next..r.next + |bytes|] == bytes
    ensures Ahead(buf, r.(next := r.next + |bytes|), rest)
  {
    hide Num;
    var ops := [Raw(bytes)] + rest;
    assert ops[0] == Raw(bytes) && ops[1..] == rest;
    var bits: seq<Bit>, p: nat, u: nat :| AheadAt(buf, r, ops, bits, p, u);
    var more := Layout(bits, rest, p, u);
    assert buf[r.next..] == bytes + more;
    assert |buf[r.next..]| == |bytes| + |more|;
    assert buf[r.next..r.next + |bytes|] == buf[r.next..][..|bytes|] == bytes;
    assert buf[r.next + |bytes|..] == buf[r.next..][|bytes|..] == more;
    assert AheadAt(buf, r.(next := r.next + |bytes|), rest, bits, p, u);
  }

  /** A break: what is left of the units is given up, or if nothing is left a whole one. */
  lemma BreakIsRead(buf: seq<byte>, r: Reader, rest: seq<Op>)
    requires Ahead(buf, r, [Break] + rest)
    ensures r.have <= 32 && Ahead(buf, Reader(0, 0, Ensured(buf, r, 1).next), rest)
  {
    hide Stands, Num, Ensured, UnitsBytes;
    var ops := [Break] + rest;
    assert ops[0] == Break && ops[1..] == rest;
    var bits: seq<Bit>, p: nat, u: nat :| AheadAt(buf, r, ops, bits, p, u);
    StandsHave(bits, r, p, u);
    EnsuredStands(buf, r, bits, p, u, 1, Layout(OpBits(rest), rest, 0, 0));
    var r' := Reader(0, 0, Ensured(buf, r, 1).next);
    assert Stands(OpBits(rest), r', 0, 0) by {
      NothingStands(OpBits(rest), r');
    }
    assert AheadAt(buf, r', rest, OpBits(rest), 0, 0);
  }

  lemma NothingStands(bits: seq<Bit>, r: Reader)
    requires r.acc == r.have == 0
    ensures Stands(bits, r, 0, 0)
  {
  }

  // ----- symbols -----

  /** The codeword of a symbol. */
  function SymOp(lens: Lens, m: nat, s: nat): Op
    requires s < |lens| && 0 < lens[s]
  {
    Field(m, lens[s], Codeword(lens, s))
  }

  lemma SymIsRead(buf: seq<byte>, r: Reader, lens: Lens, m: nat, s: nat, rest: seq<Op>)
    requires 1 <= m <= 17 && Complete(lens, m) && s < |lens| && 0 < lens[s]
    requires Ahead(buf, r, [SymOp(lens, m, s)] + rest)
    ensures Sound(buf, r)
    ensures var (t, r') := SymRead(buf, r, lens, m); t == s && Ahead(buf, r', rest)
  {
    hide Ahead, Codeword, Complete, Peeked, Dropped, Pow2, Ensured, SymAt, LenAt;
    AheadIsSound(buf, r, [SymOp(lens, m, s)] + rest);
    FieldIsRead(buf, r, m, lens[s], Codeword(lens, s), rest);
    EnsuredSound(buf, r, m);
    LookIsPeeked(buf, r, m, lens[s]);
    SymReadIsUnique(buf, r, lens, m, s);
    SymReadTakes(buf, r, lens, m);
  }

  lemma LookIsPeeked(buf: seq<byte>, r: Reader, m: nat, n: nat)
    requires r.have <= 32 && n <= m <= 17 && n <= Ensured(buf, r, m).have
    ensures Look(buf, r, n) == Peeked(Ensured(buf, r, m), n)
  {
    EnsuredKeeps(buf, r, m, n);
  }

  lemma SymReadTakes(buf: seq<byte>, r: Reader, lens: Lens, m: nat)
    requires 1 <= m <= 17 && Sound(buf, r) && Complete(lens, m)
    ensures var (s, r') := SymRead(buf, r, lens, m);
      && s < |lens| && lens[s] <= Ensured(buf, r, m).have && r' == Dropped(Ensured(buf, r, m), lens[s])
  {
    EnsuredSound(buf, r, m);
    PeekBound(buf, Ensured(buf, r, m), m);
  }

  /** A codeword fits the bits it has. */
  lemma CodewordFits(lens: Lens, m: nat, s: nat)
    requires 1 <= m && Complete(lens, m) && s < |lens| && 0 < lens[s]
    ensures lens[s] <= m && Codeword(lens, s) < Pow2(lens[s])
  {
    hide FirstCode, Count, Kraft;
    var l := lens[s];
    RankBound(lens, s);
    assert EndCode(lens, l) == FirstCode(lens, l) + Count(lens, l);
    HiMonotone(lens, m, l, m);
    CompleteHi(lens, m);
    Pow2Shl(l, m - l);
    ShlCancel(EndCode(lens, l), Pow2(l), m - l);
  }

  lemma SymOpOk(lens: Lens, m: nat, s: nat)
    requires 1 <= m <= 17 && Complete(lens, m) && s < |lens| && 0 < lens[s]
    ensures OpOk(SymOp(lens, m, s))
  {
    hide Codeword, Pow2, Complete;
    CodewordFits(lens, m, s);
  }
}
