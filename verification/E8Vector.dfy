/**
 The vector form of the E8 filter: blocks of 32 bytes compared at once, a 64-bit mask of the
 positions that are not part of an earlier target, and a trap byte instead of an end check.
 A mask is a sequence of flags, least significant bit first.
 */
module E8Vector {
  import opened Bitstream
  import opened E8Filter

  type Mask = seq<bool>

  function Max(a: nat, b: nat): nat {
    if a < b then b else a
  }

  /** From bit `cur` on, the mask says which positions lie past `busy`, the end of the last target. */
  ghost predicate MaskHolds(mask: Mask, p: nat, busy: nat, cur: nat) {
    |mask| == 64 && forall j {:trigger mask[j]} | cur <= j < 64 :: mask[j] <==> p + j >= busy
  }

  /** `mask &= ~(0x1F << bit)` */
  function ClearFive(mask: Mask, bit: nat): (r: Mask)
    ensures |r| == |mask|
    ensures forall j | 0 <= j < |mask| :: r[j] <==> mask[j] && !(bit <= j < bit + 5)
  {
    seq(|mask|, j requires 0 <= j < |mask| => mask[j] && !(bit <= j < bit + 5))
  }

  /** `mask >>= n`, then the top `n` bits set. */
  function ShiftMask(mask: Mask, n: nat): (r: Mask)
    requires n <= |mask|
    ensures |r| == |mask|
    ensures forall j | 0 <= j < |mask| :: r[j] <==> j + n >= |mask| || mask[j + n]
  {
    mask[n..] + seq(n, _ => true)
  }

  function AllSet(): (r: Mask)
    ensures |r| == 64 && forall j | 0 <= j < 64 :: r[j]
  {
    seq(64, _ => true)
  }

  /** The low bits of both: `e8 &= mask`. */
  function And(e8: Mask, mask: Mask): (r: Mask)
    requires |e8| <= |mask|
    ensures |r| == |e8| && forall j | 0 <= j < |r| :: r[j] <==> e8[j] && mask[j]
  {
    seq(|e8|, j requires 0 <= j < |e8| => e8[j] && mask[j])
  }

  /** Compares 32 bytes with E8 at once. */
  function CompareBlock(block: seq<byte>): (r: Mask)
    requires |block| == 32
    ensures |r| == 32 && forall j | 0 <= j < 32 :: r[j] <==> block[j] == E8
  {
    seq(32, j requires 0 <= j < 32 => block[j] == E8)
  }

  /** The index of the lowest set bit, or the width when none is set. */
  method LowestSet(e8: Mask) returns (bit: nat)
    ensures bit <= |e8| && (bit < |e8| ==> e8[bit])
    ensures forall j | 0 <= j < bit :: !e8[j]
  {
    bit := 0;
    while bit < |e8| && !e8[bit]
      invariant bit <= |e8| && forall j | 0 <= j < bit :: !e8[j]
    {
      bit := bit + 1;
    }
  }

  /** One position, one byte at a time: used before the first aligned block and near the end. */
  method StepByte(dir: Direction, data: array<byte>, p: nat, mask: Mask, ghost busy: nat)
    returns (mask': Mask, ghost busy': nat)
    requires InRange(data[..]) && p + 10 < data.Length
    requires MaskHolds(mask, p, busy, 0) && busy <= p + 4
    modifies data
    ensures MaskHolds(mask', p + 1, busy', 0) && busy' <= p + 5
    ensures Scan(dir, data[..], Max(p + 1, busy')) == Scan(dir, old(data[..]), Max(p, busy))
  {
    mask', busy' := mask, busy;
    if data[p] == E8 && mask[0] {
      ProcessTarget(dir, data, p);
      mask' := ClearFive(mask, 0);
      busy' := p + 5;
    }
    mask' := ShiftMask(mask', 1);
  }

  /** The buffer with the byte under the trap put back. */
  function Untrapped(s: seq<byte>, trap: nat, saved: byte): seq<byte>
    requires trap < |s|
  {
    s[trap := saved]
  }

  lemma ProcessUntrapped(dir: Direction, s: seq<byte>, trap: nat, saved: byte, q: nat)
    requires InRange(s) && trap < |s| && q + 5 <= trap
    ensures Process(dir, Untrapped(s, trap, saved), q) == Untrapped(Process(dir, s, q), trap, saved)
  {
    assert Untrapped(s, trap, saved)[q + 1..q + 5] == s[q + 1..q + 5];
  }

  /** Where the scan of the real buffer stands: at bit `cur` of the block at `p`, or past the last target. */
  function ScanFrom(dir: Direction, s: seq<byte>, trap: nat, saved: byte, p: nat, busy: nat): seq<byte>
    requires InRange(s) && trap < |s|
  {
    Scan(dir, Untrapped(s, trap, saved), Max(p, busy))
  }

  /** Positions that hold no E8, or lie in a target, are passed over. */
  lemma SkipTo(dir: Direction, s: seq<byte>, trap: nat, saved: byte, p: nat, q: nat, busy: nat)
    requires InRange(s) && trap < |s| && p <= q <= trap
    requires forall k {:trigger s[k]} | p <= k < q && k >= busy :: s[k] != E8
    ensures ScanFrom(dir, s, trap, saved, p, busy) == ScanFrom(dir, s, trap, saved, q, busy)
  {
    ScanSkips(dir, Untrapped(s, trap, saved), Max(p, busy), Max(q, busy));
  }

  /** The state inside a block: bits below `cur` are done. */
  ghost predicate InBlock(s: seq<byte>, trap: nat, p: nat, mask: Mask, loaded: Mask, e8: Mask, cur: nat, busy: nat) {
    && InRange(s) && trap < |s| && p + 36 <= trap && cur <= 32 && busy <= p + cur + 4
    && |loaded| == 32 && |e8| == 32
    && MaskHolds(mask, p, busy, cur)
    && (forall j {:trigger e8[j]} | 0 <= j < 32 :: e8[j] <==> loaded[j] && mask[j])
    && (forall j {:trigger e8[j]} | 0 <= j < cur :: !e8[j])
    && forall j {:trigger loaded[j]} | cur <= j < 32 && p + j >= busy :: loaded[j] <==> s[p + j] == E8
  }

  lemma NextBit(dir: Direction, s: seq<byte>, trap: nat, saved: byte, p: nat, mask: Mask, loaded: Mask, e8: Mask,
                cur: nat, busy: nat, bit: nat)
    requires InBlock(s, trap, p, mask, loaded, e8, cur, busy)
    requires cur <= bit <= 32 && forall j | 0 <= j < bit :: !e8[j]
    ensures ScanFrom(dir, s, trap, saved, p + cur, busy) == ScanFrom(dir, s, trap, saved, p + bit, busy)
  {
    forall k {:trigger s[k]} | p + cur <= k < p + bit && k >= busy
      ensures s[k] != E8
    {
      var j := k - p;
      assert !e8[j] && mask[j];
      assert !loaded[j];
    }
    SkipTo(dir, s, trap, saved, p + cur, p + bit, busy);
  }

  lemma InBlockNext(s: seq<byte>, r: seq<byte>, trap: nat, p: nat, mask: Mask, loaded: Mask, e8: Mask,
                    cur: nat, busy: nat, bit: nat)
    requires InBlock(s, trap, p, mask, loaded, e8, cur, busy)
    requires cur <= bit < 32 && e8[bit] && forall j | 0 <= j < bit :: !e8[j]
    requires |r| == |s| && forall k {:trigger r[k]} | p + bit + 5 <= k < |s| :: r[k] == s[k]
    ensures var mask' := ClearFive(mask, bit);
            InBlock(r, trap, p, mask', loaded, And(e8, mask'), bit + 1, p + bit + 5)
  {
    assert mask[bit];
    var mask' := ClearFive(mask, bit);
    forall j {:trigger mask'[j]} | bit + 1 <= j < 64
      ensures mask'[j] <==> p + j >= p + bit + 5
    {
      assert mask[j] <==> p + j >= busy;
    }
    forall j {:trigger loaded[j]} | bit + 1 <= j < 32 && p + j >= p + bit + 5
      ensures loaded[j] <==> r[p + j] == E8
    {
      assert r[p + j] == s[p + j];
    }
  }

  lemma ScanCall(dir: Direction, s: seq<byte>, trap: nat, saved: byte, q: nat, busy: nat)
    requires InRange(s) && q + 5 <= trap && trap + 6 <= |s| && busy <= q && s[q] == E8
    ensures ScanFrom(dir, s, trap, saved, q, busy) == ScanFrom(dir, Process(dir, s, q), trap, saved, q + 1, q + 5)
  {
    ProcessUntrapped(dir, s, trap, saved, q);
  }

  method ProcessBit(dir: Direction, data: array<byte>, p: nat, mask: Mask, e8: Mask, bit: nat,
                    ghost trap: nat, ghost saved: byte, ghost loaded: Mask, ghost cur: nat, ghost busy: nat)
    returns (mask': Mask, e8': Mask)
    requires InBlock(data[..], trap, p, mask, loaded, e8, cur, busy) && trap + 6 <= data.Length
    requires bit < 32 && e8[bit] && forall j | 0 <= j < bit :: !e8[j]
    modifies data
    ensures data[trap] == old(data[trap])
    ensures InBlock(data[..], trap, p, mask', loaded, e8', bit + 1, p + bit + 5)
    ensures ScanFrom(dir, data[..], trap, saved, p + bit + 1, p + bit + 5)
         == ScanFrom(dir, old(data[..]), trap, saved, p + cur, busy)
  {
    ghost var s := data[..];
    assert mask[bit] && loaded[bit] && s[p + bit] == E8 && p + bit >= busy;
    hide ScanFrom, Process;
    NextBit(dir, s, trap, saved, p, mask, loaded, e8, cur, busy, bit);
    ScanCall(dir, s, trap, saved, p + bit, busy);
    InBlockNext(s, Process(dir, s, p + bit), trap, p, mask, loaded, e8, cur, busy, bit);
    ProcessTarget(dir, data, p + bit);
    assert data[..][trap] == s[trap];
    mask' := ClearFive(mask, bit);
    e8' := And(e8, mask');
  }

  /** One block: every E8 byte outside earlier targets is processed, lowest first. */
  method ProcessBlock(dir: Direction, data: array<byte>, p: nat, mask: Mask, ghost trap: nat, ghost saved: byte,
                      ghost busy: nat)
    returns (mask': Mask, ghost busy': nat)
    requires InRange(data[..]) && trap + 6 <= data.Length && p + 36 <= trap
    requires MaskHolds(mask, p, busy, 0) && busy <= p + 4
    modifies data
    ensures data[trap] == old(data[trap])
    ensures MaskHolds(mask', p + 32, busy', 0) && busy' <= p + 36
    ensures ScanFrom(dir, data[..], trap, saved, p + 32, busy') == ScanFrom(dir, old(data[..]), trap, saved, p, busy)
  {
    var loaded := CompareBlock(data[p..p + 32]);
    var e8 := And(loaded, mask);
    mask', busy' := mask, busy;
    ghost var cur := 0;
    var bit := LowestSet(e8);
    while bit < 32
      invariant InBlock(data[..], trap, p, mask', loaded, e8, cur, busy')
      invariant bit <= 32 && (bit < 32 ==> e8[bit]) && forall j | 0 <= j < bit :: !e8[j]
      invariant data[trap] == old(data[trap])
      invariant ScanFrom(dir, data[..], trap, saved, p + cur, busy')
             == ScanFrom(dir, old(data[..]), trap, saved, p, busy)
      decreases 32 - cur
    {
      mask', e8 := ProcessBit(dir, data, p, mask', e8, bit, trap, saved, loaded, cur, busy');
      cur, busy' := bit + 1, p + bit + 5;
      bit := LowestSet(e8);
    }
    NextBit(dir, data[..], trap, saved, p, mask', loaded, e8, cur, busy', 32);
    mask' := ShiftMask(mask', 32);
  }

  /** Passes over blocks without an E8 byte; the trap ends the search at the last full block. */
  method FindBlock(ghost dir: Direction, data: array<byte>, p0: nat, mask: Mask, trap: nat, ghost saved: byte,
                   ghost busy: nat, ghost left0: nat)
    returns (p: nat, mask': Mask, ghost busy': nat, ghost left: nat)
    requires InRange(data[..]) && trap + 28 <= data.Length && data[trap] == E8
    requires trap == p0 + 4 + 32 * left0
    requires MaskHolds(mask, p0, busy, 0) && busy <= p0 + 4
    ensures p0 <= p && left <= left0 && trap == p + 4 + 32 * left
    ensures MaskHolds(mask', p, busy', 0) && busy' <= p + 4
    ensures ScanFrom(dir, data[..], trap, saved, p, busy') == ScanFrom(dir, data[..], trap, saved, p0, busy)
  {
    p, left := p0, left0;
    var e8 := CompareBlock(data[p..p + 32]);
    var bit := LowestSet(e8);
    while bit == 32
      invariant p0 <= p && trap == p + 4 + 32 * left
      invariant |e8| == 32 && forall j | 0 <= j < 32 :: e8[j] <==> data[p + j] == E8
      invariant bit <= 32 && forall j | 0 <= j < bit :: !e8[j]
      invariant forall k {:trigger data[k]} | p0 <= k < p :: data[k] != E8
      decreases left
    {
      assert left > 0 by { assert !e8[4]; }
      forall k {:trigger data[k]} | p <= k < p + 32
        ensures data[k] != E8
      {
        var j := k - p;
        assert !e8[j];
      }
      p, left := p + 32, left - 1;
      e8 := CompareBlock(data[p..p + 32]);
      bit := LowestSet(e8);
    }
    SkipTo(dir, data[..], trap, saved, p0, p, busy);
    mask', busy' := mask, busy;
    if p != p0 {
      mask' := AllSet();
      busy' := p;
    }
  }

  /** The vectorised part, from an aligned position up to the last full block. */
  method VectorBlocks(dir: Direction, data: array<byte>, p0: nat, mask0: Mask, ghost busy0: nat)
    returns (p: nat, mask: Mask, ghost busy: nat)
    requires InRange(data[..]) && p0 + 64 <= data.Length
    requires MaskHolds(mask0, p0, busy0, 0) && busy0 <= p0 + 4
    modifies data
    ensures p < data.Length && MaskHolds(mask, p, busy, 0) && busy <= p + 4
    ensures Scan(dir, data[..], Max(p, busy)) == Scan(dir, old(data[..]), Max(p0, busy0))
  {
    var trap := p0 + (data.Length - p0) / 32 * 32 - 32 + 4;
    var saved := data[trap];
    data[trap] := E8;
    assert Untrapped(data[..], trap, saved) == old(data[..]);
    p, mask, busy := p0, mask0, busy0;
    ghost var left: nat := (data.Length - p0) / 32 - 1;
    while true
      invariant trap == p + 4 + 32 * left && data[trap] == E8
      invariant MaskHolds(mask, p, busy, 0) && busy <= p + 4
      invariant ScanFrom(dir, data[..], trap, saved, p, busy) == Scan(dir, old(data[..]), Max(p0, busy0))
      decreases left
    {
      p, mask, busy, left := FindBlock(dir, data, p, mask, trap, saved, busy, left);
      if p == trap - 4 {
        break;
      }
      mask, busy := ProcessBlock(dir, data, p, mask, trap, saved, busy);
      p, left := p + 32, left - 1;
    }
    ghost var s := data[..];
    data[trap] := saved;
    assert data[..] == Untrapped(s, trap, saved);
  }

  /** `addr` is the buffer's address, `align` the alignment the vector loads need. */
  method VectorFilter(dir: Direction, data: array<byte>, addr: nat, align: nat)
    requires InRange(data[..]) && align > 0
    modifies data
    ensures data[..] == Scan(dir, old(data[..]), 0)
  {
    var size := data.Length;
    if size <= 10 {
      return;
    }
    var p: nat, mask := 0, AllSet();
    ghost var busy: nat := 0;
    while (addr + p) % align != 0
      invariant p < size && MaskHolds(mask, p, busy, 0) && busy <= p + 4
      invariant Scan(dir, data[..], Max(p, busy)) == Scan(dir, old(data[..]), 0)
      decreases size - p
    {
      if p + 10 >= size {
        return;
      }
      mask, busy := StepByte(dir, data, p, mask, busy);
      p := p + 1;
    }
    if size - p >= 64 {
      p, mask, busy := VectorBlocks(dir, data, p, mask, busy);
    }
    while p + 10 < size
      invariant MaskHolds(mask, p, busy, 0) && busy <= p + 4
      invariant Scan(dir, data[..], Max(p, busy)) == Scan(dir, old(data[..]), 0)
      decreases size - p
    {
      mask, busy := StepByte(dir, data, p, mask, busy);
      p := p + 1;
    }
  }
}
