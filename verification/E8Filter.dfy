/**
 The E8 filter of LZX: call targets after E8 bytes are made absolute before compression and
 relative again after decompression.  `Scan` is the plain left-to-right reading of the filter;
 the two optimised forms are proved to do the same.
 */
module E8Filter {
  import opened Bitstream

  datatype Direction = Translate | Undo

  const MAGIC_FILESIZE: int := 12_000_000
  const E8: byte := 0xE8

  // ----- one call target -----

  /** What the filter makes of the target `t` of a call at `pos`; targets out of range stay. */
  function Retarget(dir: Direction, t: int, pos: nat): int {
    match dir
    case Translate =>
      if 0 <= t + pos && t < MAGIC_FILESIZE then
        if t + pos < MAGIC_FILESIZE then t + pos else t - MAGIC_FILESIZE
      else t
    case Undo =>
      if t >= 0 then
        if t < MAGIC_FILESIZE then t - pos else t
      else if t + pos >= 0 then t + MAGIC_FILESIZE
      else t
  }

  function Other(dir: Direction): Direction {
    if dir == Translate then Undo else Translate
  }

  /** The two directions undo each other, on every 32-bit target. */
  lemma RetargetInverse(dir: Direction, t: int, pos: nat)
    ensures Retarget(Other(dir), Retarget(dir, t, pos), pos) == t
  {}

  predicate Int32(t: int) {
    -0x8000_0000 <= t < 0x8000_0000
  }

  lemma RetargetInt32(dir: Direction, t: int, pos: nat)
    requires Int32(t) && pos < 0x8000_0000
    ensures Int32(Retarget(dir, t, pos))
  {}

  /** Four bytes, little-endian, as a signed number. */
  function FromBytes(b: seq<byte>): (t: int)
    requires |b| == 4
    ensures Int32(t)
  {
    var b0: int, b1: int, b2: int, b3: int := b[0], b[1], b[2], b[3];
    var v := b0 + 0x100 * b1 + 0x1_0000 * b2 + 0x100_0000 * b3;
    if v < 0x8000_0000 then v else v - 0x1_0000_0000
  }

  function ToBytes(t: int): (b: seq<byte>)
    requires Int32(t)
    ensures |b| == 4
  {
    var v := if t >= 0 then t else t + 0x1_0000_0000;
    var q1 := v / 0x100;
    var q2 := q1 / 0x100;
    [v % 0x100, q1 % 0x100, q2 % 0x100, q2 / 0x100]
  }

  lemma BytesRoundTrip(b: seq<byte>)
    requires |b| == 4
    ensures ToBytes(FromBytes(b)) == b
  {
    var b0: int, b1: int, b2: int, b3: int := b[0], b[1], b[2], b[3];
    var v := b0 + 0x100 * b1 + 0x1_0000 * b2 + 0x100_0000 * b3;
    assert v / 0x100 == b1 + 0x100 * b2 + 0x1_0000 * b3;
    assert v / 0x100 / 0x100 == b2 + 0x100 * b3;
  }

  lemma IntRoundTrip(t: int)
    requires Int32(t)
    ensures FromBytes(ToBytes(t)) == t
  {}

  // ----- the filter, read plainly -----

  predicate InRange(s: seq<byte>) {
    |s| <= 0x8000_0000
  }

  /** Rewrites the target of the call at `i`. */
  function Process(dir: Direction, s: seq<byte>, i: nat): (r: seq<byte>)
    requires InRange(s) && i + 5 <= |s|
    ensures |r| == |s|
    ensures forall k {:trigger r[k]} | 0 <= k < |s| && !(i < k < i + 5) :: r[k] == s[k]
  {
    RetargetInt32(dir, FromBytes(s[i + 1..i + 5]), i);
    s[..i + 1] + ToBytes(Retarget(dir, FromBytes(s[i + 1..i + 5]), i)) + s[i + 5..]
  }

  /** From position `i` on: an E8 byte that starts before the last ten bytes has its target rewritten. */
  function Scan(dir: Direction, s: seq<byte>, i: nat): (r: seq<byte>)
    requires InRange(s)
    ensures |r| == |s|
    decreases |s| - i
  {
    if i + 10 >= |s| then s
    else if s[i] == E8 then Scan(dir, Process(dir, s, i), i + 5)
    else Scan(dir, s, i + 1)
  }

  lemma {:induction false} ScanKeepsPrefix(dir: Direction, s: seq<byte>, i: nat)
    requires InRange(s)
    ensures forall k | 0 <= k < i && k < |s| :: Scan(dir, s, i)[k] == s[k]
    decreases |s| - i
  {
    if i + 10 < |s| {
      if s[i] == E8 { ScanKeepsPrefix(dir, Process(dir, s, i), i + 5); }
      else { ScanKeepsPrefix(dir, s, i + 1); }
    }
  }

  lemma ProcessInverse(dir: Direction, s: seq<byte>, i: nat)
    requires InRange(s) && i + 5 <= |s|
    ensures Process(Other(dir), Process(dir, s, i), i) == s
  {
    var b := s[i + 1..i + 5];
    var t := FromBytes(b);
    var r := Process(dir, s, i);
    RetargetInt32(dir, t, i);
    assert r[i + 1..i + 5] == ToBytes(Retarget(dir, t, i));
    IntRoundTrip(Retarget(dir, t, i));
    RetargetInverse(dir, t, i);
    BytesRoundTrip(b);
    assert s == s[..i + 1] + b + s[i + 5..];
    assert r[..i + 1] == s[..i + 1] && r[i + 5..] == s[i + 5..];
  }

  /** Targets of different calls do not overlap. */
  lemma ProcessCommute(dir: Direction, s: seq<byte>, j: nat, i: nat)
    requires InRange(s) && i + 5 <= j && j + 5 <= |s|
    ensures Process(dir, Process(dir, s, i), j) == Process(dir, Process(dir, s, j), i)
  {
    var l, r := Process(dir, Process(dir, s, i), j), Process(dir, Process(dir, s, j), i);
    assert Process(dir, s, i)[j + 1..j + 5] == s[j + 1..j + 5];
    assert Process(dir, s, j)[i + 1..i + 5] == s[i + 1..i + 5];
    forall k | 0 <= k < |s|
      ensures l[k] == r[k]
    {}
  }

  /** Filtering and filtering back restores every buffer. */
  lemma {:induction false} ScanInverse(dir: Direction, s: seq<byte>, i: nat)
    requires InRange(s)
    ensures Scan(Other(dir), Scan(dir, s, i), i) == s
    decreases |s| - i
  {
    hide Process;
    if i + 10 < |s| {
      if s[i] == E8 {
        var p := Process(dir, s, i);
        var r := Scan(dir, p, i + 5);
        ScanInverse(dir, p, i + 5);
        ScanKeepsPrefix(dir, p, i + 5);
        assert r[i] == E8;
        ScanPastProcess(Other(dir), r, i, i + 5);
        ProcessInverse(dir, s, i);
      } else {
        ScanInverse(dir, s, i + 1);
        ScanKeepsPrefix(dir, s, i + 1);
        assert Scan(dir, s, i + 1)[i] == s[i];
      }
    }
  }

  /** The scan ahead neither sees nor changes the target of a call behind it. */
  lemma {:induction false} ScanPastProcess(dir: Direction, r: seq<byte>, i: nat, j: nat)
    requires InRange(r) && i + 5 <= j && i + 5 <= |r|
    ensures Scan(dir, Process(dir, r, i), j) == Process(dir, Scan(dir, r, j), i)
    decreases |r| - j
  {
    hide Process;
    if j + 10 < |r| {
      if r[j] == E8 {
        ScanPastProcess(dir, Process(dir, r, j), i, j + 5);
        ProcessCommute(dir, r, j, i);
      } else {
        ScanPastProcess(dir, r, i, j + 1);
      }
    }
  }

  /** Where there is no E8 byte there is nothing to do. */
  lemma {:induction false} ScanSkips(dir: Direction, s: seq<byte>, i: nat, j: nat)
    requires InRange(s) && i <= j
    requires forall k | i <= k < j && k + 10 < |s| :: s[k] != E8
    ensures Scan(dir, s, i) == Scan(dir, s, j)
    decreases j - i
  {
    if i < j { ScanSkips(dir, s, i + 1, j); }
  }

  lemma ScanNothing(dir: Direction, s: seq<byte>)
    requires InRange(s) && E8 !in s
    ensures Scan(dir, s, 0) == s
  {
    ScanSkips(dir, s, 0, |s|);
  }

  // ----- the filter, with the end-of-buffer check moved into the E8 case -----

  method ProcessTarget(dir: Direction, data: array<byte>, p: nat)
    requires InRange(data[..]) && p + 5 <= data.Length
    modifies data
    ensures data[..] == Process(dir, old(data[..]), p)
  {
    var t := FromBytes(data[p + 1..p + 5]);
    RetargetInt32(dir, t, p);
    var b := ToBytes(Retarget(dir, t, p));
    forall i | 0 <= i < 4 {
      data[p + 1 + i] := b[i];
    }
    ghost var r := Process(dir, old(data[..]), p);
    assert forall k | p + 1 <= k < p + 5 :: data[k] == b[k - (p + 1)] == r[k];
  }

  /** The tail: the six bytes that the scalar form overwrites with E8. */
  ghost predicate Tailed(s: seq<byte>) {
    |s| > 10 && forall k | |s| - 6 <= k < |s| :: s[k] == E8
  }

  /** The buffer with the saved tail put back. */
  function Restored(s: seq<byte>, saved: seq<byte>): seq<byte>
    requires |s| >= 6 && |saved| == 6
  {
    s[..|s| - 6] + saved
  }

  /** A target that reaches into the tail is a large negative number, and stays as it is. */
  lemma TailTargetStays(dir: Direction, s: seq<byte>, p: nat)
    requires Tailed(s) && |s| <= 0x1700_0000 && |s| - 10 <= p < |s| - 6
    ensures Process(dir, s, p) == s
  {
    var b := s[p + 1..p + 5];
    assert b[3] == E8;
    BytesRoundTrip(b);
    assert s == s[..p + 1] + b + s[p + 5..];
  }

  lemma ProcessRestored(dir: Direction, s: seq<byte>, saved: seq<byte>, p: nat)
    requires InRange(s) && |saved| == 6 && p + 10 < |s|
    ensures Process(dir, Restored(s, saved), p) == Restored(Process(dir, s, p), saved)
  {
    assert Restored(s, saved)[p + 1..p + 5] == s[p + 1..p + 5];
  }

  /** One target, in the buffer whose last six bytes are all E8. */
  lemma ScanStep(dir: Direction, s: seq<byte>, saved: seq<byte>, p: nat)
    requires Tailed(s) && |s| <= 0x1700_0000 && |saved| == 6 && p < |s| - 6 && s[p] == E8
    ensures Tailed(Process(dir, s, p))
    ensures Scan(dir, Restored(Process(dir, s, p), saved), p + 5) == Scan(dir, Restored(s, saved), p)
  {
    hide Process;
    if p + 10 >= |s| {
      TailTargetStays(dir, s, p);
    } else {
      ProcessRestored(dir, s, saved, p);
    }
  }

  /** The loop of the scalar form, while the last six bytes are all E8. */
  method ScanTailed(dir: Direction, data: array<byte>, ghost saved: seq<byte>)
    requires data.Length <= 0x1700_0000 && Tailed(data[..]) && |saved| == 6
    modifies data
    ensures Restored(data[..], saved) == Scan(dir, old(Restored(data[..], saved)), 0)
  {
    var tail, p := data.Length - 6, 0;
    hide Scan, Process, Tailed, Restored;
    while true
      invariant p < data.Length && Tailed(data[..])
      invariant Scan(dir, Restored(data[..], saved), p) == Scan(dir, old(Restored(data[..], saved)), 0)
      decreases data.Length - p
    {
      p := FindE8(dir, data, saved, p);
      if p >= tail {
        break;
      }
      ScanStep(dir, data[..], saved, p);
      ProcessTarget(dir, data, p);
      p := p + 5;
    }
    ScanPastEnd(dir, Restored(data[..], saved), p);
  }

  lemma ScanPastEnd(dir: Direction, s: seq<byte>, p: nat)
    requires InRange(s) && |s| <= p + 10
    ensures Scan(dir, s, p) == s
  {
  }

  method ScalarFilter(dir: Direction, data: array<byte>)
    requires data.Length <= 0x1700_0000
    modifies data
    ensures data[..] == Scan(dir, old(data[..]), 0)
  {
    var size := data.Length;
    if size <= 10 {
      return;
    }
    hide Scan;
    var tail := size - 6;
    var saved := data[tail..];
    forall i | tail <= i < size {
      data[i] := E8;
    }
    assert Restored(data[..], saved) == old(data[..]);
    ScanTailed(dir, data, saved);
    forall i | tail <= i < size {
      data[i] := saved[i - tail];
    }
    assert data[..] == Restored(data[..], saved);
  }

  method FindE8(ghost dir: Direction, data: array<byte>, ghost saved: seq<byte>, p0: nat) returns (p: nat)
    requires p0 < data.Length <= 0x1700_0000 && Tailed(data[..]) && |saved| == 6
    ensures p0 <= p < data.Length && data[p] == E8
    ensures Scan(dir, Restored(data[..], saved), p) == Scan(dir, Restored(data[..], saved), p0)
  {
    p := p0;
    assert data[..][data.Length - 1] == E8;
    while data[p] != E8
      invariant p0 <= p < data.Length
      invariant forall k | p0 <= k < p :: data[k] != E8
      decreases data.Length - p
    {
      p := p + 1;
    }
    ScanSkips(dir, Restored(data[..], saved), p0, p);
  }
}
