/**
 * The scan as it is written: whole 32-bit words first, then the bytes that are left. Over a
 * uniform byte of the tail that continues the current state the position advances by one
 * instead of eight, so the scan is exact for some tails only.
 */
module BitmapTail {
  import opened BitmapScan

  predicate Uniform(v: seq<bool>, b: bool) {
    forall i :: 0 <= i < |v| ==> v[i] == b
  }

  lemma {:induction false} UniformFeeds(s: Scan, v: seq<bool>, b: bool, pos: nat)
    requires Uniform(v, b) && v != [] && (s.set' ==> s.start < pos)
    ensures Feeds(s, v, pos) == Feed(s, b, pos)
    decreases |v|
  {
    var t := Feed(s, v[0], pos);
    if |v| == 1 {
      assert v[1..] == [];
    } else {
      UniformFeeds(t, v[1..], b, pos + 1);
    }
  }

  // What the byte loop does to the state and the position.
  function TailFeeds(s: Scan, bits: seq<bool>, pos: nat): (Scan, nat)
    decreases |bits|
  {
    if |bits| < 8 then (s, pos)
    else if Uniform(bits[..8], s.set') then TailFeeds(s, bits[8..], pos + 1)
    else TailFeeds(Feeds(s, bits[..8], pos), bits[8..], pos + 8)
  }

  function WordsOf(bits: seq<bool>): (n: nat)
    ensures n <= |bits| && n % 32 == 0 && |bits| - n < 32
  {
    |bits| - |bits| % 32
  }

  // The runs the code finds.
  function CodeRuns(bits: seq<bool>): seq<Run> {
    var w := WordsOf(bits);
    var (s, pos) := TailFeeds(Feeds(BEGIN, bits[..w], 0), bits[w..], w);
    Finish(s, pos)
  }

  // One word or byte that cannot be skipped.
  method ScanUnit(v: seq<bool>, pos: nat, s: Scan) returns (t: Scan)
    requires v != [] && !Uniform(v, s.set') && (s.set' ==> s.start < pos)
    ensures t == Feeds(s, v, pos)
  {
    if !s.set' && Uniform(v, true) {
      UniformFeeds(s, v, true, pos);
      t := Scan(s.runs, true, pos);
    } else if s.set' && Uniform(v, false) {
      UniformFeeds(s, v, false, pos);
      t := Scan(if pos != s.start then s.runs + [Run(s.start, pos - s.start)] else s.runs, false, s.start);
    } else {
      t := ScanBits(v, pos, s);
    }
  }

  lemma FeedsStep(t: Scan, v: seq<bool>, i: nat, pos: nat)
    requires i < |v|
    ensures Feeds(t, v[i..], pos) == Feeds(Feed(t, v[i], pos), v[i + 1..], pos + 1)
  {
    assert v[i..][0] == v[i] && v[i..][1..] == v[i + 1..];
  }

  // Bit by bit.
  method ScanBits(v: seq<bool>, pos: nat, s: Scan) returns (t: Scan)
    requires s.set' ==> s.start < pos
    ensures t == Feeds(s, v, pos)
  {
    t := s;
    var i: nat := 0;
    assert v[0..] == v;
    while i < |v|
      invariant i <= |v| && Feeds(t, v[i..], pos + i) == Feeds(s, v, pos)
      invariant t.set' ==> t.start < pos + i
    {
      hide Feeds;
      FeedsStep(t, v, i, pos + i);
      if v[i] {
        if !t.set' {
          t := Scan(t.runs, true, pos + i);
        }
      } else {
        if t.set' {
          t := Scan(if pos + i != t.start then t.runs + [Run(t.start, pos + i - t.start)] else t.runs, false, t.start);
        }
      }
      i := i + 1;
    }
    assert v[i..] == [];
  }

  lemma {:induction false} StartStaysBehind(s: Scan, v: seq<bool>, pos: nat)
    requires s.set' ==> s.start < pos
    ensures Feeds(s, v, pos).set' ==> Feeds(s, v, pos).start < pos + |v|
    decreases |v|
  {
    if v != [] {
      StartStaysBehind(Feed(s, v[0], pos), v[1..], pos + 1);
    }
  }

  // The word loop.
  method ScanWords(bits: seq<bool>) returns (s: Scan, at: nat)
    ensures at == WordsOf(bits) && s == Feeds(BEGIN, bits[..at], 0) && (s.set' ==> s.start < at)
  {
    s, at := BEGIN, 0;
    while |bits| - at >= 32
      invariant at <= |bits| && at % 32 == 0
      invariant s == Feeds(BEGIN, bits[..at], 0) && (s.set' ==> s.start < at)
    {
      hide Feeds;
      var v := bits[at..at + 32];
      assert bits[..at + 32] == bits[..at] + v;
      FeedsConcat(BEGIN, bits[..at], v, 0);
      StartStaysBehind(s, v, at);
      if Uniform(v, s.set') {
        UniformFeeds(s, v, s.set', at);
      } else {
        s := ScanUnit(v, at, s);
      }
      at := at + 32;
    }
  }

  // The byte loop, from the position the words reached.
  method ScanTail(bits: seq<bool>, first: Scan, from: nat) returns (s: Scan, pos: nat)
    requires |bits| % 8 == 0 && (first.set' ==> first.start < from)
    ensures (s, pos) == TailFeeds(first, bits, from) && (s.set' ==> s.start < pos)
  {
    s, pos := first, from;
    var at: nat := 0;
    assert bits[0..] == bits;
    while at < |bits|
      invariant at <= |bits| && at % 8 == 0 && |bits| % 8 == 0
      invariant TailFeeds(s, bits[at..], pos) == TailFeeds(first, bits, from) && (s.set' ==> s.start < pos)
    {
      var v := bits[at..at + 8];
      assert bits[at..][..8] == v && bits[at..][8..] == bits[at + 8..];
      if Uniform(v, s.set') {
        pos := pos + 1;
      } else {
        StartStaysBehind(s, v, pos);
        s := ScanUnit(v, pos, s);
        pos := pos + 8;
      }
      at := at + 8;
    }
    assert bits[at..] == [];
  }

  lemma TailIsBytes(bits: seq<bool>)
    requires |bits| % 8 == 0
    ensures |bits[WordsOf(bits)..]| % 8 == 0
    ensures |bits[WordsOf(bits)..]| == 8 * (|bits[WordsOf(bits)..]| / 8)
  {
    var k, q := |bits| / 8, |bits| / 32;
    assert |bits| == 8 * k && WordsOf(bits) == 32 * q;
    assert |bits| - WordsOf(bits) == 8 * (k - 4 * q);
  }

  // `parse_bitmap`, on the bits of the buffer.
  method ParseBitmap(bits: seq<bool>) returns (runs: seq<Run>)
    requires |bits| % 8 == 0
    ensures runs == CodeRuns(bits)
  {
    hide Feeds, TailFeeds, WordsOf;
    TailIsBytes(bits);
    var s, at := ScanWords(bits);
    var t, pos := ScanTail(bits[at..], s, at);
    s := t;
    runs := s.runs;
    if s.set' && s.start != pos {
      runs := runs + [Run(s.start, pos - s.start)];
    }
  }

  // When the words are all there is, the scan is exact.
  lemma WholeWordsAreExact(bits: seq<bool>)
    requires |bits| % 32 == 0
    ensures CodeRuns(bits) == Runs(bits)
  {
    assert bits[..|bits|] == bits;
  }

  // The tail stays in step: a byte may be skipped only when nothing set follows.
  predicate TailOk(isSet: bool, bits: seq<bool>)
    decreases |bits|
  {
    |bits| < 8
    || if Uniform(bits[..8], isSet) then Uniform(bits, false) else TailOk(bits[7], bits[8..])
  }

  predicate TailInStep(bits: seq<bool>) {
    var w := WordsOf(bits);
    TailOk(0 < w && bits[w - 1], bits[w..])
  }

  // A run that begins at `st` is open or recorded as number `n`.
  predicate HasStart(s: Scan, n: nat, st: nat) {
    if s.set' && |s.runs| == n then s.start == st else n < |s.runs| && s.runs[n].offset == st
  }

  predicate HasEnd(s: Scan, n: nat, end: nat) {
    n < |s.runs| && s.runs[n].End() == end
  }

  lemma {:induction false} FeedsKeep(s: Scan, v: seq<bool>, pos: nat, n: nat, st: nat, end: nat)
    requires s.set' ==> s.start < pos
    ensures HasStart(s, n, st) ==> HasStart(Feeds(s, v, pos), n, st)
    ensures HasEnd(s, n, end) ==> HasEnd(Feeds(s, v, pos), n, end)
    decreases |v|
  {
    if v != [] {
      FeedsKeep(Feed(s, v[0], pos), v[1..], pos + 1, n, st, end);
    }
  }

  lemma {:induction false} TailKeeps(s: Scan, v: seq<bool>, pos: nat, n: nat, st: nat, end: nat)
    requires s.set' ==> s.start < pos
    ensures var t := TailFeeds(s, v, pos);
      && (t.0.set' ==> t.0.start < t.1)
      && (HasStart(s, n, st) ==> HasStart(t.0, n, st)) && (HasEnd(s, n, end) ==> HasEnd(t.0, n, end))
    decreases |v|
  {
    if 8 <= |v| {
      if Uniform(v[..8], s.set') {
        TailKeeps(s, v[8..], pos + 1, n, st, end);
      } else {
        FeedsKeep(s, v[..8], pos, n, st, end);
        StartStaysBehind(s, v[..8], pos);
        TailKeeps(Feeds(s, v[..8], pos), v[8..], pos + 8, n, st, end);
      }
    }
  }

  // The first bit that is not `b`.
  function FirstOther(v: seq<bool>, b: bool): (k: nat)
    requires !Uniform(v, b)
    ensures k < |v| && v[k] != b
  {
    if v[0] != b then 0 else 1 + FirstOther(v[1..], b)
  }

  // It opens or closes run `n`.
  lemma {:induction false} FirstChange(s: Scan, v: seq<bool>, pos: nat)
    requires !Uniform(v, s.set') && (s.set' ==> s.start < pos)
    ensures s.set' ==> HasEnd(Feeds(s, v, pos), |s.runs|, pos + FirstOther(v, s.set'))
    ensures !s.set' ==> HasStart(Feeds(s, v, pos), |s.runs|, pos + FirstOther(v, s.set'))
    decreases |v|
  {
    var t := Feed(s, v[0], pos);
    if v[0] == s.set' {
      FirstChange(t, v[1..], pos + 1);
    } else {
      FeedsKeep(t, v[1..], pos + 1, |s.runs|, pos, pos);
    }
  }

  lemma TailStep(s: Scan, v: seq<bool>, pos: nat, n: nat, st: nat, end: nat)
    requires s.set' ==> s.start < pos
    ensures var t := TailFeeds(s, v, pos);
      (HasStart(s, n, st) ==> n < |Finish(t.0, t.1)| && Finish(t.0, t.1)[n].offset == st)
      && (HasEnd(s, n, end) ==> n < |Finish(t.0, t.1)| && Finish(t.0, t.1)[n].End() == end)
  {
    TailKeeps(s, v, pos, n, st, end);
  }

  lemma FeedsEnd(s: Scan, v: seq<bool>, pos: nat, n: nat, st: nat, end: nat)
    requires s.set' ==> s.start < pos
    ensures var r := Finish(Feeds(s, v, pos), pos + |v|);
      (HasStart(s, n, st) ==> n < |r| && r[n].offset == st) && (HasEnd(s, n, end) ==> n < |r| && r[n].End() == end)
  {
    FeedsKeep(s, v, pos, n, st, end);
    StartStaysBehind(s, v, pos);
  }

  lemma NoFeeds(s: Scan, pos: nat)
    ensures Feeds(s, [], pos) == s
  {
  }

  // From the same state but a later position, the same change is recorded later.
  lemma {:induction false} LagShows(s: Scan, v: seq<bool>, bytes: nat, pos: nat, lag: nat)
    requires 0 < lag && |v| == 8 * bytes && (s.set' ==> s.start < pos) && (s.set' || !Uniform(v, false))
    ensures var t := TailFeeds(s, v, pos);
      Finish(t.0, t.1) != Finish(Feeds(s, v, pos + lag), pos + lag + |v|)
    decreases |v|
  {
    hide Feeds, HasEnd, HasStart, Finish;
    if v == [] {
      NoFeeds(s, pos + lag);
      LagAtEnd(s, pos, lag);
    } else {
      var b, rest := v[..8], v[8..];
      assert v == b + rest;
      FeedsConcat(s, b, rest, pos + lag);
      if Uniform(b, s.set') {
        UniformFeeds(s, b, s.set', pos + lag);
        LagShows(s, rest, bytes - 1, pos + 1, lag + 7);
      } else {
        LagInByte(s, b, rest, pos, lag);
      }
    }
  }

  lemma LagAtEnd(s: Scan, pos: nat, lag: nat)
    requires 0 < lag && s.set' && s.start < pos
    ensures Finish(s, pos) != Finish(s, pos + lag)
  {
    assert Finish(s, pos)[|s.runs|] != Finish(s, pos + lag)[|s.runs|];
  }

  lemma LagInByte(s: Scan, b: seq<bool>, rest: seq<bool>, pos: nat, lag: nat)
    requires 0 < lag && !Uniform(b, s.set') && (s.set' ==> s.start < pos) && |b| == 8
    ensures var t := TailFeeds(Feeds(s, b, pos), rest, pos + 8);
      Finish(t.0, t.1) != Finish(Feeds(Feeds(s, b, pos + lag), rest, pos + lag + 8), pos + lag + 8 + |rest|)
  {
    var n := |s.runs|;
    var k := FirstOther(b, s.set');
    FirstChange(s, b, pos);
    FirstChange(s, b, pos + lag);
    StartStaysBehind(s, b, pos);
    StartStaysBehind(s, b, pos + lag);
    TailStep(Feeds(s, b, pos), rest, pos + 8, n, pos + k, pos + k);
    FeedsEnd(Feeds(s, b, pos + lag), rest, pos + lag + 8, n, pos + lag + k, pos + lag + k);
  }

  // Where the tail begins in step, the result is exact if and only if it stays in step.
  lemma {:induction false} TailExact(s: Scan, v: seq<bool>, bytes: nat, pos: nat)
    requires |v| == 8 * bytes && (s.set' ==> s.start < pos)
    ensures var t := TailFeeds(s, v, pos);
      Finish(t.0, t.1) == Finish(Feeds(s, v, pos), pos + |v|) <==> TailOk(s.set', v)
    decreases |v|
  {
    hide Feeds, Finish;
    NoFeeds(s, pos);
    if v != [] {
      var b, rest := v[..8], v[8..];
      assert v == b + rest;
      FeedsConcat(s, b, rest, pos);
      if Uniform(b, s.set') {
        UniformFeeds(s, b, s.set', pos);
        if Uniform(v, false) {
          assert !b[0];
          ClearTail(s, rest, pos + 1);
          ClearFeeds(s, rest, pos + 8);
          ClosedEnd(s);
        } else {
          assert s.set' || !Uniform(rest, false);
          LagShows(s, rest, bytes - 1, pos + 1, 7);
        }
      } else {
        StartStaysBehind(s, b, pos);
        LastBitSets(s, b, pos);
        TailExact(Feeds(s, b, pos), rest, bytes - 1, pos + 8);
      }
    }
  }

  lemma ClosedEnd(s: Scan)
    requires !s.set'
    ensures forall pos: nat :: Finish(s, pos) == s.runs
  {
  }

  lemma {:induction false} LastBitSets(s: Scan, b: seq<bool>, pos: nat)
    requires b != []
    ensures Feeds(s, b, pos).set' == b[|b| - 1]
    decreases |b|
  {
    if |b| == 1 {
      assert b[1..] == [];
    } else {
      LastBitSets(Feed(s, b[0], pos), b[1..], pos + 1);
    }
  }

  lemma {:induction false} ClearTail(s: Scan, v: seq<bool>, pos: nat)
    requires Uniform(v, false) && !s.set'
    ensures TailFeeds(s, v, pos).0 == s
    decreases |v|
  {
    if 8 <= |v| {
      ClearTail(s, v[8..], pos + 1);
    }
  }

  lemma ClearFeeds(s: Scan, v: seq<bool>, pos: nat)
    requires Uniform(v, false) && !s.set'
    ensures Feeds(s, v, pos) == s
  {
    if v != [] {
      UniformFeeds(s, v, false, pos);
    }
  }

  lemma RunsIs(bits: seq<bool>)
    ensures Finish(Feeds(BEGIN, bits, 0), |bits|) == Runs(bits)
  {
  }

  // For every bitmap of whole bytes: `parse_bitmap` finds the maximal runs of set bits exactly
  // when the bytes after the last whole word stay in step.
  lemma ParseIsExactWhenInStep(bits: seq<bool>)
    requires |bits| % 8 == 0
    ensures CodeRuns(bits) == Runs(bits) <==> TailInStep(bits)
    ensures AreRunsOf(CodeRuns(bits), bits) <==> TailInStep(bits)
  {
    hide Feeds, TailFeeds, Uniform, AreRunsOf, TailOk, Finish, Runs, WordsOf;
    var w := WordsOf(bits);
    var s := Feeds(BEGIN, bits[..w], 0);
    assert bits == bits[..w] + bits[w..];
    FeedsConcat(BEGIN, bits[..w], bits[w..], 0);
    StartStaysBehind(BEGIN, bits[..w], 0);
    if 0 < w {
      LastBitSets(BEGIN, bits[..w], 0);
    }
    TailIsBytes(bits);
    TailExact(s, bits[w..], |bits[w..]| / 8, w);
    assert Finish(Feeds(BEGIN, bits, 0), |bits|) == Runs(bits) by {
      RunsIs(bits);
    }
    RunsAreMaximal(bits);
    if AreRunsOf(CodeRuns(bits), bits) {
      MaximalRunsAreUnique(CodeRuns(bits), Runs(bits), bits);
    }
  }

  // A tail that does not: one byte of eight set bits is seen as a run of eight, two as one of nine.
  lemma TwoFullBytes()
    ensures var bits := seq(16, _ => true);
      |bits| % 8 == 0 && Runs(bits) == [Run(0, 16)] && CodeRuns(bits) == [Run(0, 9)]
  {
    var bits := seq(16, _ => true);
    UniformFeeds(BEGIN, bits, true, 0);
    assert bits[0..] == bits && bits[..0] == [];
    var b, c := bits[..8], bits[8..];
    assert c[..8] == c && c[8..] == [];
    UniformFeeds(BEGIN, b, true, 0);
    var s := Scan([], true, 0);
    assert b[0] && !Uniform(b, false) && Uniform(c, true);
    assert TailFeeds(s, c, 8) == TailFeeds(s, [], 9);
  }

  // The runs so far are in order and end before the open one, or before `pos`.
  predicate Orderly(s: Scan, pos: nat) {
    && Separate(s.runs) && (s.set' ==> s.start < pos)
    && forall i :: 0 <= i < |s.runs| ==> s.runs[i].End() < (if s.set' then s.start else pos)
  }

  lemma {:induction false} FeedsOrderly(s: Scan, v: seq<bool>, pos: nat)
    requires Orderly(s, pos)
    ensures Orderly(Feeds(s, v, pos), pos + |v|)
    decreases |v|
  {
    if v != [] {
      FeedsOrderly(Feed(s, v[0], pos), v[1..], pos + 1);
    }
  }

  lemma {:induction false} TailOrderly(s: Scan, v: seq<bool>, pos: nat)
    requires Orderly(s, pos)
    ensures Orderly(TailFeeds(s, v, pos).0, TailFeeds(s, v, pos).1) && TailFeeds(s, v, pos).1 <= pos + |v|
    decreases |v|
  {
    if 8 <= |v| {
      if Uniform(v[..8], s.set') {
        TailOrderly(s, v[8..], pos + 1);
      } else {
        FeedsOrderly(s, v[..8], pos);
        TailOrderly(Feeds(s, v[..8], pos), v[8..], pos + 8);
      }
    }
  }

  // In step or not, the runs found are nonempty, apart and inside the bitmap.
  lemma CodeRunsAreSeparate(bits: seq<bool>)
    ensures Separate(CodeRuns(bits))
    ensures forall i :: 0 <= i < |CodeRuns(bits)| ==> 0 < CodeRuns(bits)[i].length && CodeRuns(bits)[i].End() <= |bits|
  {
    hide Feeds, TailFeeds;
    var w := WordsOf(bits);
    FeedsOrderly(BEGIN, bits[..w], 0);
    TailOrderly(Feeds(BEGIN, bits[..w], 0), bits[w..], w);
  }
}
