/**
 * Scanning an allocation bitmap into runs of set bits. The scan skips uniform words; its
 * reference is the scan that looks at every bit.
 */
module BitmapScan {
  datatype Run = Run(offset: nat, length: nat) {
    function End(): nat {
      offset + length
    }

    predicate Has(x: int) {
      offset <= x < End()
    }
  }

  // The scan's variables: the runs so far, and whether and since when a run is open.
  datatype Scan = Scan(runs: seq<Run>, set': bool, start: nat)

  function Feed(s: Scan, bit: bool, pos: nat): Scan {
    if bit then
      (if s.set' then s else Scan(s.runs, true, pos))
    else if s.set' then
      Scan(if pos != s.start then s.runs + [Run(s.start, if s.start <= pos then pos - s.start else 0)]
                                                         else s.runs, false, s.start)
    else s
  }

  // Every bit in turn, the first at `pos`.
  function Feeds(s: Scan, bits: seq<bool>, pos: nat): Scan
    decreases |bits|
  {
    if bits == [] then s else Feeds(Feed(s, bits[0], pos), bits[1..], pos + 1)
  }

  function Finish(s: Scan, pos: nat): seq<Run> {
    if s.set' && s.start != pos then
      s.runs + [Run(s.start, if s.start <= pos then pos - s.start else 0)]
    else s.runs
  }

  const BEGIN := Scan([], false, 0)

  // The reference.
  function Runs(bits: seq<bool>): seq<Run> {
    Finish(Feeds(BEGIN, bits, 0), |bits|)
  }

  predicate InRuns(runs: seq<Run>, x: int) {
    exists i :: 0 <= i < |runs| && runs[i].Has(x)
  }

  // Nonempty, in order, with a gap before each next one.
  predicate Separate(runs: seq<Run>) {
    && (forall i :: 0 <= i < |runs| ==> 0 < runs[i].length)
    && (forall i, j :: 0 <= i < j < |runs| ==> runs[i].End() < runs[j].offset)
  }

  // The maximal runs of set bits.
  predicate AreRunsOf(runs: seq<Run>, bits: seq<bool>) {
    && Separate(runs)
    && (forall i :: 0 <= i < |runs| ==> runs[i].End() <= |bits|)
    && (forall x :: 0 <= x < |bits| ==> (bits[x] <==> InRuns(runs, x)))
  }

  lemma {:induction false} FeedsConcat(s: Scan, a: seq<bool>, b: seq<bool>, pos: nat)
    ensures Feeds(s, a + b, pos) == Feeds(Feeds(s, a, pos), b, pos + |a|)
    decreases |a|
  {
    if a == [] {
      assert a + b == b;
    } else {
      assert (a + b)[1..] == a[1..] + b;
      FeedsConcat(Feed(s, a[0], pos), a[1..], b, pos + 1);
    }
  }

  // What the scan knows after the bits before `pos`.
  predicate Scanned(s: Scan, bits: seq<bool>, pos: nat)
    requires pos <= |bits|
  {
    && Separate(s.runs) && (s.set' ==> s.start < pos)
    && (forall i :: 0 <= i < |s.runs| ==> s.runs[i].End() < (if s.set' then s.start else pos))
    && (s.set' <==> 0 < pos && bits[pos - 1])
    && (forall x :: 0 <= x < pos ==> (bits[x] <==> InRuns(s.runs, x) || (s.set' && s.start <= x)))
  }

  lemma RunsNext(runs: seq<Run>, r: Run, x: int)
    ensures InRuns(runs + [r], x) <==> InRuns(runs, x) || r.Has(x)
  {
    if InRuns(runs, x) {
      var i :| 0 <= i < |runs| && runs[i].Has(x);
      assert (runs + [r])[i].Has(x);
    }
    if r.Has(x) {
      assert (runs + [r])[|runs|].Has(x);
    }
  }

  lemma FeedScans(s: Scan, bits: seq<bool>, pos: nat)
    requires pos < |bits| && Scanned(s, bits, pos)
    ensures Scanned(Feed(s, bits[pos], pos), bits, pos + 1)
  {
    var t := Feed(s, bits[pos], pos);
    forall x | 0 <= x < pos + 1
      ensures bits[x] <==> InRuns(t.runs, x) || (t.set' && t.start <= x)
    {
      if !bits[pos] && s.set' {
        RunsNext(s.runs, Run(s.start, pos - s.start), x);
      }
    }
  }

  lemma {:induction false} FeedsScan(s: Scan, bits: seq<bool>, pos: nat)
    requires pos <= |bits| && Scanned(s, bits, pos)
    ensures Scanned(Feeds(s, bits[pos..], pos), bits, |bits|)
    decreases |bits| - pos
  {
    if pos < |bits| {
      FeedScans(s, bits, pos);
      FeedsScan(Feed(s, bits[pos], pos), bits, pos + 1);
      assert bits[pos..][1..] == bits[pos + 1..];
    }
  }

  // The reference finds the maximal runs of set bits.
  lemma RunsAreMaximal(bits: seq<bool>)
    ensures AreRunsOf(Runs(bits), bits)
  {
    FeedsScan(BEGIN, bits, 0);
    assert bits[0..] == bits;
    var s := Feeds(BEGIN, bits, 0);
    forall x | 0 <= x < |bits|
      ensures bits[x] <==> InRuns(Runs(bits), x)
    {
      if s.set' {
        RunsNext(s.runs, Run(s.start, |bits| - s.start), x);
      }
    }
  }

  // There is only one list of maximal runs.
  lemma {:induction false} MaximalRunsAreUnique(a: seq<Run>, b: seq<Run>, bits: seq<bool>)
    requires AreRunsOf(a, bits) && AreRunsOf(b, bits)
    ensures a == b
  {
    var n := if |a| <= |b| then |a| else |b|;
    SameRuns(a, b, bits, n);
    assert a[..n] == b[..n];
    assert a == a[..|a|] && b == b[..|b|];
    if n < |b| {
      RunIsNew(b, bits, n);
    }
    if n < |a| {
      RunIsNew(a, bits, n);
    }
  }

  // A run starts at a set bit that no earlier run has, and the bit after it is in no run.
  lemma RunIsNew(runs: seq<Run>, bits: seq<bool>, n: nat)
    requires AreRunsOf(runs, bits) && n < |runs|
    ensures runs[n].offset < |bits| && bits[runs[n].offset] && !InRuns(runs[..n], runs[n].offset)
    ensures !InRuns(runs, runs[n].End())
  {
    assert runs[n].Has(runs[n].offset);
    assert forall i :: 0 <= i < n ==> runs[i].End() < runs[n].offset;
    assert forall i :: n < i < |runs| ==> runs[n].End() < runs[i].offset;
  }

  lemma {:induction false} SameRuns(a: seq<Run>, b: seq<Run>, bits: seq<bool>, n: nat)
    requires AreRunsOf(a, bits) && AreRunsOf(b, bits) && n <= |a| && n <= |b|
    ensures forall i :: 0 <= i < n ==> a[i] == b[i]
  {
    if 0 < n {
      SameRuns(a, b, bits, n - 1);
      RunStartsNoLater(a, b, bits, n - 1);
      RunStartsNoLater(b, a, bits, n - 1);
      RunEndsNoLater(a, b, bits, n - 1);
      RunEndsNoLater(b, a, bits, n - 1);
    }
  }

  lemma RunStartsNoLater(a: seq<Run>, b: seq<Run>, bits: seq<bool>, i: nat)
    requires AreRunsOf(a, bits) && AreRunsOf(b, bits) && i < |a| && i < |b|
    requires forall j :: 0 <= j < i ==> a[j] == b[j]
    ensures a[i].offset <= b[i].offset
  {
    var x := b[i].offset;
    assert b[i].Has(x) && bits[x];
    var j :| 0 <= j < |a| && a[j].Has(x);
    assert i < j ==> a[i].End() < a[j].offset;
  }

  lemma RunEndsNoLater(a: seq<Run>, b: seq<Run>, bits: seq<bool>, i: nat)
    requires AreRunsOf(a, bits) && AreRunsOf(b, bits) && i < |a| && i < |b| && a[i].offset == b[i].offset
    ensures a[i].End() <= b[i].End()
  {
    var x := b[i].End();
    RunIsNew(b, bits, i);
    assert a[i].Has(x) ==> InRuns(a, x);
  }
}
