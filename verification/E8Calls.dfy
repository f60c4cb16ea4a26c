/**
 What the E8 filter does to each call and to nothing else, written out in bytes: undoing makes absolute targets
 relative again.
 */
module E8Calls {
  import opened Bitstream
  import opened E8Filter

  /** An E8 byte before the last ten that is not inside the target of an earlier call. */
  predicate IsCall(s: seq<byte>, i: nat)
    decreases i
  {
    i + 10 < |s| && s[i] == 0xE8 && forall j: nat :: j < i < j + 5 ==> !IsCall(s, j)
  }

  predicate InTarget(s: seq<byte>, k: nat) {
    exists i: nat :: i < k < i + 5 && IsCall(s, i)
  }

  /** The four bytes behind position `i`, little-endian and signed. */
  function Target(s: seq<byte>, i: nat): int
    requires i + 5 <= |s|
  {
    var b1: int, b2: int, b3: int, b4: int := s[i + 1], s[i + 2], s[i + 3], s[i + 4];
    b1 + 0x100 * b2 + 0x1_0000 * b3 + 0x100_0000 * b4 - if b4 < 0x80 then 0 else 0x1_0000_0000
  }

  /** The target `t` of a call at `i`, made relative. */
  predicate MadeRelative(i: nat, t: int, t': int) {
    if 0 <= t < 12_000_000 then t' + i == t
    else if t < 0 <= t + i then t' == t + 12_000_000
    else t' == t
  }

  predicate MadeAbsolute(i: nat, t: int, t': int) {
    if 0 <= t + i < 12_000_000 then t' == t + i
    else if t < 12_000_000 <= t + i then t' == t - 12_000_000
    else t' == t
  }

  predicate Changed(dir: Direction, i: nat, t: int, t': int) {
    match dir
    case Undo => MadeRelative(i, t, t')
    case Translate => MadeAbsolute(i, t, t')
  }

  /** From position `c` on: every call's target has been changed, and no other byte. */
  ghost predicate CallsChanged(dir: Direction, s: seq<byte>, r: seq<byte>, c: nat) {
    && |r| == |s|
    && (forall i: nat :: c <= i && IsCall(s, i) ==> Changed(dir, i, Target(s, i), Target(r, i)))
    && (forall k: nat :: c <= k < |s| && !InTarget(s, k) ==> r[k] == s[k])
  }

  /** No call in front of position `c` has a target that reaches beyond it. */
  ghost predicate Clear(s: seq<byte>, c: nat) {
    forall j: nat :: j < c && IsCall(s, j) ==> j + 5 <= c
  }

  lemma CallAt(s: seq<byte>, c: nat)
    requires Clear(s, c)
    ensures IsCall(s, c) <==> c + 10 < |s| && s[c] == 0xE8
    ensures c < |s| ==> !InTarget(s, c)
  {
  }

  lemma RetargetChanges(dir: Direction, t: int, i: nat)
    requires Int32(t) && i < 0x8000_0000
    ensures Changed(dir, i, t, Retarget(dir, t, i))
  {
  }

  /** A number of four bytes. */
  lemma BytesAre(s: seq<byte>, i: nat)
    requires i + 5 <= |s|
    ensures Target(s, i) == FromBytes(s[i + 1..i + 5])
  {
    var b := s[i + 1..i + 5];
    assert b[0] == s[i + 1] && b[1] == s[i + 2] && b[2] == s[i + 3] && b[3] == s[i + 4];
  }

  lemma ProcessChanges(dir: Direction, s: seq<byte>, i: nat)
    requires InRange(s) && i + 5 <= |s|
    ensures Changed(dir, i, Target(s, i), Target(Process(dir, s, i), i))
  {
    var t, r := FromBytes(s[i + 1..i + 5]), Process(dir, s, i);
    BytesAre(s, i);
    BytesAre(r, i);
    RetargetInt32(dir, t, i);
    assert r[i + 1..i + 5] == ToBytes(Retarget(dir, t, i));
    IntRoundTrip(Retarget(dir, t, i));
    RetargetChanges(dir, t, i);
  }

  /** The scan from `c` on, of what earlier calls have left of `s`. */
  lemma {:induction false} ScanChanges(dir: Direction, s: seq<byte>, now: seq<byte>, c: nat)
    requires InRange(s) && |now| == |s| && Clear(s, c) && forall k: nat :: c <= k < |s| ==> now[k] == s[k]
    ensures CallsChanged(dir, s, Scan(dir, now, c), c)
    decreases |s| - c
  {
    hide Process, Changed, Target;
    CallAt(s, c);
    var r := Scan(dir, now, c);
    if c + 10 < |s| {
      if s[c] == E8 {
        var p := Process(dir, now, c);
        CallClears(s, c);
        ScanChanges(dir, s, p, c + 5);
        ScanKeepsPrefix(dir, p, c + 5);
        ProcessChanges(dir, now, c);
        SameTarget(s, now, c);
        SameTarget(r, p, c);
        forall i: nat | c <= i && IsCall(s, i)
          ensures Changed(dir, i, Target(s, i), Target(r, i))
        {
          CallsApart(s, c, i);
        }
        forall k: nat | c <= k < |s| && !InTarget(s, k)
          ensures r[k] == s[k]
        {
          assert c < k < c + 5 ==> InTarget(s, k);
        }
      } else {
        ScanChanges(dir, s, now, c + 1);
        ScanKeepsPrefix(dir, now, c + 1);
      }
    }
  }

  lemma CallClears(s: seq<byte>, c: nat)
    requires Clear(s, c) && IsCall(s, c)
    ensures Clear(s, c + 5)
  {
    forall j: nat | j < c + 5 && IsCall(s, j)
      ensures j + 5 <= c + 5
    {
      CallsApart(s, c, j);
    }
  }

  /** Calls do not begin inside each other's targets. */
  lemma CallsApart(s: seq<byte>, i: nat, j: nat)
    requires IsCall(s, i) && IsCall(s, j)
    ensures i == j || i + 5 <= j || j + 5 <= i
  {
  }

  lemma SameTarget(s: seq<byte>, s': seq<byte>, i: nat)
    requires i + 5 <= |s| == |s'| && forall k: nat :: i <= k < i + 5 ==> s[k] == s'[k]
    ensures Target(s, i) == Target(s', i)
  {
  }

  /** The whole filter, either way. */
  lemma FilterChanges(dir: Direction, s: seq<byte>)
    requires InRange(s)
    ensures CallsChanged(dir, s, Scan(dir, s, 0), 0)
  {
    ScanChanges(dir, s, s, 0);
  }
}
