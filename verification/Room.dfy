/**
 * How many clusters the data chunks have free, and what an allocation of one cluster does to that number.
 */
module Room {
  import opened ChunkMath
  import P = ChunkAllocator
  import S = SpaceList

  function SlotsIn(list: seq<S.Space>, cs: nat): nat
    requires 0 < cs
  {
    if list == [] then 0 else Index(list[0].length, cs) + SlotsIn(list[1..], cs)
  }

  // The free clusters of the data chunks.
  function Slots(chunks: seq<P.Chunk>, cs: nat): nat
    requires 0 < cs
  {
    if chunks == [] then 0
    else (if chunks[0].kind == P.Data then SlotsIn(chunks[0].spaces, cs) else 0) + Slots(chunks[1..], cs)
  }

  lemma ConcatSlots(a: seq<S.Space>, b: seq<S.Space>, cs: nat)
    requires 0 < cs
    ensures SlotsIn(a + b, cs) == SlotsIn(a, cs) + SlotsIn(b, cs)
    decreases |a|
  {
    if a == [] {
      assert a + b == b;
    } else {
      assert (a + b)[1..] == a[1..] + b;
      ConcatSlots(a[1..], b, cs);
    }
  }

  lemma {:induction false} TakenSlots(list: seq<S.Space>, k: nat, cs: nat)
    requires 0 < cs && k < |list| && cs <= list[k].length
    ensures SlotsIn(S.Taken(list, k, cs), cs) + 1 == SlotsIn(list, cs)
    decreases |list|
  {
    if k == 0 {
      var rest := if list[0].length == cs then [] else [S.Space(list[0].offset + cs, list[0].length - cs)];
      ConcatSlots(rest, list[1..], cs);
      assert S.Taken(list, k, cs) == rest + list[1..];
      assert Index(list[0].length, cs) == 1 + Index(list[0].length - cs, cs);
      assert rest != [] ==> rest[1..] == [];
    } else {
      TakenSlots(list[1..], k - 1, cs);
      var t := S.Taken(list[1..], k - 1, cs);
      assert ([list[0]] + t)[1..] == t;
    }
  }

  lemma {:induction false} SlotsAt(chunks: seq<P.Chunk>, i: nat, c: P.Chunk, cs: nat)
    requires 0 < cs && i < |chunks| && chunks[i].kind == c.kind == P.Data
    ensures Slots(chunks[i := c], cs) + SlotsIn(chunks[i].spaces, cs) == Slots(chunks, cs) + SlotsIn(c.spaces, cs)
    decreases |chunks|
  {
    if 0 < i {
      SlotsAt(chunks[1..], i - 1, c, cs);
      assert chunks[i := c][1..] == chunks[1..][i - 1 := c];
    } else {
      assert chunks[i := c][1..] == chunks[1..];
    }
  }

  lemma {:induction false} NoSlots(list: seq<S.Space>, cs: nat)
    requires 0 < cs
    ensures SlotsIn(list, cs) == 0 <==> S.TooShort(list, cs)
    decreases |list|
  {
    if list != [] {
      NoSlots(list[1..], cs);
      assert list[0] in list;
    }
  }

  // No free cluster is left exactly when no free entry holds one.
  lemma {:induction false} NoFitIsNoSlots(chunks: seq<P.Chunk>, cs: nat)
    requires 0 < cs
    ensures P.NoFit(chunks, P.Data, cs) <==> Slots(chunks, cs) == 0
    decreases |chunks|
  {
    if chunks != [] {
      NoFitIsNoSlots(chunks[1..], cs);
      NoSlots(chunks[0].spaces, cs);
      assert chunks[0] in chunks;
      assert forall c :: c in chunks <==> c == chunks[0] || c in chunks[1..];
    }
  }

  // Counts do not matter.
  lemma {:induction false} SameSlots(chunks: seq<P.Chunk>, chunks': seq<P.Chunk>, cs: nat)
    requires 0 < cs && |chunks'| == |chunks|
    requires forall i :: 0 <= i < |chunks| ==> chunks'[i] == chunks[i].(used := chunks'[i].used)
    ensures Slots(chunks', cs) == Slots(chunks, cs)
    decreases |chunks|
  {
    if chunks != [] {
      SameSlots(chunks[1..], chunks'[1..], cs);
    }
  }

  // The front part of an entry that makes whole data chunks.
  function Whole(length: nat): nat {
    First(Index(length, P.DATA_CHUNK), P.DATA_CHUNK)
  }

  predicate InWhole(s: S.Space, b: nat) {
    s.offset <= b < s.offset + Whole(s.length)
  }

  // An entry long enough for a chunk begins at a multiple of a chunk's length.
  ghost predicate LongStarts(spaces: seq<S.Space>) {
    forall s :: s in spaces && P.DATA_CHUNK <= s.length ==> Even(s.offset, P.DATA_CHUNK)
  }

  // Every entry of the device-wide list long enough for a chunk begins at or behind `at`.
  predicate LongBehind(spaces: seq<S.Space>, at: nat) {
    forall s :: s in spaces && P.DATA_CHUNK <= s.length ==> at <= s.offset
  }

  // Removing up to a multiple of a chunk's length, or up to near the end, leaves long entries where they may begin.
  lemma {:induction false} RemovedLongStarts(list: seq<S.Space>, lo: nat, hi: nat, from: int, to: int)
    requires lo <= hi && S.Sorted(list, from, to) && LongStarts(list)
    requires Even(hi, P.DATA_CHUNK) || to - hi < P.DATA_CHUNK
    ensures LongStarts(S.Removed(list, lo, hi))
    decreases |list|
  {
    if list != [] {
      hide Even;
      var s := list[0];
      assert s in list;
      S.SortedEntry(list, from, to, 0);
      forall p | p in S.Cut(s, lo, hi) && P.DATA_CHUNK <= p.length
        ensures Even(p.offset, P.DATA_CHUNK)
      {
        assert p.offset == s.offset || p == S.Space(hi, s.End() - hi);
      }
      RemovedLongStarts(list[1..], lo, hi, s.End(), to);
    }
  }

  // Some entry long enough for a chunk begins at or before `at`.
  predicate LongBefore(spaces: seq<S.Space>, at: nat) {
    exists s :: s in spaces && P.DATA_CHUNK <= s.length && s.offset <= at
  }

  // Taking one cluster without a new chunk.
  lemma TookSlots(chunks: seq<P.Chunk>, chunks': seq<P.Chunk>, g: P.Range, changeUsed: bool, cs: nat)
    requires 0 < cs && g.length == cs && P.TookFrom(chunks, chunks', g, P.Data, changeUsed)
    ensures |chunks'| == |chunks| && Slots(chunks', cs) + 1 == Slots(chunks, cs)
  {
    hide S.Taken, S.Covers, S.Sorted;
    var i: nat, k: nat :| P.TookAt(chunks, chunks', i, k, g, P.Data, changeUsed);
    TakenSlots(chunks[i].spaces, k, cs);
    SlotsAt(chunks, i, chunks'[i], cs);
  }

  // As long as there are free clusters no chunk is made.
  lemma StepSlots(chunks: seq<P.Chunk>, spaces: seq<S.Space>, chunks': seq<P.Chunk>, spaces': seq<S.Space>, g: P.Range,
                  changeUsed: bool, cs: nat)
    requires 0 < cs && g.length == cs && P.DataStep(chunks, spaces, chunks', spaces', g, changeUsed)
    requires |chunks'| == |chunks|
    ensures Slots(chunks', cs) + 1 == Slots(chunks, cs) && spaces' == spaces
  {
    hide P.TookFrom, S.Taken, S.Covers, S.Sorted;
    var extra: seq<P.Chunk> :|
      P.NewFrom(spaces, spaces', extra) && P.TookFrom(chunks + extra, chunks', g, P.Data, changeUsed);
    TookSlots(chunks + extra, chunks', g, changeUsed, cs);
    assert extra == [];
    assert chunks + [] == chunks;
  }

  lemma NoFitSays(chunks: seq<P.Chunk>, c: P.Chunk, k: nat, size: nat)
    requires P.NoFit(chunks, P.Data, size) && c.kind == P.Data && k < |c.spaces| && size <= c.spaces[k].length
    ensures c !in chunks
  {
    assert c.spaces[k] in c.spaces;
  }

  lemma TookBehind(chunks: seq<P.Chunk>, extra: seq<P.Chunk>, chunks': seq<P.Chunk>, g: P.Range, changeUsed: bool)
    requires P.TookFrom(chunks + extra, chunks', g, P.Data, changeUsed) && P.NoFit(chunks, P.Data, g.length)
    ensures |chunks'| == |chunks + extra| && exists c :: c in extra && c.diskStart <= g.start
  {
    hide P.NoFit, S.Taken, S.Covers, S.Sorted;
    var all := chunks + extra;
    var i: nat, k: nat :| P.TookAt(all, chunks', i, k, g, P.Data, changeUsed);
    FrontIsIn(chunks, extra);
    NoFitSays(chunks, all[i], k, g.length);
    assert all[i] in extra;
    P.TookIsExact(all[i], k, g.length, 0);
  }

  // When there are none, the cluster comes out of a new chunk.
  lemma StepBehind(chunks: seq<P.Chunk>, spaces: seq<S.Space>, chunks': seq<P.Chunk>, spaces': seq<S.Space>, g: P.Range,
                   changeUsed: bool)
    requires P.DataStep(chunks, spaces, chunks', spaces', g, changeUsed) && P.NoFit(chunks, P.Data, g.length)
    ensures |chunks'| == |chunks| + 1 && LongBefore(spaces, g.start)
  {
    hide S.Taken, S.Covers, S.Sorted, P.TookFrom, P.NoFit;
    var extra: seq<P.Chunk> :|
      P.NewFrom(spaces, spaces', extra) && P.TookFrom(chunks + extra, chunks', g, P.Data, changeUsed);
    TookBehind(chunks, extra, chunks', g, changeUsed);
    var c :| c in extra && c.diskStart <= g.start;
    var j: nat :| P.CarvedFront(spaces, spaces', j, c, P.DATA_CHUNK, P.Data);
    assert spaces[j] in spaces;
  }

  lemma FrontIsIn(chunks: seq<P.Chunk>, extra: seq<P.Chunk>)
    ensures forall i :: 0 <= i < |chunks| ==> (chunks + extra)[i] in chunks
  {
    forall i | 0 <= i < |chunks|
      ensures (chunks + extra)[i] in chunks
    {
      assert (chunks + extra)[i] == chunks[i];
    }
  }

  lemma StepStaysBehind(chunks: seq<P.Chunk>, spaces: seq<S.Space>, chunks': seq<P.Chunk>, spaces': seq<S.Space>,
                        g: P.Range, changeUsed: bool, at: nat)
    requires P.DataStep(chunks, spaces, chunks', spaces', g, changeUsed) && LongBehind(spaces, at)
    ensures LongBehind(spaces', at)
  {
    hide S.Covers, P.TookFrom, S.Sorted;
    var extra: seq<P.Chunk> :|
      P.NewFrom(spaces, spaces', extra) && P.TookFrom(chunks + extra, chunks', g, P.Data, changeUsed);
    if extra != [] {
      var j: nat :| P.CarvedFront(spaces, spaces', j, extra[0], P.DATA_CHUNK, P.Data);
      assert spaces[j] in spaces;
      forall s | s in spaces' && P.DATA_CHUNK <= s.length
        ensures at <= s.offset
      {
        TakenEntry(spaces, j, P.DATA_CHUNK, s);
      }
    }
  }

  lemma {:induction false} TakenEntry(list: seq<S.Space>, k: nat, size: nat, s: S.Space)
    requires k < |list| && size <= list[k].length && s in S.Taken(list, k, size)
    ensures s in list
         || (size < list[k].length && s == S.Space(list[k].offset + size, list[k].length - size))
  {
    if 0 < k && s != list[0] {
      TakenEntry(list[1..], k - 1, size, s);
    }
  }

  // One cluster was taken at `at`: from a chunk while one has a free cluster, else from a new chunk.
  ghost predicate RoomUsed(chunks: seq<P.Chunk>, spaces: seq<S.Space>, chunks': seq<P.Chunk>, spaces': seq<S.Space>,
                           at: nat, cs: nat)
    requires 0 < cs
  {
    && (if 0 < Slots(chunks, cs) then |chunks'| == |chunks| && Slots(chunks', cs) + 1 == Slots(chunks, cs)
        else |chunks'| == |chunks| + 1 && LongBefore(spaces, at))
    && (forall from: nat :: LongBehind(spaces, from) ==> LongBehind(spaces', from))
  }

  lemma StepRoom(chunks: seq<P.Chunk>, spaces: seq<S.Space>, chunks1: seq<P.Chunk>, chunks': seq<P.Chunk>,
                 spaces': seq<S.Space>, g: P.Range, cs: nat)
    requires 0 < cs && g.length == cs && P.DataStep(chunks, spaces, chunks1, spaces', g, false)
    requires !P.NoFit(chunks, P.Data, cs) ==> |chunks1| == |chunks|
    requires |chunks'| == |chunks1|
    requires forall i :: 0 <= i < |chunks1| ==> chunks'[i] == chunks1[i].(used := chunks'[i].used)
    ensures RoomUsed(chunks, spaces, chunks', spaces', g.start, cs)
  {
    hide P.DataStep, P.NoFit, Slots, LongBehind, LongBefore;
    NoFitIsNoSlots(chunks, cs);
    SameSlots(chunks1, chunks', cs);
    if 0 < Slots(chunks, cs) {
      StepSlots(chunks, spaces, chunks1, spaces', g, false, cs);
    } else {
      StepBehind(chunks, spaces, chunks1, spaces', g, false);
    }
    forall from: nat | LongBehind(spaces, from)
      ensures LongBehind(spaces', from)
    {
      StepStaysBehind(chunks, spaces, chunks1, spaces', g, false, from);
    }
  }

  // Some chunk reaches beyond `size`.
  predicate EndsBeyond(chunks: seq<P.Chunk>, size: nat) {
    exists c :: c in chunks && size < c.diskStart + c.length
  }
}
