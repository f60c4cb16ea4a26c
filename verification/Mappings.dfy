/**
 * Rewriting a file's mappings so that they avoid the protected clusters: `process_mappings`.
 */
module Mappings {
  import opened ChunkMath
  import opened ImageRollback

  // `length` clusters of the file from `vcn` on are on disk from `lcn` on.
  datatype Mapping = Mapping(lcn: nat, vcn: nat, length: nat) {
    predicate HasVcn(v: nat) {
      vcn <= v < vcn + length
    }
  }

  // The relocation moves cluster `x` to `y`.
  predicate Carries(r: Reloc, x: nat, y: nat) {
    r.old' <= x < r.old' + r.length && y == r.new' + (x - r.old')
  }

  // The translation a list of relocations denotes.
  predicate Moves(relocs: seq<Reloc>, x: nat, y: nat) {
    exists i :: 0 <= i < |relocs| && Carries(relocs[i], x, y)
  }

  predicate InOld(relocs: seq<Reloc>, x: nat) {
    exists i :: 0 <= i < |relocs| && relocs[i].old' <= x < relocs[i].old' + relocs[i].length
  }

  ghost predicate SameMoves(a: seq<Reloc>, b: seq<Reloc>) {
    forall x: nat, y: nat :: Moves(a, x, y) <==> Moves(b, x, y)
  }

  predicate Meets(r: Reloc, m: Mapping) {
    m.lcn + m.length > r.old' && m.lcn < r.old' + r.length
  }

  // The part of `m` at `p` went along with `r`, or had nothing to do with it.
  predicate PieceOf(p: Mapping, m: Mapping, r: Reloc) {
    && 0 < p.length && m.vcn <= p.vcn && p.vcn + p.length <= m.vcn + m.length
    && var x := m.lcn + (p.vcn - m.vcn);
       || (r.old' <= x && x + p.length <= r.old' + r.length && p.lcn == r.new' + (x - r.old'))
       || (p.lcn == x && (x + p.length <= r.old' || r.old' + r.length <= x))
  }

  // The pieces follow each other and cover the clusters of the file from `from` to `to`.
  predicate Tiles(pieces: seq<Mapping>, from: nat, to: nat) {
    if pieces == [] then from == to
    else pieces[0].vcn == from && 0 < pieces[0].length && Tiles(pieces[1..], from + pieces[0].length, to)
  }

  function TotalLength(relocs: seq<Reloc>): nat {
    if relocs == [] then 0 else TotalLength(relocs[..|relocs| - 1]) + relocs[|relocs| - 1].length
  }

  lemma TotalNext(relocs: seq<Reloc>, r: Reloc)
    ensures TotalLength(relocs + [r]) == TotalLength(relocs) + r.length
  {
    assert (relocs + [r])[..|relocs|] == relocs;
  }

  lemma TotalOne(r: Reloc)
    ensures TotalLength([r]) == r.length && TotalLength([]) == 0
  {
    TotalNext([], r);
    assert [] + [r] == [r];
  }

  datatype Turn = Turn(r: Reloc, more: seq<Reloc>, pieces: seq<Mapping>)

  // What one overlap may do: the relocation is cut where needed without changing where it
  // moves anything, and the mapping is cut into pieces that went along with it or did not.
  ghost predicate TurnOk(r: Reloc, m: Mapping, t: Turn) {
    && SameMoves([t.r] + t.more, [r])
    && 0 < t.r.length && r.old' <= t.r.old' && t.r.old' + t.r.length <= r.old' + r.length
    && (forall q :: q in t.more ==> 0 < q.length)
    && t.r.length + TotalLength(t.more) == r.length
    && t.pieces != [] && Tiles(t.pieces, m.vcn, m.vcn + m.length)
    && (forall p :: p in t.pieces ==> PieceOf(p, m, r))
  }

  lemma MovesOne(r: Reloc, x: nat, y: nat)
    ensures Moves([r], x, y) <==> Carries(r, x, y)
  {
    if Carries(r, x, y) {
      assert Carries([r][0], x, y);
    }
  }

  lemma MovesConcat(a: seq<Reloc>, b: seq<Reloc>, x: nat, y: nat)
    ensures Moves(a + b, x, y) <==> Moves(a, x, y) || Moves(b, x, y)
  {
    if Moves(a, x, y) {
      var i :| 0 <= i < |a| && Carries(a[i], x, y);
      assert Carries((a + b)[i], x, y);
    }
    if Moves(b, x, y) {
      var i :| 0 <= i < |b| && Carries(b[i], x, y);
      assert Carries((a + b)[|a| + i], x, y);
    }
  }

  // Cutting a relocation in two.
  lemma CutKeepsMoves(r: Reloc, n: nat)
    requires n <= r.length
    ensures var a, b := Reloc(r.old', n, r.new'), Reloc(r.old' + n, r.length - n, r.new' + n);
      SameMoves([a, b], [r]) && SameMoves([b, a], [r])
  {
    var a, b := Reloc(r.old', n, r.new'), Reloc(r.old' + n, r.length - n, r.new' + n);
    forall x: nat, y: nat
      ensures Moves([a, b], x, y) <==> Moves([r], x, y)
      ensures Moves([b, a], x, y) <==> Moves([r], x, y)
    {
      assert [a, b] == [a] + [b] && [b, a] == [b] + [a];
      MovesConcat([a], [b], x, y);
      MovesConcat([b], [a], x, y);
      MovesOne(a, x, y);
      MovesOne(b, x, y);
      MovesOne(r, x, y);
    }
  }

  lemma TilesNone(v: nat)
    ensures Tiles([], v, v)
  {
  }

  lemma TilesOne(p: Mapping)
    requires 0 < p.length
    ensures Tiles([p], p.vcn, p.vcn + p.length)
  {
    assert Tiles([p][1..], p.vcn + p.length, p.vcn + p.length);
  }

  lemma {:induction false} TilesConcat(a: seq<Mapping>, b: seq<Mapping>, from: nat, mid: nat, to: nat)
    requires Tiles(a, from, mid) && Tiles(b, mid, to)
    ensures Tiles(a + b, from, to)
    decreases |a|
  {
    if a == [] {
      assert a + b == b;
    } else {
      TilesConcat(a[1..], b, from + a[0].length, mid, to);
      assert (a + b)[1..] == a[1..] + b;
    }
  }

  // The mapping lies inside the relocated range.
  method ChangeWhole(r0: Reloc, m0: Mapping) returns (t: Turn)
    requires Meets(r0, m0) && 0 < m0.length && 0 < r0.length
    requires m0.lcn >= r0.old' && m0.lcn + m0.length <= r0.old' + r0.length
    ensures TurnOk(r0, m0, t)
    ensures r0.length == 1 ==> t.r == r0 && t.more == []
  {
    hide SameMoves, Tiles, TotalLength;
    var r, m, more: seq<Reloc> := r0, m0, [];
    if r.old' < m.lcn {
      more := [Reloc(r.old', m.lcn - r.old', r.new')];
      TotalOne(more[0]);
      CutKeepsMoves(r, m.lcn - r.old');
      r := Reloc(m.lcn, r.length - (m.lcn - r.old'), r.new' + (m.lcn - r.old'));
      assert [r] + more == [r, more[0]];
    } else {
      SameMovesItself(r);
      TotalOne(r);
    }
    if r.old' + r.length > m.lcn + m.length {
      var tail := Reloc(m.lcn + m.length, r.old' + r.length - m.lcn - m.length, r.new' + m.lcn + m.length - r.old');
      CutKeepsMoves(r, m.length);
      ghost var was := r;
      r := r.(length := m.lcn + m.length - r.old');
      WholeTail(was, r, tail, more, r0);
      TotalNext(more, tail);
      more := more + [tail];
    }
    m := m.(lcn := m.lcn - r.old' + r.new');
    TilesOne(m);
    t := Turn(r, more, [m]);
  }

  lemma WholeTail(was: Reloc, r: Reloc, tail: Reloc, more: seq<Reloc>, r0: Reloc)
    requires SameMoves([was] + more, [r0]) && SameMoves([r, tail], [was])
    ensures SameMoves([r] + (more + [tail]), [r0])
  {
    forall x: nat, y: nat
      ensures Moves([r] + (more + [tail]), x, y) <==> Moves([r0], x, y)
    {
      MovesConcat([r], more + [tail], x, y);
      MovesConcat(more, [tail], x, y);
      MovesConcat([was], more, x, y);
      assert [r, tail] == [r] + [tail];
      MovesConcat([r], [tail], x, y);
      assert Moves([was] + more, x, y) <==> Moves([r0], x, y);
      assert Moves([r, tail], x, y) <==> Moves([was], x, y);
    }
  }

  lemma SameMovesItself(r: Reloc)
    ensures SameMoves([r] + [], [r])
  {
    assert [r] + [] == [r];
  }

  // The relocated range lies inside the mapping.
  method ChangeMiddle(r: Reloc, m0: Mapping) returns (t: Turn)
    requires Meets(r, m0) && 0 < m0.length && 0 < r.length
    requires m0.lcn <= r.old' && m0.lcn + m0.length >= r.old' + r.length
    ensures TurnOk(r, m0, t)
    ensures r.length == 1 ==> t.r == r && t.more == []
  {
    hide SameMoves, Tiles, TotalLength;
    var m, pieces: seq<Mapping> := m0, [];
    TilesNone(m.vcn);
    if m.lcn < r.old' {
      var p := Mapping(m.lcn, m.vcn, r.old' - m.lcn);
      TilesOne(p);
      pieces := [p];
      m := Mapping(r.old', m.vcn + (r.old' - m.lcn), m.length - (r.old' - m.lcn));
    }
    assert Tiles(pieces, m0.vcn, m.vcn);
    if m.lcn + m.length > r.old' + r.length {
      var p := Mapping(r.new', m.vcn, r.length);
      TilesOne(p);
      TilesConcat(pieces, [p], m0.vcn, m.vcn, m.vcn + r.length);
      pieces := pieces + [p];
      m := Mapping(r.old' + r.length, m.vcn + r.length, m.length - r.length);
    } else {
      m := m.(lcn := m.lcn - r.old' + r.new');
    }
    TilesOne(m);
    TilesConcat(pieces, [m], m0.vcn, m.vcn, m.vcn + m.length);
    SameMovesItself(r);
    TotalOne(r);
    t := Turn(r, [], pieces + [m]);
  }

  // The mapping ends inside the relocated range.
  method ChangeEnd(r0: Reloc, m0: Mapping) returns (t: Turn)
    requires Meets(r0, m0) && 0 < m0.length && 0 < r0.length
    requires m0.lcn < r0.old' && m0.lcn + m0.length <= r0.old' + r0.length
    ensures TurnOk(r0, m0, t)
    ensures r0.length == 1 ==> t.r == r0 && t.more == []
  {
    hide SameMoves, Tiles, TotalLength;
    var r, m, more: seq<Reloc> := r0, m0, [];
    var p := Mapping(m.lcn, m.vcn, r.old' - m.lcn);
    m := Mapping(r.new', m.vcn + (r.old' - m.lcn), m.length - (r.old' - m.lcn));
    SameMovesItself(r);
    TotalOne(r);
    if r.length > m.length {
      more := [Reloc(r.old' + m.length, r.length - m.length, r.new' + m.length)];
      CutKeepsMoves(r, m.length);
      r := r.(length := m.length);
      assert [r] + more == [r, more[0]];
      TotalOne(more[0]);
    }
    TilesOne(p);
    TilesOne(m);
    TilesConcat([p], [m], p.vcn, m.vcn, m.vcn + m.length);
    t := Turn(r, more, [p] + [m]);
  }

  // The mapping begins inside the relocated range.
  method ChangeBeginning(r0: Reloc, m0: Mapping) returns (t: Turn)
    requires Meets(r0, m0) && 0 < m0.length && 0 < r0.length
    requires m0.lcn > r0.old' && m0.lcn + m0.length > r0.old' + r0.length
    ensures TurnOk(r0, m0, t)
    ensures r0.length == 1 ==> t.r == r0 && t.more == []
  {
    hide SameMoves, Tiles, TotalLength;
    var r, m, more: seq<Reloc> := r0, m0, [];
    if r.old' < m.lcn {
      more := [Reloc(m.lcn, r.old' + r.length - m.lcn, r.new' + m.lcn - r.old')];
      CutKeepsMoves(r, m.lcn - r.old');
      r := r.(length := m.lcn - r.old');
      assert [r] + more == [r, more[0]];
      TotalOne(more[0]);
    }
    var n := r0.old' + r0.length - m.lcn;
    var p := Mapping(m.lcn - r0.old' + r0.new', m.vcn, n);
    m := Mapping(r0.old' + r0.length, m.vcn + n, m.length - n);
    TilesOne(p);
    TilesOne(m);
    TilesConcat([p], [m], p.vcn, m.vcn, m.vcn + m.length);
    t := Turn(r, more, [p] + [m]);
  }

  // The four cases are all there are.
  method ChangeOne(r: Reloc, m: Mapping) returns (t: Turn)
    requires Meets(r, m) && 0 < m.length && 0 < r.length
    ensures TurnOk(r, m, t)
    ensures r.length == 1 ==> t.r == r && t.more == []
  {
    if m.lcn >= r.old' && m.lcn + m.length <= r.old' + r.length {
      t := ChangeWhole(r, m);
    } else if m.lcn <= r.old' && m.lcn + m.length >= r.old' + r.length {
      t := ChangeMiddle(r, m);
    } else if m.lcn < r.old' && m.lcn + m.length <= r.old' + r.length {
      t := ChangeEnd(r, m);
    } else {
      t := ChangeBeginning(r, m);
    }
  }

  // No two relocations move the same cluster, and nothing is moved onto a cluster that is moved.
  ghost predicate Apart(relocs: seq<Reloc>) {
    && (forall r :: r in relocs ==> 0 < r.length)
    && (forall x: nat, y: nat :: Moves(relocs, x, y) ==> !InOld(relocs, y))
  }

  lemma InOldMoves(relocs: seq<Reloc>, x: nat)
    ensures InOld(relocs, x) <==> exists y: nat :: Moves(relocs, x, y)
  {
    if InOld(relocs, x) {
      var i :| 0 <= i < |relocs| && relocs[i].old' <= x < relocs[i].old' + relocs[i].length;
      assert Carries(relocs[i], x, relocs[i].new' + (x - relocs[i].old'));
      assert Moves(relocs, x, relocs[i].new' + (x - relocs[i].old'));
    }
  }

  lemma SameOld(a: seq<Reloc>, b: seq<Reloc>, x: nat)
    requires SameMoves(a, b)
    ensures InOld(a, x) <==> InOld(b, x)
  {
    InOldMoves(a, x);
    InOldMoves(b, x);
  }

  // Cluster `x` of the old volume, and those after it, are now where `p` says.
  ghost predicate MovedAll(p: Mapping, x: nat, relocs: seq<Reloc>) {
    forall z: nat, y: nat :: x <= z < x + p.length && y == p.lcn + (z - x) ==> Moves(relocs, z, y)
  }

  predicate Clear(p: Mapping, relocs: seq<Reloc>) {
    forall r :: r in relocs ==> !Meets(r, p)
  }

  // Where the clusters of `p` were in `m`.
  function Origin(p: Mapping, m: Mapping): nat
    requires m.vcn <= p.vcn
  {
    m.lcn + (p.vcn - m.vcn)
  }

  predicate PartOf(p: Mapping, m: Mapping) {
    0 < p.length && m.vcn <= p.vcn && p.vcn + p.length <= m.vcn + m.length
  }

  // A piece of an original mapping that has been moved, or has not and is clear of `done`.
  ghost predicate Sits(p: Mapping, ms: seq<Mapping>, relocs: seq<Reloc>, done: seq<Reloc>) {
    exists m :: m in ms && PartOf(p, m) && SitsIn(p, m, relocs, done)
  }

  ghost predicate SitsIn(p: Mapping, m: Mapping, relocs: seq<Reloc>, done: seq<Reloc>)
    requires m.vcn <= p.vcn
  {
    MovedAll(p, Origin(p, m), relocs) || (p.lcn == Origin(p, m) && Clear(p, done))
  }

  // A mapping that meets a relocation has not been moved yet.
  lemma MeetsIsUnmoved(p: Mapping, x: nat, r: Reloc, now: seq<Reloc>, relocs: seq<Reloc>)
    requires Apart(relocs) && SameMoves(now, relocs) && r in now && Meets(r, p) && 0 < p.length
    requires 0 < r.length
    ensures !MovedAll(p, x, relocs)
  {
    var z := if p.lcn < r.old' then r.old' else p.lcn;
    var i :| 0 <= i < |now| && now[i] == r;
    assert InOld(now, z) by {
      assert now[i].old' <= z < now[i].old' + now[i].length;
    }
    SameOld(now, relocs, z);
    var k := z - p.lcn;
    assert !Moves(relocs, x + k, z);
  }

  // A piece cut off at an overlap.
  lemma PieceSits(p: Mapping, m: Mapping, r: Reloc, t: Turn, ms: seq<Mapping>, now: seq<Reloc>, relocs: seq<Reloc>,
                  done: seq<Reloc>)
    requires Apart(relocs) && SameMoves(now, relocs) && r in now && Meets(r, m) && 0 < r.length
    requires TurnOk(r, m, t) && p in t.pieces && Sits(m, ms, relocs, done)
    ensures Sits(p, ms, relocs, done + [t.r])
  {
    hide SameMoves, Moves, Apart, Tiles, TotalLength;
    var m0 :| m0 in ms && PartOf(m, m0) && SitsIn(m, m0, relocs, done);
    MeetsIsUnmoved(m, Origin(m, m0), r, now, relocs);
    assert m.lcn == Origin(m, m0) && Clear(m, done);
    assert PieceOf(p, m, r) && PartOf(p, m0);
    var x := Origin(p, m0);
    assert x == m.lcn + (p.vcn - m.vcn);
    if p.lcn == x && (x + p.length <= r.old' || r.old' + r.length <= x) {
      PieceClear(p, m, r, t.r, done);
    } else {
      PieceMoved(p, x, r, now, relocs);
    }
  }

  lemma PieceClear(p: Mapping, m: Mapping, r: Reloc, r': Reloc, done: seq<Reloc>)
    requires Clear(m, done) && m.lcn <= p.lcn && p.lcn + p.length <= m.lcn + m.length
    requires p.lcn + p.length <= r.old' || r.old' + r.length <= p.lcn
    requires r.old' <= r'.old' && r'.old' + r'.length <= r.old' + r.length
    ensures Clear(p, done + [r'])
  {
    forall q | q in done + [r']
      ensures !Meets(q, p)
    {
      if q in done {
        assert !Meets(q, m);
      }
    }
  }

  lemma PieceMoved(p: Mapping, x: nat, r: Reloc, now: seq<Reloc>, relocs: seq<Reloc>)
    requires SameMoves(now, relocs) && r in now
    requires r.old' <= x && x + p.length <= r.old' + r.length && p.lcn == r.new' + (x - r.old')
    ensures MovedAll(p, x, relocs)
  {
    var i :| 0 <= i < |now| && now[i] == r;
    forall z: nat, y: nat | x <= z < x + p.length && y == p.lcn + (z - x)
      ensures Moves(relocs, z, y)
    {
      assert Carries(now[i], z, y);
      assert Moves(now, z, y);
    }
  }

  lemma SitsOn(p: Mapping, ms: seq<Mapping>, relocs: seq<Reloc>, done: seq<Reloc>, done': seq<Reloc>)
    requires Sits(p, ms, relocs, done) && (Clear(p, done) ==> Clear(p, done'))
    ensures Sits(p, ms, relocs, done')
  {
    var m :| m in ms && PartOf(p, m) && SitsIn(p, m, relocs, done);
    assert SitsIn(p, m, relocs, done');
  }

  // The file's clusters a list of mappings covers, in order and once each.
  predicate InOrder(ms: seq<Mapping>) {
    && (forall i :: 0 <= i < |ms| ==> 0 < ms[i].length)
    && (forall i, j :: 0 <= i < j < |ms| ==> ms[i].vcn + ms[i].length <= ms[j].vcn)
  }

  predicate HasVcn(ms: seq<Mapping>, v: nat) {
    exists i :: 0 <= i < |ms| && ms[i].HasVcn(v)
  }

  lemma {:induction false} TilesAre(pieces: seq<Mapping>, from: nat, to: nat, v: nat)
    requires Tiles(pieces, from, to)
    ensures from <= to && InOrder(pieces) && (HasVcn(pieces, v) <==> from <= v < to)
    ensures forall i :: 0 <= i < |pieces| ==> from <= pieces[i].vcn && pieces[i].vcn + pieces[i].length <= to
    decreases |pieces|
  {
    if pieces != [] {
      var rest := pieces[1..];
      TilesAre(rest, from + pieces[0].length, to, v);
      assert forall i :: 0 < i < |pieces| ==> pieces[i] == rest[i - 1];
      if HasVcn(rest, v) {
        var i :| 0 <= i < |rest| && rest[i].HasVcn(v);
        assert pieces[i + 1].HasVcn(v);
      }
      if pieces[0].HasVcn(v) {
        assert HasVcn(pieces, v);
      }
      if HasVcn(pieces, v) {
        var i :| 0 <= i < |pieces| && pieces[i].HasVcn(v);
        assert i == 0 || rest[i - 1].HasVcn(v);
      }
    }
  }

  // Cutting one mapping into pieces keeps the order and what is covered.
  lemma CutInOrder(ms: seq<Mapping>, i: nat, pieces: seq<Mapping>)
    requires InOrder(ms) && i < |ms| && Tiles(pieces, ms[i].vcn, ms[i].vcn + ms[i].length)
    ensures InOrder(ms[..i] + pieces + ms[i + 1..])
    ensures forall v: nat :: HasVcn(ms[..i] + pieces + ms[i + 1..], v) <==> HasVcn(ms, v)
  {
    var all := ms[..i] + pieces + ms[i + 1..];
    TilesAre(pieces, ms[i].vcn, ms[i].vcn + ms[i].length, 0);
    forall a, b | 0 <= a < b < |all|
      ensures all[a].vcn + all[a].length <= all[b].vcn
    {
      CutPair(ms, i, pieces, a, b);
    }
    forall v: nat
      ensures HasVcn(all, v) <==> HasVcn(ms, v)
    {
      TilesAre(pieces, ms[i].vcn, ms[i].vcn + ms[i].length, v);
      CutVcn(ms, i, pieces, v);
    }
  }

  lemma CutPair(ms: seq<Mapping>, i: nat, pieces: seq<Mapping>, a: nat, b: nat)
    requires InOrder(ms) && i < |ms| && InOrder(pieces)
    requires forall j :: 0 <= j < |pieces| ==>
      ms[i].vcn <= pieces[j].vcn && pieces[j].vcn + pieces[j].length <= ms[i].vcn + ms[i].length
    requires a < b < |ms[..i] + pieces + ms[i + 1..]|
    ensures var all := ms[..i] + pieces + ms[i + 1..]; all[a].vcn + all[a].length <= all[b].vcn
  {
    var n := |pieces|;
    if a < i {
      assert i <= b < i + n ==> ms[a].vcn + ms[a].length <= ms[i].vcn;
    } else if a < i + n <= b {
      assert ms[i].vcn + ms[i].length <= ms[b - n + 1].vcn;
    }
  }

  lemma CutVcn(ms: seq<Mapping>, i: nat, pieces: seq<Mapping>, v: nat)
    requires i < |ms| && (HasVcn(pieces, v) <==> ms[i].HasVcn(v))
    ensures HasVcn(ms[..i] + pieces + ms[i + 1..], v) <==> HasVcn(ms, v)
  {
    var all, n := ms[..i] + pieces + ms[i + 1..], |pieces|;
    if HasVcn(ms, v) {
      var j :| 0 <= j < |ms| && ms[j].HasVcn(v);
      if j == i {
        var l :| 0 <= l < n && pieces[l].HasVcn(v);
        assert all[i + l].HasVcn(v);
      } else {
        assert all[if j < i then j else j - 1 + n].HasVcn(v);
      }
    }
    if HasVcn(all, v) {
      var j :| 0 <= j < |all| && all[j].HasVcn(v);
      if i <= j < i + n {
        assert pieces[j - i].HasVcn(v);
      } else {
        assert ms[if j < i then j else j - n + 1].HasVcn(v);
      }
    }
  }

  lemma {:induction false} TotalConcat(a: seq<Reloc>, b: seq<Reloc>)
    ensures TotalLength(a + b) == TotalLength(a) + TotalLength(b)
    decreases |b|
  {
    if b == [] {
      assert a + b == a;
    } else {
      var front, r := b[..|b| - 1], b[|b| - 1];
      TotalConcat(a, front);
      TotalNext(a + front, r);
      assert a + b == (a + front) + [r];
    }
  }

  lemma {:induction false} TotalCounts(relocs: seq<Reloc>)
    requires forall r :: r in relocs ==> 0 < r.length
    ensures |relocs| <= TotalLength(relocs)
    decreases |relocs|
  {
    if relocs != [] {
      assert relocs[|relocs| - 1] in relocs;
      TotalCounts(relocs[..|relocs| - 1]);
    }
  }

  // The relocation list with entry `i` cut.
  function CutAt(now: seq<Reloc>, i: nat, r: Reloc, more: seq<Reloc>): seq<Reloc>
    requires i < |now|
  {
    now[i := r] + more
  }

  lemma CutAtKeeps(now: seq<Reloc>, i: nat, r: Reloc, more: seq<Reloc>, relocs: seq<Reloc>)
    requires i < |now| && SameMoves(now, relocs) && SameMoves([r] + more, [now[i]])
    requires r.length + TotalLength(more) == now[i].length && 0 < r.length
    requires (forall q :: q in now ==> 0 < q.length) && forall q :: q in more ==> 0 < q.length
    ensures SameMoves(CutAt(now, i, r, more), relocs)
    ensures TotalLength(CutAt(now, i, r, more)) == TotalLength(now)
    ensures forall q :: q in CutAt(now, i, r, more) ==> 0 < q.length
  {
    hide SameMoves, Moves, TotalLength;
    var front, rest := now[..i], now[i + 1..];
    assert now == front + [now[i]] + rest;
    assert CutAt(now, i, r, more) == front + [r] + rest + more;
    assert SameMoves(CutAt(now, i, r, more), relocs) by {
      CutAtMoves(front, now[i], rest, r, more, relocs);
    }
    TotalConcat(front + [r] + rest, more);
    TotalConcat(front + [r], rest);
    TotalConcat(front, [r]);
    TotalConcat(front + [now[i]], rest);
    TotalConcat(front, [now[i]]);
    TotalOne(r);
    TotalOne(now[i]);
  }

  lemma CutAtMoves(front: seq<Reloc>, was: Reloc, rest: seq<Reloc>, r: Reloc, more: seq<Reloc>, relocs: seq<Reloc>)
    requires SameMoves(front + [was] + rest, relocs) && SameMoves([r] + more, [was])
    ensures SameMoves(front + [r] + rest + more, relocs)
  {
    forall x: nat, y: nat
      ensures Moves(front + [r] + rest + more, x, y) <==> Moves(relocs, x, y)
    {
      MovesConcat(front + [r] + rest, more, x, y);
      MovesConcat(front + [r], rest, x, y);
      MovesConcat(front, [r], x, y);
      MovesConcat(front + [was], rest, x, y);
      MovesConcat(front, [was], x, y);
      MovesConcat([r], more, x, y);
      assert Moves([r] + more, x, y) <==> Moves([was], x, y);
      assert Moves(front + [was] + rest, x, y) <==> Moves(relocs, x, y);
    }
  }

  // Where the two loops stand: mappings before `mi` have met relocation `ri`.
  ghost predicate Rewriting(ms: seq<Mapping>, relocs: seq<Reloc>, now: seq<Reloc>, maps: seq<Mapping>, ri: nat,
                            mi: nat) {
    && ri < |now| && mi <= |maps|
    && SameMoves(now, relocs) && (forall q :: q in now ==> 0 < q.length) && TotalLength(now) == TotalLength(relocs)
    && InOrder(maps) && (forall v: nat :: HasVcn(maps, v) <==> HasVcn(ms, v))
    && (forall i :: 0 <= i < mi ==> Sits(maps[i], ms, relocs, now[..ri + 1]))
    && (forall i :: mi <= i < |maps| ==> Sits(maps[i], ms, relocs, now[..ri]))
  }

  lemma TurnKeeps(ms: seq<Mapping>, relocs: seq<Reloc>, now: seq<Reloc>, maps: seq<Mapping>, ri: nat, mi: nat, t: Turn)
    requires Apart(relocs) && Rewriting(ms, relocs, now, maps, ri, mi) && mi < |maps|
    requires Meets(now[ri], maps[mi]) && TurnOk(now[ri], maps[mi], t)
    ensures Rewriting(ms, relocs, CutAt(now, ri, t.r, t.more), maps[..mi] + t.pieces + maps[mi + 1..],
                      ri, mi + |t.pieces|)
  {
    hide SameMoves, Apart, Tiles, TotalLength, InOrder, HasVcn, PieceOf, Meets;
    var r, m := now[ri], maps[mi];
    var now', maps' := CutAt(now, ri, t.r, t.more), maps[..mi] + t.pieces + maps[mi + 1..];
    assert r in now;
    CutAtKeeps(now, ri, t.r, t.more, relocs);
    CutInOrder(maps, mi, t.pieces);
    assert now'[..ri] == now[..ri] && now'[..ri + 1] == now[..ri] + [t.r] && now[..ri + 1] == now[..ri] + [r];
    forall i | 0 <= i < mi + |t.pieces|
      ensures Sits(maps'[i], ms, relocs, now'[..ri + 1])
    {
      if i < mi {
        assert Sits(maps[i], ms, relocs, now[..ri + 1]);
        ShrunkClear(maps[i], now[..ri], r, t.r);
        SitsOn(maps[i], ms, relocs, now[..ri] + [r], now[..ri] + [t.r]);
      } else {
        assert maps'[i] == t.pieces[i - mi] && t.pieces[i - mi] in t.pieces;
        assert Sits(m, ms, relocs, now[..ri]);
        PieceSits(maps'[i], m, r, t, ms, now, relocs, now[..ri]);
      }
    }
    forall i | mi + |t.pieces| <= i < |maps'|
      ensures Sits(maps'[i], ms, relocs, now'[..ri])
    {
      assert maps'[i] == maps[i - |t.pieces| + 1];
    }
  }

  lemma ShrunkClear(p: Mapping, done: seq<Reloc>, r: Reloc, r': Reloc)
    requires r.old' <= r'.old' && r'.old' + r'.length <= r.old' + r.length
    ensures Clear(p, done + [r]) ==> Clear(p, done + [r'])
  {
    if Clear(p, done + [r]) {
      assert r in done + [r];
      assert !Meets(r, p);
      forall q | q in done + [r']
        ensures !Meets(q, p)
      {
        if q in done {
          assert q in done + [r];
        }
      }
    }
  }

  lemma MissKeeps(ms: seq<Mapping>, relocs: seq<Reloc>, now: seq<Reloc>, maps: seq<Mapping>, ri: nat, mi: nat)
    requires Rewriting(ms, relocs, now, maps, ri, mi) && mi < |maps| && !Meets(now[ri], maps[mi])
    ensures Rewriting(ms, relocs, now, maps, ri, mi + 1)
  {
    hide SameMoves, TotalLength, InOrder, HasVcn;
    assert now[..ri + 1] == now[..ri] + [now[ri]];
    assert Sits(maps[mi], ms, relocs, now[..ri]);
    SitsOn(maps[mi], ms, relocs, now[..ri], now[..ri + 1]);
  }

  // The mapping's clusters are all in one chunk.
  predicate OneChunk(p: Mapping, n: nat)
    requires 0 < n
  {
    0 < p.length && Index(p.lcn, n) == Index(p.lcn + p.length - 1, n)
  }

  predicate InChunks(ms: seq<Mapping>, n: nat)
    requires 0 < n
  {
    forall p :: p in ms ==> OneChunk(p, n)
  }

  // Every relocation is of one cluster, as `protect_cluster` makes them.
  predicate OneClusterEach(relocs: seq<Reloc>) {
    forall r :: r in relocs ==> r.length == 1
  }

  // The mapping is of one cluster, or its clusters are where they were.
  ghost predicate Steady(p: Mapping, ms: seq<Mapping>) {
    p.length == 1 || exists m :: m in ms && PartOf(p, m) && p.lcn == Origin(p, m)
  }

  ghost predicate AllSteady(maps: seq<Mapping>, ms: seq<Mapping>) {
    forall p :: p in maps ==> Steady(p, ms)
  }

  lemma SteadyAtFirst(ms: seq<Mapping>)
    requires InOrder(ms)
    ensures AllSteady(ms, ms)
  {
    forall p | p in ms
      ensures Steady(p, ms)
    {
      assert PartOf(p, p);
    }
  }

  lemma PieceIsSteady(p: Mapping, m: Mapping, r: Reloc, ms: seq<Mapping>)
    requires PieceOf(p, m, r) && Steady(m, ms) && r.length == 1
    ensures Steady(p, ms)
  {
    if m.length != 1 && p.length != 1 {
      var q :| q in ms && PartOf(m, q) && m.lcn == Origin(m, q);
      assert PartOf(p, q) && p.lcn == Origin(p, q);
    }
  }

  lemma PiecesAreSteady(maps: seq<Mapping>, mi: nat, r: Reloc, t: Turn, ms: seq<Mapping>)
    requires AllSteady(maps, ms) && mi < |maps| && TurnOk(r, maps[mi], t) && r.length == 1
    ensures AllSteady(maps[..mi] + t.pieces + maps[mi + 1..], ms)
  {
    hide Steady, SameMoves, Tiles, TotalLength, PieceOf;
    assert maps[mi] in maps;
    forall p | p in maps[..mi] + t.pieces + maps[mi + 1..]
      ensures Steady(p, ms)
    {
      if p in t.pieces {
        PieceIsSteady(p, maps[mi], r, ms);
      } else {
        assert p in maps;
      }
    }
  }

  // A piece is in one chunk, like the mapping it was cut from, or is a single moved cluster.
  lemma PieceInChunk(p: Mapping, m: Mapping, r: Reloc, n: nat)
    requires 0 < n && PieceOf(p, m, r) && OneChunk(m, n) && r.length == 1
    ensures OneChunk(p, n)
  {
    hide Index;
    var x := m.lcn + (p.vcn - m.vcn);
    if p.lcn == x {
      IndexGrows(m.lcn, x, n);
      IndexGrows(x, x + p.length - 1, n);
      IndexGrows(x + p.length - 1, m.lcn + m.length - 1, n);
    }
  }

  lemma PiecesInChunks(maps: seq<Mapping>, mi: nat, r: Reloc, t: Turn, n: nat)
    requires 0 < n && InChunks(maps, n) && mi < |maps| && TurnOk(r, maps[mi], t) && r.length == 1
    ensures InChunks(maps[..mi] + t.pieces + maps[mi + 1..], n)
  {
    hide OneChunk, SameMoves, Tiles, TotalLength, PieceOf;
    assert maps[mi] in maps;
    forall p | p in maps[..mi] + t.pieces + maps[mi + 1..]
      ensures OneChunk(p, n)
    {
      if p in t.pieces {
        PieceInChunk(p, maps[mi], r, n);
      } else {
        assert p in maps;
      }
    }
  }

  // All the mappings, against one relocation.
  method RewriteFor(ms: seq<Mapping>, relocs: seq<Reloc>, now0: seq<Reloc>, maps0: seq<Mapping>, ri: nat, ghost n: nat)
    returns (now: seq<Reloc>, maps: seq<Mapping>)
    requires Apart(relocs) && Rewriting(ms, relocs, now0, maps0, ri, 0) && 0 < n
    ensures |now0| <= |now| && Rewriting(ms, relocs, now, maps, ri, |maps|)
    ensures OneClusterEach(now0) ==> now == now0 && (InChunks(maps0, n) ==> InChunks(maps, n))
    ensures OneClusterEach(now0) && AllSteady(maps0, ms) ==> AllSteady(maps, ms)
  {
    hide Apart, Rewriting, TurnOk, InChunks, OneClusterEach, AllSteady;
    now, maps := now0, maps0;
    var mi: nat := 0;
    RewritingBounds(ms, relocs, now, maps, ri, mi);
    while mi < |maps|
      invariant mi <= |maps| && ri < |now| && |now0| <= |now| && Rewriting(ms, relocs, now, maps, ri, mi)
      invariant OneClusterEach(now0) ==> now == now0 && (InChunks(maps0, n) ==> InChunks(maps, n))
      invariant OneClusterEach(now0) && AllSteady(maps0, ms) ==> AllSteady(maps, ms)
      decreases |maps| - mi
    {
      if Meets(now[ri], maps[mi]) {
        RewritingLengths(ms, relocs, now, maps, ri, mi);
        var t := ChangeOne(now[ri], maps[mi]);
        TurnKeeps(ms, relocs, now, maps, ri, mi, t);
        if OneClusterEach(now0) {
          OneOf(now0, ri);
          SameAt(now, ri);
          if InChunks(maps0, n) {
            PiecesInChunks(maps, mi, now[ri], t, n);
          }
          if AllSteady(maps0, ms) {
            PiecesAreSteady(maps, mi, now[ri], t, ms);
          }
        }
        now := now[ri := t.r] + t.more;
        maps := maps[..mi] + t.pieces + maps[mi + 1..];
        mi := mi + |t.pieces|;
      } else {
        MissKeeps(ms, relocs, now, maps, ri, mi);
        mi := mi + 1;
      }
    }
  }

  lemma OneOf(relocs: seq<Reloc>, i: nat)
    requires OneClusterEach(relocs) && i < |relocs|
    ensures relocs[i].length == 1
  {
    assert relocs[i] in relocs;
  }

  lemma SameAt(now: seq<Reloc>, ri: nat)
    requires ri < |now|
    ensures now[ri := now[ri]] + [] == now
  {
  }

  lemma RewritingBounds(ms: seq<Mapping>, relocs: seq<Reloc>, now: seq<Reloc>, maps: seq<Mapping>, ri: nat, mi: nat)
    requires Rewriting(ms, relocs, now, maps, ri, mi)
    ensures ri < |now| && mi <= |maps|
  {
  }

  lemma RewritingLengths(ms: seq<Mapping>, relocs: seq<Reloc>, now: seq<Reloc>, maps: seq<Mapping>, ri: nat, mi: nat)
    requires Rewriting(ms, relocs, now, maps, ri, mi) && mi < |maps|
    ensures 0 < now[ri].length && 0 < maps[mi].length
  {
    assert now[ri] in now;
  }

  // What the rewriting promises: the file's clusters are covered as before, in order, and each is
  // now where the relocations move it, or where it was if they do not.
  ghost predicate Rewritten(ms: seq<Mapping>, relocs: seq<Reloc>, maps: seq<Mapping>) {
    && InOrder(maps) && (forall v: nat :: HasVcn(maps, v) <==> HasVcn(ms, v))
    && (forall p, v: nat :: p in maps && p.HasVcn(v) ==> Lands(ms, relocs, v, p.lcn + (v - p.vcn)))
  }

  ghost predicate Lands(ms: seq<Mapping>, relocs: seq<Reloc>, v: nat, y: nat) {
    exists m :: m in ms && m.HasVcn(v) && Translated(relocs, m.lcn + (v - m.vcn), y)
  }

  predicate Translated(relocs: seq<Reloc>, x: nat, y: nat) {
    if InOld(relocs, x) then Moves(relocs, x, y) else x == y
  }

  lemma SitsLands(p: Mapping, ms: seq<Mapping>, relocs: seq<Reloc>, now: seq<Reloc>, v: nat)
    requires SameMoves(now, relocs) && Sits(p, ms, relocs, now) && p.HasVcn(v)
    ensures Lands(ms, relocs, v, p.lcn + (v - p.vcn))
  {
    var m :| m in ms && PartOf(p, m) && SitsIn(p, m, relocs, now);
    var x, y := m.lcn + (v - m.vcn), p.lcn + (v - p.vcn);
    assert m.HasVcn(v);
    InOldMoves(relocs, x);
    if MovedAll(p, Origin(p, m), relocs) {
      assert Moves(relocs, x, y);
    } else {
      SameOld(now, relocs, x);
      if InOld(now, x) {
        var i :| 0 <= i < |now| && now[i].old' <= x < now[i].old' + now[i].length;
        assert now[i] in now;
        assert Meets(now[i], p);
        assert false;
      }
    }
  }

  // Every relocation in turn; those cut off on the way come up later. The program edits the run lists
  // exactly where it cuts a relocation, and relocations of one cluster are never cut.
  method RewriteMappings(ms: seq<Mapping>, relocs: seq<Reloc>, ghost n: nat)
    returns (now: seq<Reloc>, maps: seq<Mapping>)
    requires Apart(relocs) && InOrder(ms) && 0 < n
    ensures SameMoves(now, relocs) && Rewritten(ms, relocs, maps)
    ensures OneClusterEach(relocs) ==> now == relocs && (InChunks(ms, n) ==> InChunks(maps, n)) && AllSteady(maps, ms)
  {
    hide Apart, InChunks, OneClusterEach, AllSteady;
    now, maps := relocs, ms;
    var ri: nat := 0;
    RewritingStart(ms, relocs);
    SteadyAtFirst(ms);
    while ri < |now|
      invariant ri <= |now| && Between(ms, relocs, now, maps, ri)
      invariant OneClusterEach(relocs) ==>
        now == relocs && (InChunks(ms, n) ==> InChunks(maps, n)) && AllSteady(maps, ms)
      decreases TotalLength(relocs) - |now|, |now| - ri
    {
      hide Between, Rewriting;
      BetweenIn(ms, relocs, now, maps, ri);
      now, maps := RewriteFor(ms, relocs, now, maps, ri, n);
      BetweenOut(ms, relocs, now, maps, ri);
      ri := ri + 1;
    }
    RewritingEnd(ms, relocs, now, maps);
  }

  // Between two relocations.
  ghost predicate Between(ms: seq<Mapping>, relocs: seq<Reloc>, now: seq<Reloc>, maps: seq<Mapping>, ri: nat) {
    && ri <= |now| <= TotalLength(relocs)
    && SameMoves(now, relocs) && (forall q :: q in now ==> 0 < q.length) && TotalLength(now) == TotalLength(relocs)
    && InOrder(maps) && (forall v: nat :: HasVcn(maps, v) <==> HasVcn(ms, v))
    && (forall i :: 0 <= i < |maps| ==> Sits(maps[i], ms, relocs, now[..ri]))
  }

  lemma BetweenIn(ms: seq<Mapping>, relocs: seq<Reloc>, now: seq<Reloc>, maps: seq<Mapping>, ri: nat)
    requires Between(ms, relocs, now, maps, ri) && ri < |now|
    ensures Rewriting(ms, relocs, now, maps, ri, 0)
  {
  }

  lemma BetweenOut(ms: seq<Mapping>, relocs: seq<Reloc>, now: seq<Reloc>, maps: seq<Mapping>, ri: nat)
    requires Rewriting(ms, relocs, now, maps, ri, |maps|)
    ensures Between(ms, relocs, now, maps, ri + 1) && |now| <= TotalLength(relocs) && ri < |now|
  {
    TotalCounts(now);
  }

  lemma RewritingStart(ms: seq<Mapping>, relocs: seq<Reloc>)
    requires Apart(relocs) && InOrder(ms)
    ensures Between(ms, relocs, relocs, ms, 0)
  {
    TotalCounts(relocs);
    forall i | 0 <= i < |ms|
      ensures Sits(ms[i], ms, relocs, relocs[..0])
    {
      assert ms[i] in ms && PartOf(ms[i], ms[i]) && SitsIn(ms[i], ms[i], relocs, relocs[..0]);
    }
  }

  lemma RewritingEnd(ms: seq<Mapping>, relocs: seq<Reloc>, now: seq<Reloc>, maps: seq<Mapping>)
    requires Between(ms, relocs, now, maps, |now|)
    ensures SameMoves(now, relocs) && Rewritten(ms, relocs, maps)
  {
    assert now[..|now|] == now;
    forall p, v: nat | p in maps && p.HasVcn(v)
      ensures Lands(ms, relocs, v, p.lcn + (v - p.vcn))
    {
      SitsLands(p, ms, relocs, now, v);
    }
  }

  predicate Sparse(m: Mapping) {
    m.lcn == 0
  }

  function Mapped(ms: seq<Mapping>): (s: seq<Mapping>) {
    if ms == [] then []
    else Mapped(ms[..|ms| - 1]) + if Sparse(ms[|ms| - 1]) then [] else [ms[|ms| - 1]]
  }

  predicate EndBy(ms: seq<Mapping>, to: nat) {
    forall i :: 0 <= i < |ms| ==> ms[i].vcn + ms[i].length <= to
  }

  lemma {:induction false} MappedHas(ms: seq<Mapping>, m: Mapping)
    ensures m in Mapped(ms) <==> m in ms && !Sparse(m)
    decreases |ms|
  {
    if ms != [] {
      var front := ms[..|ms| - 1];
      assert ms == front + [ms[|ms| - 1]];
      MappedHas(front, m);
    }
  }

  lemma {:induction false} MappedEnds(ms: seq<Mapping>, end: nat)
    requires InOrder(ms) && EndBy(ms, end)
    ensures InOrder(Mapped(ms)) && EndBy(Mapped(ms), end)
    decreases |ms|
  {
    if ms != [] {
      var front, m := ms[..|ms| - 1], ms[|ms| - 1];
      FrontInOrder(ms);
      MappedEnds(front, m.vcn);
      hide InOrder, EndBy;
      var out := Mapped(front);
      if Sparse(m) {
        assert Mapped(ms) == out + [] == out;
        EndByMore(out, m.vcn, end);
      } else {
        MappedNext(out, m, m.vcn);
        EndByMore(out + [m], m.vcn + m.length, end);
      }
    }
  }

  lemma FrontInOrder(ms: seq<Mapping>)
    requires InOrder(ms) && ms != []
    ensures InOrder(ms[..|ms| - 1]) && EndBy(ms[..|ms| - 1], ms[|ms| - 1].vcn) && 0 < ms[|ms| - 1].length
    ensures forall end :: EndBy(ms, end) ==> ms[|ms| - 1].vcn + ms[|ms| - 1].length <= end
  {
  }

  lemma EndByMore(ms: seq<Mapping>, to: nat, to': nat)
    requires EndBy(ms, to) && to <= to'
    ensures EndBy(ms, to')
  {
  }

  lemma MappedInOrder(ms: seq<Mapping>)
    requires InOrder(ms)
    ensures InOrder(Mapped(ms))
  {
    if ms != [] {
      EndOfLast(ms);
      MappedEnds(ms, ms[|ms| - 1].vcn + ms[|ms| - 1].length);
    }
  }

  lemma EndOfLast(ms: seq<Mapping>)
    requires InOrder(ms) && ms != []
    ensures EndBy(ms, ms[|ms| - 1].vcn + ms[|ms| - 1].length)
  {
  }

  lemma MappedNext(out: seq<Mapping>, m: Mapping, end: nat)
    requires InOrder(out) && EndBy(out, end) && end <= m.vcn && 0 < m.length
    ensures InOrder(out + [m]) && EndBy(out + [m], m.vcn + m.length)
  {
  }

  // Consecutive pieces of `m` that stay where they were.
  predicate PiecesInPlace(pieces: seq<Mapping>, m: Mapping, to: nat, n: nat)
    requires 0 < n
  {
    Tiles(pieces, m.vcn, to) && forall p :: p in pieces ==> OneChunk(p, n) && m.vcn <= p.vcn && p.lcn == Origin(p, m)
  }

  // One mapping, cut where its clusters cross from one chunk to the next.
  method CutAtChunks(m: Mapping, n: nat) returns (pieces: seq<Mapping>)
    requires 0 < n && 0 < m.length
    ensures PiecesInPlace(pieces, m, m.vcn + m.length, n)
  {
    var chunkStart, chunkEnd := Index(m.lcn, n), Index(m.lcn + m.length - 1, n);
    if chunkEnd > chunkStart {
      var start, vcn := m.lcn, m.vcn;
      pieces := [];
      while true
        invariant m.lcn <= start <= m.lcn + m.length && vcn == m.vcn + (start - m.lcn)
        invariant PiecesInPlace(pieces, m, vcn, n)
        decreases m.lcn + m.length - start
      {
        var end := First(Index(start, n) + 1, n);
        end := if end < m.lcn + m.length then end else m.lcn + m.length;
        IndexBounds(start, n);
        if end == start {
          break;
        }
        var p := Mapping(start, vcn, end - start);
        IndexIsUnique(end - 1, n, Index(start, n));
        NextPiece(pieces, m, vcn, p, n);
        pieces := pieces + [p];
        vcn, start := vcn + (end - start), end;
      }
    } else {
      IndexGrows(m.lcn, m.lcn + m.length - 1, n);
      TilesOne(m);
      pieces := [m];
    }
  }

  lemma NextPiece(pieces: seq<Mapping>, m: Mapping, vcn: nat, p: Mapping, n: nat)
    requires 0 < n && PiecesInPlace(pieces, m, vcn, n) && p.vcn == vcn && m.vcn <= vcn
    requires OneChunk(p, n) && p.lcn == Origin(p, m)
    ensures PiecesInPlace(pieces + [p], m, vcn + p.length, n)
  {
    TilesOne(p);
    TilesConcat(pieces, [p], m.vcn, vcn, vcn + p.length);
  }

  // What cutting at chunk boundaries keeps: everything but the sparse mappings, in place.
  ghost predicate InPlace(out: seq<Mapping>, ms: seq<Mapping>, n: nat)
    requires 0 < n
  {
    && InOrder(out) && (forall v: nat :: HasVcn(out, v) <==> HasVcn(ms, v))
    && (forall p :: p in out ==> OneChunk(p, n) && exists m :: m in ms && PartOf(p, m) && p.lcn == Origin(p, m))
  }

  lemma InPlaceNext(out: seq<Mapping>, ms: seq<Mapping>, m: Mapping, pieces: seq<Mapping>, n: nat)
    requires 0 < n && InPlace(out, ms, n) && InOrder(ms + [m]) && PiecesInPlace(pieces, m, m.vcn + m.length, n)
    ensures InPlace(out + pieces, ms + [m], n)
  {
    hide OneChunk;
    var all, out' := ms + [m], out + pieces;
    assert all[|ms|] == m && m in all;
    TilesAre(pieces, m.vcn, m.vcn + m.length, 0);
    forall p | p in out'
      ensures OneChunk(p, n) && exists q :: q in all && PartOf(p, q) && p.lcn == Origin(p, q)
    {
      if p in out {
        var q :| q in ms && PartOf(p, q) && p.lcn == Origin(p, q);
        assert q in all;
      } else {
        assert p in pieces;
        var i :| 0 <= i < |pieces| && pieces[i] == p;
        assert PartOf(p, m);
      }
    }
    forall i, j | 0 <= i < j < |out'|
      ensures out'[i].vcn + out'[i].length <= out'[j].vcn
    {
      if i < |out| <= j {
        assert out[i] in out;
        var q :| q in ms && PartOf(out[i], q);
        var l :| 0 <= l < |ms| && ms[l] == q;
        assert all[l] == q && q.vcn + q.length <= all[|ms|].vcn;
        assert m.vcn <= pieces[j - |out|].vcn;
      }
    }
    forall v: nat
      ensures HasVcn(out', v) <==> HasVcn(all, v)
    {
      TilesAre(pieces, m.vcn, m.vcn + m.length, v);
      VcnConcat(out, pieces, v);
      VcnConcat(ms, [m], v);
      assert HasVcn([m], v) <==> m.HasVcn(v) by {
        if m.HasVcn(v) {
          assert [m][0].HasVcn(v);
        }
      }
    }
  }

  lemma VcnConcat(a: seq<Mapping>, b: seq<Mapping>, v: nat)
    ensures HasVcn(a + b, v) <==> HasVcn(a, v) || HasVcn(b, v)
  {
    if HasVcn(a, v) {
      var i :| 0 <= i < |a| && a[i].HasVcn(v);
      assert (a + b)[i].HasVcn(v);
    }
    if HasVcn(b, v) {
      var i :| 0 <= i < |b| && b[i].HasVcn(v);
      assert (a + b)[|a| + i].HasVcn(v);
    }
  }

  // The first part of `process_mappings`.
  method AvoidBoundaries(ms: seq<Mapping>, n: nat) returns (out: seq<Mapping>)
    requires 0 < n && InOrder(ms)
    ensures InPlace(out, Mapped(ms), n)
  {
    out := [];
    var i: nat := 0;
    while i < |ms|
      invariant i <= |ms| && InPlace(out, Mapped(ms[..i]), n)
    {
      hide InPlace, Sparse;
      assert ms[..i + 1][..i] == ms[..i];
      MappedInOrder(ms[..i + 1]);
      if ms[i].lcn != 0 {
        var pieces := CutAtChunks(ms[i], n);
        InPlaceNext(out, Mapped(ms[..i]), ms[i], pieces, n);
        out := out + pieces;
      } else {
        assert Mapped(ms[..i]) + [] == Mapped(ms[..i]);
      }
      i := i + 1;
    }
    assert ms[..i] == ms;
  }

  lemma InPlaceLands(out: seq<Mapping>, ms: seq<Mapping>, n: nat, relocs: seq<Reloc>, v: nat, y: nat)
    requires 0 < n && InPlace(out, ms, n) && Lands(out, relocs, v, y)
    ensures Lands(ms, relocs, v, y)
  {
    hide InOrder, HasVcn, OneChunk, Translated;
    var p :| p in out && p.HasVcn(v) && Translated(relocs, p.lcn + (v - p.vcn), y);
    var m :| m in ms && PartOf(p, m) && p.lcn == Origin(p, m);
    assert m.HasVcn(v) && m.lcn + (v - m.vcn) == p.lcn + (v - p.vcn);
  }

  lemma InPlaceIsSteady(out: seq<Mapping>, ms: seq<Mapping>, n: nat, maps: seq<Mapping>)
    requires 0 < n && InPlace(out, ms, n) && AllSteady(maps, out)
    ensures AllSteady(maps, ms)
  {
    hide InOrder, HasVcn, OneChunk;
    forall p | p in maps
      ensures Steady(p, ms)
    {
      assert Steady(p, out);
      if p.length != 1 {
        var q :| q in out && PartOf(p, q) && p.lcn == Origin(p, q);
        var m :| m in ms && PartOf(q, m) && q.lcn == Origin(q, m);
        assert PartOf(p, m) && p.lcn == Origin(p, m);
      }
    }
  }

  // `process_mappings`, but for the ownership it records: every cluster of the file that is not
  // sparse ends where the relocations take its old place, and no others are mapped.
  method ProcessMappings(ms: seq<Mapping>, relocs: seq<Reloc>, n: nat) returns (now: seq<Reloc>, maps: seq<Mapping>)
    requires 0 < n && Apart(relocs) && InOrder(ms)
    ensures SameMoves(now, relocs) && Rewritten(Mapped(ms), relocs, maps)
    ensures OneClusterEach(relocs) ==> now == relocs && InChunks(maps, n) && AllSteady(maps, Mapped(ms))
  {
    hide Apart, OneClusterEach, OneChunk, AllSteady;
    MappedInOrder(ms);
    var cut := AvoidBoundaries(ms, n);
    now, maps := RewriteMappings(cut, relocs, n);
    if OneClusterEach(relocs) {
      InPlaceIsSteady(cut, Mapped(ms), n, maps);
    }
    forall p, v: nat | p in maps && p.HasVcn(v)
      ensures Lands(Mapped(ms), relocs, v, p.lcn + (v - p.vcn))
    {
      InPlaceLands(cut, Mapped(ms), n, relocs, v, p.lcn + (v - p.vcn));
    }
  }
}
