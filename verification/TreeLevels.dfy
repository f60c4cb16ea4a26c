/**
 * How many blocks a tree has on each level, as a function of its number of leaves alone.
 */
module TreeLevels {
  import opened Packing
  import opened TreeItems
  import opened TreeBlock

  function Rep(n: nat, x: nat): (s: seq<nat>)
    ensures |s| == n && forall i :: 0 <= i < n ==> s[i] == x
  {
    seq(n, _ => x)
  }

  // Nodes over `n` blocks: every node but the last is full.
  function Parents(n: nat): (p: nat)
    ensures 1 < n ==> 1 <= p < n
  {
    (n + 492) / 493
  }

  // A node takes 493 pointers: that is what greedy packing of 33-byte pointers comes to.
  lemma {:induction false} ParentsArePacked(n: nat)
    requires 0 < n
    ensures Filled(Rep(n, KEY_PTR_SIZE), AREA) == Fill(Parents(n), 33 * ((n - 1) % 493 + 1))
  {
    var ws := Rep(n, KEY_PTR_SIZE);
    assert Front(ws) == Rep(n - 1, KEY_PTR_SIZE);
    if n == 1 {
      assert Rep(0, KEY_PTR_SIZE) == [];
      assert Filled([], AREA) == Fill(1, 0);
    } else {
      hide Filled, Parents;
      ParentsArePacked(n - 1);
      ParentsStep(n);
      FilledStep(ws, AREA);
    }
  }

  lemma FilledStep(ws: seq<nat>, cap: nat)
    requires ws != []
    ensures Filled(ws, cap) == Add(Filled(Front(ws), cap), Last(ws), cap)
  {
  }

  lemma ParentsStep(n: nat)
    requires 1 < n
    ensures (n - 1) % 493 == 0 ==> Parents(n) == Parents(n - 1) + 1 && (n - 2) % 493 == 492
    ensures (n - 1) % 493 != 0 ==> Parents(n) == Parents(n - 1) && (n - 2) % 493 + 1 == (n - 1) % 493
  {
  }

  // The levels of the blocks of a tree with `n` blocks on `level`, in the order they are made.
  function LevelList(n: nat, level: nat): (s: seq<nat>)
    ensures 0 < |s|
    decreases n
  {
    if n <= 1 then [level] else Rep(n, level) + LevelList(Parents(n), level + 1)
  }

  // Behind the blocks of a level there are none but those of higher ones.
  lemma {:induction false} HigherLevels(n: nat, level: nat, j: nat)
    requires 1 <= n && n <= j < |LevelList(n, level)|
    ensures level < LevelList(n, level)[j]
    decreases n
  {
    if 1 < n {
      var m := Parents(n);
      var more := LevelList(m, level + 1);
      assert LevelList(n, level)[j] == more[j - n];
      if m <= j - n {
        HigherLevels(m, level + 1, j - n);
      } else if 1 < m {
        assert more[j - n] == Rep(m, level + 1)[j - n];
      }
    }
  }

  // More leaves, more blocks.
  lemma {:induction false} LevelsGrow(n: nat, m: nat, level: nat)
    requires 1 <= n <= m
    ensures |LevelList(n, level)| <= |LevelList(m, level)|
    ensures n < m ==> |LevelList(n, level)| < |LevelList(m, level)|
    decreases m
  {
    if 1 < n {
      LevelsGrow(Parents(n), Parents(m), level + 1);
    }
  }

  // A tree that has not lost leaves and makes do with the blocks it had puts each of them back
  // on its old level.
  lemma SameLevels(n: nat, m: nat)
    requires 1 <= n <= m && |LevelList(m, 0)| <= |LevelList(n, 0)|
    ensures LevelList(n, 0) == LevelList(m, 0)
  {
    LevelsGrow(n, m, 0);
  }
}
