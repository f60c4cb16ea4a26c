/**
 * Numbers as bytes, lowest first, and back.
 */
module LittleEndian {
  import opened TreeItems

  // `n` as `k` bytes.
  function Le(n: nat, k: nat): (s: Bytes)
    ensures |s| == k
    decreases k
  {
    if k == 0 then [] else [n % 256] + Le(n / 256, k - 1)
  }

  function Value(b: Bytes): nat {
    if b == [] then 0 else b[0] as nat + 256 * Value(b[1..])
  }

  predicate FitsIn(n: nat, k: nat) {
    if k == 0 then n == 0 else FitsIn(n / 256, k - 1)
  }

  lemma {:induction false} ValueOfLe(n: nat, k: nat)
    requires FitsIn(n, k)
    ensures Value(Le(n, k)) == n
    decreases k
  {
    if 0 < k {
      ValueOfLe(n / 256, k - 1);
      assert Le(n, k)[1..] == Le(n / 256, k - 1);
    }
  }

  lemma WordFits(n: nat)
    requires n < 0x1_0000_0000_0000_0000
    ensures FitsIn(n, 8)
  {
    var a := n / 256;
    var b := a / 256;
    var c := b / 256;
    var d := c / 256;
    assert d < 0x1_0000_0000;
    var e := d / 256;
    var f := e / 256;
    var g := f / 256;
    assert g < 256 && g / 256 == 0;
    assert FitsIn(g, 1);
    assert FitsIn(f, 2);
    assert FitsIn(e, 3);
    assert FitsIn(d, 4);
    assert FitsIn(c, 5);
    assert FitsIn(b, 6);
    assert FitsIn(a, 7);
  }

  // A 64-bit number is read back from its eight bytes.
  lemma WordIsRead(n: nat)
    requires n < 0x1_0000_0000_0000_0000
    ensures Value(Le(n, 8)) == n
  {
    WordFits(n);
    ValueOfLe(n, 8);
  }
}
