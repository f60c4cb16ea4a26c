/**
 * Which chunk a cluster is in, and where a chunk begins, for any number `n` of clusters in a chunk.
 */
module ChunkMath {
  // x / n
  function Index(x: nat, n: nat): nat
    requires 0 < n
  {
    if x < n then 0 else 1 + Index(x - n, n)
  }

  // k * n
  function First(k: nat, n: nat): nat {
    if k == 0 then 0 else First(k - 1, n) + n
  }

  lemma {:induction false} IndexBounds(x: nat, n: nat)
    requires 0 < n
    ensures First(Index(x, n), n) <= x < First(Index(x, n), n) + n
    decreases x
  {
    if n <= x {
      IndexBounds(x - n, n);
    }
  }

  lemma {:induction false} FirstGrows(k: nat, l: nat, n: nat)
    requires k < l
    ensures First(k, n) + n <= First(l, n)
    decreases l
  {
    if k < l - 1 {
      FirstGrows(k, l - 1, n);
    }
  }

  lemma IndexIsUnique(x: nat, n: nat, k: nat)
    requires 0 < n && First(k, n) <= x < First(k, n) + n
    ensures Index(x, n) == k
  {
    IndexBounds(x, n);
    if k < Index(x, n) {
      FirstGrows(k, Index(x, n), n);
    } else if Index(x, n) < k {
      FirstGrows(Index(x, n), k, n);
    }
  }

  lemma IndexGrows(x: nat, y: nat, n: nat)
    requires 0 < n && x <= y
    ensures Index(x, n) <= Index(y, n)
  {
    IndexBounds(x, n);
    IndexBounds(y, n);
    var a, b := Index(x, n), Index(y, n);
    if b < a {
      FirstGrows(b, a, n);
    }
  }

  lemma {:induction false} FirstAdds(k: nat, l: nat, n: nat)
    ensures First(k + l, n) == First(k, n) + First(l, n)
  {
    if 0 < l {
      FirstAdds(k, l - 1, n);
    }
  }

  // x % n
  function Rem(x: nat, n: nat): (r: nat)
    requires 0 < n
    ensures r < n && First(Index(x, n), n) + r == x
  {
    IndexBounds(x, n);
    x - First(Index(x, n), n)
  }

  // A multiple of `u`.
  ghost predicate Even(x: int, u: nat) {
    exists k: nat :: x == First(k, u)
  }

  lemma EvenAdds(x: nat, y: nat, u: nat)
    requires Even(x, u) && Even(y, u)
    ensures Even(x + y, u) && (y <= x ==> Even(x - y, u))
  {
    var k: nat :| x == First(k, u);
    var l: nat :| y == First(l, u);
    FirstAdds(k, l, u);
    assert x + y == First(k + l, u);
    if y <= x {
      if l <= k {
        FirstAdds(l, k - l, u);
        assert x - y == First(k - l, u);
      } else {
        FirstAdds(k, l - k, u);
        assert x - y == First(0, u);
      }
    }
  }

  // Multiples of 64 KB are multiples of whatever divides 64 KB.
  lemma {:induction false} EvenOf64K(k: nat, u: nat)
    requires Even(0x10000, u)
    ensures Even(0x10000 * k, u)
    decreases k
  {
    if k == 0 {
      assert First(0, u) == 0;
    } else {
      EvenOf64K(k - 1, u);
      EvenAdds(0x10000 * (k - 1), 0x10000, u);
    }
  }

  // A multiple is where its own index begins.
  lemma EvenIndex(x: nat, u: nat)
    requires 0 < u && Even(x, u)
    ensures First(Index(x, u), u) == x
  {
    var k: nat :| x == First(k, u);
    IndexIsUnique(x, u, k);
  }

  // Arithmetic modulo 2^64.
  function Wrap(x: int): (w: nat)
    ensures w < 0x1_0000_0000_0000_0000
  {
    x % 0x1_0000_0000_0000_0000
  }

  lemma WrapAdds(x: int, y: int)
    ensures Wrap(Wrap(x) + y) == Wrap(x + y)
  {
    var q := x / 0x1_0000_0000_0000_0000;
    assert x == Wrap(x) + q * 0x1_0000_0000_0000_0000;
    WrapShifts(Wrap(x) + y, q);
  }

  lemma {:induction false} WrapShifts(x: int, q: int)
    ensures Wrap(x + q * 0x1_0000_0000_0000_0000) == Wrap(x)
  {
    var d := x / 0x1_0000_0000_0000_0000;
    assert x + q * 0x1_0000_0000_0000_0000 == Wrap(x) + (d + q) * 0x1_0000_0000_0000_0000;
  }

  lemma WrapSmall(x: nat)
    requires x < 0x1_0000_0000_0000_0000
    ensures Wrap(x) == x
  {
  }
}
