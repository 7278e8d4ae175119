/** The hash of a block's static fields, as folded when it is translated and
    again when it is checked: one changed field always changes it. */
module Hash {
  import opened Words
  import opened Bits
  import opened Memory

  const PRIME: int := 0x100_0000_01b3
  const SEED: word := 0x9e37_79b9_7f4a_7c15

  /** The inverse of PRIME modulo 2^64. */
  const INVERSE: int := 0xce96_5057_aff6_957b

  function XorN(x: nat, y: nat): nat
    decreases x + y
  {
    if x == 0 && y == 0 then 0
    else (if x % 2 != y % 2 then 1 else 0) + 2 * XorN(x / 2, y / 2)
  }

  lemma {:induction false} XorTwice(x: nat, y: nat)
    ensures XorN(XorN(x, y), y) == x
    decreases x + y
  {
    if x != 0 || y != 0 {
      XorTwice(x / 2, y / 2);
      var h := XorN(x, y);
      assert h / 2 == XorN(x / 2, y / 2) && h % 2 == if x % 2 != y % 2 then 1 else 0;
    }
  }

  lemma {:induction false} XorBound(x: nat, y: nat, k: nat)
    requires x < Pow2(k) && y < Pow2(k)
    ensures XorN(x, y) < Pow2(k)
    decreases k
  {
    if k > 0 {
      XorBound(x / 2, y / 2, k - 1);
    }
  }

  lemma {:induction false} XorComm(x: nat, y: nat)
    ensures XorN(x, y) == XorN(y, x)
    decreases x + y
  {
    if x != 0 || y != 0 {
      XorComm(x / 2, y / 2);
    }
  }

  function Xor(x: word, y: word): word {
    Pow64();
    XorBound(x, y, 64);
    XorN(x, y)
  }

  lemma Pow64()
    ensures Pow2(64) == TWO64
  {
    assert Pow2(8) == 0x100;
    assert Pow2(16) == 0x1_0000;
    assert Pow2(24) == 0x100_0000;
    assert Pow2(32) == 0x1_0000_0000;
    assert Pow2(40) == 0x100_0000_0000;
    assert Pow2(48) == 0x1_0000_0000_0000;
    assert Pow2(56) == 0x100_0000_0000_0000;
  }

  /** One field folded in. */
  function Mix(h: word, x: word): word { Xor(h, x) * PRIME % TWO64 }

  /** The hash of field values, in order. */
  function Fold(h: word, xs: seq<word>): word
  {
    if xs == [] then h else Mix(Fold(h, xs[..|xs| - 1]), xs[|xs| - 1])
  }

  lemma TimesInverse(a: word)
    ensures a * PRIME % TWO64 * INVERSE % TWO64 == a
  {
    assert PRIME * INVERSE == 0xce_9650_590f * TWO64 + 1;
    var q := a * PRIME / TWO64;
    var r := a * PRIME % TWO64;
    assert a * PRIME == q * TWO64 + r;
    assert r * INVERSE == a * (PRIME * INVERSE) - q * TWO64 * INVERSE;
    assert r * INVERSE == TWO64 * (a * 0xce_9650_590f - q * INVERSE) + a;
    Residue(r * INVERSE, a * 0xce_9650_590f - q * INVERSE, a);
  }

  lemma Residue(x: int, k: int, a: word)
    requires x == TWO64 * k + a
    ensures x % TWO64 == a
  {
  }

  /** Folding a field in loses nothing of the hash, nor of the field. */
  lemma MixTells(h: word, g: word, x: word, y: word)
    requires Mix(h, x) == Mix(g, y)
    ensures (h == g) == (x == y)
  {
    hide Xor;
    TimesInverse(Xor(h, x));
    TimesInverse(Xor(g, y));
    XorTells(h, g, x, y);
  }

  lemma XorTells(h: word, g: word, x: word, y: word)
    requires Xor(h, x) == Xor(g, y)
    ensures (h == g) == (x == y)
  {
    hide XorN;
    XorTwice(h, x);
    XorTwice(g, y);
    XorComm(h, x);
    XorComm(g, y);
    XorTwice(x, h);
    XorTwice(y, g);
  }

  // ------------------------------------------------------ as it is computed

  /** The values of a block's static fields, of its first k. */
  function StaticFields(m: Mem, start: word, baked: set<nat>, k: nat): seq<word>
    requires start + 8 * k < TWO64
  {
    if k == 0 then []
    else
      StaticFields(m, start, baked, k - 1) + if k - 1 in baked then [Bswap(Rd(m, start + 8 * (k - 1)))] else []
  }

  /** Goes through the fields of a block of n instructions. */
  method StaticHash(m: Mem, start: word, n: nat, baked: set<nat>) returns (h: word)
    requires start + 24 * n < TWO64
    ensures h == Fold(SEED, StaticFields(m, start, baked, 3 * n))
  {
    hide Mix, Rd, Bswap;
    h := SEED;
    var f := 0;
    while f < 3 * n
      invariant 0 <= f <= 3 * n && h == Fold(SEED, StaticFields(m, start, baked, f))
    {
      FoldMore(SEED, StaticFields(m, start, baked, f), Bswap(Rd(m, start + 8 * f)));
      if f in baked {
        h := Mix(h, Bswap(Rd(m, start + 8 * f)));
      }
      f := f + 1;
    }
  }

  lemma FoldMore(h: word, xs: seq<word>, x: word)
    ensures Fold(h, xs + [x]) == Mix(Fold(h, xs), x) && Fold(h, xs + []) == Fold(h, xs)
  {
    hide Mix;
    assert (xs + [x])[..|xs|] == xs;
    assert xs + [] == xs;
  }

  /** When exactly one of the values folded is another, so is the hash. */
  lemma {:induction false} OneChangeTells(h: word, xs: seq<word>, ys: seq<word>, f: nat)
    requires f < |xs| == |ys| && xs[f] != ys[f] && forall g: nat | g < |xs| && g != f :: xs[g] == ys[g]
    ensures Fold(h, xs) != Fold(h, ys)
    decreases |xs|
  {
    hide Mix;
    var n := |xs| - 1;
    if f == n {
      assert xs[..n] == ys[..n];
    } else {
      OneChangeTells(h, xs[..n], ys[..n], f);
    }
    if Mix(Fold(h, xs[..n]), xs[n]) == Mix(Fold(h, ys[..n]), ys[n]) {
      MixTells(Fold(h, xs[..n]), Fold(h, ys[..n]), xs[n], ys[n]);
    }
  }

  /** Whatever one value is changed to, a change of the next one hides it. */
  lemma TwoChangesCollide(h: word, x: word, y: word, u: word)
    requires x != y
    ensures var v := Xor(Xor(Mix(h, x), u), Mix(h, y)); v != u && Fold(h, [x, u]) == Fold(h, [y, v])
  {
    hide Mix, XorN;
    var v := Xor(Xor(Mix(h, x), u), Mix(h, y));
    XorTwice(Xor(Mix(h, x), u), Mix(h, y));
    XorComm(v, Mix(h, y));
    FoldTwo(h, x, u);
    FoldTwo(h, y, v);
    assert Mix(Mix(h, x), u) == Mix(Mix(h, y), v) by { SameMix(Mix(h, x), Mix(h, y), u, v); }
    if v == u {
      OneChangeTells(h, [x, u], [y, v], 0);
    }
  }

  lemma SameMix(g: word, h: word, u: word, v: word)
    requires Xor(g, u) == Xor(h, v)
    ensures Mix(g, u) == Mix(h, v)
  {
  }

  lemma FoldTwo(h: word, x: word, y: word)
    ensures Fold(h, [x, y]) == Mix(Mix(h, x), y)
  {
    hide Mix;
    FoldMore(h, [], x);
    FoldMore(h, [x], y);
    assert [] + [x] == [x] && [x] + [y] == [x, y];
  }
}
