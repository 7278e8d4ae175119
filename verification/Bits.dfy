/** Shifts, masks, and bitwise operations on words, defined bit by bit, and
    the facts the translator relies on to put unaligned words together. */
module Bits {
  import opened Words

  function Pow2(k: nat): (p: int)
    ensures p >= 1
  {
    if k == 0 then 1 else 2 * Pow2(k - 1)
  }

  function Shl(x: word, k: nat): word { (x * Pow2(k)) % TWO64 }

  function Shr(x: word, k: nat): word
  {
    var q := x / Pow2(k);
    assert 0 <= q <= x by { DivBound(x, Pow2(k)); }
    q
  }

  /** Bitwise or of two naturals. */
  function OrN(x: nat, y: nat): nat
    decreases x + y
  {
    if x == 0 && y == 0 then 0
    else (if x % 2 == 1 || y % 2 == 1 then 1 else 0) + 2 * OrN(x / 2, y / 2)
  }

  /** Bitwise and of two naturals. */
  function AndN(x: nat, y: nat): nat
    decreases x + y
  {
    if x == 0 && y == 0 then 0
    else (if x % 2 == 1 && y % 2 == 1 then 1 else 0) + 2 * AndN(x / 2, y / 2)
  }

  lemma DivBound(x: nat, p: int)
    requires p >= 1
    ensures 0 <= x / p <= x
  {
    assert x == p * (x / p) + x % p;
    if x / p >= 0 {
      MulGrows(x / p, p);
    }
  }

  lemma MulGrows(q: nat, p: int)
    requires p >= 1
    ensures p * q >= q
  {
  }

  /** Disjoint bits: or-ing a number below 2^k to a multiple of 2^k adds it. */
  lemma {:induction false} OrDisjoint(x: nat, y: nat, k: nat)
    requires y < Pow2(k)
    ensures OrN(x * Pow2(k), y) == x * Pow2(k) + y
    decreases k
  {
    if k == 0 {
      OrZero(x);
    } else {
      var h := x * Pow2(k - 1);
      assert x * Pow2(k) == 2 * h;
      OrDisjoint(x, y / 2, k - 1);
      assert (2 * h) / 2 == h && (2 * h) % 2 == 0;
    }
  }

  lemma {:induction false} OrComm(x: nat, y: nat)
    ensures OrN(x, y) == OrN(y, x)
    decreases x + y
  {
    if x != 0 || y != 0 {
      OrComm(x / 2, y / 2);
    }
  }

  lemma {:induction false} OrZero(x: nat)
    ensures OrN(x, 0) == x
  {
    if x != 0 {
      OrZero(x / 2);
    }
  }

  /** Masking with 2^k - 1 keeps the low k bits. */
  lemma {:induction false} AndLow(x: nat, k: nat)
    ensures AndN(x, Pow2(k) - 1) == x % Pow2(k)
    decreases k
  {
    if k == 0 {
      AndZero(x);
    } else {
      AndLow(x / 2, k - 1);
      LowBit(x, Pow2(k - 1));
      OddHalf(Pow2(k - 1));
    }
  }

  /** Masking with a multiple of 2^k, all ones above: clears the low k bits. */
  lemma {:induction false} AndHigh(x: nat, k: nat, n: nat)
    requires k <= n
    requires x < Pow2(n)
    ensures Pow2(n) >= Pow2(k)
    ensures AndN(x, Pow2(n) - Pow2(k)) == x - x % Pow2(k)
    decreases n
  {
    if n == k {
      AndZero(x);
      SmallMod(x, Pow2(k));
    } else if k == 0 {
      AndLow(x, n);
      SmallMod(x, Pow2(n));
    } else {
      AndHigh(x / 2, k - 1, n - 1);
      LowBit(x, Pow2(k - 1));
      AndEven(x, Pow2(n - 1) - Pow2(k - 1));
    }
  }

  lemma LowBit(x: nat, p: int)
    requires p >= 1
    ensures x % (2 * p) == 2 * ((x / 2) % p) + x % 2
  {
    var q, r := x / 2 / p, x / 2 % p;
    assert x / 2 == p * q + r;
    assert x == 2 * (p * q) + (2 * r + x % 2);
    assert 2 * (p * q) == (2 * p) * q;
    ModOf(x, 2 * p, q, 2 * r + x % 2);
  }

  lemma OddHalf(p: int)
    requires p >= 1
    ensures (2 * p - 1) / 2 == p - 1 && (2 * p - 1) % 2 == 1
  {
  }

  lemma AndEven(x: nat, h: nat)
    ensures AndN(x, 2 * h) == 2 * AndN(x / 2, h)
  {
    assert (2 * h) / 2 == h && (2 * h) % 2 == 0;
  }

  lemma {:induction false} AndZero(x: nat)
    ensures AndN(x, 0) == 0
  {
    if x != 0 {
      AndZero(x / 2);
    }
  }

  lemma SmallMod(x: nat, p: int)
    requires 0 <= x < p
    ensures x % p == x && x / p == 0
  {
  }

  /** The quotient and remainder are the only ones in range. */
  lemma ModOf(x: int, p: int, q: int, r: int)
    requires p >= 1 && x == p * q + r && 0 <= r < p
    ensures x / p == q && x % p == r
  {
    var q', r' := x / p, x % p;
    assert x == p * q' + r';
    assert p * (q - q') == r' - r;
    if q > q' {
      assert p * (q - q') >= p by { MulGrows(q - q' - 1, p); assert p * (q - q') == p * (q - q' - 1) + p; }
    } else if q < q' {
      assert p * (q' - q) >= p by { MulGrows(q' - q - 1, p); assert p * (q' - q) == p * (q' - q - 1) + p; }
    }
  }

  lemma {:induction false} OrBound(x: nat, y: nat, n: nat)
    requires x < Pow2(n) && y < Pow2(n)
    ensures OrN(x, y) < Pow2(n)
  {
    if x != 0 || y != 0 {
      OrBound(x / 2, y / 2, n - 1);
    }
  }

  lemma {:induction false} AndBound(x: nat, y: nat)
    ensures AndN(x, y) <= x
    decreases x + y
  {
    if x != 0 || y != 0 {
      AndBound(x / 2, y / 2);
    }
  }

  lemma Pow2Of64()
    ensures Pow2(64) == TWO64
  {
    assert Pow2(8) == 0x100;
    Pow2Add(8, 8);
    Pow2Add(16, 16);
    Pow2Add(32, 32);
  }

  lemma {:induction false} Pow2Add(a: nat, b: nat)
    ensures Pow2(a + b) == Pow2(a) * Pow2(b)
  {
    if a != 0 {
      Pow2Add(a - 1, b);
      assert Pow2(a + b) == 2 * Pow2(a + b - 1);
    }
  }

  function Or(x: word, y: word): word {
    Pow2Of64(); OrBound(x, y, 64);
    OrN(x, y)
  }

  function And(x: word, y: word): word {
    AndBound(x, y);
    AndN(x, y)
  }

  /** A shift left drops the high bits. */
  lemma ShlIs(x: word, k: nat)
    requires k <= 64
    ensures Shl(x, k) == (x % Pow2(64 - k)) * Pow2(k)
  {
    hide Pow2;
    Pow2Of64(); Pow2Add(64 - k, k);
    var p, q := Pow2(64 - k), Pow2(k);
    var h, l := x / p, x % p;
    Euclid(x, p);
    MulLess(l, p, q);
    Distribute(p, h, l, q);
    ModOf(x * q, TWO64, h, l * q);
  }

  lemma Euclid(x: int, p: int)
    requires p >= 1
    ensures x == p * (x / p) + x % p && 0 <= x % p < p
  {
  }

  lemma Distribute(p: int, h: int, l: int, q: int)
    ensures (p * h + l) * q == (p * q) * h + l * q
  {
    assert (p * h) * q == (p * q) * h;
  }

  lemma MulLess(l: int, p: int, q: int)
    requires 0 <= l < p && q >= 1
    ensures 0 <= l * q < p * q
  {
  }
}
