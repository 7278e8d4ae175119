/** An unaligned word spans two aligned ones: its load is their bits shifted
    together, and its store masks its bits into both. */
module Splice {
  import opened Words
  import opened Bits
  import opened Memory

  /** Big-endian value of any number of bytes. */
  function BE(s: seq<byte>): nat {
    if s == [] then 0 else BE(s[..|s| - 1]) * 0x100 + s[|s| - 1] as int
  }

  lemma {:induction false} BEBound(s: seq<byte>)
    ensures BE(s) < Pow2(8 * |s|)
  {
    if s != [] {
      BEBound(s[..|s| - 1]);
      Pow2By8(8 * |s| - 8);
    }
  }

  lemma Pow2By8(k: nat)
    ensures Pow2(k + 8) == Pow2(k) * 0x100
  {
    Pow2Add(k, 8);
    assert Pow2(8) == 0x100;
  }

  lemma {:induction false} BEConcat(s: seq<byte>, t: seq<byte>)
    ensures BE(s + t) == BE(s) * Pow2(8 * |t|) + BE(t)
    decreases |t|
  {
    if t == [] {
      assert s + t == s;
    } else {
      var u := t[..|t| - 1];
      BEConcat(s, u);
      assert (s + t)[..|s + t| - 1] == s + u;
      Pow2By8(8 * |u|);
      assert BE(s) * (Pow2(8 * |u|) * 0x100) == (BE(s) * Pow2(8 * |u|)) * 0x100;
    }
  }

  lemma DecodeIsBE(s: seq<byte>)
    requires |s| == 8
    ensures Decode(s) == BE(s)
  {
    assert BE(s[..1]) == s[0] by { assert s[..1][..0] == []; }
    BENext(s, 1);
    BENext(s, 2);
    BENext(s, 3);
    BENext(s, 4);
    BENext(s, 5);
    BENext(s, 6);
    BENext(s, 7);
    assert s[..8] == s;
  }

  lemma BENext(s: seq<byte>, i: nat)
    requires i < |s|
    ensures BE(s[..i + 1]) == BE(s[..i]) * 0x100 + s[i] as int
  {
    assert s[..i + 1][..i] == s[..i];
  }

  /** An eight-byte word cut after j bytes. */
  lemma Cut(s: seq<byte>, j: nat)
    requires |s| == 8 && j <= 8
    ensures Decode(s) / Pow2(64 - 8 * j) == BE(s[..j])
    ensures Decode(s) % Pow2(64 - 8 * j) == BE(s[j..])
    ensures Decode(s) == BE(s[..j]) * Pow2(64 - 8 * j) + BE(s[j..])
  {
    hide Decode, BE;
    DecodeIsBE(s);
    assert s == s[..j] + s[j..];
    BEConcat(s[..j], s[j..]);
    BEBound(s[j..]);
    ModOf(Decode(s), Pow2(64 - 8 * j), BE(s[..j]), BE(s[j..]));
  }

  /** The word at lo + j out of the aligned ones at lo and lo + 8. */
  lemma SplicedLoad(m: Mem, lo: word, j: nat)
    requires lo + 8 < TWO64 && 1 <= j <= 7
    ensures Or(Shl(Rd(m, lo), 8 * j), Shr(Rd(m, lo + 8), 64 - 8 * j)) == Rd(m, lo + j)
  {
    hide Decode, BE, Encode, OrN;
    var k := 8 * j;
    var a := lo + j;
    var s, x, y := m[a..a + 8], m[lo..lo + 8], m[lo + 8..lo + 16];
    Cut(s, 8 - j);
    Cut(x, j);
    Cut(y, j);
    assert s[..8 - j] == x[j..] && s[8 - j..] == y[..j];
    ShlIs(Decode(x), k);
    BEBound(y[..j]);
    OrDisjoint(BE(x[j..]), BE(y[..j]), k);
  }

  /** What a store of v at lo + j leaves in the two words it spans. */
  lemma SplicedStore(m: Mem, lo: word, j: nat, v: word)
    requires lo + 8 < TWO64 && 1 <= j <= 7
    ensures Rd(Wr(m, lo + j, v), lo) == Or(And(Rd(m, lo), Not(Shr(TWO64 - 1, 8 * j))), Shr(v, 8 * j))
    ensures Rd(Wr(m, lo + j, v), lo + 8) == Or(And(Rd(m, lo + 8), Shr(TWO64 - 1, 8 * j)), Shl(v, 64 - 8 * j))
  {
    StoreLow(m, lo, j, v);
    StoreHigh(m, lo, j, v);
  }

  lemma Ones(k: nat)
    requires k <= 64
    ensures Shr(TWO64 - 1, k) == Pow2(64 - k) - 1
  {
    Pow2Of64(); Pow2Add(64 - k, k);
    var p, q := Pow2(64 - k), Pow2(k);
    assert TWO64 - 1 == q * (p - 1) + (q - 1);
    ModOf(TWO64 - 1, q, p - 1, q - 1);
  }

  lemma StoreLow(m: Mem, lo: word, j: nat, v: word)
    requires lo + 8 < TWO64 && 1 <= j <= 7
    ensures Rd(Wr(m, lo + j, v), lo) == Or(And(Rd(m, lo), Not(Shr(TWO64 - 1, 8 * j))), Shr(v, 8 * j))
  {
    hide Decode, BE, Encode, OrN, AndN, And, Or, Not, Shr, Pow2;
    var e, x := Encode(v), m[lo..lo + 8];
    DecodeEncode(v);
    Cut(e, 8 - j);
    Cut(x, j);
    var n := Wr(m, lo + j, v)[lo..lo + 8];
    Cut(n, j);
    assert n == x[..j] + e[..8 - j];
    MaskLow(Decode(x), v, 8 * j);
  }

  /** The upper word: the store's last bytes, and then its own. */
  lemma HighBytes(m: Mem, lo: word, j: nat, v: word)
    requires lo + 8 < TWO64 && 1 <= j <= 7
    ensures var n := Wr(m, lo + j, v)[lo + 8..lo + 16];
      n[..j] == Encode(v)[8 - j..] && n[j..] == m[lo + 8..lo + 16][j..]
  {
    hide Encode;
    var n := Wr(m, lo + j, v)[lo + 8..lo + 16];
    forall i | 0 <= i < 8
      ensures n[i] == if i < j then Encode(v)[8 - j + i] else m[lo + 8 + i]
    {
      WrByte(m, lo + j, v, lo + 8 + i);
    }
  }

  lemma StoreHigh(m: Mem, lo: word, j: nat, v: word)
    requires lo + 8 < TWO64 && 1 <= j <= 7
    ensures Rd(Wr(m, lo + j, v), lo + 8) == Or(And(Rd(m, lo + 8), Shr(TWO64 - 1, 8 * j)), Shl(v, 64 - 8 * j))
  {
    hide Decode, BE, Encode, OrN, AndN, And, Or, Shl, Shr, Pow2;
    var e, y := Encode(v), m[lo + 8..lo + 16];
    DecodeEncode(v);
    Cut(e, 8 - j);
    Cut(y, j);
    var n := Wr(m, lo + j, v)[lo + 8..lo + 16];
    Cut(n, j);
    HighBytes(m, lo, j, v);
    MaskHigh(Decode(y), v, 8 * j);
  }

  /** x with its low 64 - k bits replaced by the high ones of v. */
  lemma MaskLow(x: word, v: word, k: nat)
    requires k <= 64
    ensures Or(And(x, Not(Shr(TWO64 - 1, k))), Shr(v, k)) == (x / Pow2(64 - k)) * Pow2(64 - k) + v / Pow2(k)
  {
    hide OrN, AndN, Shr, Pow2;
    Ones(k);
    Pow2Of64();
    assert And(x, Not(Shr(TWO64 - 1, k))) == AndN(x, Pow2(64) - Pow2(64 - k));
    AndHigh(x, 64 - k, 64);
    WholePart(x, Pow2(64 - k));
    DivLess(v, k);
    ShrIs(v, k);
    OrDisjoint(x / Pow2(64 - k), v / Pow2(k), 64 - k);
  }

  /** x with its high k bits replaced by the low ones of v. */
  lemma MaskHigh(x: word, v: word, k: nat)
    requires k <= 64
    ensures Or(And(x, Shr(TWO64 - 1, k)), Shl(v, 64 - k)) == (v % Pow2(k)) * Pow2(64 - k) + x % Pow2(64 - k)
  {
    Ones(k);
    ShlIs(v, 64 - k);
    AndLow(x, 64 - k);
    OrDisjoint(v % Pow2(k), x % Pow2(64 - k), 64 - k);
    OrComm(x % Pow2(64 - k), (v % Pow2(k)) * Pow2(64 - k));
  }

  lemma WholePart(x: int, p: int)
    requires p >= 1
    ensures x - x % p == (x / p) * p
  {
    Euclid(x, p);
  }

  lemma ShrIs(v: word, k: nat)
    ensures Shr(v, k) == v / Pow2(k)
  {
  }

  lemma DivLess(v: word, k: nat)
    requires k <= 64
    ensures 0 <= v / Pow2(k) < Pow2(64 - k)
  {
    Pow2Of64(); Pow2Add(64 - k, k);
    QuotientLess(v, Pow2(k), Pow2(64 - k));
  }

  lemma QuotientLess(v: nat, c: int, p: int)
    requires c >= 1 && v < p * c
    ensures 0 <= v / c < p
  {
    DivBound(v, c);
    var q := v / c;
    assert v == c * q + v % c;
    MulMono(c, p, q);
    assert p * c == c * p;
  }

  lemma MulMono(c: nat, p: int, q: int)
    ensures q >= p ==> c * q >= c * p
  {
  }
}
