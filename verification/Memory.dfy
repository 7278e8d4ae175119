/** Byte memory holding big-endian 64-bit words at any byte address. */
module Memory {
  import opened Words

  /** Every 64-bit address has eight bytes; accesses do not wrap. */
  const SIZE: int := 0x1_0000_0000_0000_0008

  type Mem = m: seq<byte> | |m| == SIZE ghost witness seq(SIZE, i => 0 as byte)

  /** The eight bytes of a word, most significant first. */
  function Encode(v: word): (s: seq<byte>)
    ensures |s| == 8
  {
    [v / 0x100_0000_0000_0000, v / 0x1_0000_0000_0000 % 0x100, v / 0x100_0000_0000 % 0x100,
     v / 0x1_0000_0000 % 0x100, v / 0x100_0000 % 0x100, v / 0x1_0000 % 0x100, v / 0x100 % 0x100, v % 0x100]
  }

  function Decode(s: seq<byte>): word
    requires |s| == 8
  {
    s[0] as int * 0x100_0000_0000_0000 + s[1] as int * 0x1_0000_0000_0000 + s[2] as int * 0x100_0000_0000 +
    s[3] as int * 0x1_0000_0000 + s[4] as int * 0x100_0000 + s[5] as int * 0x1_0000 + s[6] as int * 0x100 + s[7]
  }

  /** The word at byte address a. */
  function Rd(m: Mem, a: word): word { Decode(m[a..a + 8]) }

  /** m with v stored at byte address a. */
  function Wr(m: Mem, a: word, v: word): Mem { m[..a] + Encode(v) + m[a + 8..] }

  lemma DecodeEncode(v: word)
    ensures Decode(Encode(v)) == v
  {
    hide Decode, Encode;
    EncodeIs(v);
    DivDiv(v);
    var q1, q2, q3, q4 := v / 0x100, v / 0x1_0000, v / 0x100_0000, v / 0x1_0000_0000;
    var q5, q6, q7 := v / 0x100_0000_0000, v / 0x1_0000_0000_0000, v / 0x100_0000_0000_0000;
    LowByte(v);
    LowByte(q1);
    LowByte(q2);
    LowByte(q3);
    LowByte(q4);
    LowByte(q5);
    LowByte(q6);
    DecodeIs(Encode(v));
  }

  lemma LowByte(q: nat)
    ensures q == 0x100 * (q / 0x100) + q % 0x100
  {
  }

  lemma EncodeIs(v: word)
    ensures var s := Encode(v);
      && s[0] == v / 0x100_0000_0000_0000 && s[1] == v / 0x1_0000_0000_0000 % 0x100
      && s[2] == v / 0x100_0000_0000 % 0x100 && s[3] == v / 0x1_0000_0000 % 0x100 && s[4] == v / 0x100_0000 % 0x100
      && s[5] == v / 0x1_0000 % 0x100 && s[6] == v / 0x100 % 0x100 && s[7] == v % 0x100
  {
  }

  lemma DecodeIs(s: seq<byte>)
    requires |s| == 8
    ensures Decode(s) ==
      s[0] as int * 0x100_0000_0000_0000 + s[1] as int * 0x1_0000_0000_0000 + s[2] as int * 0x100_0000_0000 +
      s[3] as int * 0x1_0000_0000 + s[4] as int * 0x100_0000 + s[5] as int * 0x1_0000 + s[6] as int * 0x100 + s[7]
  {
  }

  /** A word has one encoding. */
  lemma EncodeDecode(s: seq<byte>)
    requires |s| == 8
    ensures Encode(Decode(s)) == s
  {
    var q7: int := s[0];
    var q6 := 0x100 * q7 + s[1];
    var q5 := 0x100 * q6 + s[2];
    var q4 := 0x100 * q5 + s[3];
    var q3 := 0x100 * q4 + s[4];
    var q2 := 0x100 * q3 + s[5];
    var q1 := 0x100 * q2 + s[6];
    var v := Decode(s);
    assert v == 0x100 * q1 + s[7];
    Digit(v, q1, s[7]);
    Digit(q1, q2, s[6]);
    Digit(q2, q3, s[5]);
    Digit(q3, q4, s[4]);
    Digit(q4, q5, s[3]);
    Digit(q5, q6, s[2]);
    Digit(q6, q7, s[1]);
    DivDiv(v);
  }

  lemma Digit(v: int, q: int, b: byte)
    requires v == 0x100 * q + b
    ensures v / 0x100 == q && v % 0x100 == b
  {
  }

  lemma DivDiv(v: nat)
    ensures v / 0x1_0000 == v / 0x100 / 0x100
    ensures v / 0x100_0000 == v / 0x1_0000 / 0x100
    ensures v / 0x1_0000_0000 == v / 0x100_0000 / 0x100
    ensures v / 0x100_0000_0000 == v / 0x1_0000_0000 / 0x100
    ensures v / 0x1_0000_0000_0000 == v / 0x100_0000_0000 / 0x100
    ensures v / 0x100_0000_0000_0000 == v / 0x1_0000_0000_0000 / 0x100
  {
  }

  predicate Disjoint(a: word, b: word) { a + 8 <= b || b + 8 <= a }

  lemma RdWrSame(m: Mem, a: word, v: word)
    ensures Rd(Wr(m, a, v), a) == v
  {
    assert Wr(m, a, v)[a..a + 8] == Encode(v);
    DecodeEncode(v);
  }

  lemma RdWrOther(m: Mem, a: word, v: word, b: word)
    requires Disjoint(a, b)
    ensures Rd(Wr(m, a, v), b) == Rd(m, b)
  {
    assert Wr(m, a, v)[b..b + 8] == m[b..b + 8];
  }

  lemma WrWrSame(m: Mem, a: word, v: word, w: word)
    ensures Wr(Wr(m, a, v), a, w) == Wr(m, a, w)
  {
  }

  lemma WrWrSwap(m: Mem, a: word, v: word, b: word, w: word)
    requires Disjoint(a, b)
    ensures Wr(Wr(m, a, v), b, w) == Wr(Wr(m, b, w), a, v)
  {
    hide Encode;
    var x, y := Wr(Wr(m, a, v), b, w), Wr(Wr(m, b, w), a, v);
    forall i | 0 <= i < SIZE
      ensures x[i] == y[i]
    {
      WrByte(m, a, v, i);
      WrByte(m, b, w, i);
      WrByte(Wr(m, a, v), b, w, i);
      WrByte(Wr(m, b, w), a, v, i);
    }
    assert |x| == |y|;
  }

  lemma WrByte(m: Mem, a: word, v: word, i: nat)
    requires i < SIZE
    ensures Wr(m, a, v)[i] == if a <= i < a + 8 then Encode(v)[i - a] else m[i]
  {
    hide Encode;
  }

  /** Storing back what is there changes nothing. */
  lemma WrRd(m: Mem, a: word)
    ensures Wr(m, a, Rd(m, a)) == m
  {
    EncodeDecode(m[a..a + 8]);
    assert m == m[..a] + m[a..a + 8] + m[a + 8..];
  }

  /** Bytes reversed, as `bswap` does. */
  function Bswap(x: word): word {
    var s := Encode(x);
    Decode([s[7], s[6], s[5], s[4], s[3], s[2], s[1], s[0]])
  }

  lemma BswapTwice(x: word)
    ensures Bswap(Bswap(x)) == x
  {
    var s := Encode(x);
    var t := [s[7], s[6], s[5], s[4], s[3], s[2], s[1], s[0]];
    EncodeDecode(t);
    DecodeEncode(x);
    assert [t[7], t[6], t[5], t[4], t[3], t[2], t[1], t[0]] == s;
  }
}

/** The reference machine: one SUBLEQ instruction at a time. */
module Subleq {
  import opened Words
  import opened Memory

  datatype Cpu = Cpu(mem: Mem, eip: word)

  /** [B] := [B] - [A], then to C if B <= A was signed, both as they were. */
  function Step(s: Cpu): Cpu {
    var a, b, c := Rd(s.mem, s.eip), Rd(s.mem, Add(s.eip, 8)), Rd(s.mem, Add(s.eip, 16));
    var va, vb := Rd(s.mem, a), Rd(s.mem, b);
    Cpu(Wr(s.mem, b, Sub(vb, va)), if Taken(vb, va) then c else Add(s.eip, 24))
  }

  function Steps(s: Cpu, n: nat): Cpu {
    if n == 0 then s else Step(Steps(s, n - 1))
  }

  lemma StepsNext(s: Cpu, n: nat)
    ensures Steps(s, n + 1) == Step(Steps(s, n))
  {
    hide Step;
  }

  lemma {:induction false} StepsAdd(s: Cpu, n: nat, k: nat)
    ensures Steps(s, n + k) == Steps(Steps(s, n), k)
  {
    hide Step;
    if k != 0 {
      StepsAdd(s, n, k - 1);
    }
  }
}
