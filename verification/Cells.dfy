/** Several disjoint words of memory at once. */
module Cells {
  import opened Words
  import opened Memory
  import opened Subleq

  predicate Apart(adr: seq<word>) {
    forall i, j | 0 <= i < j < |adr| :: Disjoint(adr[i], adr[j])
  }

  predicate Outside(a: word, adr: seq<word>) {
    forall i | 0 <= i < |adr| :: Disjoint(a, adr[i])
  }

  /** m with vals stored at adr, in order. */
  function WriteAll(m: Mem, adr: seq<word>, vals: seq<word>): Mem
    requires |adr| == |vals|
  {
    if adr == [] then m
    else Wr(WriteAll(m, adr[..|adr| - 1], vals[..|adr| - 1]), adr[|adr| - 1], vals[|adr| - 1])
  }

  lemma {:induction false} RdOutside(m: Mem, adr: seq<word>, vals: seq<word>, a: word)
    requires |adr| == |vals| && Outside(a, adr)
    ensures Rd(WriteAll(m, adr, vals), a) == Rd(m, a)
  {
    hide Rd, Wr;
    if adr != [] {
      var n := |adr| - 1;
      RdOutside(m, adr[..n], vals[..n], a);
      RdWrOther(WriteAll(m, adr[..n], vals[..n]), adr[n], vals[n], a);
    }
  }

  lemma {:induction false} RdCell(m: Mem, adr: seq<word>, vals: seq<word>, i: nat)
    requires |adr| == |vals| && Apart(adr) && i < |adr|
    ensures Rd(WriteAll(m, adr, vals), adr[i]) == vals[i]
  {
    hide Rd, Wr;
    var n := |adr| - 1;
    var rest := WriteAll(m, adr[..n], vals[..n]);
    if i == n {
      RdWrSame(rest, adr[n], vals[n]);
    } else {
      RdCell(m, adr[..n], vals[..n], i);
      RdWrOther(rest, adr[n], vals[n], adr[i]);
    }
  }

  lemma {:induction false} WrCell(m: Mem, adr: seq<word>, vals: seq<word>, i: nat, x: word)
    requires |adr| == |vals| && Apart(adr) && i < |adr|
    ensures Wr(WriteAll(m, adr, vals), adr[i], x) == WriteAll(m, adr, vals[i := x])
  {
    hide Rd, Wr;
    var n := |adr| - 1;
    var rest := WriteAll(m, adr[..n], vals[..n]);
    if i == n {
      WrWrSame(rest, adr[n], vals[n], x);
      assert vals[i := x][..n] == vals[..n];
    } else {
      WrCell(m, adr[..n], vals[..n], i, x);
      WrWrSwap(rest, adr[n], vals[n], adr[i], x);
      assert vals[i := x][..n] == vals[..n][i := x];
    }
  }

  lemma {:induction false} WrOutside(m: Mem, adr: seq<word>, vals: seq<word>, a: word, x: word)
    requires |adr| == |vals| && Outside(a, adr)
    ensures Wr(WriteAll(m, adr, vals), a, x) == WriteAll(Wr(m, a, x), adr, vals)
  {
    hide Rd, Wr;
    if adr != [] {
      var n := |adr| - 1;
      WrOutside(m, adr[..n], vals[..n], a, x);
      WrWrSwap(WriteAll(m, adr[..n], vals[..n]), adr[n], vals[n], a, x);
    }
  }

  /** Storing what is there changes nothing. */
  lemma {:induction false} WriteBack(m: Mem, adr: seq<word>, vals: seq<word>)
    requires |adr| == |vals| && forall i | 0 <= i < |adr| :: vals[i] == Rd(m, adr[i])
    ensures WriteAll(m, adr, vals) == m
  {
    hide Rd, Wr;
    if adr != [] {
      var n := |adr| - 1;
      WriteBack(m, adr[..n], vals[..n]);
      WrRd(m, adr[n]);
    }
  }

  /** A step whose B is one of the cells. */
  lemma StepCell(m: Mem, adr: seq<word>, vals: seq<word>, p: word, va: word, ib: nat)
    requires |adr| == |vals| && Apart(adr) && ib < |adr|
    requires var M := WriteAll(m, adr, vals);
      Rd(M, Add(p, 8)) == adr[ib] && Rd(M, Rd(M, p)) == va
    ensures var M := WriteAll(m, adr, vals);
      Step(Cpu(M, p)) == Cpu(WriteAll(m, adr, vals[ib := Sub(vals[ib], va)]),
                             if Taken(vals[ib], va) then Rd(M, Add(p, 16)) else Add(p, 24))
  {
    hide Rd, Wr, WriteAll;
    RdCell(m, adr, vals, ib);
    WrCell(m, adr, vals, ib, Sub(vals[ib], va));
  }
}
