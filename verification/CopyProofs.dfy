/** Running many iterations of the word copy loop at once leaves exactly what
    running its instructions one by one does. */
module CopyProofs {
  import opened Options
  import opened Words
  import opened Memory
  import opened Subleq
  import opened X86
  import opened RegCache
  import opened Cells
  import opened CopyLoop

  /** The loop is there but for the C fields of some instructions. */
  ghost predicate LoopBut(m: Mem, d: Desc, sd: bool, loose: set<nat>)
    requires d.start + LOOP_LEN < TWO64
  {
    forall k: nat | k < 19 ::
      && (TmplA(d, k).Some? ==> Rd(m, d.start + 24 * k) == TmplA(d, k).value)
      && (TmplB(d, sd, k).Some? ==> Rd(m, d.start + 24 * k + 8) == TmplB(d, sd, k).value)
      && (k !in loose ==> Rd(m, d.start + 24 * k + 16) == TmplC(d, k))
  }

  /** None of them is used: they are those of instructions that branch only when
      S or D is 0, or never. */
  predicate Idle(loose: set<nat>, s: word, t: word) {
    && s < TWO63 && t < TWO63 && loose <= {4, 11, 12, 13, 16, 17}
    && (4 in loose ==> s != 0) && (11 in loose || 12 in loose || 13 in loose ==> t != 0)
  }

  /** What an iteration relies on. */
  ghost predicate LoopReady(m: Mem, d: Desc, sd: bool, memSize: int, loose: set<nat>) {
    VarsOk(d, memSize) && LoopBut(m, d, sd, loose) && Rd(m, d.mv) == MINUS8 && loose <= {4, 11, 12, 13, 16, 17}
  }

  function CellA(sd: bool, k: nat): int {
    match k
    case 0 => 3 case 1 => 4 case 2 => 5 case 3 => 0 case 4 => 3 case 6 => 3 case 7 => 8 case 8 => 6 case 9 => 7
    case 10 => 1 case 11 => 3 case 12 => 3 case 13 => 3 case 15 => 4 case _ => -1
  }

  function CellB(sd: bool, k: nat): nat {
    match k
    case 0 => 3 case 1 => 4 case 2 => 5 case 3 => 3 case 4 => 5 case 5 => 4 case 6 => 3 case 7 => 8 case 8 => 6 case 9 => 7
    case 10 => 3 case 11 => 8 case 12 => 6 case 13 => 7 case 16 => (if sd then 0 else 1) case 17 => (if sd then 1 else 0)
    case _ => 2
  }

  lemma TmplCells(d: Desc, sd: bool, k: nat)
    requires d.start + LOOP_LEN < TWO64 && k < 19
    ensures TmplA(d, k).Some? && k < 16 ==> 0 <= CellA(sd, k) < 9 && TmplA(d, k).value == CellsOf(d)[CellA(sd, k)]
    ensures TmplB(d, sd, k).Some? ==> 0 <= CellB(sd, k) < 9 && TmplB(d, sd, k).value == CellsOf(d)[CellB(sd, k)]
  {
    hide CellsOf;
    CellAt(d, 0); CellAt(d, 1); CellAt(d, 2); CellAt(d, 3); CellAt(d, 4);
    CellAt(d, 5); CellAt(d, 6); CellAt(d, 7); CellAt(d, 8);
  }

  /** The fields that are not patched stay as in the template. */
  lemma FieldOutside(m: Mem, d: Desc, memSize: int, vals: seq<word>, k: nat, f: nat)
    requires VarsOk(d, memSize) && |vals| == 9 && k < 19 && f < 3
    requires d.start + 24 * k + 8 * f !in [F1(d), F2(d), F3(d), F4(d)]
    ensures Rd(WriteAll(m, CellsOf(d), vals), d.start + 24 * k + 8 * f) == Rd(m, d.start + 24 * k + 8 * f)
  {
    hide Rd, WriteAll, CellsOf;
    var a := d.start + 24 * k + 8 * f;
    assert a != F1(d) && a != F2(d) && a != F3(d) && a != F4(d);
    AlignedOutside(a, d, memSize);
    RdOutside(m, CellsOf(d), vals, a);
  }

  lemma AddSmall(x: word, n: nat)
    requires x + n < TWO64
    ensures Add(x, n) == x + n
  {
  }

  function Next(d: Desc, k: nat, b: word, a: word): int {
    if k < 18 then d.start + 24 * k + 24 else if Taken(b, a) then d.start else d.start + LOOP_LEN
  }

  /** An instruction whose operands are not patched. */
  lemma LoopStep(m: Mem, d: Desc, sd: bool, memSize: int, loose: set<nat>, vals: seq<word>, k: nat)
    requires LoopReady(m, d, sd, memSize, loose) && |vals| == 9 && k < 19 && k != 5 && k != 14 && k != 15
    requires 0 <= CellB(sd, k) < 9 && (k < 16 ==> 0 <= CellA(sd, k) < 9)
    requires k in loose ==> !Taken(vals[CellB(sd, k)], if k < 16 then vals[CellA(sd, k)] else MINUS8)
    ensures var M := WriteAll(m, CellsOf(d), vals);
      var ib := CellB(sd, k);
      var va := if k < 16 then vals[CellA(sd, k)] else MINUS8;
      Step(Cpu(M, d.start + 24 * k)) == Cpu(WriteAll(m, CellsOf(d), vals[ib := Sub(vals[ib], va)]), Next(d, k, vals[ib], va))
  {
    hide Rd, Wr, WriteAll, CellsOf, Step;
    var p := d.start + 24 * k;
    AddSmall(p, 8);
    AddSmall(p, 16);
    AddSmall(p, 24);
    FieldOutside(m, d, memSize, vals, k, 0);
    FieldOutside(m, d, memSize, vals, k, 1);
    FieldOutside(m, d, memSize, vals, k, 2);
    TmplCells(d, sd, k);
    CellsApart(d, memSize);
    if k < 16 {
      RdCell(m, CellsOf(d), vals, CellA(sd, k));
      StepCell(m, CellsOf(d), vals, p, vals[CellA(sd, k)], CellB(sd, k));
    } else {
      MvOutside(d, memSize);
      RdOutside(m, CellsOf(d), vals, d.mv);
      StepCell(m, CellsOf(d), vals, p, MINUS8, CellB(sd, k));
    }
  }

  /** Instruction 5 loads through F1. */
  lemma LoadStep(m: Mem, d: Desc, sd: bool, memSize: int, loose: set<nat>, vals: seq<word>)
    requires LoopReady(m, d, sd, memSize, loose) && |vals| == 9 && Outside(vals[5], CellsOf(d))
    ensures Step(Cpu(WriteAll(m, CellsOf(d), vals), d.start + 120)) ==
            Cpu(WriteAll(m, CellsOf(d), vals[4 := Sub(vals[4], Rd(m, vals[5]))]), d.start + 144)
  {
    hide Rd, Wr, WriteAll, CellsOf, Step;
    var p := d.start + 120;
    AddSmall(p, 8);
    AddSmall(p, 16);
    AddSmall(p, 24);
    FieldOutside(m, d, memSize, vals, 5, 1);
    FieldOutside(m, d, memSize, vals, 5, 2);
    TmplCells(d, sd, 5);
    CellsApart(d, memSize);
    CellAt(d, 5);
    RdCell(m, CellsOf(d), vals, 5);
    RdOutside(m, CellsOf(d), vals, vals[5]);
    StepCell(m, CellsOf(d), vals, p, Rd(m, vals[5]), 4);
  }

  /** Instructions 14 and 15 clear the destination, then subtract T2 from it. */
  lemma StoreSteps(m: Mem, d: Desc, sd: bool, memSize: int, loose: set<nat>, vals: seq<word>, t: word)
    requires LoopReady(m, d, sd, memSize, loose) && |vals| == 9 && vals[6] == t && vals[7] == t && vals[8] == t
    requires Outside(t, CellsOf(d)) && (t + 8 <= d.start || t >= d.start + LOOP_LEN)
    ensures Steps(Cpu(WriteAll(m, CellsOf(d), vals), d.start + 336), 2) ==
            Cpu(WriteAll(Wr(m, t, Neg(vals[4])), CellsOf(d), vals), d.start + 384)
  {
    hide Rd, Wr, WriteAll, CellsOf;
    var adr := CellsOf(d);
    var M := WriteAll(m, adr, vals);
    var p := d.start + 336;
    AddSmall(p, 8); AddSmall(p, 16); AddSmall(p, 24); AddSmall(p, 32); AddSmall(p, 40); AddSmall(p, 48);
    CellsApart(d, memSize);
    CellAt(d, 6); CellAt(d, 7); CellAt(d, 8);
    RdCell(m, adr, vals, 6);
    RdCell(m, adr, vals, 7);
    FieldOutside(m, d, memSize, vals, 14, 2);
    var m1 := Wr(m, t, 0);
    WrOutside(m, adr, vals, t, 0);
    assert TmplC(d, 14) == p + 24;
    var s1 := Step(Cpu(M, p));
    assert s1 == Cpu(WriteAll(m1, adr, vals), p + 24);
    StoreSecond(m, m1, d, sd, memSize, loose, vals, t);
    StepsTwo(Cpu(M, p));
  }

  lemma StepsTwo(s: Cpu)
    ensures Steps(s, 2) == Step(Step(s))
  {
    hide Step;
    assert Steps(s, 1) == Step(Steps(s, 0));
  }

  lemma StoreSecond(m: Mem, m1: Mem, d: Desc, sd: bool, memSize: int, loose: set<nat>, vals: seq<word>, t: word)
    requires LoopReady(m, d, sd, memSize, loose) && |vals| == 9 && vals[8] == t && m1 == Wr(m, t, 0)
    requires Outside(t, CellsOf(d)) && (t + 8 <= d.start || t >= d.start + LOOP_LEN)
    ensures Step(Cpu(WriteAll(m1, CellsOf(d), vals), d.start + 360)) ==
            Cpu(WriteAll(Wr(m, t, Neg(vals[4])), CellsOf(d), vals), d.start + 384)
  {
    hide Rd, Wr, WriteAll, CellsOf;
    var adr := CellsOf(d);
    var M := WriteAll(m1, adr, vals);
    var p := d.start + 360;
    AddSmall(p, 8); AddSmall(p, 16); AddSmall(p, 24);
    CellsApart(d, memSize);
    CellAt(d, 4); CellAt(d, 8);
    RdCell(m1, adr, vals, 4);
    RdCell(m1, adr, vals, 8);
    FieldOutside(m1, d, memSize, vals, 15, 0);
    FieldOutside(m1, d, memSize, vals, 15, 2);
    assert TmplC(d, 15) == p + 24;
    RdWrOther(m, t, 0, p);
    RdWrOther(m, t, 0, p + 16);
    RdOutside(m1, adr, vals, t);
    RdWrSame(m, t, 0);
    WrOutside(m1, adr, vals, t, Neg(vals[4]));
    WrWrSame(m, t, 0, Neg(vals[4]));
  }

  /** A store elsewhere leaves the loop ready. */
  lemma ReadyAfter(m: Mem, d: Desc, sd: bool, memSize: int, loose: set<nat>, t: word, x: word)
    requires LoopReady(m, d, sd, memSize, loose) && Disjoint(t, d.mv) && (t + 8 <= d.start || t >= d.start + LOOP_LEN)
    ensures LoopReady(Wr(m, t, x), d, sd, memSize, loose)
  {
    hide Rd, Wr;
    forall k: nat, f: nat | k < 19 && f < 3
      ensures Rd(Wr(m, t, x), d.start + 24 * k + 8 * f) == Rd(m, d.start + 24 * k + 8 * f)
    {
      RdWrOther(m, t, x, d.start + 24 * k + 8 * f);
    }
    RdWrOther(m, t, x, d.mv);
    forall k: nat | k < 19
      ensures Rd(Wr(m, t, x), d.start + 24 * k) == Rd(m, d.start + 24 * k)
      ensures Rd(Wr(m, t, x), d.start + 24 * k + 8) == Rd(m, d.start + 24 * k + 8)
      ensures Rd(Wr(m, t, x), d.start + 24 * k + 16) == Rd(m, d.start + 24 * k + 16)
    {
      RdWrOther(m, t, x, d.start + 24 * k);
      RdWrOther(m, t, x, d.start + 24 * k + 8);
      RdWrOther(m, t, x, d.start + 24 * k + 16);
    }
  }

  /** Chaining a step to what ran before. */
  lemma Chain(s0: Cpu, n: nat, s1: Cpu, s2: Cpu)
    requires Steps(s0, n) == s1 && Step(s1) == s2
    ensures Steps(s0, n + 1) == s2
  {
    hide Step;
  }

  /** The state with the cells as vals, at instruction k. */
  function S(m: Mem, d: Desc, vals: seq<word>, k: nat): Cpu
    requires |vals| == 9 && d.start + LOOP_LEN < TWO64 && k <= 19
  {
    Cpu(WriteAll(m, CellsOf(d), vals), d.start + 24 * k)
  }

  lemma Bound(m: Mem, d: Desc, sd: bool, memSize: int, loose: set<nat>)
    requires LoopReady(m, d, sd, memSize, loose)
    ensures d.start + LOOP_LEN < TWO64
  {
  }

  lemma StepS(m: Mem, d: Desc, sd: bool, memSize: int, loose: set<nat>, s0: Cpu, n: nat, vals: seq<word>, k: nat, vals': seq<word>)
    requires LoopReady(m, d, sd, memSize, loose) && |vals| == 9 && k < 18 && k != 5 && k != 14 && k != 15
    requires Steps(s0, n) == S(m, d, vals, k)
    requires 0 <= CellB(sd, k) < 9 && (k < 16 ==> 0 <= CellA(sd, k) < 9)
    requires k in loose ==> !Taken(vals[CellB(sd, k)], if k < 16 then vals[CellA(sd, k)] else MINUS8)
    requires vals' == vals[CellB(sd, k) := Sub(vals[CellB(sd, k)], if k < 16 then vals[CellA(sd, k)] else MINUS8)]
    ensures Steps(s0, n + 1) == S(m, d, vals', k + 1)
  {
    hide Rd, WriteAll, CellsOf, Step, Steps, LoopReady, CellA, CellB;
    Bound(m, d, sd, memSize, loose);
    LoopStep(m, d, sd, memSize, loose, vals, k);
    Chain(s0, n, S(m, d, vals, k), S(m, d, vals', k + 1));
  }

  lemma IdleOnly(loose: set<nat>, s: word, t: word)
    requires Idle(loose, s, t)
    ensures loose <= {4, 11, 12, 13, 16, 17}
  {
  }

  lemma SubSelf(x: word)
    ensures Sub(x, x) == 0 && Sub(0, Sub(0, x)) == x && Sub(0, Neg(x)) == x
  {
  }

  /** Instructions 0 to 4: T1 and T2 cleared, F1 := S. */
  lemma FirstFive(m: Mem, d: Desc, sd: bool, memSize: int, loose: set<nat>, v: seq<word>)
    requires LoopReady(m, d, sd, memSize, loose) && |v| == 9 && Idle(loose, v[0], v[1])
    ensures Steps(S(m, d, v, 0), 5) == S(m, d, [v[0], v[1], v[2], Neg(v[0]), 0, v[0], v[6], v[7], v[8]], 5)
  {
    hide Rd, WriteAll, CellsOf, Step, Steps, LoopReady, S, Sub, Neg;
    Bound(m, d, sd, memSize, loose);
    var s0 := S(m, d, v, 0);
    assert Steps(s0, 0) == s0 by { StepsZero(s0); }
    SubSelf(v[3]);
    SubSelf(v[4]);
    SubSelf(v[5]);
    SubSelf(v[0]);
    NegIs(v[0]);
    var v1 := [v[0], v[1], v[2], 0, v[4], v[5], v[6], v[7], v[8]];
    StepS(m, d, sd, memSize, loose, s0, 0, v, 0, v1);
    var v2 := [v[0], v[1], v[2], 0, 0, v[5], v[6], v[7], v[8]];
    StepS(m, d, sd, memSize, loose, s0, 1, v1, 1, v2);
    var v3 := [v[0], v[1], v[2], 0, 0, 0, v[6], v[7], v[8]];
    StepS(m, d, sd, memSize, loose, s0, 2, v2, 2, v3);
    var v4 := [v[0], v[1], v[2], Neg(v[0]), 0, 0, v[6], v[7], v[8]];
    StepS(m, d, sd, memSize, loose, s0, 3, v3, 3, v4);
    NegNotTaken(v[0]);
    StepS(m, d, sd, memSize, loose, s0, 4, v4, 4, [v[0], v[1], v[2], Neg(v[0]), 0, v[0], v[6], v[7], v[8]]);
  }

  lemma StepsZero(s: Cpu)
    ensures Steps(s, 0) == s
  {
  }

  lemma NegNotTaken(x: word)
    requires x < TWO63
    ensures Taken(0, Neg(x)) <==> x == 0
  {
  }

  lemma NegIs(x: word)
    ensures Sub(0, x) == Neg(x)
  {
  }

  /** Instructions 5 to 13: T2 := -[S], then F2, F3, and F4 := D. */
  lemma MiddleNine(m: Mem, d: Desc, sd: bool, memSize: int, loose: set<nat>, v: seq<word>, s0: Cpu)
    requires LoopReady(m, d, sd, memSize, loose) && |v| == 9 && Idle(loose, v[0], v[1])
    requires v[4] == 0 && Outside(v[5], CellsOf(d)) && Steps(s0, 5) == S(m, d, v, 5)
    ensures Steps(s0, 14) == S(m, d, [v[0], v[1], v[2], Neg(v[1]), Neg(Rd(m, v[5])), v[5], v[1], v[1], v[1]], 14)
  {
    hide Rd, WriteAll, CellsOf, Step, Steps, LoopReady, Sub, Neg;
    var x := Rd(m, v[5]);
    SubSelf(v[3]);
    SubSelf(v[8]);
    SubSelf(v[6]);
    SubSelf(v[7]);
    SubSelf(v[1]);
    NegIs(v[1]);
    NegIs(x);
    Bound(m, d, sd, memSize, loose);
    var v5 := [v[0], v[1], v[2], v[3], Neg(x), v[5], v[6], v[7], v[8]];
    LoadStep(m, d, sd, memSize, loose, v);
    assert v[4 := Neg(x)] == v5;
    Chain(s0, 5, S(m, d, v, 5), S(m, d, v5, 6));
    var v6 := [v[0], v[1], v[2], 0, Neg(x), v[5], v[6], v[7], v[8]];
    StepS(m, d, sd, memSize, loose, s0, 6, v5, 6, v6);
    var v7 := [v[0], v[1], v[2], 0, Neg(x), v[5], v[6], v[7], 0];
    StepS(m, d, sd, memSize, loose, s0, 7, v6, 7, v7);
    var v8 := [v[0], v[1], v[2], 0, Neg(x), v[5], 0, v[7], 0];
    StepS(m, d, sd, memSize, loose, s0, 8, v7, 8, v8);
    var v9 := [v[0], v[1], v[2], 0, Neg(x), v[5], 0, 0, 0];
    StepS(m, d, sd, memSize, loose, s0, 9, v8, 9, v9);
    MiddleEnd(m, d, sd, memSize, loose, v9, s0);
  }

  lemma MiddleEnd(m: Mem, d: Desc, sd: bool, memSize: int, loose: set<nat>, v: seq<word>, s0: Cpu)
    requires LoopReady(m, d, sd, memSize, loose) && |v| == 9 && Idle(loose, v[0], v[1])
    requires v[3] == 0 && v[6] == 0 && v[7] == 0 && v[8] == 0 && Steps(s0, 10) == S(m, d, v, 10)
    ensures Steps(s0, 14) == S(m, d, [v[0], v[1], v[2], Neg(v[1]), v[4], v[5], v[1], v[1], v[1]], 14)
  {
    hide Rd, WriteAll, CellsOf, Step, Steps, LoopReady, Sub, Neg;
    SubSelf(v[1]);
    NegIs(v[1]);
    var v10 := [v[0], v[1], v[2], Neg(v[1]), v[4], v[5], 0, 0, 0];
    StepS(m, d, sd, memSize, loose, s0, 10, v, 10, v10);
    NegNotTaken(v[1]);
    var v11 := [v[0], v[1], v[2], Neg(v[1]), v[4], v[5], 0, 0, v[1]];
    StepS(m, d, sd, memSize, loose, s0, 11, v10, 11, v11);
    var v12 := [v[0], v[1], v[2], Neg(v[1]), v[4], v[5], v[1], 0, v[1]];
    StepS(m, d, sd, memSize, loose, s0, 12, v11, 12, v12);
    StepS(m, d, sd, memSize, loose, s0, 13, v12, 13, [v[0], v[1], v[2], Neg(v[1]), v[4], v[5], v[1], v[1], v[1]]);
  }

  lemma Plus8(x: word)
    ensures Sub(x, MINUS8) == Add(x, 8)
  {
  }

  /** Instructions 16 to 18: S, D, and C moved by 8, and back while C allows. */
  lemma LastThree(m: Mem, d: Desc, sd: bool, memSize: int, loose: set<nat>, v: seq<word>, s0: Cpu)
    requires LoopReady(m, d, sd, memSize, loose) && |v| == 9 && Idle(loose, v[0], v[1]) && Steps(s0, 16) == S(m, d, v, 16)
    ensures Steps(s0, 19) == Cpu(WriteAll(m, CellsOf(d), [Add(v[0], 8), Add(v[1], 8), Add(v[2], 8), v[3], v[4], v[5], v[6], v[7], v[8]]),
                                 if Taken(v[2], MINUS8) then d.start else d.start + LOOP_LEN)
  {
    hide Rd, WriteAll, CellsOf, Step, Steps, LoopReady, Sub, Add;
    Bound(m, d, sd, memSize, loose);
    Plus8(v[0]);
    Plus8(v[1]);
    Plus8(v[2]);
    var v16 := if sd then [Add(v[0], 8), v[1], v[2], v[3], v[4], v[5], v[6], v[7], v[8]]
                     else [v[0], Add(v[1], 8), v[2], v[3], v[4], v[5], v[6], v[7], v[8]];
    StepS(m, d, sd, memSize, loose, s0, 16, v, 16, v16);
    var v17 := [Add(v[0], 8), Add(v[1], 8), v[2], v[3], v[4], v[5], v[6], v[7], v[8]];
    StepS(m, d, sd, memSize, loose, s0, 17, v16, 17, v17);
    LoopStep(m, d, sd, memSize, loose, v17, 18);
    var v18 := [Add(v[0], 8), Add(v[1], 8), Add(v[2], 8), v[3], v[4], v[5], v[6], v[7], v[8]];
    assert v17[2 := Add(v[2], 8)] == v18;
    Chain(s0, 18, S(m, d, v17, 18), Cpu(WriteAll(m, CellsOf(d), v18), if Taken(v[2], MINUS8) then d.start else d.start + LOOP_LEN));
  }

  /** The word at a is clear of the loop and its variables. */
  ghost predicate Clear(a: word, d: Desc) {
    d.start + LOOP_LEN < TWO64 && Outside(a, CellsOf(d)) && (a + 8 <= d.start || a >= d.start + LOOP_LEN)
  }

  /** One iteration of the loop: 19 instructions copy one word. */
  lemma Iteration(m: Mem, d: Desc, sd: bool, memSize: int, loose: set<nat>, v: seq<word>)
    requires LoopReady(m, d, sd, memSize, loose) && |v| == 9 && Idle(loose, v[0], v[1])
    requires Clear(v[0], d) && Clear(v[1], d) && Disjoint(v[1], d.mv)
    ensures var x := Rd(m, v[0]);
      Steps(S(m, d, v, 0), 19) ==
      Cpu(WriteAll(Wr(m, v[1], x), CellsOf(d), [Add(v[0], 8), Add(v[1], 8), Add(v[2], 8), Neg(v[1]), Neg(x), v[0], v[1], v[1], v[1]]),
          if Taken(v[2], MINUS8) then d.start else d.start + LOOP_LEN)
  {
    hide Rd, WriteAll, CellsOf, Step, Steps, LoopReady, Sub, Add, Neg, Wr, Outside;
    var s0 := S(m, d, v, 0);
    var x := Rd(m, v[0]);
    FirstFive(m, d, sd, memSize, loose, v);
    var v5 := [v[0], v[1], v[2], Neg(v[0]), 0, v[0], v[6], v[7], v[8]];
    MiddleNine(m, d, sd, memSize, loose, v5, s0);
    var v14 := [v[0], v[1], v[2], Neg(v[1]), Neg(x), v[0], v[1], v[1], v[1]];
    StoreSteps(m, d, sd, memSize, loose, v14, v[1]);
    SubSelf(x);
    NegNeg(x);
    StepsAdd(s0, 14, 2);
    ReadyAfter(m, d, sd, memSize, loose, v[1], x);
    LastThree(Wr(m, v[1], x), d, sd, memSize, loose, v14, s0);
  }

  lemma NegNeg(x: word)
    ensures Neg(Neg(x)) == x
  {
  }

  // ------------------------------------------------------ many iterations

  /** Word by word, each read after the ones before were written. */
  function CopyWords(m: Mem, t: word, s: word, n: nat): Mem
    requires t + 8 * n <= TWO64 && s + 8 * n <= TWO64
  {
    if n == 0 then m
    else
      var q := CopyWords(m, t, s, n - 1);
      Wr(q, t + 8 * n - 8, Rd(q, s + 8 * n - 8))
  }

  /** Copying down, or between ranges apart, no word is read after it has been
      overwritten. */
  lemma {:induction false} CopyWordsIs(m: Mem, t: word, s: word, n: nat)
    requires t + 8 * n <= TWO64 && s + 8 * n <= TWO64 && !(t > s && t < s + 8 * n)
    ensures CopyWords(m, t, s, n) == BulkCopy(m, t, s, 8 * n)
  {
    hide Rd, Wr, BulkCopy;
    if n == 0 {
      BulkCopyNone(m, t, s);
    } else {
      CopyWordsIs(m, t, s, n - 1);
      BulkCopyOne(m, t, s, n);
    }
  }

  lemma BulkCopyNone(m: Mem, t: word, s: word)
    ensures BulkCopy(m, t, s, 0) == m
  {
  }

  /** The next source word is not among those written. */
  lemma NotYet(m: Mem, t: word, s: word, n: nat)
    requires n > 0 && t + 8 * n <= TWO64 && s + 8 * n <= TWO64 && !(t > s && t < s + 8 * n)
    ensures var a := s + 8 * n - 8; BulkCopy(m, t, s, 8 * n - 8)[a..a + 8] == m[a..a + 8]
  {
    var a, q := s + 8 * n - 8, BulkCopy(m, t, s, 8 * n - 8);
    forall i | a <= i < a + 8
      ensures q[i] == m[i]
    {
    }
  }

  lemma BulkCopyOne(m: Mem, t: word, s: word, n: nat)
    requires n > 0 && t + 8 * n <= TWO64 && s + 8 * n <= TWO64 && !(t > s && t < s + 8 * n)
    ensures var q := BulkCopy(m, t, s, 8 * n - 8);
      && Rd(q, s + 8 * n - 8) == Rd(m, s + 8 * n - 8)
      && Wr(q, t + 8 * n - 8, Rd(q, s + 8 * n - 8)) == BulkCopy(m, t, s, 8 * n)
  {
    hide Encode, Decode;
    var q := BulkCopy(m, t, s, 8 * n - 8);
    var a := s + 8 * n - 8;
    assert q[a..a + 8] == m[a..a + 8] by { NotYet(m, t, s, n); }
    assert Rd(q, a) == Decode(m[a..a + 8]);
    EncodeDecode(m[a..a + 8]);
    var x, y := Wr(q, t + 8 * n - 8, Rd(q, a)), BulkCopy(m, t, s, 8 * n);
    assert Encode(Rd(q, a)) == m[a..a + 8];
    forall i | 0 <= i < SIZE
      ensures x[i] == y[i]
    {
      WrByte(q, t + 8 * n - 8, Rd(q, a), i);
      if t + 8 * n - 8 <= i < t + 8 * n {
        assert x[i] == m[a..a + 8][i - (t + 8 * n - 8)];
      }
    }
    assert |x| == |y|;
  }

  function InitialCells(m: Mem, d: Desc): (v: seq<word>)
    requires d.start + LOOP_LEN < TWO64
    ensures |v| == 9
  {
    [Rd(m, d.sv), Rd(m, d.dv), Rd(m, d.cv), Rd(m, d.t1), Rd(m, d.t2), Rd(m, F1(d)), Rd(m, F3(d)), Rd(m, F4(d)), Rd(m, F2(d))]
  }

  /** n words from s to t are clear of the loop and its variables. */
  ghost predicate Movable(d: Desc, memSize: int, s: word, t: word, n: nat) {
    && s + 8 * n <= memSize && t + 8 * n <= memSize && memSize <= 0x4000_0000_0000_0000
    && !(t > s && t < s + 8 * n)
    && forall i | 0 <= i < n :: Clear(s + 8 * i, d) && Clear(t + 8 * i, d) && Disjoint(t + 8 * i, d.mv)
  }

  lemma AllowedMovable(d: Desc, m: Mem, n: nat, memSize: int, pages: set<int>)
    requires VarsOk(d, memSize) && CopyAllowed(d, m, n, memSize, pages)
    ensures Movable(d, memSize, Rd(m, d.sv), Rd(m, d.dv), n)
  {
    hide Rd, PagesClear;
    var s, t := Rd(m, d.sv), Rd(m, d.dv);
    var vs := [d.t1, d.t2, d.sv, d.dv, d.cv];
    assert vs[0] in vs && vs[1] in vs && vs[2] in vs && vs[3] in vs && vs[4] in vs;
    forall i | 0 <= i < n
      ensures Clear(s + 8 * i, d) && Clear(t + 8 * i, d) && Disjoint(t + 8 * i, d.mv)
    {
      WordClear(s + 8 * i, d);
      WordClear(t + 8 * i, d);
    }
  }

  lemma WordClear(a: word, d: Desc)
    requires d.start + LOOP_LEN < TWO64 && (a + 8 <= d.start || a >= d.start + LOOP_LEN)
    requires Disjoint(a, d.t1) && Disjoint(a, d.t2) && Disjoint(a, d.sv) && Disjoint(a, d.dv) && Disjoint(a, d.cv)
    ensures Clear(a, d)
  {
    hide CellsOf;
    forall i | 0 <= i < 9
      ensures Disjoint(a, CellsOf(d)[i])
    {
      CellAt(d, i);
    }
  }

  lemma {:induction false} ReadyThrough(m: Mem, d: Desc, sd: bool, memSize: int, loose: set<nat>, s: word, t: word, n: nat, i: nat)
    requires LoopReady(m, d, sd, memSize, loose) && Movable(d, memSize, s, t, n) && i <= n
    ensures LoopReady(CopyWords(m, t, s, i), d, sd, memSize, loose)
  {
    hide Rd, Wr, LoopReady, Outside;
    if i > 0 {
      ReadyThrough(m, d, sd, memSize, loose, s, t, n, i - 1);
      var q := CopyWords(m, t, s, i - 1);
      assert Clear(t + 8 * (i - 1), d);
      ReadyAfter(q, d, sd, memSize, loose, t + 8 * i - 8, Rd(q, s + 8 * i - 8));
    }
  }

  /** The source word is still the original when it is copied. */
  lemma SourceIntact(m: Mem, d: Desc, memSize: int, s: word, t: word, n: nat, i: nat)
    requires Movable(d, memSize, s, t, n) && i < n
    ensures Rd(CopyWords(m, t, s, i), s + 8 * i) == Rd(m, s + 8 * i)
  {
    hide Rd, BulkCopy, CopyWords, Clear;
    CopyWordsIs(m, t, s, i);
    BulkCopyOne(m, t, s, i + 1);
  }

  /** The counter lets the loop go on, but for its last iteration. */
  lemma CounterTells(c: word, i: nat)
    requires i < Total(c) && 8 * i + 16 < TWO63
    ensures Taken(Add(c, 8 * i), MINUS8) <==> i < Total(c) - 1
  {
    if Signed(c) <= -8 {
      var q := (-8 - Signed(c)) / 8;
      assert 8 * q <= -8 - Signed(c) < 8 * q + 8;
      assert Signed(Add(c, 8 * i)) == Signed(c) + 8 * i;
    }
  }

  lemma CounterMoves(c: word, i: nat)
    requires 8 * i + 8 < TWO64
    ensures Add(Add(c, 8 * i), 8) == Add(c, 8 * i + 8)
    ensures Add(c, 0) == c
  {
  }

  lemma {:induction false} Iterations(m: Mem, d: Desc, sd: bool, memSize: int, loose: set<nat>, n: nat, i: nat)
    requires LoopReady(m, d, sd, memSize, loose) && 1 <= i <= n <= Total(Rd(m, d.cv)) && Idle(loose, Rd(m, d.sv), Rd(m, d.dv))
    requires Movable(d, memSize, Rd(m, d.sv), Rd(m, d.dv), n)
    ensures var s, t := Rd(m, d.sv), Rd(m, d.dv);
      Steps(Cpu(m, d.start), 19 * i) ==
      Cpu(WriteAll(CopyWords(m, t, s, i), CellsOf(d), LastCells(d, m, i, s, t)),
          if i < Total(Rd(m, d.cv)) then d.start else d.start + LOOP_LEN)
  {
    hide Rd, Wr, WriteAll, LoopReady, Steps, CellsOf, Clear, Neg, Total, Movable, CopyWords;
    var s, t, c := Rd(m, d.sv), Rd(m, d.dv), Rd(m, d.cv);
    MovableAt(d, memSize, s, t, n, i - 1);
    var q := CopyWords(m, t, s, i - 1);
    ReadyThrough(m, d, sd, memSize, loose, s, t, n, i - 1);
    SourceIntact(m, d, memSize, s, t, n, i - 1);
    Bound(m, d, sd, memSize, loose);
    AddSmall(s + 8 * i - 8, 8);
    AddSmall(t + 8 * i - 8, 8);
    CounterTells(c, i - 1);
    CounterMoves(c, i - 1);
    var v := if i == 1 then InitialCells(m, d) else LastCells(d, m, i - 1, s, t);
    if i == 1 {
      StartCells(m, d);
      StepsZero(Cpu(m, d.start));
      CopyNone(m, t, s);
    } else {
      Iterations(m, d, sd, memSize, loose, n, i - 1);
    }
    assert Steps(Cpu(m, d.start), 19 * (i - 1)) == S(q, d, v, 0);
    Iteration(q, d, sd, memSize, loose, v);
    StepsAdd(Cpu(m, d.start), 19 * (i - 1), 19);
    CopyMore(m, t, s, i);
  }

  lemma CopyNone(m: Mem, t: word, s: word)
    ensures CopyWords(m, t, s, 0) == m
  {
  }

  lemma CopyMore(m: Mem, t: word, s: word, i: nat)
    requires i > 0 && t + 8 * i <= TWO64 && s + 8 * i <= TWO64
    ensures var q := CopyWords(m, t, s, i - 1);
      CopyWords(m, t, s, i) == Wr(q, t + 8 * i - 8, Rd(q, s + 8 * i - 8))
  {
    hide Rd, Wr;
  }

  lemma MovableAt(d: Desc, memSize: int, s: word, t: word, n: nat, i: nat)
    requires Movable(d, memSize, s, t, n) && i < n
    ensures s + 8 * n <= memSize && t + 8 * n <= memSize && memSize <= 0x4000_0000_0000_0000
    ensures Clear(s + 8 * i, d) && Clear(t + 8 * i, d) && Disjoint(t + 8 * i, d.mv)
  {
    hide Clear;
  }

  lemma StartCells(m: Mem, d: Desc)
    requires d.start + LOOP_LEN < TWO64
    ensures S(m, d, InitialCells(m, d), 0) == Cpu(m, d.start)
  {
    hide Rd, Wr, WriteAll, CellsOf;
    var v := InitialCells(m, d);
    forall i | 0 <= i < 9
      ensures v[i] == Rd(m, CellsOf(d)[i])
    {
      CellAt(d, i);
    }
    WriteBack(m, CellsOf(d), v);
  }

  /** The bulk copy is the loop: n iterations at once leave the memory of 19n
      instructions, and done tells whether C ended the loop. */
  lemma JitCopyOk(d: Desc, m: Mem, sd: bool, loose: set<nat>, budget: nat, memSize: int, pages: set<int>)
    requires VarsOk(d, memSize) && LoopBut(m, d, sd, loose) && JitCopy(d, m, budget, memSize, pages).n > 0
    requires Idle(loose, Rd(m, d.sv), Rd(m, d.dv))
    ensures var r := JitCopy(d, m, budget, memSize, pages);
      Steps(Cpu(m, d.start), 19 * r.n) == Cpu(r.mem, if r.done then d.start + LOOP_LEN else d.start)
  {
    hide Rd, Wr, WriteAll, Steps, CellsOf, LoopBut, Total, CopyAllowed, LastCells, BulkCopy, CopyWords, Idle;
    assert LoopReady(m, d, sd, memSize, loose) by { IdleOnly(loose, Rd(m, d.sv), Rd(m, d.dv)); }
    var r := JitCopy(d, m, budget, memSize, pages);
    AllowedMovable(d, m, r.n, memSize, pages);
    Iterations(m, d, sd, memSize, loose, r.n, r.n);
    CopyWordsIs(m, Rd(m, d.dv), Rd(m, d.sv), r.n);
  }
}
