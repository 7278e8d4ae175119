/** Putting an instruction together: from its checked store to its branch. */
module InsnCorrect {
  import opened Options
  import opened Words
  import opened Memory
  import opened Subleq
  import opened X86
  import opened RegCache
  import opened CacheProofs
  import opened Operands
  import opened OperandProofs
  import opened Insn
  import opened InsnProofs
  import opened ResultProofs

  /** A dynamic C whose register the result was computed in. */
  predicate Clobbers(f: Fields, x: Result, rc: Reg) { f.c.Dynamic? && !x.kept && x.res == InReg(rc) }

  /** The operands of the instruction at p are in range. */
  ghost predicate InRange(p: word, R: Mem) {
    p % 8 == 0 && p + 48 <= TWO64 && Rd(R, p) + 16 <= TWO64 && Rd(R, Add(p, 8)) + 16 <= TWO64
  }

  /** The instruction's words: B's address, and A, B, and C as they were. */
  ghost function AddrB(s: Source, R: Mem): word { Rd(R, Add(s.p, 8)) }
  ghost function ValA(s: Source, R: Mem): word { Rd(R, Rd(R, s.p)) }
  ghost function ValB(s: Source, R: Mem): word { Rd(R, AddrB(s, R)) }
  ghost function ValC(s: Source, R: Mem): word { Rd(R, Add(s.p, 16)) }

  /** Where a dynamic B and a dynamic C are. */
  ghost predicate RegB(f: Field, c: Jit, m: Machine, rb: Reg, b: word) {
    if f.Known? then f.val == b else m.regs[rb] == b && c.regs[rb].pinned
  }

  /** The C to go to: the register holds it, or the result if clobbered. */
  ghost predicate RegC(f: Fields, c: Jit, m: Machine, rc: Reg, x: Result, vc: word, n: word) {
    f.c.Dynamic? ==> c.regs[rc].pinned && m.regs[rc] == if Clobbers(f, x, rc) then n else vc
  }

  /** The state once the result is known, nothing logged but what was held. */
  ghost predicate Computed(f: Fields, s: Source, x: Result, rb: Reg, rc: Reg, c: Jit, m0: Machine, m: Machine, R: Mem, L: seq<(word, word)>) {
    && LogOf(c, m, R) == L
    && GoodBut(c, m0, m, R, if x.kept then -1 else Slot(f.b)) && (!c.pend ==> m.mem == R)
    && ResultOk(x, c, m, ValA(s, R), ValB(s, R), Branches(s, f))
    && (c.pend && !x.kept && !(Pendable(f.b) && c.pendAddr == f.b.val) ==> Good(c, m0, m, R))
    && (x.kept ==> !x.res.Const?)
    && RegB(f.b, c, m, rb, AddrB(s, R))
    && RegC(f, c, m, rc, x, ValC(s, R), Sub(ValB(s, R), ValA(s, R)))
    && (f.c.Known? ==> f.c.val == ValC(s, R))
  }

  lemma ArithmeticOk(c: Jit, s: Source, f: Fields, rb: Reg, m0: Machine, m: Machine, R: Mem) returns (m': Machine)
    requires Whole(c, m0, m, R) && !c.flagsLive && FieldsOk(f, s, c, m, R) && InRange(s.p, R)
    requires RegB(f.b, c, m, rb, AddrB(s, R)) && Arithmetic(c, s, f, rb).Some?
    ensures var (x, rc, c') := Arithmetic(c, s, f, rb).value;
      && Computed(f, s, x, rb, rc, c', m0, m', R, LogOf(c, m, R))
      && c'.movbe == c.movbe && !c'.flagsLive && m'.marks == m.marks
  {
    hide Rd, Wr, Run, Lookup, Good, Whole, OperandA, OperandB, OperandC, FlushPending, Compute, Keeps, KeepsBut;
    if SameWord(f) {
      m' := OperandCOk(c, s, f.c, m0, m, R);
      var (rc, c1) := OperandC(c, s, f.c).value;
      KeepsRest(c, m, c1, m');
      SameWordComputed(c, s, f, rb, rc, c1, m0, m, m', R);
    } else {
      var m1 := OperandAOk(c, s, f.a, m0, m, R);
      var (va, c1) := OperandA(c, s, f.a).value;
      KeepsRest(c, m, c1, m1);
      FieldsKept(f, s, c, m, c1, m1, R);
      KeptVal(c, m, c1, m1, InReg(rb), m.regs[rb]);
      var m2 := OperandBOk(c1, f.b, rb, m0, m1, R, AddrB(s, R));
      var (vb, c2) := OperandB(c1, f.b, rb).value;
      KeepsRest(c1, m1, c2, m2);
      FieldsKept(f, s, c1, m1, c2, m2, R);
      KeptVal(c1, m1, c2, m2, va, ValA(s, R));
      KeptVal(c1, m1, c2, m2, InReg(rb), m1.regs[rb]);
      m' := FinishArithmetic(c2, s, f, rb, va, vb, m0, m2, R);
    }
  }

  lemma SameWordComputed(c: Jit, s: Source, f: Fields, rb: Reg, rc: Reg, c1: Jit, m0: Machine, m: Machine, m1: Machine, R: Mem)
    requires SameWord(f) && FieldsOk(f, s, c, m, R) && Whole(c1, m0, m1, R) && RegB(f.b, c, m, rb, AddrB(s, R)) && Keeps(c, m, c1, m1)
    requires f.c.Dynamic? ==> m1.regs[rc] == ValC(s, R) && c1.regs[rc].pinned
    ensures Computed(f, s, Result(Const(0), Some(true), false), rb, rc, c1, m0, m1, R, LogOf(c1, m1, R))
  {
    hide Rd, Wr, Run, Lookup;
    WeakerEntries(c1, m1, R, Slot(f.b));
  }

  lemma FinishArithmetic(c: Jit, s: Source, f: Fields, rb: Reg, va: CVal, vb: CVal, m0: Machine, m: Machine, R: Mem) returns (m': Machine)
    requires Whole(c, m0, m, R) && !c.flagsLive && FieldsOk(f, s, c, m, R) && InRange(s.p, R)
    requires RegB(f.b, c, m, rb, AddrB(s, R)) && !SameWord(f)
    requires Denotes(va, m, ValA(s, R)) && Pinned(c, va) && Denotes(vb, m, ValB(s, R)) && Pinned(c, vb)
    requires f.b.Dynamic? ==> vb != InReg(rb)
    requires OperandC(c, s, f.c).Some?
    requires
      var (rc, c3) := OperandC(c, s, f.c).value;
      var fl := if FlushFirst(c3, f, va, vb) then FlushPending(c3) else Some(c3);
      va != NoVal && vb != NoVal && fl.Some? && Compute(fl.value, va, vb, f.b, Branches(s, f)).Some?
    ensures
      var (rc, c3) := OperandC(c, s, f.c).value;
      var c4 := (if FlushFirst(c3, f, va, vb) then FlushPending(c3) else Some(c3)).value;
      var (x, c') := Compute(c4, va, vb, f.b, Branches(s, f)).value;
      && Computed(f, s, x, rb, rc, c', m0, m', R, LogOf(c, m, R))
      && c'.movbe == c.movbe && !c'.flagsLive && m'.marks == m.marks
  {
    hide Rd, Wr, Run, Lookup, Good, OperandC, FlushPending, Compute, Keeps;
    var m3 := OperandCOk(c, s, f.c, m0, m, R);
    var (rc, c3) := OperandC(c, s, f.c).value;
    KeepsRest(c, m, c3, m3);
    KeptVal(c, m, c3, m3, va, ValA(s, R));
    KeptVal(c, m, c3, m3, vb, ValB(s, R));
    KeptVal(c, m, c3, m3, InReg(rb), m.regs[rb]);
    var m4, c4 := m3, c3;
    if FlushFirst(c3, f, va, vb) {
      m4 := FlushOk(c3, m0, m3, R);
      c4 := FlushPending(c3).value;
      KeepsRest(c3, m3, c4, m4);
      KeptVal(c3, m3, c4, m4, va, ValA(s, R));
      KeptVal(c3, m3, c4, m4, vb, ValB(s, R));
      KeptVal(c3, m3, c4, m4, InReg(rb), m3.regs[rb]);
      KeptVal(c3, m3, c4, m4, InReg(rc), m3.regs[rc]);
    }
    m' := ComputeOk(c4, va, vb, f.b, Branches(s, f), m0, m4, R, ValA(s, R), ValB(s, R));
    ComputedAll(c4, s, f, rb, rc, va, vb, m0, m4, m', R);
  }

  lemma ComputedAll(c: Jit, s: Source, f: Fields, rb: Reg, rc: Reg, va: CVal, vb: CVal, m0: Machine, m: Machine, m': Machine, R: Mem)
    requires va != NoVal && vb != NoVal && Compute(c, va, vb, f.b, Branches(s, f)).Some?
    requires Whole(c, m0, m, R) && Pinned(c, vb) && (f.b.Dynamic? ==> vb != InReg(rb))
    requires !(va == Const(0) && !vb.Const?) && c.pend ==> Pendable(f.b) && c.pendAddr == f.b.val
    requires RegB(f.b, c, m, rb, AddrB(s, R)) && (f.c.Known? ==> f.c.val == ValC(s, R))
    requires f.c.Dynamic? ==> c.regs[rc].pinned && m.regs[rc] == ValC(s, R)
    requires
      var (x, c') := Compute(c, va, vb, f.b, Branches(s, f)).value;
      && GoodBut(c', m0, m', R, if x.kept then -1 else Slot(f.b)) && KeepsBut(c, m, c', m', Changed(c, vb, f.b, x))
      && MemKept(c, m, c', m', R) && ResultOk(x, c', m', ValA(s, R), ValB(s, R), Branches(s, f))
      && (Branches(s, f) && InPlace(c, vb, f.b) && !x.kept ==> x.res == InReg(vb.r))
      && (Branches(s, f) && !x.kept && x.res.InReg? ==> (InPlace(c, vb, f.b) && x.res == InReg(vb.r)) || !c.regs[x.res.r].pinned)
    ensures Computed(f, s, Compute(c, va, vb, f.b, Branches(s, f)).value.0, rb, rc,
                     Compute(c, va, vb, f.b, Branches(s, f)).value.1, m0, m', R, LogOf(c, m, R))
  {
    hide Rd, Wr, Run, Lookup, Entries, HeldOk, At, LE, Aliased;
    KeptMeansZero(c, va, vb, f.b, Branches(s, f));
  }

  lemma KeptMeansZero(c: Jit, va: CVal, vb: CVal, f: Field, branch: bool)
    requires va != NoVal && vb != NoVal && Compute(c, va, vb, f, branch).Some?
    ensures Compute(c, va, vb, f, branch).value.0.kept <==> va == Const(0) && !vb.Const?
    ensures Compute(c, va, vb, f, branch).value.0.kept ==> Compute(c, va, vb, f, branch).value.0.res == vb
  {
    hide Scratch, ToReg, ResultReg;
  }

  // ------------------------------------------------- the store and the cache

  /** Values and pins stay while the result is stored and cached. */
  ghost predicate Steady(c: Jit, m: Machine, c': Jit, m': Machine) {
    && c'.movbe == c.movbe && c'.flagsLive == c.flagsLive && m'.marks == m.marks && (c.flagsLive ==> m'.fl == m.fl)
    && (forall i | 0 <= i < 11 :: c.regs[i].pinned ==> c'.regs[i].pinned && m'.regs[i] == m.regs[i])
  }

  lemma CacheResultOk(c: Jit, a: word, res: CVal, m0: Machine, m: Machine, R: Mem) returns (m': Machine)
    requires At(c, m0, m) && Entries(c, m, R, a) && OtherHeld(c, m, R, a) && Cacheable(a)
    requires Denotes(res, m, Rd(R, a)) && Pinned(c, res) && (res.Const? && c.pend ==> c.pendAddr == a)
    requires CacheResult(c, a, res).Some?
    ensures var d := CacheResult(c, a, res).value;
      && At(d, m0, m') && Entries(d, m', R, -1) && OtherHeld(d, m', R, a) && Lookup(d, a) != NoVal && Steady(c, m, d, m')
      && (c.pend && c.pendAddr == a ==> m' == m && d.pend && d.pendAddr == a)
      && (!c.pend ==> m' == m && !d.pend)
      && (c.pend && c.pendAddr != a ==> MemKept(c, m, d, m', R))
  {
    hide Rd, Wr, Run, Lookup, SetConst, SetAlias, Bind;
    m' := m;
    match res
    case Const(x) => SetConstOk(c, a, x, m0, m, R);
    case NegReg(r) => m' := SetAliasOk(c, a, r, true, m0, m, R);
    case InReg(r) =>
      if c.regs[r].used && c.regs[r].addr != a {
        m' := SetAliasOk(c, a, r, false, m0, m, R);
      } else {
        BindOk(c, r, a, m0, m, R);
      }
  }

  /** One more store logged, of n at b in place of was: after the others, or in
      place of the last one, which went there too; or none, if nothing changes. */
  predicate LogStep(L: seq<(word, word)>, L': seq<(word, word)>, b: word, was: word, n: word) {
    || (n == was && L' == L)
    || L' == L + [(b, n)]
    || (L != [] && L[|L| - 1].0 == b && L' == L[..|L| - 1] + [(b, n)])
  }

  /** A held-back result: memory is the interpreter's once it is stored. */
  lemma HoldOk(c: Jit, a: word, m0: Machine, m: Machine, R: Mem, n: word)
    requires At(c, m0, m) && Entries(c, m, Wr(R, a, n), -1) && Lookup(c, a) != NoVal && Cacheable(a)
    requires if c.pend then c.pendAddr == a && R == Wr(m.mem, a, Rd(R, a)) else m.mem == R
    ensures Whole(c.(pend := true, pendAddr := a), m0, m, Wr(R, a, n))
    ensures LogStep(LogOf(c, m, R), LogOf(c.(pend := true, pendAddr := a), m, Wr(R, a, n)), a, Rd(R, a), n)
  {
    hide Rd, Wr, Run, Lookup;
    var d := c.(pend := true, pendAddr := a);
    FreeLookup(c, d, a);
    RdWrSame(R, a, n);
    if c.pend {
      WrWrSame(m.mem, a, Rd(R, a), n);
    }
  }

  lemma StorePendable(c: Jit, f: Field, x: Result, m0: Machine, m: Machine, R: Mem, n: word) returns (m': Machine)
    requires Pendable(f) && !x.kept && GoodBut(c, m0, m, R, f.val) && (!c.pend ==> m.mem == R)
    requires Denotes(x.res, m, n) && Pinned(c, x.res)
    requires c.pend && c.pendAddr != f.val ==> Good(c, m0, m, R)
    requires var fl := if c.pend && c.pendAddr != f.val then FlushPending(c) else Some(c);
      fl.Some? && CacheResult(fl.value, f.val, x.res).Some?
    ensures var c1 := (if c.pend && c.pendAddr != f.val then FlushPending(c) else Some(c)).value;
      var d := CacheResult(c1, f.val, x.res).value.(pend := true, pendAddr := f.val);
      && Whole(d, m0, m', Wr(R, f.val, n)) && Steady(c, m, d, m')
      && LogStep(LogOf(c, m, R), LogOf(d, m', Wr(R, f.val, n)), f.val, Rd(R, f.val), n)
  {
    hide Rd, Wr, Run, Lookup, FlushPending, CacheResult;
    var m1, c1 := m, c;
    if c.pend && c.pendAddr != f.val {
      m1 := FlushOk(c, m0, m, R);
      c1 := FlushPending(c).value;
      KeptVal(c, m, c1, m1, x.res, n);
      WeakerEntries(c1, m1, R, f.val);
    }
    Retarget(c1, m1, R, f.val, n);
    RdWrSame(R, f.val, n);
    m' := CacheResultOk(c1, f.val, x.res, m0, m1, Wr(R, f.val, n));
    HoldOk(CacheResult(c1, f.val, x.res).value, f.val, m0, m', R, n);
  }

  /** With A known as 0 there is no store, and B's entry is renewed. */
  lemma StoreKept(c: Jit, f: Field, x: Result, m0: Machine, m: Machine, R: Mem) returns (m': Machine)
    requires Pendable(f) && x.kept && !x.res.Const? && Whole(c, m0, m, R)
    requires Denotes(x.res, m, Rd(R, f.val)) && Pinned(c, x.res) && CacheResult(c, f.val, x.res).Some?
    ensures var d := CacheResult(c, f.val, x.res).value;
      Whole(d, m0, m', R) && Steady(c, m, d, m') && LogOf(d, m', R) == LogOf(c, m, R)
  {
    hide Rd, Wr, Run, Lookup, CacheResult;
    WeakerEntries(c, m, R, f.val);
    m' := CacheResultOk(c, f.val, x.res, m0, m, R);
  }

  lemma StoreNowOk(c: Jit, res: CVal, f: Field, rb: Reg, m0: Machine, m: Machine, R: Mem, n: word, b: word) returns (m': Machine)
    requires Whole(c, m0, m, R) && Denotes(res, m, n) && Pinned(c, res) && RegB(f, c, m, rb, b) && StoreNow(c, res, f, rb).Some?
    ensures var (v, d) := StoreNow(c, res, f, rb).value;
      && Good(d, m0, m', R) && !d.pend && Steady(c, m, d, m') && m'.mem == Wr(R, b, n) && Denotes(v, m', n)
      && m'.log == LogOf(c, m, R) + [(b, n)]
  {
    hide Rd, Wr, Run, Lookup, At, Entries, FlushPending, StoreConst, ToReg, StoreReg;
    var m1 := FlushOk(c, m0, m, R);
    var c1 := FlushPending(c).value;
    KeptVal(c, m, c1, m1, res, n);
    KeptVal(c, m, c1, m1, InReg(rb), b);
    if res.Const? {
      m' := StoreConstOk(c1, n, if f.Known? then Abs(f.val) else Ind(rb), m0, m1, R);
    } else {
      var m2 := ToRegOk(c1, res, m0, m1, R, n);
      var (r, c2) := ToReg(c1, res).value;
      KeptVal(c1, m1, c2, m2, InReg(rb), b);
      m' := StoreRegOk(c2, r, if f.Known? then Abs(f.val) else Ind(rb), m0, m2, R);
      KeptVal(c2, m2, StoreReg(c2, r, if f.Known? then Abs(f.val) else Ind(rb)).value, m', InReg(r), n);
    }
  }

  lemma DropAllOk(c: Jit, m0: Machine, m: Machine, R: Mem)
    requires At(c, m0, m) && !c.pend && m.mem == R
    ensures Whole(CacheDropAll(c), m0, m, R) && SameRest(c, CacheDropAll(c))
  {
    hide Rd, Wr, Run, Lookup;
  }

  /** A store to words that are not cached, when those next to it are dropped. */
  lemma DropAroundOk(c: Jit, a: word, n: word, m0: Machine, m: Machine, R: Mem)
    requires Good(c, m0, m, R) && !c.pend && m.mem == Wr(R, a, n) && a + 16 <= TWO64
    ensures var d := CacheDrop(CacheDrop(c, Low(a)), High(a));
      Whole(d, m0, m, Wr(R, a, n)) && SameRest(c, d)
  {
    hide Rd, Wr, Run, Lookup;
    WeakerEntries(c, m, R, Low(a));
    DropEntries(c, m, R, Low(a));
    var c1 := CacheDrop(c, Low(a));
    WeakerEntries(c1, m, R, High(a));
    DropEntries(c1, m, R, High(a));
    forall b: word | b % 8 == 0 && b != Low(a) && b != High(a)
      ensures Rd(Wr(R, a, n), b) == Rd(R, b)
    {
      RdWrOther(R, a, n, b);
    }
  }

  /** The result is stored, or held back; the words an unaligned store spans
      are left for after the branch. */
  lemma StoreResultOk(c: Jit, x: Result, f: Field, rb: Reg, m0: Machine, m: Machine, R: Mem, n: word, b: word) returns (m': Machine)
    requires GoodBut(c, m0, m, R, if x.kept then -1 else Slot(f)) && (!c.pend ==> m.mem == R)
    requires Denotes(x.res, m, n) && Pinned(c, x.res) && (x.kept ==> n == Rd(R, b) && !x.res.Const?)
    requires c.pend && !x.kept && !(Pendable(f) && c.pendAddr == f.val) ==> Good(c, m0, m, R)
    requires RegB(f, c, m, rb, b) && b + 16 <= TWO64 && StoreResult(c, x, f, rb).Some?
    ensures var (res, d) := StoreResult(c, x, f, rb).value;
      && Steady(c, m, d, m') && LogStep(LogOf(c, m, R), LogOf(d, m', Wr(R, b, n)), b, Rd(R, b), n)
      && if f.Known? && Spans(b) && !x.kept then
           Good(d, m0, m', R) && !d.pend && m'.mem == Wr(R, b, n) && Denotes(res, m', n)
         else Whole(d, m0, m', Wr(R, b, n))
  {
    hide Rd, Wr, Run, Lookup, At, Entries, HeldOk, FlushPending, CacheResult, StoreNow, CacheDropAll, CacheDrop;
    if x.kept {
      WrRd(R, b);
    }
    if Pendable(f) {
      if x.kept {
        m' := StoreKept(c, f, x, m0, m, R);
      } else {
        m' := StorePendable(c, f, x, m0, m, R, n);
      }
    } else if x.kept {
      m' := m;
    } else {
      m' := StoreNowOk(c, x.res, f, rb, m0, m, R, n, b);
      var (res, c1) := StoreNow(c, x.res, f, rb).value;
      if f.Dynamic? {
        DropAllOk(c1, m0, m', Wr(R, b, n)) by { assert At(c1, m0, m'); }
      } else if !Spans(b) {
        DropAroundOk(c1, b, n, m0, m', R);
      }
    }
  }

  // ------------------------------------------------------------ the branch

  /** Left after instruction i by the n-th stub to target, with memory R once the
      stub stored. */
  ghost predicate LeftStub(d: Build, m0: Machine, i: nat, n: nat, R: Mem, target: word, L: seq<(word, word)>) {
    var o := Run(d.c.code, m0);
    && o.Left? && o.x == Stub(n) && n < |d.stubs| && d.stubs[o.x.k].idx == i && o.m.marks == m0.marks
    && Stored(d.stubs[o.x.k].pend, o.m, R) && LoggedAt(d.stubs[o.x.k].pend, o.m) == L
    && target == if d.stubs[o.x.k].dyn then o.m.regs[d.stubs[o.x.k].creg] else d.stubs[o.x.k].target
  }

  lemma LeftStubStays(d: Build, e: Build, m0: Machine, i: nat, n: nat, R: Mem, t: word, L: seq<(word, word)>)
    requires LeftStub(d, m0, i, n, R, t, L) && Extends(d, e)
    ensures LeftStub(e, m0, i, n, R, t, L)
  {
    hide Run, Stored, LoggedAt;
    RunPrefix(d.c.code, e.c.code, m0);
  }

  lemma BranchOutOk(b: Build, s: Source, f: Fields, taken: Option<bool>, rc: Reg, m0: Machine, m: Machine, Q: Mem, R: Mem, c: word, tk: bool)
    requires Good(b.c, m0, m, Q) && Stored(SnapPending(b.c).0, m, R) && m.marks == m0.marks
    requires (taken.Some? ==> taken.value == tk) && (taken.None? && Branches(s, f) ==> LE(m.fl) == tk)
    requires if f.c.Known? then f.c.val == c else m.regs[rc] == c
    ensures var (ended, d) := BranchOut(b, s, f, taken, rc);
      || (tk && LeftStub(d, m0, s.i, |b.stubs|, R, c, LoggedAt(SnapPending(b.c).0, m)))
      || (!ended && Good(d.c, m0, m, Q) && (tk ==> !Branches(s, f) && c == Add(s.p, 24))
          && d.c.pend == b.c.pend && d.c.pendAddr == b.c.pendAddr && d.c.flagsLive == b.c.flagsLive && d.c.movbe == b.c.movbe)
  {
    hide Rd, Wr, Run, Lookup, Stored, LE, Entries, HeldOk, LoggedAt;
    if taken != Some(false) && Branches(s, f) {
      var (p, c1) := SnapPending(b.c);
      SnapGood(b.c, m0, m, Q);
      var op := if taken == Some(true) then Jmp(Stub(|b.stubs|)) else JmpLE(Stub(|b.stubs|));
      EmitOk(c1, op, m0, m);
      FreeLookup(c1, Emit(c1, op), c1.pendAddr);
      if tk {
        assert Exec(op, m) == Left(Stub(|b.stubs|), m);
      } else {
        assert Exec(op, m) == Go(m);
        EmitGood(c1, op, m0, m, Q);
      }
    }
  }

  lemma EmitGood(c: Jit, op: Op, m0: Machine, m: Machine, R: Mem)
    requires Good(c, m0, m, R) && Exec(op, m) == Go(m)
    ensures Good(Emit(c, op), m0, m, R)
  {
    hide Rd, Wr, Run, Exec, Lookup;
    EmitOk(c, op, m0, m);
    FreeLookup(c, Emit(c, op), c.pendAddr);
  }

  lemma SnapGood(c: Jit, m0: Machine, m: Machine, R: Mem)
    requires Good(c, m0, m, R)
    ensures var d := SnapPending(c).1;
      Good(d, m0, m, R) && d.pend == c.pend && d.pendAddr == c.pendAddr && d.flagsLive == c.flagsLive && d.movbe == c.movbe
  {
    hide Rd, Wr, Run, Lookup;
    if c.pend {
      var (v, d) := CacheFind(c, c.pendAddr);
      TouchOk(c, v);
      SameGood(c, d, m0, m, R);
    }
  }

  /** Where the instruction at p goes when its branch is taken. */
  ghost function Target(f: Fields, s: Source, x: Result, rc: Reg, R: Mem): word {
    if Clobbers(f, x, rc) then Sub(ValB(s, R), ValA(s, R)) else ValC(s, R)
  }

  ghost function NewMem(s: Source, R: Mem): Mem { Wr(R, AddrB(s, R), Sub(ValB(s, R), ValA(s, R))) }

  /** Either out by a taken branch, or ready for the instruction after. */
  ghost predicate Concluded(ended: bool, d: Build, s: Source, n: nat, m0: Machine, m: Machine, R: Mem, target: word, L: seq<(word, word)>) {
    || (Taken(ValB(s, R), ValA(s, R)) && LeftStub(d, m0, s.i, n, NewMem(s, R), target, L))
    || (!ended && Whole(d.c, m0, m, NewMem(s, R)) && !d.c.flagsLive && m.marks == m0.marks && LogOf(d.c, m, NewMem(s, R)) == L
        && (Taken(ValB(s, R), ValA(s, R)) ==> target == ValC(s, R) == Add(s.p, 24)))
  }

  lemma ConcludeOk(b: Build, s: Source, f: Fields, rb: Reg, x: Result, rc: Reg, m0: Machine, m: Machine, R: Mem, L: seq<(word, word)>)
    returns (m': Machine, L': seq<(word, word)>)
    requires Computed(f, s, x, rb, rc, b.c, m0, m, R, L) && !b.c.flagsLive && InRange(s.p, R) && m.marks == m0.marks
    requires Conclude(b, s, f, rb, x, rc).Some?
    ensures var (ended, d) := Conclude(b, s, f, rb, x, rc).value;
      Concluded(ended, d, s, |b.stubs|, m0, m', R, Target(f, s, x, rc, R), L') && LogStep(L, L', AddrB(s, R), ValB(s, R), Sub(ValB(s, R), ValA(s, R)))
  {
    hide Rd, Wr, Run, Lookup, At, Entries, HeldOk, StoreResult, BranchOut, UpdateSpanned, Stored, LE, Spans, Good, LeftStub, LogStep;
    var c1 := b.c.(flagsLive := Branches(s, f) && x.taken == None);
    FlagsFree(b.c, c1, m0, m, R);
    var n := Sub(ValB(s, R), ValA(s, R));
    m' := StoreResultOk(c1, x, f.b, rb, m0, m, R, n, AddrB(s, R));
    var (res, c2) := StoreResult(c1, x, f.b, rb).value;
    L' := LogOf(c2, m', NewMem(s, R));
    var c3 := c2.(flagsLive := false);
    var spanned := f.b.Known? && Spans(f.b.val) && !x.kept;
    if spanned {
      FlagsFree(c2, c3, m0, m', R);
      NotHeldNow(c3, m', NewMem(s, R));
      m' := ConcludeSpanned(b.(c := c3), s, f, x, rc, res, m0, m', R);
    } else {
      FlagsFree(c2, c3, m0, m', NewMem(s, R));
      WholeGood(c3, m0, m', NewMem(s, R));
      BranchOutOk(b.(c := c3), s, f, x.taken, rc, m0, m', NewMem(s, R), NewMem(s, R), Target(f, s, x, rc, R), Taken(ValB(s, R), ValA(s, R)));
    }
  }

  lemma WholeGood(c: Jit, m0: Machine, m: Machine, R: Mem)
    requires Whole(c, m0, m, R)
    ensures Good(c, m0, m, R) && Stored(SnapPending(c).0, m, R) && LoggedAt(SnapPending(c).0, m) == LogOf(c, m, R)
  {
    hide Rd, Wr, Run, Lookup, Good;
    SnapOk(c, m0, m, R);
  }

  lemma NotHeldNow(c: Jit, m: Machine, R: Mem)
    requires !c.pend && m.mem == R
    ensures Stored(SnapPending(c).0, m, R) && LoggedAt(SnapPending(c).0, m) == m.log == LogOf(c, m, R)
  {
  }

  lemma FlagsFree(c: Jit, d: Jit, m0: Machine, m: Machine, R: Mem)
    requires d == c.(flagsLive := d.flagsLive)
    ensures forall x :: GoodBut(c, m0, m, R, x) ==> GoodBut(d, m0, m, R, x)
    ensures Good(c, m0, m, R) ==> Good(d, m0, m, R)
  {
    hide Rd, Wr, Run, Lookup;
    FreeLookup(c, d, c.pendAddr);
  }

  lemma ConcludeSpanned(b: Build, s: Source, f: Fields, x: Result, rc: Reg, res: CVal, m0: Machine, m: Machine, R: Mem) returns (m': Machine)
    requires Good(b.c, m0, m, R) && !b.c.pend && !b.c.flagsLive && m.mem == NewMem(s, R) && m.marks == m0.marks
    requires f.b.Known? && f.b.val == AddrB(s, R) && Spans(f.b.val) && InRange(s.p, R)
    requires res != NoVal && Denotes(res, m, Sub(ValB(s, R), ValA(s, R)))
    requires (x.taken.Some? ==> x.taken.value == Taken(ValB(s, R), ValA(s, R)))
    requires (x.taken.None? && Branches(s, f) ==> LE(m.fl) == Taken(ValB(s, R), ValA(s, R)))
    requires if f.c.Known? then f.c.val == Target(f, s, x, rc, R) == ValC(s, R) else m.regs[rc] == Target(f, s, x, rc, R)
    requires var (ended, d) := BranchOut(b, s, f, x.taken, rc); !ended ==> UpdateSpanned(d.c, f.b.val, res).Some?
    ensures var (ended, d) := BranchOut(b, s, f, x.taken, rc);
      var e := if ended then d else d.(c := UpdateSpanned(d.c, f.b.val, res).value);
      Concluded(ended, e, s, |b.stubs|, m0, m', R, Target(f, s, x, rc, R), m.log)
  {
    hide Rd, Wr, Run, Lookup, BranchOut, UpdateSpanned, Stored, LE, Spans, Good, LeftStub;
    var target, tk := Target(f, s, x, rc, R), Taken(ValB(s, R), ValA(s, R));
    NotHeldNow(b.c, m, NewMem(s, R));
    BranchOutOk(b, s, f, x.taken, rc, m0, m, R, NewMem(s, R), target, tk);
    var (ended, d) := BranchOut(b, s, f, x.taken, rc);
    m' := m;
    if tk && LeftStub(d, m0, s.i, |b.stubs|, NewMem(s, R), target, m.log) {
      if !ended {
        LeftStubStays(d, d.(c := UpdateSpanned(d.c, f.b.val, res).value), m0, s.i, |b.stubs|, NewMem(s, R), target, m.log);
      }
    } else {
      m' := UpdateSpannedOk(d.c, f.b.val, res, m0, m, R, Sub(ValB(s, R), ValA(s, R)));
    }
  }

  // ------------------------------------------------- the whole instruction

  /** The register a dynamic C was cached in is where the result was computed:
      the instruction stores to its own C field. */
  predicate ClobbersC(b: Build, s: Source, k: Checks) {
    var (f, c0) := ReadFields(b.c, s);
    var cs := CheckStore(b.(c := c0), s, f.b, k);
    cs.Some? &&
    var (rb, b1) := cs.value;
    var ar := Arithmetic(b1.c, s, f, rb);
    ar.Some? && Clobbers(f, ar.value.0, ar.value.1)
  }

  /** What running the instruction's code can come to. */
  ghost predicate InsnDone(ended: bool, d: Build, s: Source, n: nat, m0: Machine, m: Machine, R: Mem, clobbers: bool,
                           L: seq<(word, word)>, L': seq<(word, word)>) {
    var target := if clobbers then Sub(ValB(s, R), ValA(s, R)) else ValC(s, R);
    || LeftSmc(d, m0, s.i, R, AddrB(s, R), L)
    || (Unmarked(AddrB(s, R), m0.marks) && Concluded(ended, d, s, n, m0, m, R, target, L')
        && LogStep(L, L', AddrB(s, R), ValB(s, R), Sub(ValB(s, R), ValA(s, R))))
  }

  /** Translated code for one instruction leaves, or goes on, just as the
      interpreter's step: it leaves before it when its store would hit
      translated code, after it when the branch is taken, to C, or to the
      result if that overwrote C's register. */
  lemma TranslateInsnOk(b: Build, s: Source, k: Checks, m0: Machine, m: Machine, R: Mem) returns (m': Machine, L': seq<(word, word)>)
    requires Whole(b.c, m0, m, R) && !b.c.flagsLive && StaticOk(s, R) && InRange(s.p, R)
    requires ChecksHold(k, m.marks) && PagesCover(m.marks) && m.marks == m0.marks
    requires TranslateInsn(b, s, k).Some?
    ensures var (ended, d) := TranslateInsn(b, s, k).value;
      InsnDone(ended, d, s, |b.stubs|, m0, m', R, ClobbersC(b, s, k), LogOf(b.c, m, R), L')
  {
    hide Rd, Wr, Run, Whole, LogOf, LogStep, ReadFields, CheckStore, Arithmetic, Conclude, LeftSmc, LeftStub, FieldsOk, FieldOk, Computed,
      ChecksHold, PagesCover, Keeps, StaticOk, Unmarked;
    var (f, c0) := ReadFields(b.c, s);
    ReadFieldsOk(b.c, s, m0, m, R);
    var b0 := b.(c := c0);
    FieldB(f, s, c0, m, R);
    var m1 := CheckStoreOk(b0, s, f.b, k, m0, m, R);
    var (rb, b1) := CheckStore(b0, s, f.b, k).value;
    var (x, rc, c2) := Arithmetic(b1.c, s, f, rb).value;
    var b2 := b1.(c := c2);
    var L := LogOf(b.c, m, R);
    SameLog(b.c, c0, m, R);
    if LeftSmc(b1, m0, s.i, R, AddrB(s, R), L) {
      LeftSmcStays(b1, TranslateInsn(b, s, k).value.1, m0, s.i, R, AddrB(s, R), L);
      m', L' := m, L;
    } else {
      KeepsRest(c0, m, b1.c, m1);
      FieldsKept(f, s, c0, m, b1.c, m1, R);
      RegBOk(f, s, b1.c, m1, rb, R);
      CheckStubs(b0, s, f.b, k);
      var m2 := ArithmeticOk(b1.c, s, f, rb, m0, m1, R);
      m', L' := ConcludeOk(b2, s, f, rb, x, rc, m0, m2, R, L);
    }
  }

  lemma CheckStubs(b: Build, s: Source, f: Field, k: Checks)
    requires CheckStore(b, s, f, k).Some?
    ensures CheckStore(b, s, f, k).value.1.stubs == b.stubs
  {
    hide FieldReg, Scratch, SnapPending;
  }

  lemma SameLog(c: Jit, d: Jit, m: Machine, R: Mem)
    requires d.pend == c.pend && d.pendAddr == c.pendAddr
    ensures LogOf(d, m, R) == LogOf(c, m, R)
  {
  }

  lemma FieldB(f: Fields, s: Source, c: Jit, m: Machine, R: Mem)
    requires FieldsOk(f, s, c, m, R)
    ensures FieldOk(f.b, c, m, Add(s.p, 8), Rd(R, Add(s.p, 8)))
  {
    hide Rd;
  }

  lemma RegBOk(f: Fields, s: Source, c: Jit, m: Machine, rb: Reg, R: Mem)
    requires FieldsOk(f, s, c, m, R) && (f.b.Dynamic? ==> m.regs[rb] == AddrB(s, R) && c.regs[rb].pinned)
    ensures RegB(f.b, c, m, rb, AddrB(s, R))
  {
    hide Rd;
  }
}
