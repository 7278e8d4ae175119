/** The operands, the result, and the flags of a translated instruction. */
module ResultProofs {
  import opened Options
  import opened Words
  import opened Bits
  import opened Memory
  import opened Subleq
  import opened X86
  import opened RegCache
  import opened CacheProofs
  import opened Operands
  import opened OperandProofs
  import opened Insn
  import opened InsnProofs

  /** Pins and values stay, but for the value of register e. */
  ghost predicate KeepsBut(c: Jit, m: Machine, c': Jit, m': Machine, e: int) {
    && c'.movbe == c.movbe && c'.flagsLive == c.flagsLive && m'.marks == m.marks
    && (forall i | 0 <= i < 11 :: c.regs[i].pinned ==> c'.regs[i].pinned && (i != e ==> m'.regs[i] == m.regs[i]))
  }

  lemma LoadThroughOk(c: Jit, ra: Reg, m0: Machine, m: Machine, R: Mem) returns (m': Machine)
    requires Whole(c, m0, m, R) && c.regs[ra].pinned && LoadThrough(c, ra).Some?
    ensures var (v, c') := LoadThrough(c, ra).value;
      && Whole(c', m0, m', R) && Keeps(c, m, c', m') && !c'.pend && LogKept(c, m, c', m', R)
      && Denotes(v, m', Rd(R, m.regs[ra])) && Pinned(c', v)
      && v.InReg? && Free(c', v.r) && !c.regs[v.r].pinned
  {
    hide Rd, Wr, Run, Lookup, FlushPending, Scratch, LoadMem, At, Entries;
    var m1 := FlushOk(c, m0, m, R);
    var c1 := FlushPending(c).value;
    var m2 := ScratchOk(c1, m0, m1, R);
    var (r, c2) := Scratch(c1).value;
    m' := LoadMemOk(c2, r, Ind(ra), m0, m2, R);
  }


  lemma CheckStoreOk(b: Build, s: Source, f: Field, k: Checks, m0: Machine, m: Machine, R: Mem) returns (m': Machine)
    requires Whole(b.c, m0, m, R) && !b.c.flagsLive && FieldOk(f, b.c, m, Add(s.p, 8), Rd(R, Add(s.p, 8)))
    requires ChecksHold(k, m.marks) && PagesCover(m.marks) && m.marks == m0.marks
    requires s.p % 8 == 0 && s.p + 48 <= TWO64 && Rd(R, Add(s.p, 8)) + 16 <= TWO64 && CheckStore(b, s, f, k).Some?
    ensures var (rb, d) := CheckStore(b, s, f, k).value;
      var B := Rd(R, Add(s.p, 8));
      || LeftSmc(d, m0, s.i, R, B, LogOf(b.c, m, R))
      || (Whole(d.c, m0, m', R) && Keeps(b.c, m, d.c, m') && LogKept(b.c, m, d.c, m', R) && Unmarked(B, m.marks)
          && (f.Dynamic? ==> m'.regs[rb] == B && d.c.regs[rb].pinned))
  {
    hide Rd, Wr, Run, Whole, CheckStatic, CheckDynamic, FieldReg, Keeps, ChecksHold, PagesCover, LeftSmc, Unmarked;
    if f.Known? {
      m' := CheckStaticOk(b, f.val, s.i, k, m0, m, R);
    } else {
      var m1 := FieldRegOk(b.c, f.v, Add(s.p, 8), true, m0, m, R);
      var (rb, c1) := FieldReg(b.c, f.v, Add(s.p, 8), true).value;
      KeepsRest(b.c, m, c1, m1);
      var b1 := b.(c := c1);
      m' := CheckDynamicOk(b1, rb, s.i, m0, m1, R);
      var d := CheckDynamic(b1, rb, s.i).value;
      if !LeftSmc(d, m0, s.i, R, m1.regs[rb], LogOf(b.c, m, R)) {
        KeepsTrans(b.c, m, c1, m1, d.c, m');
        KeptVal(c1, m1, d.c, m', InReg(rb), m1.regs[rb]);
      }
    }
  }

  lemma OperandAOk(c: Jit, s: Source, f: Field, m0: Machine, m: Machine, R: Mem) returns (m': Machine)
    requires Whole(c, m0, m, R) && !c.flagsLive && FieldOk(f, c, m, s.p, Rd(R, s.p)) && OperandA(c, s, f).Some?
    requires s.p % 8 == 0 && s.p + 48 <= TWO64 && Rd(R, s.p) + 16 <= TWO64
    ensures var (v, c') := OperandA(c, s, f).value;
      && Whole(c', m0, m', R) && Keeps(c, m, c', m') && LogKept(c, m, c', m', R)
      && Denotes(v, m', Rd(R, Rd(R, s.p))) && Pinned(c', v)
  {
    hide Rd, Wr, Run, Whole, GetStatic, FieldReg, LoadThrough, Keeps;
    if f.Known? {
      m' := GetStaticOk(c, f.val, m0, m, R);
    } else {
      var m1 := FieldRegOk(c, f.v, s.p, true, m0, m, R);
      var (ra, c1) := FieldReg(c, f.v, s.p, true).value;
      m' := LoadThroughOk(c1, ra, m0, m1, R);
      KeepsTrans(c, m, c1, m1, LoadThrough(c1, ra).value.1, m');
    }
  }

  lemma OperandBOk(c: Jit, f: Field, rb: Reg, m0: Machine, m: Machine, R: Mem, b: word) returns (m': Machine)
    requires Whole(c, m0, m, R) && !c.flagsLive && OperandB(c, f, rb).Some? && b + 16 <= TWO64
    requires if f.Known? then f.val == b else m.regs[rb] == b && c.regs[rb].pinned
    ensures var (v, c') := OperandB(c, f, rb).value;
      && Whole(c', m0, m', R) && Keeps(c, m, c', m') && LogKept(c, m, c', m', R)
      && Denotes(v, m', Rd(R, b)) && Pinned(c', v)
      && (f.Dynamic? ==> v.InReg? && !c.regs[v.r].pinned)
  {
    hide Rd, Wr, Run, Whole, GetStatic, LoadThrough, Keeps;
    if f.Known? {
      m' := GetStaticOk(c, b, m0, m, R);
    } else {
      m' := LoadThroughOk(c, rb, m0, m, R);
    }
  }

  lemma OperandCOk(c: Jit, s: Source, f: Field, m0: Machine, m: Machine, R: Mem) returns (m': Machine)
    requires Whole(c, m0, m, R) && FieldOk(f, c, m, Add(s.p, 16), Rd(R, Add(s.p, 16))) && OperandC(c, s, f).Some?
    requires s.p % 8 == 0 && s.p + 48 <= TWO64
    ensures var (rc, c') := OperandC(c, s, f).value;
      && Whole(c', m0, m', R) && Keeps(c, m, c', m') && LogKept(c, m, c', m', R)
      && (f.Dynamic? ==> m'.regs[rc] == Rd(R, Add(s.p, 16)) && c'.regs[rc].pinned)
      && (f.Dynamic? && !f.v.InReg? ==> !c.regs[rc].pinned)
      && (f.Dynamic? && f.v.InReg? ==> rc == f.v.r && c' == c && m' == m)
  {
    hide Rd, Wr, Run, Whole, FieldReg;
    m' := m;
    if f.Dynamic? {
      m' := FieldRegOk(c, f.v, Add(s.p, 16), false, m0, m, R);
    }
  }

  // ------------------------------------------------------------ the result

  /** Nothing stands for register r but the word at x. */
  predicate OnlyFor(c: Jit, r: Reg, x: int) {
    (c.regs[r].used ==> c.regs[r].addr == x) && forall i | 0 <= i < 16 :: c.aliases[i].used ==> c.aliases[i].reg != r
  }

  lemma KeepsOnly(c: Jit, m: Machine, c': Jit, m': Machine, r: Reg, x: int)
    requires Keeps(c, m, c', m') && c.regs[r].pinned && OnlyFor(c, r, x)
    ensures OnlyFor(c', r, x)
  {
  }

  /** The word whose entry the result replaces, if any. */
  function Slot(f: Field): int { if Pendable(f) then f.val else -1 }

  ghost predicate GoodBut(c: Jit, m0: Machine, m: Machine, R: Mem, x: int) {
    At(c, m0, m) && Entries(c, m, R, x) && HeldOk(c, m, R)
  }

  lemma ResultRegOk(c: Jit, vb: CVal, f: Field, m0: Machine, m: Machine, R: Mem, B: word) returns (m': Machine)
    requires Good(c, m0, m, R) && !c.flagsLive && Denotes(vb, m, B) && Pinned(c, vb) && ResultReg(c, vb, f).Some?
    ensures var (rr, c') := ResultReg(c, vb, f).value;
      && Good(c', m0, m', R) && Keeps(c, m, c', m') && MemKept(c, m, c', m', R)
      && m'.regs[rr] == B && c'.regs[rr].pinned && OnlyFor(c', rr, Slot(f))
      && (if InPlace(c, vb, f) then rr == vb.r && c' == c && m' == m else !c.regs[rr].pinned)
  {
    hide Rd, Wr, Run, Lookup, Scratch, ToReg, At, HeldOk;
    if InPlace(c, vb, f) {
      m' := m;
    } else if vb.InReg? {
      m' := CopyOk(c, vb.r, m0, m, R);
    } else {
      m' := ToRegOk(c, vb, m0, m, R, B);
    }
  }

  /** A copy of register s in a new one. */
  lemma CopyOk(c: Jit, s: Reg, m0: Machine, m: Machine, R: Mem) returns (m': Machine)
    requires Good(c, m0, m, R) && c.regs[s].pinned && Scratch(c).Some?
    ensures var (r, c1) := Scratch(c).value;
      var c' := Emit(c1, MovRR(r, s));
      && Good(c', m0, m', R) && Keeps(c, m, c', m') && MemKept(c, m, c', m', R)
      && m'.regs[r] == m.regs[s] && c'.regs[r].pinned && Free(c', r) && !c.regs[r].pinned
  {
    hide Rd, Wr, Run, Lookup, Scratch, At, HeldOk, Entries;
    var m1 := ScratchOk(c, m0, m, R);
    var (r, c1) := Scratch(c).value;
    m' := Set(m1, r, m1.regs[s]);
    EmitFree(c1, MovRR(r, s), m0, m1, R, r, m');
  }

  lemma EmitOnly(c: Jit, op: Op, m0: Machine, m: Machine, R: Mem, r: Reg, x: int, m': Machine)
    requires Good(c, m0, m, R) && OnlyFor(c, r, x) && Exec(op, m) == Go(m')
    requires m' == m.(regs := m.regs[r := m'.regs[r]], fl := m'.fl)
    ensures GoodBut(Emit(c, op), m0, m', R, x) && GoodBut(Pin(Emit(c, op), r), m0, m', R, x)
  {
    hide Rd, Wr, Exec, Run, Lookup;
    EmitOk(c, op, m0, m);
    FreeLookup(c, Emit(c, op), c.pendAddr);
    PinLookup(Emit(c, op), r, c.pendAddr);
  }

  /** What the code computed, for B - A = n. */
  ghost predicate ResultOk(x: Result, c: Jit, m: Machine, A: word, B: word, branch: bool) {
    && Denotes(x.res, m, Sub(B, A)) && Pinned(c, x.res)
    && (x.kept ==> A == 0)
    && (x.taken.Some? ==> x.taken.value == Taken(B, A))
    && (x.taken.None? && branch ==> LE(m.fl) == Taken(B, A))
  }

  /** The register of B, when the result is computed in place of it. */
  function Changed(c: Jit, vb: CVal, f: Field, x: Result): int { if InPlace(c, vb, f) && !x.kept then vb.r else -1 }

  lemma ComputeOk(c: Jit, va: CVal, vb: CVal, f: Field, branch: bool, m0: Machine, m: Machine, R: Mem, A: word, B: word) returns (m': Machine)
    requires Good(c, m0, m, R) && !c.flagsLive && Denotes(va, m, A) && Pinned(c, va) && Denotes(vb, m, B) && Pinned(c, vb)
    requires Compute(c, va, vb, f, branch).Some?
    ensures var (x, c') := Compute(c, va, vb, f, branch).value;
      && GoodBut(c', m0, m', R, if x.kept then -1 else Slot(f)) && KeepsBut(c, m, c', m', Changed(c, vb, f, x))
      && MemKept(c, m, c', m', R) && ResultOk(x, c', m', A, B, branch)
      && (branch && InPlace(c, vb, f) && !x.kept ==> x.res == InReg(vb.r))
      && (branch && !x.kept && x.res.InReg? ==> (InPlace(c, vb, f) && x.res == InReg(vb.r)) || !c.regs[x.res.r].pinned)
  {
    hide Rd, Wr, Run, Lookup, Scratch, ToReg, ResultReg, Good, GoodBut, Slot, Keeps, MemKept, LE;
    if va.Const? && vb.Const? {
      m' := m;
      GoodIsGoodBut(c, m0, m, R, Slot(f));
      MemKeptSelf(c, m, R);
    } else if va == Const(0) {
      m' := ComputeKept(c, vb, branch, m0, m, R, B);
    } else if vb == Const(0) && !branch {
      m' := m;
      GoodIsGoodBut(c, m0, m, R, Slot(f));
      MemKeptSelf(c, m, R);
    } else if va.NegReg? && !vb.NegReg? && !branch {
      m' := ComputeAdd(c, va, vb, f, m0, m, R, A, B);
    } else if vb == Const(0) {
      m' := ComputeNeg(c, va, vb, f, m0, m, R, A);
    } else {
      m' := ComputeSub(c, va, vb, f, m0, m, R, A, B);
    }
  }

  lemma GoodIsGoodBut(c: Jit, m0: Machine, m: Machine, R: Mem, x: int)
    requires Good(c, m0, m, R)
    ensures GoodBut(c, m0, m, R, x)
  {
    hide Rd;
    WeakerEntries(c, m, R, x);
  }

  lemma MemKeptSelf(c: Jit, m: Machine, R: Mem)
    ensures MemKept(c, m, c, m, R)
  {
  }

  lemma ComputeKept(c: Jit, vb: CVal, branch: bool, m0: Machine, m: Machine, R: Mem, B: word) returns (m': Machine)
    requires Good(c, m0, m, R) && !c.flagsLive && Denotes(vb, m, B) && Pinned(c, vb) && (branch ==> ToReg(c, vb).Some?)
    ensures
      var c' := if branch then Emit(ToReg(c, vb).value.1, TestRR(ToReg(c, vb).value.0)) else c;
      && GoodBut(c', m0, m', R, -1) && KeepsBut(c, m, c', m', -1) && MemKept(c, m, c', m', R)
      && Denotes(vb, m', B) && Pinned(c', vb) && (branch ==> LE(m'.fl) == Taken(B, 0))
  {
    hide Rd, Wr, Run, Lookup, ToReg;
    m' := m;
    if branch {
      var m1 := ToRegOk(c, vb, m0, m, R, B);
      var (t, c1) := ToReg(c, vb).value;
      m' := m1.(fl := TestFlags(B));
      EmitOk(c1, TestRR(t), m0, m1);
      FreeLookup(c1, Emit(c1, TestRR(t)), c1.pendAddr);
      SubFlagsTellOrder(B, 0);
    }
  }

  lemma ComputeAdd(c: Jit, va: CVal, vb: CVal, f: Field, m0: Machine, m: Machine, R: Mem, A: word, B: word) returns (m': Machine)
    requires Good(c, m0, m, R) && !c.flagsLive && Denotes(va, m, A) && Pinned(c, va) && Denotes(vb, m, B) && Pinned(c, vb)
    requires !va.Const? && va.NegReg? && !vb.NegReg? && Compute(c, va, vb, f, false).Some? && va != Const(0) && vb != Const(0)
    ensures var (x, c') := Compute(c, va, vb, f, false).value;
      && GoodBut(c', m0, m', R, Slot(f)) && KeepsBut(c, m, c', m', Changed(c, vb, f, x))
      && MemKept(c, m, c', m', R) && ResultOk(x, c', m', A, B, false)
  {
    hide Rd, Wr, Run, Lookup, Scratch, ToReg, ResultReg, Good, GoodBut, Slot, LE;
    var m1: Machine;
    var rr: Reg, c1: Jit;
    if f.Dynamic? && vb.InReg? {
      m1 := CopyOk(c, vb.r, m0, m, R);
      var (r, c0) := Scratch(c).value;
      rr, c1 := r, Emit(c0, MovRR(r, vb.r));
      FreeOnly(c1, rr, Slot(f));
    } else {
      m1 := ResultRegOk(c, vb, f, m0, m, R, B);
      rr, c1 := ResultReg(c, vb, f).value.0, ResultReg(c, vb, f).value.1;
    }
    var n := Add(B, m1.regs[va.r]);
    AddNegation(B, m.regs[va.r]);
    m' := SetF(m1, rr, n, AddFlags(B, m1.regs[va.r]));
    EmitOnly(c1, AddRR(rr, va.r), m0, m1, R, rr, Slot(f), m');
  }

  lemma FreeOnly(c: Jit, r: Reg, x: int)
    requires Free(c, r)
    ensures OnlyFor(c, r, x)
  {
  }

  lemma AddNegation(b: word, r: word)
    ensures Add(b, r) == Sub(b, Neg(r))
  {
  }

  lemma ComputeNeg(c: Jit, va: CVal, vb: CVal, f: Field, m0: Machine, m: Machine, R: Mem, A: word) returns (m': Machine)
    requires Good(c, m0, m, R) && !c.flagsLive && Denotes(va, m, A) && Pinned(c, va)
    requires !va.Const? && vb == Const(0) && Compute(c, va, vb, f, true).Some?
    ensures var (x, c') := Compute(c, va, vb, f, true).value;
      && GoodBut(c', m0, m', R, Slot(f)) && KeepsBut(c, m, c', m', Changed(c, vb, f, x))
      && MemKept(c, m, c', m', R) && ResultOk(x, c', m', A, 0, true) && !x.kept
      && x.res.InReg? && !c.regs[x.res.r].pinned
  {
    hide Rd, Wr, Run, Lookup, Scratch, ToReg, Good, GoodBut, Slot, LE;
    var m1 := ToRegOk(c, va, m0, m, R, A);
    var (r, c1) := ToReg(c, va).value;
    var m2, rr, c2 := m1, r, c1;
    if va.InReg? {
      m2 := CopyOk(c1, r, m0, m1, R);
      var (r2, c0) := Scratch(c1).value;
      rr, c2 := r2, Emit(c0, MovRR(r2, r));
    }
    FreeOnly(c2, rr, Slot(f));
    m' := SetF(m2, rr, Neg(A), SubFlags(0, A));
    EmitOnly(c2, NegR(rr), m0, m2, R, rr, Slot(f), m');
    SubFlagsTellOrder(0, A);
  }

  lemma ComputeSub(c: Jit, va: CVal, vb: CVal, f: Field, m0: Machine, m: Machine, R: Mem, A: word, B: word) returns (m': Machine)
    requires Good(c, m0, m, R) && !c.flagsLive && Denotes(va, m, A) && Pinned(c, va) && Denotes(vb, m, B) && Pinned(c, vb)
    requires ResultReg(c, vb, f).Some? && ToReg(ResultReg(c, vb, f).value.1, va).Some?
    ensures var (rr, c1) := ResultReg(c, vb, f).value;
      var (ra, c2) := ToReg(c1, va).value;
      var c' := Pin(Emit(c2, SubRR(rr, ra)), rr);
      && GoodBut(c', m0, m', R, Slot(f)) && KeepsBut(c, m, c', m', if InPlace(c, vb, f) then vb.r else -1)
      && MemKept(c, m, c', m', R) && m'.regs[rr] == Sub(B, A) && LE(m'.fl) == Taken(B, A)
      && (if InPlace(c, vb, f) then rr == vb.r else !c.regs[rr].pinned)
  {
    hide Rd, Wr, Run, Lookup, Scratch, ToReg, ResultReg, Good, GoodBut, Slot, LE;
    var m1 := ResultRegOk(c, vb, f, m0, m, R, B);
    var (rr, c1) := ResultReg(c, vb, f).value;
    var m2 := ToRegOk(c1, va, m0, m1, R, A);
    var (ra, c2) := ToReg(c1, va).value;
    KeepsOnly(c1, m1, c2, m2, rr, Slot(f));
    m' := SetF(m2, rr, Sub(B, A), SubFlags(B, A));
    EmitOnly(c2, SubRR(rr, ra), m0, m2, R, rr, Slot(f), m');
    SubFlagsTellOrder(B, A);
  }
}
