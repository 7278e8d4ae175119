/** Exactly which instructions go wrong that store to their own C, told from the
    cache they start with. */
module OwnExact {
  import opened Options
  import opened Words
  import W = Words
  import opened Memory
  import opened Subleq
  import opened X86
  import opened RegCache
  import opened CacheProofs
  import opened Operands
  import O = OperandProofs
  import opened Insn
  import opened InsnProofs
  import opened ResultProofs
  import opened InsnCorrect
  import opened OwnC
  import opened OneEntry
  import opened Ledger
  import opened LedgerProofs
  import opened LedgerOperands
  import opened LedgerInsn
  import Enough

  // ------------------------------------------------------------ the condition

  /** What is known of the field at a when translating. */
  function KnownAs(c: Jit, a: word, dyn: bool, val: word): Option<word> {
    if !dyn then Some(val) else match Lookup(c, a) { case Const(v) => Some(v) case _ => None }
  }

  /** The word at a is in register r, and nothing else is. */
  predicate Sole(c: Jit, r: Reg, a: word) { c.regs[r].used && c.regs[r].addr == a && !Aliased(c, r) }

  /** The instruction is known to store to its own C, which is read at run time
      and in a register that has nothing else; A is not known to be that word. */
  predicate OwnInReg(c: Jit, s: Source) {
    var q := Add(s.p, 16);
    && s.dc && KnownAs(c, Add(s.p, 8), s.db, s.fb) == Some(q) && KnownAs(c, s.p, s.da, s.fa) != Some(q)
    && exists r: Reg :: Sole(c, r, q)
  }

  // --------------------------------------------------- reading the fields

  lemma UnpinLookup(c: Jit, a: word)
    ensures Lookup(UnpinAll(c), a) == Lookup(c, a)
  {
    SameEntries2(c, UnpinAll(c), a);
  }

  lemma ReadKnown(c: Jit, a: word, dyn: bool, val: word, b: word)
    ensures var (f, d) := ReadField(c, a, dyn, val);
      && Lookup(d, b) == Lookup(c, b) && (KnownAs(c, a, dyn, val) == if f.Known? then Some(f.val) else None)
      && (f.Dynamic? ==> f.v == Lookup(c, a) && dyn)
      && d.aliases == c.aliases && forall r: Reg :: d.regs[r].used == c.regs[r].used && d.regs[r].addr == c.regs[r].addr
  {
    hide Lookup;
    var (_, d) := ReadField(c, a, dyn, val);
    SameEntries2(c, d, b);
  }

  /** The fields as the cache at the beginning has them. */
  lemma ReadsKnown(c: Jit, s: Source)
    ensures var (f, d) := ReadFields(c, s);
      && KnownAs(c, s.p, s.da, s.fa) == (if f.a.Known? then Some(f.a.val) else None)
      && KnownAs(c, Add(s.p, 8), s.db, s.fb) == (if f.b.Known? then Some(f.b.val) else None)
      && (f.c.Dynamic? ==> s.dc && f.c.v == Lookup(c, Add(s.p, 16))) && (f.c.Known? && s.dc ==> Lookup(c, Add(s.p, 16)).Const?)
      && (forall r: Reg :: Sole(d, r, Add(s.p, 16)) == Sole(c, r, Add(s.p, 16))) && d.aliases == c.aliases
      && forall r: Reg :: d.regs[r].used == c.regs[r].used && d.regs[r].addr == c.regs[r].addr
  {
    hide Lookup, ReadField;
    var c0 := UnpinAll(c);
    var (_, c1) := ReadField(c0, s.p, s.da, s.fa);
    var (_, c2) := ReadField(c1, Add(s.p, 8), s.db, s.fb);
    UnpinLookup(c, s.p);
    UnpinLookup(c, Add(s.p, 8));
    UnpinLookup(c, Add(s.p, 16));
    ReadKnown(c0, s.p, s.da, s.fa, Add(s.p, 8));
    ReadKnown(c0, s.p, s.da, s.fa, Add(s.p, 16));
    ReadKnown(c1, Add(s.p, 8), s.db, s.fb, Add(s.p, 16));
    ReadKnown(c2, Add(s.p, 16), s.dc, s.fc, 0);
    AliasedSame(c, ReadFields(c, s).1);
  }

  // ------------------------------------------------- up to the result

  /** The pinned registers have what they had, each time; and no word has two
      entries. */
  ghost predicate Same(c: Jit, d: Jit) { PinSame(c, d) && Single(d) }

  lemma SameThen(z: Jit, L: Ledger, c0: Jit, c: Jit, L1: Ledger, d: Jit)
    requires PinSame(c0, c) && Moves(z, L, c, L1, d)
    ensures Same(c0, d)
  {
    hide Rep, PinSame;
    PinSameTrans(c0, c, d);
    RepSingle(z, L1, d);
  }

  /** Through the check of the store, the operands, and the held-back store. */
  lemma SameUpTo(b: Build, s: Source, k: Checks)
    requires Ready(b.c)
    requires var (f, c0) := ReadFields(b.c, s);
      var o := CheckStore(b.(c := c0), s, f.b, k); o.Some? && Arithmetic(o.value.1.c, s, f, o.value.0).Some? && !SameWord(f)
    ensures var (f, c0) := ReadFields(b.c, s);
      var (rb, b1) := CheckStore(b.(c := c0), s, f.b, k).value;
      var (va, c1) := OperandA(b1.c, s, f.a).value;
      var (vb, c2) := OperandB(c1, f.b, rb).value;
      var (rc, c3) := OperandC(c2, s, f.c).value;
      var c4 := (if FlushFirst(c3, f, va, vb) then FlushPending(c3) else Some(c3)).value;
      Same(c0, c1) && Same(c0, c2) && Same(c0, c3) && Same(c0, c4) && PinSame(c3, c4)
  {
    hide Rep, PinSame, ReadFields, Opening, UnpinAll, CheckStore, Checked, KeepFields, FieldHas, Single, LruOk, ForA, ForB, ForC;
    hide OperandA, OperandB, OperandC, Flushed, FlushPending, FlushFirst, Compute, Alike;
    var z := b.c;
    OpeningRep(z);
    BegunAt(z);
    ReadFieldsSim(z, Opening(z), z, s);
    var (f, c0) := ReadFields(z, s);
    var L0 := KeepFields(Opening(z), f);
    CheckStoreSim(z, L0, b.(c := c0), s, f.b, k);
    var L1 := Checked(z, L0, s, f.b, k).value;
    var (rb, b1) := CheckStore(b.(c := c0), s, f.b, k).value;
    MovesRep(z, L0, c0, L1, b1.c);
    FieldHasKept(z, c0, b1.c, f.a, s.p);
    FieldHasKept(z, c0, b1.c, f.c, Add(s.p, 16));
    ForASim(z, L1, b1.c, s, f.a);
    var L2 := ForA(z, L1, s, f.a).value.1;
    var (va, c1) := OperandA(b1.c, s, f.a).value;
    MovesRep(z, L1, b1.c, L2, c1);
    SameThen(z, L1, c0, b1.c, L2, c1);
    FieldHasKept(z, b1.c, c1, f.c, Add(s.p, 16));
    ForBSim(z, L2, c1, f.b, rb);
    var L3 := ForB(z, L2, f.b).value.1;
    var (vb, c2) := OperandB(c1, f.b, rb).value;
    MovesRep(z, L2, c1, L3, c2);
    SameThen(z, L2, c0, c1, L3, c2);
    FieldHasKept(z, c1, c2, f.c, Add(s.p, 16));
    ForCSim(z, L3, c2, s, f.c);
    var L4 := ForC(z, L3, s, f.c).value;
    var (rc, c3) := OperandC(c2, s, f.c).value;
    MovesRep(z, L3, c2, L4, c3);
    SameThen(z, L3, c0, c2, L4, c3);
    FlushSim(z, L4, c3);
    PinSelf(c3);
    if FlushFirst(c3, f, va, vb) {
      SameThen(z, L4, c0, c3, Flushed(z, L4).value, FlushPending(c3).value);
    }
  }

  lemma BegunAt(c: Jit)
    ensures Begun(Opening(c))
  {
    hide Line;
  }

  /** The result's register is C's only if C was there and nothing else. */
  lemma ClobbersOnly(b: Build, s: Source, k: Checks)
    requires Ready(b.c) && ClobbersC(b, s, k)
    ensures OwnInReg(b.c, s)
    ensures var (f, c0) := ReadFields(b.c, s);
      var (rb, b1) := CheckStore(b.(c := c0), s, f.b, k).value;
      var rc := Arithmetic(b1.c, s, f, rb).value.1;
      f.b == Known(Add(s.p, 16)) && Sole(c0, rc, Add(s.p, 16)) && c0.regs[rc].pinned
  {
    hide ReadFields, CheckStore, OperandA, OperandB, FieldReg, FlushPending, Compute, FlushFirst, Lookup, Aliased, Ready, Stands;
    var q := Add(s.p, 16);
    var (f, c0) := ReadFields(b.c, s);
    ReadsKnown(b.c, s);
    ReadFieldsHolds(b.c, s, q);
    var (rb, b1) := CheckStore(b.(c := c0), s, f.b, k).value;
    assert !SameWord(f);
    SameUpTo(b, s, k);
    var (va, c1) := OperandA(b1.c, s, f.a).value;
    var (vb, c2) := OperandB(c1, f.b, rb).value;
    OperandBHolds(c1, f.b, rb, q);
    var (rc, c3) := FieldReg(c2, f.c.v, q, false).value;
    FieldRegHolds(c2, f.c.v, q, false, q);
    var c4 := if FlushFirst(c3, f, va, vb) then FlushPending(c3).value else c3;
    ComputeFresh(c4, va, vb, f.b);
    PinnedThere(c2, c3, c4, f.c.v, vb, rc, f.b);
    AliasedSame(b.c, c0);
    Found(b.c, q);
    SoleFrom(b.c, c0, c4, rc, q, f.b);
  }

  /** B and C in the same register, which B was not given afresh. */
  lemma PinnedThere(c2: Jit, c3: Jit, c4: Jit, v: CVal, vb: CVal, rc: Reg, f: Field)
    requires PinSame(c3, c4) && c3.regs[rc].pinned && OwnC.PinnedIn(c2, vb)
    requires if v.InReg? then rc == v.r else !c2.regs[rc].pinned
    requires (InPlace(c4, vb, f) && rc == vb.r) || !c4.regs[rc].pinned
    ensures v == CVal.InReg(rc) && vb == CVal.InReg(rc) && InPlace(c4, vb, f)
  {
    hide Aliased;
  }

  lemma SoleFrom(c: Jit, c0: Jit, c4: Jit, r: Reg, q: word, f: Field)
    requires Same(c0, c4) && c0.regs[r].pinned && InPlace(c4, CVal.InReg(r), f)
    requires c0.regs[r].used == c.regs[r].used && c0.regs[r].addr == c.regs[r].addr && Aliased(c0, r) == Aliased(c, r)
    requires (c.regs[r].used && c.regs[r].addr == q) || exists i | 0 <= i < 16 :: c.aliases[i] == CAlias(true, q, r, false)
    ensures Sole(c, r, q) && f == Known(q)
  {
  }

  /** And it is, whenever C was, unless A is known to be 0. */
  lemma ClobbersThen(b: Build, s: Source, k: Checks)
    requires Ready(b.c) && OwnInReg(b.c, s) && Cacheable(Add(s.p, 16))
    requires var (f, c0) := ReadFields(b.c, s);
      var o := CheckStore(b.(c := c0), s, f.b, k);
      o.Some? && Arithmetic(o.value.1.c, s, f, o.value.0).Some? && (SameWord(f) || OperandA(o.value.1.c, s, f.a).value.0 != CVal.Const(0))
    ensures ClobbersC(b, s, k)
  {
    hide ReadFields, CheckStore, OperandA, FieldReg, FlushPending, FlushFirst, Lookup, Aliased, Ready, Stands, Cacheable, Scratch, ToReg;
    var q := Add(s.p, 16);
    var (f, c0) := ReadFields(b.c, s);
    ReadsKnown(b.c, s);
    ReadFieldsHolds(b.c, s, q);
    var (rb, b1) := CheckStore(b.(c := c0), s, f.b, k).value;
    assert !SameWord(f);
    SameUpTo(b, s, k);
    var r: Reg :| Sole(b.c, r, q);
    RegEntry(b.c, r) by { ReadySingle(b.c); }
    assert f.c == Dynamic(CVal.InReg(r)) && f.b == Known(q);
    var (va, c1) := OperandA(b1.c, s, f.a).value;
    SoleKept(c0, c1, r, q);
    RegEntry(c1, r);
    FoundWord(c1, q, r);
    var (vb, c2) := OperandB(c1, f.b, rb).value;
    assert vb == CVal.InReg(r);
    assert FieldReg(c2, CVal.InReg(r), q, false) == Some((r, c2)) by { FoundField(c2, r, q); }
    var c4 := if FlushFirst(c2, f, va, vb) then FlushPending(c2).value else c2;
    SoleKept(c0, c4, r, q);
    assert InPlace(c4, vb, f.b);
    ComputesThere(c4, va, r, f.b);
  }

  lemma ReadySingle(c: Jit)
    requires Ready(c)
    ensures Single(c)
  {
  }

  lemma SoleKept(c: Jit, d: Jit, r: Reg, q: word)
    requires Same(c, d) && Sole(c, r, q) && c.regs[r].pinned
    ensures Sole(d, r, q) && Single(d)
  {
    hide Single;
  }

  lemma FoundWord(c: Jit, q: word, r: Reg)
    requires Lookup(c, q) == CVal.InReg(r) && Cacheable(q)
    ensures GetStatic(c, q).Some? && GetStatic(c, q).value.0 == CVal.InReg(r)
  {
    hide Lookup;
    AlignedGet(c, q);
  }

  lemma FoundField(c: Jit, r: Reg, q: word)
    ensures FieldReg(c, CVal.InReg(r), q, false) == Some((r, c))
  {
  }

  lemma ComputesThere(c: Jit, va: CVal, r: Reg, f: Field)
    requires va != NoVal && va != CVal.Const(0) && InPlace(c, CVal.InReg(r), f) && Compute(c, va, CVal.InReg(r), f, true).Some?
    ensures var x := Compute(c, va, CVal.InReg(r), f, true).value.0; !x.kept && x.res == CVal.InReg(r)
  {
    hide Scratch, ToReg;
  }

  // ------------------------------------------------------ when it matters

  lemma ClobberedB(b: Build, s: Source, k: Checks, m0: Machine, m: Machine, R: Mem)
    requires O.Whole(b.c, m0, m, R) && StaticOk(s, R) && OwnInReg(b.c, s)
    ensures AddrB(s, R) == Add(s.p, 16) && Cacheable(Add(s.p, 16))
  {
    hide Rd, Wr, Run, Lookup;
    ReadFieldsOk(b.c, s, m0, m, R);
    var (f, c0) := ReadFields(b.c, s);
    ReadsKnown(b.c, s);
    FieldB(f, s, c0, m, R);
  }

  /** The difference is another C, where C was changed by the store. */
  lemma OtherC(s: Source, R: Mem)
    requires AddrB(s, R) == Add(s.p, 16) && W.Taken(ValB(s, R), ValA(s, R))
    ensures Sub(ValB(s, R), ValA(s, R)) != ValC(s, R) <==> OwnJump(Cpu(R, s.p))
  {
    hide Rd;
  }

  /** Exactly when an instruction's code leaves to the difference instead of to
      C: when it stores to its own C and the branch is taken with A not 0, and
      the cache it starts with has C in a register of its own. */
  ghost predicate GoesAstray(c: Jit, s: Source, R: Mem) { OwnInReg(c, s) && OwnJump(Cpu(R, s.p)) }

  lemma InsnExact(b: Build, s: Source, k: Checks, m0: Machine, m: Machine, R: Mem) returns (m': Machine, L': seq<(word, word)>)
    requires O.Whole(b.c, m0, m, R) && !b.c.flagsLive && StaticOk(s, R) && InRange(s.p, R) && Ready(b.c)
    requires ChecksHold(k, m.marks) && PagesCover(m.marks) && m.marks == m0.marks
    requires TranslateInsn(b, s, k).Some?
    ensures var (ended, d) := TranslateInsn(b, s, k).value;
      && InsnDone(ended, d, s, |b.stubs|, m0, m', R, GoesAstray(b.c, s, R), LogOf(b.c, m, R), L')
      && (GoesAstray(b.c, s, R) && !LeftSmc(d, m0, s.i, R, AddrB(s, R), LogOf(b.c, m, R)) ==>
            |d.stubs| > |b.stubs| && Through(d.stubs[|b.stubs|], Add(s.p, 16)))
  {
    hide Rd, Wr, Run, O.Whole, ClobbersC, StaticOk, TranslateInsn, LeftSmc, LeftStub, ChecksHold, PagesCover, Unmarked;
    hide OwnJump, LogStep, OwnInReg;
    hide Ready, LogOf;
    m', L' := TranslateInsnOk(b, s, k, m0, m, R);
    if ClobbersC(b, s, k) {
      ClobbersOnly(b, s, k);
    }
    if OwnInReg(b.c, s) {
      ClobberedB(b, s, k, m0, m, R);
      if W.Taken(ValB(s, R), ValA(s, R)) {
        OtherC(s, R);
      }
      if OwnJump(Cpu(R, s.p)) {
        if ClobbersC(b, s, k) {
          ClobbersThrough(b, s, k);
        } else {
          NotZero(b, s, k, m0, m, R);
        }
      }
    }
  }

  /** A not 0 is not known to be 0; unless the code leaves before. */
  lemma NotZero(b: Build, s: Source, k: Checks, m0: Machine, m: Machine, R: Mem)
    requires O.Whole(b.c, m0, m, R) && !b.c.flagsLive && StaticOk(s, R) && InRange(s.p, R) && Ready(b.c)
    requires ChecksHold(k, m.marks) && PagesCover(m.marks) && m.marks == m0.marks
    requires TranslateInsn(b, s, k).Some? && OwnInReg(b.c, s) && OwnJump(Cpu(R, s.p)) && !ClobbersC(b, s, k)
    ensures LeftSmc(TranslateInsn(b, s, k).value.1, m0, s.i, R, AddrB(s, R), LogOf(b.c, m, R))
  {
    hide Rd, Wr, Run, O.Whole, LogOf, LogStep, ReadFields, CheckStore, Arithmetic, Conclude, LeftSmc, FieldsOk, FieldOk;
    hide ChecksHold, PagesCover;
    hide Keeps, StaticOk, Unmarked, OwnInReg, ClobbersC, Ready;
    var (f, c0) := ReadFields(b.c, s);
    ReadFieldsOk(b.c, s, m0, m, R);
    var b0 := b.(c := c0);
    FieldB(f, s, c0, m, R);
    var m1 := CheckStoreOk(b0, s, f.b, k, m0, m, R);
    var (rb, b1) := CheckStore(b0, s, f.b, k).value;
    SameLog(b.c, c0, m, R);
    var L := LogOf(b.c, m, R);
    if LeftSmc(b1, m0, s.i, R, AddrB(s, R), L) {
      LeftSmcStays(b1, TranslateInsn(b, s, k).value.1, m0, s.i, R, AddrB(s, R), L);
    } else {
      O.KeepsRest(c0, m, b1.c, m1);
      FieldsKept(f, s, c0, m, b1.c, m1, R);
      ANotKnown(b1.c, s, f, rb, m0, m1, R);
      ClobberedB(b, s, k, m0, m, R);
      ClobbersThen(b, s, k);
      assert false;
    }
  }

  lemma ANotKnown(c: Jit, s: Source, f: Fields, rb: Reg, m0: Machine, m: Machine, R: Mem)
    requires O.Whole(c, m0, m, R) && !c.flagsLive && FieldsOk(f, s, c, m, R) && InRange(s.p, R) && OwnJump(Cpu(R, s.p))
    requires Arithmetic(c, s, f, rb).Some?
    ensures SameWord(f) || OperandA(c, s, f.a).value.0 != CVal.Const(0)
  {
    hide Rd, Wr, Run, O.Whole, OperandA, OperandB, OperandC, FlushPending, Compute, Keeps;
    if !SameWord(f) {
      var m1 := OperandAOk(c, s, f.a, m0, m, R);
    }
  }

  // ------------------------------------------------------ how the stub shows it

  /** The stub leaves to a register that holds the word it stores to q. */
  predicate Through(r: StubRec, q: word) { r.dyn && r.pend == HeldBack(CVal.InReg(r.creg), q) }

  /** The cache as the result is stored. */
  lemma SoleAfter(b: Build, s: Source, k: Checks) returns (L: Ledger)
    requires Ready(b.c) && ClobbersC(b, s, k)
    ensures var (f, c0) := ReadFields(b.c, s);
      var (rb, b1) := CheckStore(b.(c := c0), s, f.b, k).value;
      var (x, rc, c2) := Arithmetic(b1.c, s, f, rb).value;
      Rep(b.c, L, c2) && Sole(c2, rc, Add(s.p, 16)) && c2.regs[rc].pinned && f.b == Known(Add(s.p, 16))
  {
    hide Rep, PinSame, ReadFields, Opening, UnpinAll, CheckStore, Checked, Middle, Arithmetic, KeepFields, FieldHas, Single, LruOk;
    hide OwnInReg, Aliased;
    var z := b.c;
    ClobbersOnly(b, s, k);
    OpeningRep(z);
    BegunAt(z);
    ReadFieldsSim(z, Opening(z), z, s);
    var (f, c0) := ReadFields(z, s);
    var L0 := KeepFields(Opening(z), f);
    CheckStoreSim(z, L0, b.(c := c0), s, f.b, k);
    var L1 := Checked(z, L0, s, f.b, k).value;
    var (rb, b1) := CheckStore(b.(c := c0), s, f.b, k).value;
    MovesRep(z, L0, c0, L1, b1.c);
    FieldHasKept(z, c0, b1.c, f.a, s.p);
    FieldHasKept(z, c0, b1.c, f.c, Add(s.p, 16));
    Enough.MiddleSim(z, L1, b1.c, s, f, rb);
    var (x, rc, c2) := Arithmetic(b1.c, s, f, rb).value;
    L := Middle(z, L1, s, f).value.2;
    ResultMoves(z, L1, b1.c, f.b, Middle(z, L1, s, f), x, c2);
    PinSameTrans(c0, b1.c, c2);
    SoleStays(c0, c2, rc, Add(s.p, 16));
  }

  lemma ResultMoves(z: Jit, L: Ledger, c: Jit, f: Field, o: Option<(Where, bool, Ledger)>, x: Result, d: Jit)
    requires Enough.Resulting(z, L, c, f, o, Some((x, d)))
    ensures o.Some? && Rep(z, o.value.2, d) && PinSame(c, d)
  {
    hide Rep, PinSame;
  }

  lemma SoleStays(c: Jit, d: Jit, r: Reg, q: word)
    requires PinSame(c, d) && Sole(c, r, q) && c.regs[r].pinned
    ensures Sole(d, r, q) && d.regs[r].pinned
  {
    hide Aliased;
  }

  lemma ClobbersBranches(c: Jit, s: Source, f: Fields, rb: Reg)
    requires Arithmetic(c, s, f, rb).Some? && Clobbers(f, Arithmetic(c, s, f, rb).value.0, Arithmetic(c, s, f, rb).value.1)
    ensures Arithmetic(c, s, f, rb).value.0.taken == None && Branches(s, f)
  {
    hide OperandA, OperandB, OperandC, FlushPending, FlushFirst, ToReg, Scratch, ResultReg;
  }

  lemma StubThrough(z: Jit, L: Ledger, b: Build, s: Source, f: Fields, rb: Reg, x: Result, rc: Reg)
    requires Rep(z, L, b.c) && Sole(b.c, rc, Add(s.p, 16)) && b.c.regs[rc].pinned && f.b == Known(Add(s.p, 16)) && Cacheable(Add(s.p, 16))
    requires f.c.Dynamic? && !x.kept && x.res == CVal.InReg(rc) && x.taken == None && Conclude(b, s, f, rb, x, rc).Some?
    ensures var d := Conclude(b, s, f, rb, x, rc).value.1; |d.stubs| > |b.stubs| && Through(d.stubs[|b.stubs|], Add(s.p, 16))
  {
    hide Rep, PinSame, Lookup, Cacheable, FlushPending, Bind, SetAlias, UpdateSpanned, Single, Aliased, Flushed, Spans;
    var q := Add(s.p, 16);
    var c1 := b.c.(flagsLive := true);
    RepSame(z, L, b.c, c1);
    SoleStays(b.c, c1, rc, q);
    RepPend(z, L, c1);
    FlushSim(z, L, c1);
    var first := c1.pend && c1.pendAddr != q;
    var c2 := if first then FlushPending(c1).value else c1;
    var L2 := if first then Flushed(z, L).value else L;
    if first {
      SoleStays(c1, c2, rc, q);
    }
    RepSingle(z, L2, c2);
    var c3 := Bind(c2, rc, q);
    BindsWord(c2, rc, q);
    var c4 := c3.(pend := true, pendAddr := q, flagsLive := false);
    assert StoreResult(c1, x, f.b, rb) == Some((x.res, c3.(pend := true, pendAddr := q)));
    FreeLookup(c3, c4, q);
    assert SnapPending(c4).0 == HeldBack(CVal.InReg(rc), q);
    var r := StubRec(true, 0, s.i, rc, HeldBack(CVal.InReg(rc), q));
    assert BranchOut(b.(c := c4), s, f, None, rc).1.stubs == b.stubs + [r];
  }

  lemma BindsWord(c: Jit, r: Reg, q: word)
    requires Single(c) && Cacheable(q)
    ensures Lookup(Bind(c, r, q), q) == CVal.InReg(r)
  {
    hide Lookup, Single;
    BindSingle(c, r, q);
    RegEntry(Bind(c, r, q), r);
  }

  /** The stub of an instruction whose result took C's register. */
  lemma ClobbersThrough(b: Build, s: Source, k: Checks)
    requires Ready(b.c) && ClobbersC(b, s, k) && Cacheable(Add(s.p, 16)) && TranslateInsn(b, s, k).Some?
    ensures var d := TranslateInsn(b, s, k).value.1; |d.stubs| > |b.stubs| && Through(d.stubs[|b.stubs|], Add(s.p, 16))
  {
    hide Rep, PinSame, ReadFields, Opening, UnpinAll, CheckStore, Checked, Arithmetic, Conclude, KeepFields, FieldHas;
    hide Aliased, LruOk, Single;
    hide OwnInReg, Ready, Lookup, Cacheable;
    var z, q := b.c, Add(s.p, 16);
    ClobbersOnly(b, s, k);
    var (f, c0) := ReadFields(z, s);
    var (rb, b1) := CheckStore(b.(c := c0), s, f.b, k).value;
    var (x, rc, c2) := Arithmetic(b1.c, s, f, rb).value;
    CheckStubs(b.(c := c0), s, f.b, k);
    var L := SoleAfter(b, s, k);
    ClobbersBranches(b1.c, s, f, rb);
    StubThrough(z, L, b1.(c := c2), s, f, rb, x, rc);
  }
}
