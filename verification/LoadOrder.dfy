/** The loads a block performs, among its stores: while a store of the
    interpreter is still missing from memory, its word is not loaded. */
module LoadOrder {
  import opened Options
  import opened Words
  import opened Memory
  import opened Subleq
  import opened X86
  import opened RegCache
  import opened CacheProofs
  import opened Operands
  import opened OperandProofs
  import opened Insn
  import opened InsnProofs
  import opened ResultProofs
  import opened InsnCorrect
  import opened Enough
  import opened LedgerInsn
  import opened CopyLoop
  import opened Blocks
  import opened BlockProofs
  import opened RunProofs
  import opened Quiets

  /** Memory is R and the stores L have all been made, but for one at most, which
      comes last; its word is not at a. */
  ghost predicate Clear(a: word, m: Machine, R: Mem, L: seq<(word, word)>) {
    || (m.mem == R && m.log == L)
    || exists h: word :: Disjoint(a, h) && R == Wr(m.mem, h, Rd(R, h)) && L == m.log + [(h, Rd(R, h))]
  }

  /** So it is when the u-th operation, a load, is reached. */
  ghost predicate ClearAt(code: seq<Op>, u: nat, m0: Machine, R: Mem, L: seq<(word, word)>)
    requires u < |code| && IsLoad(code[u])
  {
    var o := Run(code[..u], m0);
    o.Go? ==> Clear(EA(code[u].src, o.m), o.m, R, L)
  }

  ghost predicate LoadsClear(c: Jit, d: Jit, m0: Machine, R: Mem, L: seq<(word, word)>) {
    c.code <= d.code && forall u | |c.code| <= u < |d.code| && IsLoad(d.code[u]) :: ClearAt(d.code, u, m0, R, L)
  }

  lemma QuietClear(c: Jit, d: Jit, m0: Machine, R: Mem, L: seq<(word, word)>)
    requires Quiet(c, d)
    ensures LoadsClear(c, d, m0, R, L)
  {
    hide ClearAt;
  }

  lemma ClearTrans(c: Jit, d: Jit, e: Jit, m0: Machine, R: Mem, L: seq<(word, word)>)
    requires LoadsClear(c, d, m0, R, L) && LoadsClear(d, e, m0, R, L)
    ensures LoadsClear(c, e, m0, R, L)
  {
    hide Clear, Run;
    forall u | |c.code| <= u < |d.code| && IsLoad(e.code[u])
      ensures ClearAt(e.code, u, m0, R, L)
    {
      assert e.code[u] == d.code[u] && e.code[..u] == d.code[..u];
      assert ClearAt(d.code, u, m0, R, L);
    }
  }

  lemma ThenQuiet(c: Jit, d: Jit, e: Jit, m0: Machine, R: Mem, L: seq<(word, word)>)
    requires LoadsClear(c, d, m0, R, L) && Quiet(d, e)
    ensures LoadsClear(c, e, m0, R, L)
  {
    hide LoadsClear, Quiet;
    QuietClear(d, e, m0, R, L);
    ClearTrans(c, d, e, m0, R, L);
  }

  lemma FirstQuiet(c: Jit, d: Jit, e: Jit, m0: Machine, R: Mem, L: seq<(word, word)>)
    requires Quiet(c, d) && LoadsClear(d, e, m0, R, L)
    ensures LoadsClear(c, e, m0, R, L)
  {
    hide LoadsClear, Quiet;
    QuietClear(c, d, m0, R, L);
    ClearTrans(c, d, e, m0, R, L);
  }

  /** Once the code has been left, no load is reached. */
  lemma LeftClear(c: Jit, d: Jit, m0: Machine, R: Mem, L: seq<(word, word)>)
    requires c.code <= d.code && Run(c.code, m0).Left?
    ensures LoadsClear(c, d, m0, R, L)
  {
    hide Run, Clear;
    forall u | |c.code| <= u < |d.code|
      ensures Run(d.code[..u], m0).Left?
    {
      assert c.code <= d.code[..u];
      RunPrefix(c.code, d.code[..u], m0);
    }
  }

  // ---------------------------------------------------------------- one load

  lemma LoadMemClear(c: Jit, r: Reg, src: Opnd, m0: Machine, m: Machine, R: Mem, L: seq<(word, word)>)
    requires At(c, m0, m) && Clear(EA(src, m), m, R, L)
    ensures LoadsClear(c, LoadMem(c, r, src), m0, R, L)
  {
    hide Run, Clear;
    var d := LoadMem(c, r, src);
    assert d.code[..|c.code|] == c.code && IsLoad(d.code[|c.code|]) && d.code[|c.code|].src == src;
    assert ClearAt(d.code, |c.code|, m0, R, L);
  }

  lemma LoadStaticClear(c: Jit, r: Reg, a: word, m0: Machine, m: Machine, R: Mem, L: seq<(word, word)>)
    requires At(c, m0, m) && Clear(a, m, R, L)
    ensures LoadsClear(c, LoadStatic(c, r, a), m0, R, L)
  {
    hide Run, LoadMem, LoadsClear;
    if FitsDisp(a) {
      LoadMemClear(c, r, Abs(a), m0, m, R, L);
    } else {
      var c1, m1 := Emit(c, MovImm(r, a)), Set(m, r, a);
      EmitOk(c, MovImm(r, a), m0, m);
      assert Clear(a, m1, R, L) by { ClearSame(a, m, m1, R, L); }
      LoadMemClear(c1, r, Ind(r), m0, m1, R, L);
      Plain(c, c1);
      FirstQuiet(c, c1, LoadMem(c1, r, Ind(r)), m0, R, L);
    }
  }

  lemma ClearSame(a: word, m: Machine, n: Machine, R: Mem, L: seq<(word, word)>)
    requires Clear(a, m, R, L) && n.mem == m.mem && n.log == m.log
    ensures Clear(a, n, R, L)
  {
    hide Rd, Wr;
  }

  /** What the translator knows is enough, away from the held-back word. */
  lemma HeldClear(c: Jit, m0: Machine, m: Machine, R: Mem, a: word)
    requires Good(c, m0, m, R) && (!c.pend ==> m.mem == R) && (c.pend ==> Disjoint(a, c.pendAddr))
    ensures Clear(a, m, R, LogOf(c, m, R))
  {
    hide Rd, Wr, Run, Lookup, Entries;
  }

  lemma Apart(a: word, h: word)
    requires h % 8 == 0 && a != h && a + 16 <= TWO64 && (a % 8 != 0 ==> h != Low(a) && h != High(a))
    ensures Disjoint(a, h)
  {
  }

  lemma HeldAligned(c: Jit, m0: Machine, m: Machine, R: Mem)
    requires Good(c, m0, m, R) && c.pend
    ensures c.pendAddr % 8 == 0 && Lookup(c, c.pendAddr) != NoVal
  {
  }

  lemma SameLogs(c: Jit, m: Machine, d: Jit, n: Machine, R: Mem)
    requires MemKept(c, m, d, n, R) && (!c.pend ==> m.mem == R)
    ensures LogOf(d, n, R) == LogOf(c, m, R) && (!d.pend ==> n.mem == R) && (d.pend ==> c.pend && d.pendAddr == c.pendAddr)
  {
    hide Rd;
  }

  /** A register, and the word at a in it. */
  lemma TakenLoad(c: Jit, a: word, m0: Machine, m: Machine, R: Mem)
    requires Whole(c, m0, m, R) && a + 16 <= TWO64 && Scratch(c).Some?
    requires c.pend ==> c.pendAddr != a && (a % 8 != 0 ==> c.pendAddr != Low(a) && c.pendAddr != High(a))
    ensures var (r, c1) := Scratch(c).value; LoadsClear(c, LoadStatic(c1, r, a), m0, R, LogOf(c, m, R))
  {
    hide Rd, Wr, Run, Lookup, Scratch, LoadStatic, LoadsClear, Quiet, LogOf, Entries, Disjoint, Keeps, MemKept;
    var m1 := ScratchOk(c, m0, m, R);
    var (r, c1) := Scratch(c).value;
    SameLogs(c, m, c1, m1, R);
    if c1.pend {
      HeldAligned(c1, m0, m1, R);
      Apart(a, c1.pendAddr);
    }
    HeldClear(c1, m0, m1, R, a);
    LoadStaticClear(c1, r, a, m0, m1, R, LogOf(c, m, R));
    ScratchQuiet(c);
    FirstQuiet(c, c1, LoadStatic(c1, r, a), m0, R, LogOf(c, m, R));
  }

  lemma BindQuiet(c: Jit, r: Reg, a: word)
    ensures Quiet(c, Bind(c, r, a))
  {
    RecacheQuiet(c, a, InReg(r));
  }

  lemma LoadUncachedLoads(c: Jit, a: word, m0: Machine, m: Machine, R: Mem)
    requires Whole(c, m0, m, R) && a + 16 <= TWO64 && Lookup(c, a) == NoVal && LoadUncached(c, a).Some?
    ensures LoadsClear(c, LoadUncached(c, a).value.1, m0, R, LogOf(c, m, R))
  {
    hide Rd, Wr, Run, Lookup, FlushPending, Scratch, LoadStatic, Bind, At, Entries, LoadsClear, Quiet, LogOf, Keeps, MemKept;
    var m1, c1 := m, c;
    Plain(c, c);
    if c.pend {
      HeldAligned(c, m0, m, R);
    }
    if c.pend && a % 8 != 0 && (c.pendAddr == Low(a) || c.pendAddr == High(a)) {
      m1 := FlushOk(c, m0, m, R);
      c1 := FlushPending(c).value;
      SameLogs(c, m, c1, m1, R);
      FlushQuiet(c);
    }
    TakenLoad(c1, a, m0, m1, R);
    var (r, c2) := Scratch(c1).value;
    FirstQuiet(c, c1, LoadStatic(c2, r, a), m0, R, LogOf(c, m, R));
    BindQuiet(LoadStatic(c2, r, a), r, a);
    ThenQuiet(c, LoadStatic(c2, r, a), Bind(LoadStatic(c2, r, a), r, a), m0, R, LogOf(c, m, R));
  }

  // -------------------------------------------------------------- operands

  lemma GetWordLoads(c: Jit, a: word, m0: Machine, m: Machine, R: Mem)
    requires Whole(c, m0, m, R) && a + 16 <= TWO64 && GetWord(c, a).Some?
    ensures LoadsClear(c, GetWord(c, a).value.1, m0, R, LogOf(c, m, R))
  {
    hide Rd, Wr, Run, Lookup, LoadUncached, Entries, At, HeldOk, LoadsClear, Quiet;
    var (v, c1) := CacheFind(c, a);
    TouchOk(c, v);
    SameWhole(c, c1, m0, m, R);
    SameLookup(c, c1, a);
    if v != NoVal {
      Plain(c, PinVal(c1, v));
      QuietClear(c, PinVal(c1, v), m0, R, LogOf(c, m, R));
    } else {
      Plain(c, c1);
      LoadUncachedLoads(c1, a, m0, m, R);
      FirstQuiet(c, c1, LoadUncached(c1, a).value.1, m0, R, LogOf(c, m, R));
    }
  }

  lemma GetStaticLoads(c: Jit, a: word, m0: Machine, m: Machine, R: Mem)
    requires Whole(c, m0, m, R) && !c.flagsLive && a + 16 <= TWO64 && GetStatic(c, a).Some?
    ensures LoadsClear(c, GetStatic(c, a).value.1, m0, R, LogOf(c, m, R))
    decreases a % 8 != 0, 0
  {
    hide Rd, Wr, Run, Lookup, LoadUncached, GetWord, Good, Combine, Keeps, Pinned, Denotes, GetStatic, LoadsClear, Quiet;
    hide LogOf, Touch, PinVal;
    UnfoldGetStatic(c, a);
    if Spans(a) {
      var (vl, c1) := CacheFind(c, Low(a));
      var (vh, c2) := CacheFind(c1, High(a));
      FindPair(c, a, m0, m, R);
      PairQuiet(c, vl, vh);
      if vl == NoVal && vh == NoVal {
        UnalignedUncached(c2, a);
        LoadUncachedLoads(c2, a, m0, m, R);
        FirstQuiet(c, c2, LoadUncached(c2, a).value.1, m0, R, LogOf(c, m, R));
      } else {
        var c3 := PinVal(PinVal(c2, vl), vh);
        SpannedLoads(c3, vl, vh, a, m0, m, R);
        FirstQuiet(c, c3, GetStatic(c, a).value.1, m0, R, LogOf(c, m, R));
      }
    } else {
      GetWordLoads(c, a, m0, m, R);
    }
  }

  lemma PairQuiet(c: Jit, vl: CVal, vh: CVal)
    ensures Quiet(c, Touch(Touch(c, vl), vh)) && Quiet(c, PinVal(PinVal(Touch(Touch(c, vl), vh), vl), vh))
  {
  }

  lemma SpannedLoads(c: Jit, vl: CVal, vh: CVal, a: word, m0: Machine, m: Machine, R: Mem)
    requires Whole(c, m0, m, R) && !c.flagsLive && a % 8 != 0 && a + 16 <= TWO64
    requires vl == NoVal ==> GetStatic(c, Low(a)).Some?
    requires var (lo, c4) := if vl == NoVal then GetStatic(c, Low(a)).value else (vl, c);
      (vh == NoVal ==> GetStatic(c4, High(a)).Some?) &&
      var (hi, c5) := if vh == NoVal then GetStatic(c4, High(a)).value else (vh, c4);
      Combine(c5, lo, hi, Offset(a)).Some?
    ensures var (lo, c4) := if vl == NoVal then GetStatic(c, Low(a)).value else (vl, c);
      var (hi, c5) := if vh == NoVal then GetStatic(c4, High(a)).value else (vh, c4);
      LoadsClear(c, Combine(c5, lo, hi, Offset(a)).value.1, m0, R, LogOf(c, m, R))
    decreases false, 1
  {
    hide Rd, Wr, Run, Lookup, GetStatic, Good, Combine, Keeps, Cacheable, LoadsClear, Quiet, LogOf;
    var L := LogOf(c, m, R);
    Plain(c, c);
    QuietClear(c, c, m0, R, L);
    var m1 := m;
    var (lo, c4) := if vl == NoVal then GetStatic(c, Low(a)).value else (vl, c);
    if vl == NoVal {
      m1 := GetStaticOk(c, Low(a), m0, m, R);
      GetStaticLoads(c, Low(a), m0, m, R);
      KeepsRest(c, m, c4, m1);
    }
    var (hi, c5) := if vh == NoVal then GetStatic(c4, High(a)).value else (vh, c4);
    if vh == NoVal {
      GetStaticLoads(c4, High(a), m0, m1, R);
      ClearTrans(c, c4, c5, m0, R, L);
    }
    CombineQuiet(c5, lo, hi, Offset(a));
    ThenQuiet(c, c5, Combine(c5, lo, hi, Offset(a)).value.1, m0, R, L);
  }

  lemma FieldRegLoads(c: Jit, v: CVal, a: word, bind: bool, m0: Machine, m: Machine, R: Mem)
    requires Whole(c, m0, m, R) && FieldOk(Dynamic(v), c, m, a, Rd(R, a)) && a % 8 == 0 && a + 16 <= TWO64
    requires FieldReg(c, v, a, bind).Some?
    ensures LoadsClear(c, FieldReg(c, v, a, bind).value.1, m0, R, LogOf(c, m, R))
  {
    hide Rd, Wr, Run, Good, Lookup, ToReg, Scratch, LoadStatic, Bind, LoadsClear, Quiet, LogOf;
    var L := LogOf(c, m, R);
    if v != NoVal {
      ToRegQuiet(c, v);
      QuietClear(c, ToReg(c, v).value.1, m0, R, L);
    } else {
      TakenLoad(c, a, m0, m, R);
      var (r, c1) := Scratch(c).value;
      if bind {
        BindQuiet(LoadStatic(c1, r, a), r, a);
        ThenQuiet(c, LoadStatic(c1, r, a), Bind(LoadStatic(c1, r, a), r, a), m0, R, L);
      }
    }
  }

  lemma LoadThroughLoads(c: Jit, ra: Reg, m0: Machine, m: Machine, R: Mem)
    requires Whole(c, m0, m, R) && LoadThrough(c, ra).Some?
    ensures LoadsClear(c, LoadThrough(c, ra).value.1, m0, R, LogOf(c, m, R))
  {
    hide Rd, Wr, Run, Lookup, FlushPending, Scratch, LoadMem, At, Entries, LoadsClear, Quiet, LogOf, Keeps, MemKept;
    var L := LogOf(c, m, R);
    var m1 := FlushOk(c, m0, m, R);
    var c1 := FlushPending(c).value;
    SameLogs(c, m, c1, m1, R);
    var m2 := ScratchOk(c1, m0, m1, R);
    var (r, c2) := Scratch(c1).value;
    SameLogs(c1, m1, c2, m2, R);
    HeldClear(c2, m0, m2, R, EA(Ind(ra), m2));
    LoadMemClear(c2, r, Ind(ra), m0, m2, R, L);
    FlushQuiet(c);
    ScratchQuiet(c1);
    QuietTrans(c, c1, c2);
    FirstQuiet(c, c2, LoadMem(c2, r, Ind(ra)), m0, R, L);
  }

  lemma OperandALoads(c: Jit, s: Source, f: Field, m0: Machine, m: Machine, R: Mem)
    requires Whole(c, m0, m, R) && !c.flagsLive && FieldOk(f, c, m, s.p, Rd(R, s.p)) && OperandA(c, s, f).Some?
    requires s.p % 8 == 0 && s.p + 48 <= TWO64 && Rd(R, s.p) + 16 <= TWO64
    ensures LoadsClear(c, OperandA(c, s, f).value.1, m0, R, LogOf(c, m, R))
  {
    hide Rd, Wr, Run, Whole, GetStatic, FieldReg, LoadThrough, Keeps, LoadsClear, LogOf;
    if f.Known? {
      GetStaticLoads(c, f.val, m0, m, R);
    } else {
      var m1 := FieldRegOk(c, f.v, s.p, true, m0, m, R);
      var (ra, c1) := FieldReg(c, f.v, s.p, true).value;
      FieldRegLoads(c, f.v, s.p, true, m0, m, R);
      LoadThroughLoads(c1, ra, m0, m1, R);
      ClearTrans(c, c1, LoadThrough(c1, ra).value.1, m0, R, LogOf(c, m, R));
    }
  }

  lemma OperandBLoads(c: Jit, f: Field, rb: Reg, m0: Machine, m: Machine, R: Mem, b: word)
    requires Whole(c, m0, m, R) && !c.flagsLive && OperandB(c, f, rb).Some? && b + 16 <= TWO64
    requires if f.Known? then f.val == b else m.regs[rb] == b && c.regs[rb].pinned
    ensures LoadsClear(c, OperandB(c, f, rb).value.1, m0, R, LogOf(c, m, R))
  {
    hide Rd, Wr, Run, Whole, GetStatic, LoadThrough, LoadsClear;
    if f.Known? {
      GetStaticLoads(c, b, m0, m, R);
    } else {
      LoadThroughLoads(c, rb, m0, m, R);
    }
  }

  lemma OperandCLoads(c: Jit, s: Source, f: Field, m0: Machine, m: Machine, R: Mem)
    requires Whole(c, m0, m, R) && FieldOk(f, c, m, Add(s.p, 16), Rd(R, Add(s.p, 16))) && OperandC(c, s, f).Some?
    requires s.p % 8 == 0 && s.p + 48 <= TWO64
    ensures LoadsClear(c, OperandC(c, s, f).value.1, m0, R, LogOf(c, m, R))
  {
    hide Rd, Wr, Run, Whole, FieldReg, LoadsClear, Quiet;
    if f.Dynamic? {
      FieldRegLoads(c, f.v, Add(s.p, 16), false, m0, m, R);
    } else {
      Plain(c, c);
      QuietClear(c, c, m0, R, LogOf(c, m, R));
    }
  }

  lemma CheckStoreLoads(b: Build, s: Source, f: Field, k: Checks, m0: Machine, m: Machine, R: Mem)
    requires Whole(b.c, m0, m, R) && FieldOk(f, b.c, m, Add(s.p, 8), Rd(R, Add(s.p, 8)))
    requires s.p % 8 == 0 && s.p + 48 <= TWO64 && CheckStore(b, s, f, k).Some?
    ensures LoadsClear(b.c, CheckStore(b, s, f, k).value.1.c, m0, R, LogOf(b.c, m, R))
  {
    hide Rd, Wr, Run, Whole, CheckStatic, CheckDynamic, FieldReg, LoadsClear, Quiet, LogOf;
    var L := LogOf(b.c, m, R);
    if f.Known? {
      CheckStaticQuiet(b, f.val, s.i, k);
      QuietClear(b.c, CheckStatic(b, f.val, s.i, k).c, m0, R, L);
    } else {
      FieldRegLoads(b.c, f.v, Add(s.p, 8), true, m0, m, R);
      var (rb, c1) := FieldReg(b.c, f.v, Add(s.p, 8), true).value;
      CheckDynamicQuiet(b.(c := c1), rb, s.i);
      ThenQuiet(b.c, c1, CheckDynamic(b.(c := c1), rb, s.i).value.c, m0, R, L);
    }
  }

  lemma ArithmeticLoads(c: Jit, s: Source, f: Fields, rb: Reg, m0: Machine, m: Machine, R: Mem)
    requires Whole(c, m0, m, R) && !c.flagsLive && FieldsOk(f, s, c, m, R) && InRange(s.p, R)
    requires RegB(f.b, c, m, rb, AddrB(s, R)) && Arithmetic(c, s, f, rb).Some?
    ensures LoadsClear(c, Arithmetic(c, s, f, rb).value.2, m0, R, LogOf(c, m, R))
  {
    hide Rd, Wr, Run, Lookup, Good, Whole, OperandA, OperandB, OperandC, FlushPending, Compute, Keeps, LoadsClear, Quiet, LogOf;
    var L := LogOf(c, m, R);
    if SameWord(f) {
      OperandCLoads(c, s, f.c, m0, m, R);
    } else {
      var m1 := OperandAOk(c, s, f.a, m0, m, R);
      OperandALoads(c, s, f.a, m0, m, R);
      var (va, c1) := OperandA(c, s, f.a).value;
      KeepsRest(c, m, c1, m1);
      FieldsKept(f, s, c, m, c1, m1, R);
      KeptVal(c, m, c1, m1, InReg(rb), m.regs[rb]);
      var m2 := OperandBOk(c1, f.b, rb, m0, m1, R, AddrB(s, R));
      OperandBLoads(c1, f.b, rb, m0, m1, R, AddrB(s, R));
      var (vb, c2) := OperandB(c1, f.b, rb).value;
      ClearTrans(c, c1, c2, m0, R, L);
      KeepsRest(c1, m1, c2, m2);
      FieldsKept(f, s, c1, m1, c2, m2, R);
      OperandCLoads(c2, s, f.c, m0, m2, R);
      var (rc, c3) := OperandC(c2, s, f.c).value;
      ClearTrans(c, c2, c3, m0, R, L);
      RestQuiet(c3, s, f, va, vb);
      ThenQuiet(c, c3, Arithmetic(c, s, f, rb).value.2, m0, R, L);
    }
  }

  lemma RestQuiet(c: Jit, s: Source, f: Fields, va: CVal, vb: CVal)
    requires va != NoVal && vb != NoVal
    requires var o := if FlushFirst(c, f, va, vb) then FlushPending(c) else Some(c); o.Some? && Compute(o.value, va, vb, f.b, Branches(s, f)).Some?
    ensures var o := if FlushFirst(c, f, va, vb) then FlushPending(c) else Some(c);
      Quiet(c, Compute(o.value, va, vb, f.b, Branches(s, f)).value.1)
  {
    hide FlushPending, Compute, Quiet, FlushFirst;
    var c1 := (if FlushFirst(c, f, va, vb) then FlushPending(c) else Some(c)).value;
    Plain(c, c);
    if FlushFirst(c, f, va, vb) {
      FlushQuiet(c);
    }
    ComputeQuiet(c1, va, vb, f.b, Branches(s, f));
    QuietTrans(c, c1, Compute(c1, va, vb, f.b, Branches(s, f)).value.1);
  }

  lemma ReadQuiet(c: Jit, s: Source)
    ensures Quiet(c, ReadFields(c, s).1)
  {
    hide Lookup;
  }

  /** An instruction's loads see the interpreter's memory before it. */
  lemma InsnLoads(b: Build, s: Source, k: Checks, m0: Machine, m: Machine, R: Mem)
    requires Whole(b.c, m0, m, R) && !b.c.flagsLive && StaticOk(s, R) && InRange(s.p, R)
    requires ChecksHold(k, m.marks) && PagesCover(m.marks) && m.marks == m0.marks && TranslateInsn(b, s, k).Some?
    ensures LoadsClear(b.c, TranslateInsn(b, s, k).value.1.c, m0, R, LogOf(b.c, m, R))
  {
    hide Rd, Wr, Run, Whole, LogOf, ReadFields, CheckStore, Arithmetic, Conclude, LeftSmc, FieldsOk, FieldOk,
      ChecksHold, PagesCover, Keeps, StaticOk, Unmarked, LoadsClear, Quiet;
    var (f, c0) := ReadFields(b.c, s);
    ReadFieldsOk(b.c, s, m0, m, R);
    var b0 := b.(c := c0);
    FieldB(f, s, c0, m, R);
    SameLog(b.c, c0, m, R);
    var L := LogOf(b.c, m, R);
    ReadQuiet(b.c, s);
    var m1 := CheckStoreOk(b0, s, f.b, k, m0, m, R);
    CheckStoreLoads(b0, s, f.b, k, m0, m, R);
    var (rb, b1) := CheckStore(b0, s, f.b, k).value;
    FirstQuiet(b.c, c0, b1.c, m0, R, L);
    var (x, rc, c2) := Arithmetic(b1.c, s, f, rb).value;
    var d := Conclude(b1.(c := c2), s, f, rb, x, rc).value.1;
    ConcludeQuiet(b1.(c := c2), s, f, rb, x, rc);
    if LeftSmc(b1, m0, s.i, R, AddrB(s, R), L) {
      assert Run(b1.c.code, m0).Left? by { SmcLeft(b1, m0, s.i, R, AddrB(s, R), L); }
      LeftClear(b1.c, c2, m0, R, L);
    } else {
      KeepsRest(c0, m, b1.c, m1);
      FieldsKept(f, s, c0, m, b1.c, m1, R);
      RegBOk(f, s, b1.c, m1, rb, R);
      ArithmeticLoads(b1.c, s, f, rb, m0, m1, R);
    }
    ClearTrans(b.c, b1.c, c2, m0, R, L);
    ThenQuiet(b.c, c2, d.c, m0, R, L);
  }

  lemma SmcLeft(d: Build, m0: Machine, i: nat, R: Mem, a: word, L: seq<(word, word)>)
    requires LeftSmc(d, m0, i, R, a, L)
    ensures Run(d.c.code, m0).Left?
  {
    hide Run;
  }

  // -------------------------------------------------------------- of a block

  /** Of the interpreter's first i stores, those made so far, with the one that is
      missing if there is one, are left when some are dropped that nothing can
      tell from memory; the missing one is of a word that is not at a. */
  ghost predicate Seen(a: word, m: Machine, m0: Machine, start: word, i: nat) {
    var R, T := Steps(Cpu(m0.mem, start), i).mem, Trace(Cpu(m0.mem, start), i);
    || (m.mem == R && Thin(T, m.log))
    || exists h: word :: Disjoint(a, h) && R == Wr(m.mem, h, Rd(R, h)) && Thin(T, m.log + [(h, Rd(R, h))])
  }

  /** The loads in a part of the code come after the first i instructions. */
  ghost predicate Between(code: seq<Op>, lo: nat, hi: nat, m0: Machine, start: word, i: nat) {
    lo <= hi <= |code| && forall u | lo <= u < hi && IsLoad(code[u]) :: SeenAt(code, u, m0, start, i)
  }

  ghost predicate SeenAt(code: seq<Op>, u: nat, m0: Machine, start: word, i: nat)
    requires u < |code| && IsLoad(code[u])
  {
    var o := Run(code[..u], m0);
    o.Go? ==> Seen(EA(code[u].src, o.m), o.m, m0, start, i)
  }

  /** So the load reads what the interpreter has there. */
  lemma SeenReads(a: word, m: Machine, m0: Machine, start: word, i: nat)
    requires Seen(a, m, m0, start, i)
    ensures Rd(m.mem, a) == Rd(Steps(Cpu(m0.mem, start), i).mem, a)
  {
    hide Rd, Wr, Steps, Trace, Thin;
    var R, T := Steps(Cpu(m0.mem, start), i).mem, Trace(Cpu(m0.mem, start), i);
    if !(m.mem == R && Thin(T, m.log)) {
      var h: word :| Disjoint(a, h) && R == Wr(m.mem, h, Rd(R, h)) && Thin(T, m.log + [(h, Rd(R, h))]);
      RdWrOther(m.mem, h, Rd(R, h), a);
    }
  }

  lemma ClearSeen(a: word, m: Machine, m0: Machine, start: word, i: nat, R: Mem, L: seq<(word, word)>)
    requires Clear(a, m, R, L) && R == Steps(Cpu(m0.mem, start), i).mem && Thin(Trace(Cpu(m0.mem, start), i), L)
    ensures Seen(a, m, m0, start, i)
  {
    hide Rd, Wr, Steps, Trace, Thin;
  }

  lemma ClearBetween(c: Jit, d: Jit, m0: Machine, R: Mem, L: seq<(word, word)>, start: word, i: nat)
    requires LoadsClear(c, d, m0, R, L) && R == Steps(Cpu(m0.mem, start), i).mem && Thin(Trace(Cpu(m0.mem, start), i), L)
    ensures Between(d.code, |c.code|, |d.code|, m0, start, i)
  {
    hide Clear, Seen, Run, Steps, Trace, Thin;
    forall u | |c.code| <= u < |d.code| && IsLoad(d.code[u])
      ensures SeenAt(d.code, u, m0, start, i)
    {
      assert ClearAt(d.code, u, m0, R, L);
      var o := Run(d.code[..u], m0);
      if o.Go? {
        ClearSeen(EA(d.code[u].src, o.m), o.m, m0, start, i, R, L);
      }
    }
  }

  lemma LeftBetween(c: Jit, d: Jit, m0: Machine, start: word, i: nat)
    requires c.code <= d.code && Run(c.code, m0).Left?
    ensures Between(d.code, |c.code|, |d.code|, m0, start, i) && Run(d.code, m0).Left?
  {
    hide Run, Seen;
    RunPrefix(c.code, d.code, m0);
    forall u | |c.code| <= u < |d.code|
      ensures Run(d.code[..u], m0).Left?
    {
      assert c.code <= d.code[..u];
      RunPrefix(c.code, d.code[..u], m0);
    }
  }

  lemma BetweenStays(code: seq<Op>, more: seq<Op>, lo: nat, hi: nat, m0: Machine, start: word, i: nat)
    requires Between(code, lo, hi, m0, start, i) && code <= more
    ensures Between(more, lo, hi, m0, start, i)
  {
    hide Run, Seen;
    forall u | lo <= u < hi && IsLoad(more[u])
      ensures SeenAt(more, u, m0, start, i)
    {
      assert more[u] == code[u] && more[..u] == code[..u];
      assert SeenAt(code, u, m0, start, i);
    }
  }

  /** Where the code of each instruction from the i-th on begins, and where the
      last one's ends. */
  ghost predicate InOrder(code: seq<Op>, at: seq<nat>, m0: Machine, start: word, i: nat) {
    forall j | 0 <= j < |at| - 1 :: Between(code, at[j], at[j + 1], m0, start, i + j)
  }

  /** The code has been left, or is right so far. */
  ghost predicate SoFar(b: Build, start: word, i: nat, m0: Machine, m: Machine, R: Mem)
    requires start + 24 * i < TWO64
  {
    && Ready(b.c)
    && (Run(b.c.code, m0).Left? ||
        (Whole(b.c, m0, m, R) && !b.c.flagsLive && m.marks == m0.marks && Reached(start, m0, i, R, LogOf(b.c, m, R))))
  }

  lemma StepLoads(b: Build, d: Build, ended: bool, w: World, dyn: set<int>, k: Checks, start: word, i: nat, n: nat,
                  m0: Machine, m: Machine, R: Mem) returns (m': Machine, R': Mem)
    requires i < n && start % 8 == 0 && start + 24 * n <= w.memSize <= 0x4000_0000_0000_0000 && SoFar(b, start, i, m0, m, R)
    requires StaticsHold(w, dyn, start, i + 1, m0) && InBounds(Steps(Cpu(m0.mem, start), i), w.memSize)
    requires ChecksHold(k, m0.marks) && PagesCover(m0.marks)
    requires TranslateInsn(b, SourceAt(w, dyn, start, i), k) == Some((ended, d))
    ensures Between(d.c.code, |b.c.code|, |d.c.code|, m0, start, i) && (ended || SoFar(d, start, i + 1, m0, m', R'))
  {
    hide Rd, Wr, Run, Whole, TranslateInsn, ChecksHold, PagesCover, StaticsHold, MarksKept, LogOf, Thin, Trace, Steps;
    hide Between, LoadsClear, LeftRight, Ready, Unmarked, NewMem;
    var s := SourceAt(w, dyn, start, i);
    m', R' := m, R;
    if Run(b.c.code, m0).Left? {
      InsnEnough(b, s, k);
      LeftBetween(b.c, d.c, m0, start, i);
    } else {
      StaticSource(w, dyn, start, i, i + 1, m0, R);
      InsnLoads(b, s, k, m0, m, R);
      ClearBetween(b.c, d.c, m0, R, LogOf(b.c, m, R), start, i);
      m' := BodyStep(b, d, ended, w, dyn, k, start, i, n, m0, m, R);
      R' := NewMem(s, R);
      if LeftRight(d, start, i + 1, m0) {
        RightLeft(d, start, i + 1, m0);
      }
    }
  }

  lemma RightLeft(d: Build, start: word, n: nat, m0: Machine)
    requires start + 24 * n < TWO64 && LeftRight(d, start, n, m0)
    ensures Run(d.c.code, m0).Left?
  {
    hide Run;
  }

  lemma {:induction false} BodyLoads(b: Build, w: World, dyn: set<int>, k: Checks, start: word, i: nat, n: nat,
                                     m0: Machine, m: Machine, R: Mem) returns (at: seq<nat>)
    requires i <= n && start % 8 == 0 && start + 24 * n <= w.memSize <= 0x4000_0000_0000_0000 && SoFar(b, start, i, m0, m, R)
    requires TranslateFrom(b, w, dyn, k, start, i, n).Some?
    requires StaticsHold(w, dyn, start, TranslateFrom(b, w, dyn, k, start, i, n).value.0, m0)
    requires SafeFor(Cpu(m0.mem, start), TranslateFrom(b, w, dyn, k, start, i, n).value.0, w.memSize)
    requires ChecksHold(k, m0.marks) && PagesCover(m0.marks)
    ensures var (n', _, d) := TranslateFrom(b, w, dyn, k, start, i, n).value;
      |at| == n' - i + 1 && at[0] == |b.c.code| && at[n' - i] == |d.c.code| && InOrder(d.c.code, at, m0, start, i)
    decreases n - i
  {
    hide Rd, Run, TranslateInsn, ChecksHold, PagesCover, StaticsHold, InBounds, Steps, Between, SoFar;
    at := [|b.c.code|];
    if i < n {
      var s := SourceAt(w, dyn, start, i);
      var (ended, d) := TranslateInsn(b, s, k).value;
      var (n', _, e) := TranslateFrom(b, w, dyn, k, start, i, n).value;
      FewerStatics(w, dyn, start, i + 1, n', m0);
      var m1, R1 := StepLoads(b, d, ended, w, dyn, k, start, i, n, m0, m, R);
      BetweenStays(d.c.code, e.c.code, |b.c.code|, |d.c.code|, m0, start, i);
      if ended {
        at := [|b.c.code|, |d.c.code|];
      } else {
        var rest := BodyLoads(d, w, dyn, k, start, i + 1, n, m0, m1, R1);
        at := [|b.c.code|] + rest;
        forall j | 0 <= j < |at| - 1
          ensures Between(e.c.code, at[j], at[j + 1], m0, start, i + j)
        {
          if j > 0 {
            assert Between(e.c.code, rest[j - 1], rest[j - 1 + 1], m0, start, i + 1 + (j - 1));
            assert at[j] == rest[j - 1] && at[j + 1] == rest[j];
          }
        }
      }
    }
  }

  /** A block's loads: those of its i-th instruction are made when all stores of
      the instructions before it are in memory, but for ones dropped as in the
      order of stores and for one word at most, which is not loaded. Nothing
      after the last instruction loads. */
  lemma LoadsInOrder(b: Block, w: World, mem: Mem, x: Context) returns (at: seq<nat>)
    requires Made(b, w) && b.start + 24 * b.n < TWO64 && BakedHold(b, mem, x.marks) && MarksIn(x.marks, w.memSize)
    requires !HoistMarked(b, x.marks) && SafeFor(Cpu(mem, b.start), b.n, w.memSize)
    ensures |at| == b.n + 1 && at[0] == 0 && at[b.n] <= |b.code|
    ensures InOrder(b.code, at, Machine(x.regs, x.fl, mem, x.marks, []), b.start, 0)
    ensures forall u | at[b.n] <= u < |b.code| :: !IsLoad(b.code[u])
  {
    hide Rd, Wr, Run, Translated, Harmless, Whole, TranslateFrom, PagesCover, Steps, Hoisted, Reached, SafeFor, FallOut;
    hide DynWords, LogOf, Between;
    hide StaticsHold, ChecksHold;
    var m0 := Machine(x.regs, x.fl, mem, x.marks, []);
    var copy, n, dyn, k, d, ended := MadeParts(b, w);
    EmptyOk(w, b.start, copy, m0);
    HoistChecks(b, k, m0.marks);
    BakedStatics(b, w, dyn, m0);
    MadeAligned(b, w);
    at := BodyLoads(EmptyBuild(w, b.start, copy), w, dyn, k, b.start, 0, n, m0, m0, mem);
    if !ended {
      FallOutQuiet(d, b.start, b.n);
    }
    forall j | 0 <= j < |at| - 1
      ensures Between(b.code, at[j], at[j + 1], m0, b.start, j)
    {
      assert Between(d.c.code, at[j], at[j + 1], m0, b.start, 0 + j);
      BetweenStays(d.c.code, b.code, at[j], at[j + 1], m0, b.start, j);
    }
  }
}
