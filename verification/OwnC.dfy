/** A result computed in the register of the instruction's own C: that happens
    only to an instruction that stores to its own C field. */
module OwnC {
  import opened Options
  import opened Words
  import opened Bits
  import opened Memory
  import opened Subleq
  import opened X86
  import opened RegCache
  import opened CacheProofs
  import opened Operands
  import opened OperandProofs
  import opened Insn
  import opened InsnProofs
  import opened InsnCorrect

  /** Register r, or its name for a, stands for the word at a. */
  predicate Stands(c: Jit, r: Reg, a: word) {
    Cacheable(a) &&
    ((c.regs[r].used && c.regs[r].addr == a) ||
     exists i | 0 <= i < 16 :: c.aliases[i].used && c.aliases[i].reg == r && c.aliases[i].addr == a)
  }

  /** Pinned registers stay pinned, and go on standing for a. */
  ghost predicate Holds(c: Jit, d: Jit, a: word) {
    forall r: Reg | c.regs[r].pinned :: d.regs[r].pinned && (Stands(c, r, a) ==> Stands(d, r, a))
  }

  lemma HoldsTrans(c: Jit, d: Jit, e: Jit, a: word)
    requires Holds(c, d, a) && Holds(d, e, a)
    ensures Holds(c, e, a)
  {
    hide Stands;
  }

  lemma SameHolds(c: Jit, d: Jit, a: word)
    requires d.aliases == c.aliases
    requires forall r | 0 <= r < 11 :: c.regs[r].(lru := 0, pinned := true) == d.regs[r].(lru := 0, pinned := true)
    requires forall r | 0 <= r < 11 :: c.regs[r].pinned ==> d.regs[r].pinned
    ensures Holds(c, d, a)
  {
    forall r: Reg | c.regs[r].pinned && Stands(c, r, a)
      ensures Stands(d, r, a)
    {
      assert c.regs[r].(lru := 0, pinned := true) == d.regs[r].(lru := 0, pinned := true);
    }
  }

  // --------------------------------------- registers and the held-back store

  lemma ScratchHolds(c: Jit, a: word)
    requires Scratch(c).Some?
    ensures var (r, d) := Scratch(c).value;
      Holds(c, d, a) && !c.regs[r].pinned && d.regs[r].pinned && Free(d, r)
    decreases Held(c), 3
  {
    hide Release, ScratchScan, Stands;
    var best := ScratchScan(c, 0, -1);
    SameHolds(c, Pin(c, best), a);
    ReleaseHolds(Pin(c, best), best, a);
    var d := Release(Pin(c, best), best).value;
    forall r: Reg | c.regs[r].pinned
      ensures d.regs[r].pinned && (Stands(c, r, a) ==> Stands(d, r, a))
    {
    }
  }

  /** All but the register released. */
  lemma ReleaseHolds(c: Jit, r: Reg, a: word)
    requires Release(c, r).Some? && c.regs[r].pinned
    ensures var d := Release(c, r).value;
      && Free(d, r) && d.regs[r].pinned
      && forall s: Reg | c.regs[s].pinned && s != r :: d.regs[s].pinned && (Stands(c, s, a) ==> Stands(d, s, a))
    decreases Held(c), 2
  {
    hide FlushPending, Stands, Lookup;
    var c1 := c;
    SameHolds(c, c, a);
    if c.pend {
      var (v, c2) := CacheFind(c, c.pendAddr);
      TouchOk(c, v);
      SameHolds(c, c2, a);
      c1 := c2;
      if Uses(v, r) {
        FlushHolds(c2, a);
        c1 := FlushPending(c2).value;
        HoldsTrans(c, c2, c1, a);
      }
    }
    forall s: Reg | c.regs[s].pinned && s != r
      ensures DropReg(c1, r).regs[s].pinned && (Stands(c, s, a) ==> Stands(DropReg(c1, r), s, a))
    {
      DropHolds(c1, r, s, a);
    }
  }

  lemma DropHolds(c: Jit, r: Reg, s: Reg, a: word)
    requires s != r
    ensures DropReg(c, r).regs[s] == c.regs[s] && (Stands(c, s, a) ==> Stands(DropReg(c, r), s, a))
  {
    var d := DropReg(c, r);
    if i :| 0 <= i < 16 && c.aliases[i].used && c.aliases[i].reg == s && c.aliases[i].addr == a {
      assert d.aliases[i] == c.aliases[i];
    }
  }

  lemma ToRegHolds(c: Jit, v: CVal, a: word)
    requires v != NoVal && ToReg(c, v).Some?
    ensures var (r, d) := ToReg(c, v).value;
      Holds(c, d, a) && if v.InReg? then r == v.r && d == c else !c.regs[r].pinned && d.regs[r].pinned && Free(d, r)
    ensures v.NegReg? ==> ToReg(c, v).value.0 != v.r
    decreases Held(c), 4
  {
    hide Scratch, Stands;
    match v
    case InReg(_) => SameHolds(c, c, a);
    case NegReg(s) =>
      var (r, c1) := Scratch(Pin(c, s)).value;
      ScratchHolds(Pin(c, s), a);
      SameHolds(c, Pin(c, s), a);
      SameHolds(c1, Negate(Emit(c1, MovRR(r, s)), r), a);
    case Const(n) =>
      var (r, c1) := Scratch(c).value;
      ScratchHolds(c, a);
      SameHolds(c1, Emit(c1, MovImm(r, n)), a);
  }

  lemma StoreToHolds(c: Jit, dst: Opnd, r: Reg, a: word)
    requires StoreTo(c, dst, r).Some?
    ensures Holds(c, StoreTo(c, dst, r).value, a)
    decreases Held(c), 4
  {
    hide Scratch, Stands;
    if c.movbe {
      SameHolds(c, StoreTo(c, dst, r).value, a);
    } else {
      ScratchHolds(c, a);
      SameHolds(Scratch(c).value.1, StoreTo(c, dst, r).value, a);
    }
  }

  lemma StoreRegHolds(c: Jit, r: Reg, dst: Opnd, a: word)
    requires StoreReg(c, r, dst).Some?
    ensures Holds(c, StoreReg(c, r, dst).value, a)
    decreases Held(c), 5
  {
    hide Scratch, StoreTo, Stands;
    if dst.Abs? && !FitsDisp(dst.a) {
      var (b, c1) := Scratch(c).value;
      ScratchHolds(c, a);
      SameHolds(c1, Emit(c1, MovImm(b, dst.a)), a);
      StoreToHolds(Emit(c1, MovImm(b, dst.a)), Ind(b), r, a);
    } else {
      StoreToHolds(c, dst, r, a);
    }
  }

  lemma StoreConstHolds(c: Jit, v: word, dst: Opnd, a: word)
    requires StoreConst(c, v, dst).Some?
    ensures Holds(c, StoreConst(c, v, dst).value, a)
    decreases Held(c), 5
  {
    hide Scratch, Stands, Bswap;
    var e := StoreConst(c, v, dst).value;
    if dst.Abs? && FitsDisp(dst.a) && Imm32(Bswap(v)) {
      SameHolds(c, e, a);
    } else {
      var (t, c1) := Scratch(c).value;
      ScratchHolds(c, a);
      var c2 := Emit(c1, MovImm(t, Bswap(v)));
      SameHolds(c1, c2, a);
      if dst.Abs? && !FitsDisp(dst.a) {
        ScratchHolds(c2, a);
        SameHolds(Scratch(c2).value.1, e, a);
      } else {
        SameHolds(c2, e, a);
      }
    }
  }

  lemma FlushHolds(c: Jit, a: word)
    requires FlushPending(c).Some?
    ensures Holds(c, FlushPending(c).value, a)
    decreases Held(c), 1
  {
    hide ToReg, StoreReg, StoreConst, Lookup, Stands;
    if !c.pend {
      SameHolds(c, c, a);
    } else {
      var d := c.(pend := false);
      var (v, c1) := CacheFind(d, c.pendAddr);
      TouchOk(d, v);
      SameHolds(c, c1, a);
      if v.Const? {
        StoreConstHolds(c1, v.v, Abs(c.pendAddr), a);
      } else {
        var p := Pin(c1, v.r);
        var (r, c2) := ToReg(p, v).value;
        var c3 := StoreReg(c2, r, Abs(c.pendAddr)).value;
        SameHolds(c1, p, a);
        ToRegHolds(p, v, a);
        StoreRegHolds(c2, r, Abs(c.pendAddr), a);
        UnpinHolds(c1, p, c2, c3, v, r, a);
      }
    }
  }

  lemma UnpinHolds(c: Jit, p: Jit, c2: Jit, c3: Jit, v: CVal, r: Reg, a: word)
    requires (v.InReg? || v.NegReg?) && p == Pin(c, v.r) && Holds(c, p, a) && Holds(p, c2, a) && Holds(c2, c3, a)
    requires if v.InReg? then r == v.r else !p.regs[r].pinned
    ensures var c4 := if r != v.r then Unpin(c3, r) else c3;
      Holds(c, if c.regs[v.r].pinned then Pin(c4, v.r) else Unpin(c4, v.r), a)
  {
    hide Stands;
    var c4 := if r != v.r then Unpin(c3, r) else c3;
    var e := if c.regs[v.r].pinned then Pin(c4, v.r) else Unpin(c4, v.r);
    forall s: Reg | c.regs[s].pinned
      ensures e.regs[s].pinned && (Stands(c, s, a) ==> Stands(e, s, a))
    {
      assert p.regs[s].pinned && c2.regs[s].pinned && c3.regs[s].pinned;
      StandsSame(c3, e, s, a);
    }
  }

  lemma StandsSame(c: Jit, d: Jit, s: Reg, a: word)
    requires d.aliases == c.aliases && d.regs[s].used == c.regs[s].used && d.regs[s].addr == c.regs[s].addr
    ensures Stands(c, s, a) == Stands(d, s, a)
  {
  }

  // ------------------------------------------------------------ the operands

  lemma LoadFrame(c: Jit, r: Reg, b: word, src: Opnd)
    ensures LoadStatic(c, r, b) == c.(code := LoadStatic(c, r, b).code)
    ensures LoadMem(c, r, src) == c.(code := LoadMem(c, r, src).code)
  {
  }

  /** Caching another word in a free register. */
  lemma BindHolds(c: Jit, r: Reg, b: word, a: word)
    requires Free(c, r) && c.regs[r].pinned && b != a
    ensures Holds(c, Bind(c, r, b), a) && Bind(c, r, b).regs[r].pinned
  {
    var d := Bind(c, r, b);
    forall s: Reg | c.regs[s].pinned
      ensures d.regs[s].pinned && (Stands(c, s, a) ==> Stands(d, s, a))
    {
      if i :| 0 <= i < 16 && c.aliases[i].used && c.aliases[i].reg == s && c.aliases[i].addr == a {
        assert d.aliases[i] == c.aliases[i];
      }
    }
  }

  /** What nothing stands for has no value cached, and the other way. */
  lemma StandsFound(c: Jit, r: Reg, a: word)
    requires Stands(c, r, a)
    ensures Lookup(c, a) != NoVal
  {
    hide FindReg, FindConst, FindAlias;
  }

  lemma FoundStands(c: Jit, r: Reg, a: word)
    requires Lookup(c, a) == InReg(r)
    ensures Stands(c, r, a)
  {
    hide FindReg, FindConst, FindAlias;
  }

  lemma LoadUncachedHolds(c: Jit, b: word, a: word)
    requires LoadUncached(c, b).Some? && (b == a ==> Lookup(c, a) == NoVal)
    ensures var (v, d) := LoadUncached(c, b).value;
      Holds(c, d, a) && v.InReg? && d.regs[v.r].pinned && !c.regs[v.r].pinned
  {
    hide Scratch, FlushPending, LoadStatic, Lookup, Stands, Bind, Low, High;
    var fl := c.pend && b % 8 != 0 && (c.pendAddr == Low(b) || c.pendAddr == High(b));
    SameHolds(c, c, a);
    if fl {
      FlushHolds(c, a);
    }
    var c1 := if fl then FlushPending(c).value else c;
    ScratchHolds(c1, a);
    var (r, c2) := Scratch(c1).value;
    HoldsTrans(c, c1, c2, a);
    LoadFrame(c2, r, b, Abs(b));
    var c3 := LoadStatic(c2, r, b);
    SameHolds(c2, c3, a);
    HoldsTrans(c, c2, c3, a);
    assert !c.regs[r].pinned;
    if b == a {
      forall s: Reg | c.regs[s].pinned
        ensures !Stands(c, s, a)
      {
        if Stands(c, s, a) {
          StandsFound(c, s, a);
        }
      }
      BindPins(c3, r, b);
    } else {
      BindHolds(c3, r, b, a);
      HoldsTrans(c, c3, Bind(c3, r, b), a);
    }
  }

  lemma BindPins(c: Jit, r: Reg, b: word)
    requires c.regs[r].pinned
    ensures forall s: Reg :: c.regs[s].pinned ==> Bind(c, r, b).regs[s].pinned
  {
  }

  predicate PinnedIn(c: Jit, v: CVal) { v.InReg? || v.NegReg? ==> c.regs[v.r].pinned }

  lemma PinValHolds(c: Jit, v: CVal, a: word)
    ensures Holds(c, PinVal(c, v), a) && PinnedIn(PinVal(c, v), v)
  {
    SameHolds(c, PinVal(c, v), a);
  }

  lemma FindHolds(c: Jit, b: word, a: word)
    ensures Holds(c, CacheFind(c, b).1, a) && Lookup(CacheFind(c, b).1, a) == Lookup(c, a)
  {
    hide Lookup;
    var (v, d) := CacheFind(c, b);
    TouchOk(c, v);
    SameHolds(c, d, a);
    SameLookup(c, d, a);
  }

  lemma GetWordHolds(c: Jit, b: word, a: word)
    requires GetWord(c, b).Some?
    ensures var (v, d) := GetWord(c, b).value; Holds(c, d, a) && PinnedIn(d, v)
  {
    hide LoadUncached, Lookup, Stands, Touch, PinVal;
    var (v, c1) := CacheFind(c, b);
    FindHolds(c, b, a);
    if v != NoVal {
      PinValHolds(c1, v, a);
      HoldsTrans(c, c1, PinVal(c1, v), a);
    } else {
      assert v == Lookup(c, b);
      LoadUncachedHolds(c1, b, a);
      HoldsTrans(c, c1, LoadUncached(c1, b).value.1, a);
    }
  }

  lemma ShiftedHolds(c: Jit, v: CVal, left: bool, n: nat, a: word)
    requires v != NoVal && Shifted(c, v, left, n).Some?
    ensures var (x, d) := Shifted(c, v, left, n).value; Holds(c, d, a) && PinnedIn(d, x)
  {
    hide ToReg, Scratch, Stands, Shl, Shr;
    if v.Const? {
      SameHolds(c, c, a);
    } else {
      ToRegHolds(c, v, a);
      var (s, c1) := ToReg(c, v).value;
      ScratchHolds(c1, a);
      var c2 := Scratch(c1).value.1;
      var d := Shifted(c, v, left, n).value.1;
      SameHolds(c2, d, a);
    }
  }

  lemma OrValHolds(c: Jit, r: Reg, v: CVal, a: word)
    requires v != NoVal && OrVal(c, r, v).Some?
    ensures Holds(c, OrVal(c, r, v).value, a)
  {
    hide ToReg, Stands;
    SameHolds(c, c, a);
    if v != Const(0) {
      ToRegHolds(c, v, a);
      var (t, c1) := ToReg(c, v).value;
      var d := OrVal(c, r, v).value;
      forall s: Reg | c.regs[s].pinned
        ensures d.regs[s].pinned && (Stands(c, s, a) ==> Stands(d, s, a))
      {
        StandsSame(c1, d, s, a);
      }
    }
  }

  lemma CombineHolds(c: Jit, lo: CVal, hi: CVal, k: nat, a: word)
    requires lo != NoVal && hi != NoVal && k <= 64 && Combine(c, lo, hi, k).Some?
    ensures var (v, d) := Combine(c, lo, hi, k).value; Holds(c, d, a) && PinnedIn(d, v)
  {
    hide Shifted, OrVal, Stands, Or;
    var (v, c1) := Shifted(c, lo, true, k).value;
    var (h, c2) := Shifted(c1, hi, false, 64 - k).value;
    ShiftedHolds(c, lo, true, k, a);
    ShiftedHolds(c1, hi, false, 64 - k, a);
    HoldsTrans(c, c1, c2, a);
    assert PinnedIn(c2, v) && PinnedIn(c2, h);
    if !(v.Const? && h.Const?) {
      var (x, y) := if v.Const? then (h, v) else (v, h);
      OrValHolds(c2, x.r, y, a);
      HoldsTrans(c, c2, OrVal(c2, x.r, y).value, a);
    }
  }

  lemma AlignedGet(c: Jit, b: word)
    requires b % 8 == 0
    ensures GetStatic(c, b) == GetWord(c, b)
  {
    hide GetWord, LoadUncached, Combine, Lookup;
  }

  lemma SpannedAligned(b: word)
    ensures Low(b) % 8 == 0 && High(b) % 8 == 0
  {
  }

  lemma GetStaticHolds(c: Jit, b: word, a: word)
    requires GetStatic(c, b).Some?
    ensures var (v, d) := GetStatic(c, b).value; Holds(c, d, a) && PinnedIn(d, v)
  {
    hide GetWord, LoadUncached, Combine, Stands, Lookup, CacheFind, PinVal, Cacheable;
    if Spans(b) {
      var (vl, c1) := CacheFind(c, Low(b));
      var (vh, c2) := CacheFind(c1, High(b));
      FindHolds(c, Low(b), a);
      FindHolds(c1, High(b), a);
      HoldsTrans(c, c1, c2, a);
      if vl == NoVal && vh == NoVal {
        UnalignedNotFound(c2, b);
        LoadUncachedHolds(c2, b, a);
        HoldsTrans(c, c2, LoadUncached(c2, b).value.1, a);
      } else {
        BothHold(c2, vl, vh, b, a);
      }
    } else {
      GetWordHolds(c, b, a);
    }
  }

  lemma BothHold(c: Jit, vl: CVal, vh: CVal, b: word, a: word)
    requires vl == NoVal ==> GetStatic(PinVal(PinVal(c, vl), vh), Low(b)).Some?
    requires
      var c3 := PinVal(PinVal(c, vl), vh);
      var c4 := if vl == NoVal then GetStatic(c3, Low(b)).value.1 else c3;
      vh == NoVal ==> GetStatic(c4, High(b)).Some?
    requires
      var c3 := PinVal(PinVal(c, vl), vh);
      var (lo, c4) := if vl == NoVal then GetStatic(c3, Low(b)).value else (vl, c3);
      var (hi, c5) := if vh == NoVal then GetStatic(c4, High(b)).value else (vh, c4);
      lo != NoVal && hi != NoVal && Combine(c5, lo, hi, Offset(b)).Some?
    ensures
      var c3 := PinVal(PinVal(c, vl), vh);
      var (lo, c4) := if vl == NoVal then GetStatic(c3, Low(b)).value else (vl, c3);
      var (hi, c5) := if vh == NoVal then GetStatic(c4, High(b)).value else (vh, c4);
      var (v, d) := Combine(c5, lo, hi, Offset(b)).value;
      Holds(c, d, a) && PinnedIn(d, v)
  {
    hide GetStatic, GetWord, Combine, Stands, PinVal, Holds, Low, High;
    var c3 := PinVal(PinVal(c, vl), vh);
    PinValHolds(c, vl, a);
    PinValHolds(PinVal(c, vl), vh, a);
    HoldsTrans(c, PinVal(c, vl), c3, a);
    SpannedAligned(b);
    AlignedGet(c3, Low(b));
    var (lo, c4) := if vl == NoVal then GetStatic(c3, Low(b)).value else (vl, c3);
    if vl == NoVal {
      GetWordHolds(c3, Low(b), a);
      HoldsTrans(c, c3, c4, a);
    }
    AlignedGet(c4, High(b));
    var (hi, c5) := if vh == NoVal then GetStatic(c4, High(b)).value else (vh, c4);
    if vh == NoVal {
      GetWordHolds(c4, High(b), a);
      HoldsTrans(c, c4, c5, a);
    }
    CombineHolds(c5, lo, hi, Offset(b), a);
    HoldsTrans(c, c5, Combine(c5, lo, hi, Offset(b)).value.1, a);
  }

  lemma UnalignedNotFound(c: Jit, b: word)
    requires Spans(b)
    ensures Lookup(c, b) == NoVal
  {
  }

  // --------------------------------------------------------- the instruction

  lemma ReadFieldHolds(c: Jit, b: word, dyn: bool, val: word, a: word)
    ensures var (f, d) := ReadField(c, b, dyn, val);
      && Holds(c, d, a) && (f.Dynamic? ==> PinnedIn(d, f.v))
      && (b == a && f.Dynamic? && f.v.InReg? ==> Stands(d, f.v.r, a))
  {
    hide Lookup, Stands, Touch, PinVal;
    SameHolds(c, c, a);
    if dyn {
      var (v, c1) := CacheFind(c, b);
      FindHolds(c, b, a);
      PinValHolds(c1, v, a);
      HoldsTrans(c, c1, PinVal(c1, v), a);
      if b == a && v.InReg? {
        FoundStands(c, v.r, a);
        PinnedStands(c, PinVal(c1, v), v.r, a) by { TouchOk(c, v); PinKeeps(c1, v); }
      }
    }
  }

  lemma PinKeeps(c: Jit, v: CVal)
    ensures PinVal(c, v).aliases == c.aliases
    ensures forall r | 0 <= r < 11 :: PinVal(c, v).regs[r].used == c.regs[r].used && PinVal(c, v).regs[r].addr == c.regs[r].addr
  {
  }

  lemma PinnedStands(c: Jit, d: Jit, s: Reg, a: word)
    requires Stands(c, s, a) && d.aliases == c.aliases && d.regs[s].used == c.regs[s].used && d.regs[s].addr == c.regs[s].addr
    ensures Stands(d, s, a)
  {
  }

  lemma ReadFieldsHolds(c: Jit, s: Source, a: word)
    requires a == Add(s.p, 16)
    ensures var (f, d) := ReadFields(c, s);
      (f.c.Dynamic? && f.c.v.InReg? ==> d.regs[f.c.v.r].pinned && Stands(d, f.c.v.r, a))
  {
    hide ReadField, UnpinAll, Stands;
    var (_, c1) := ReadField(UnpinAll(c), s.p, s.da, s.fa);
    var (_, c2) := ReadField(c1, Add(s.p, 8), s.db, s.fb);
    ReadFieldHolds(c2, a, s.dc, s.fc, a);
  }

  lemma FieldRegHolds(c: Jit, v: CVal, b: word, bind: bool, a: word)
    requires FieldReg(c, v, b, bind).Some? && (bind ==> b != a)
    ensures var (r, d) := FieldReg(c, v, b, bind).value;
      Holds(c, d, a) && if v.InReg? then r == v.r && d == c else !c.regs[r].pinned && d.regs[r].pinned
  {
    hide ToReg, Scratch, LoadStatic, Bind, Stands;
    if v != NoVal {
      ToRegHolds(c, v, a);
    } else {
      ScratchHolds(c, a);
      var (r, c1) := Scratch(c).value;
      var c2 := LoadStatic(c1, r, b);
      LoadFrame(c1, r, b, Abs(b));
      SameHolds(c1, c2, a);
      HoldsTrans(c, c1, c2, a);
      if bind {
        BindHolds(c2, r, b, a);
        HoldsTrans(c, c2, Bind(c2, r, b), a);
      }
    }
  }

  lemma SnapHolds(c: Jit, a: word)
    ensures Holds(c, SnapPending(c).1, a)
  {
    hide Stands, Lookup;
    SameHolds(c, c, a);
    FindHolds(c, c.pendAddr, a);
  }

  lemma CheckWordHolds(b: Build, w: int, i: nat, k: Checks, a: word)
    ensures Holds(b.c, CheckWord(b, w, i, k).c, a)
  {
    hide Stands, SnapPending;
    SameHolds(b.c, b.c, a);
    var c1 := SnapPending(b.c).1;
    var c2 := Emit(c1, JmpMarked(w, Smc(|b.smcs|)));
    SnapHolds(b.c, a);
    SameHolds(c1, c2, a);
    HoldsTrans(b.c, c1, c2, a);
  }

  lemma CheckStaticHolds(b: Build, fb: word, i: nat, k: Checks, a: word)
    ensures Holds(b.c, CheckStatic(b, fb, i, k).c, a)
  {
    hide Stands, CheckWord;
    var b1 := CheckWord(b, fb / 8, i, k);
    CheckWordHolds(b, fb / 8, i, k, a);
    CheckWordHolds(b1, Add(fb, 7) / 8, i, k, a);
    HoldsTrans(b.c, b1.c, CheckWord(b1, Add(fb, 7) / 8, i, k).c, a);
  }

  lemma CheckDynamicHolds(b: Build, rb: Reg, i: nat, a: word)
    requires CheckDynamic(b, rb, i).Some?
    ensures Holds(b.c, CheckDynamic(b, rb, i).value.c, a)
  {
    hide Stands, Scratch, SnapPending;
    var (t1, c1) := Scratch(b.c).value;
    var (t2, c2) := Scratch(c1).value;
    ScratchHolds(b.c, a);
    ScratchHolds(c1, a);
    var c3 := Emit(Emit(c2, MovRR(t1, rb)), ShrRI(t1, 12));
    SameHolds(c2, c3, a);
    var (p, c4) := SnapPending(c3);
    SnapHolds(c3, a);
    var c5 := Emit(c4, JmpPage(rb, t1, t2, Smc(|b.smcs|)));
    var d := Unpin(Unpin(c5, t1), t2);
    assert !c1.regs[t2].pinned && !b.c.regs[t1].pinned;
    forall s: Reg | b.c.regs[s].pinned
      ensures d.regs[s].pinned && (Stands(b.c, s, a) ==> Stands(d, s, a))
    {
      assert c1.regs[s].pinned && c2.regs[s].pinned && c3.regs[s].pinned && c4.regs[s].pinned;
      StandsSame(c4, d, s, a);
    }
  }

  lemma CheckStoreHolds(b: Build, s: Source, f: Field, k: Checks, a: word)
    requires CheckStore(b, s, f, k).Some? && a == Add(s.p, 16)
    ensures Holds(b.c, CheckStore(b, s, f, k).value.1.c, a)
  {
    hide Stands, CheckStatic, CheckDynamic, FieldReg;
    if f.Known? {
      CheckStaticHolds(b, f.val, s.i, k, a);
    } else {
      var (rb, c1) := FieldReg(b.c, f.v, Add(s.p, 8), true).value;
      FieldRegHolds(b.c, f.v, Add(s.p, 8), true, a);
      CheckDynamicHolds(b.(c := c1), rb, s.i, a);
      HoldsTrans(b.c, c1, CheckDynamic(b.(c := c1), rb, s.i).value.c, a);
    }
  }

  lemma LoadThroughHolds(c: Jit, ra: Reg, a: word)
    requires LoadThrough(c, ra).Some?
    ensures var (v, d) := LoadThrough(c, ra).value; Holds(c, d, a) && PinnedIn(d, v)
  {
    hide Stands, FlushPending, Scratch, LoadMem;
    var c1 := FlushPending(c).value;
    FlushHolds(c, a);
    var (r, c2) := Scratch(c1).value;
    ScratchHolds(c1, a);
    HoldsTrans(c, c1, c2, a);
    LoadFrame(c2, r, 0, Ind(ra));
    SameHolds(c2, LoadMem(c2, r, Ind(ra)), a);
    HoldsTrans(c, c2, LoadMem(c2, r, Ind(ra)), a);
  }

  lemma OperandAHolds(c: Jit, s: Source, f: Field, a: word)
    requires OperandA(c, s, f).Some? && a == Add(s.p, 16)
    ensures Holds(c, OperandA(c, s, f).value.1, a)
  {
    hide Stands, GetStatic, FieldReg, LoadThrough;
    if f.Known? {
      GetStaticHolds(c, f.val, a);
    } else {
      var (ra, c1) := FieldReg(c, f.v, s.p, true).value;
      FieldRegHolds(c, f.v, s.p, true, a);
      LoadThroughHolds(c1, ra, a);
      HoldsTrans(c, c1, LoadThrough(c1, ra).value.1, a);
    }
  }

  lemma OperandBHolds(c: Jit, f: Field, rb: Reg, a: word)
    requires OperandB(c, f, rb).Some?
    ensures var (v, d) := OperandB(c, f, rb).value; Holds(c, d, a) && PinnedIn(d, v)
  {
    hide Stands, GetStatic, LoadThrough;
    if f.Known? {
      GetStaticHolds(c, f.val, a);
    } else {
      LoadThroughHolds(c, rb, a);
    }
  }

  /** Where there is a branch, the result goes where B's value is, if nothing
      else is there, or to a register not in use. */
  lemma ComputeFresh(c: Jit, va: CVal, vb: CVal, f: Field)
    requires va != NoVal && vb != NoVal && Compute(c, va, vb, f, true).Some?
    ensures var x := Compute(c, va, vb, f, true).value.0;
      !x.kept && x.res.InReg? ==> (InPlace(c, vb, f) && x.res.r == vb.r) || !c.regs[x.res.r].pinned
  {
    hide Stands, Scratch, ToReg, Holds;
    if vb == Const(0) && ToReg(c, va).Some? {
      ToRegHolds(c, va, 0);
      var c1 := ToReg(c, va).value.1;
      if Scratch(c1).Some? {
        ScratchHolds(c1, 0);
      }
    }
    if Scratch(c).Some? {
      ScratchHolds(c, 0);
    }
    if ToReg(c, vb).Some? {
      ToRegHolds(c, vb, 0);
    }
  }

  // ------------------------------------------------------ when it matters

  /** The instruction stores to its own C, and branches: the C it read before
      the store is not the C it leaves, unless A is 0. */
  predicate OwnJump(s: Cpu) {
    var a, b := Rd(s.mem, s.eip), Rd(s.mem, Add(s.eip, 8));
    b == Add(s.eip, 16) && Taken(Rd(s.mem, b), Rd(s.mem, a)) && Rd(s.mem, a) != 0
  }
}
