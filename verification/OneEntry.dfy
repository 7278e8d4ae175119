/** Every step of the translator keeps at most one cache entry per word. */
module OneEntry {
  import opened Options
  import opened Words
  import opened Bits
  import opened Memory
  import opened X86
  import opened RegCache
  import opened CacheProofs
  import opened Operands
  import opened Insn
  import opened CopyLoop
  import opened Blocks

  /** No word has two entries, of one kind or of two. */
  ghost predicate Single(c: Jit) {
    && (forall i, j | 0 <= i < j < 11 && c.regs[i].used && c.regs[j].used :: c.regs[i].addr != c.regs[j].addr)
    && (forall i, j | 0 <= i < j < 16 && c.consts[i].used && c.consts[j].used :: c.consts[i].addr != c.consts[j].addr)
    && (forall i, j | 0 <= i < j < 16 && c.aliases[i].used && c.aliases[j].used :: c.aliases[i].addr != c.aliases[j].addr)
    && (forall i, j | 0 <= i < 11 && 0 <= j < 16 && c.regs[i].used && c.consts[j].used :: c.regs[i].addr != c.consts[j].addr)
    && (forall i, j | 0 <= i < 11 && 0 <= j < 16 && c.regs[i].used && c.aliases[j].used :: c.regs[i].addr != c.aliases[j].addr)
    && (forall i, j | 0 <= i < 16 && 0 <= j < 16 && c.consts[i].used && c.aliases[j].used :: c.consts[i].addr != c.aliases[j].addr)
  }

  /** d's entries are c's, where they were. */
  ghost predicate Fewer(c: Jit, d: Jit) {
    && (forall i | 0 <= i < 11 && d.regs[i].used :: c.regs[i].used && d.regs[i].addr == c.regs[i].addr)
    && (forall i | 0 <= i < 16 && d.consts[i].used :: c.consts[i].used && d.consts[i].addr == c.consts[i].addr)
    && (forall i | 0 <= i < 16 && d.aliases[i].used ::
          c.aliases[i].used && d.aliases[i].addr == c.aliases[i].addr && d.aliases[i].reg == c.aliases[i].reg)
  }

  /** No entry is for a. */
  predicate NoEntry(c: Jit, a: word) {
    && (forall i | 0 <= i < 11 && c.regs[i].used :: c.regs[i].addr != a)
    && (forall i | 0 <= i < 16 && c.consts[i].used :: c.consts[i].addr != a)
    && (forall i | 0 <= i < 16 && c.aliases[i].used :: c.aliases[i].addr != a)
  }

  lemma FewerSingle(c: Jit, d: Jit)
    requires Single(c) && Fewer(c, d)
    ensures Single(d)
  {
  }

  lemma FewerNone(c: Jit, d: Jit, a: word)
    requires NoEntry(c, a) && Fewer(c, d)
    ensures NoEntry(d, a)
  {
  }

  lemma FewerTrans(c: Jit, d: Jit, e: Jit)
    requires Fewer(c, d) && Fewer(d, e)
    ensures Fewer(c, e)
  {
  }

  lemma SameFewer(c: Jit, d: Jit)
    requires d.consts == c.consts && d.aliases == c.aliases
    requires forall i | 0 <= i < 11 :: d.regs[i].used == c.regs[i].used && d.regs[i].addr == c.regs[i].addr
    ensures Fewer(c, d)
  {
  }

  lemma DropFewer(c: Jit, a: word, r: Reg)
    ensures Fewer(c, CacheDrop(c, a)) && NoEntry(CacheDrop(c, a), a)
    ensures Fewer(c, DropReg(c, r)) && Fewer(c, CacheDropAll(c))
  {
  }

  lemma TouchFewer(c: Jit, a: word)
    ensures Fewer(c, CacheFind(c, a).1)
  {
    hide Lookup;
    TouchOk(c, Lookup(c, a));
    SameFewer(c, CacheFind(c, a).1);
  }

  // ----------------------------------------------------- entries only go

  lemma ScratchFewer(c: Jit)
    requires Scratch(c).Some?
    ensures Fewer(c, Scratch(c).value.1)
    decreases Held(c), 3
  {
    hide Release, ScratchScan, Fewer;
    var best := ScratchScan(c, 0, -1);
    SameFewer(c, Pin(c, best));
    ReleaseFewer(Pin(c, best), best);
    FewerTrans(c, Pin(c, best), Scratch(c).value.1);
  }

  lemma ReleaseFewer(c: Jit, r: Reg)
    requires Release(c, r).Some?
    ensures Fewer(c, Release(c, r).value)
    decreases Held(c), 2
  {
    hide FlushPending, Lookup, Fewer, DropReg;
    SameFewer(c, c);
    var c1 := c;
    if c.pend {
      var (v, c2) := CacheFind(c, c.pendAddr);
      TouchFewer(c, c.pendAddr);
      c1 := c2;
      if Uses(v, r) {
        FlushFewer(c2);
        c1 := FlushPending(c2).value;
        FewerTrans(c, c2, c1);
      }
    }
    DropFewer(c1, 0, r);
    FewerTrans(c, c1, DropReg(c1, r));
  }

  lemma ToRegFewer(c: Jit, v: CVal)
    requires v != NoVal && ToReg(c, v).Some?
    ensures Fewer(c, ToReg(c, v).value.1)
    decreases Held(c), 4
  {
    hide Scratch, Fewer;
    match v
    case InReg(_) => SameFewer(c, c);
    case NegReg(s) =>
      var (r, c1) := Scratch(Pin(c, s)).value;
      SameFewer(c, Pin(c, s));
      ScratchFewer(Pin(c, s));
      SameFewer(c1, Negate(Emit(c1, MovRR(r, s)), r));
      FewerTrans(c, Pin(c, s), c1);
      FewerTrans(c, c1, ToReg(c, v).value.1);
    case Const(n) =>
      var (r, c1) := Scratch(c).value;
      ScratchFewer(c);
      SameFewer(c1, Emit(c1, MovImm(r, n)));
      FewerTrans(c, c1, ToReg(c, v).value.1);
  }

  lemma StoreToFewer(c: Jit, dst: Opnd, r: Reg)
    requires StoreTo(c, dst, r).Some?
    ensures Fewer(c, StoreTo(c, dst, r).value)
    decreases Held(c), 4
  {
    hide Scratch, Fewer;
    if c.movbe {
      SameFewer(c, StoreTo(c, dst, r).value);
    } else {
      ScratchFewer(c);
      SameFewer(Scratch(c).value.1, StoreTo(c, dst, r).value);
      FewerTrans(c, Scratch(c).value.1, StoreTo(c, dst, r).value);
    }
  }

  lemma StoreRegFewer(c: Jit, r: Reg, dst: Opnd)
    requires StoreReg(c, r, dst).Some?
    ensures Fewer(c, StoreReg(c, r, dst).value)
    decreases Held(c), 5
  {
    hide Scratch, StoreTo, Fewer;
    if dst.Abs? && !FitsDisp(dst.a) {
      var (b, c1) := Scratch(c).value;
      var c2 := Emit(c1, MovImm(b, dst.a));
      ScratchFewer(c);
      SameFewer(c1, c2);
      StoreToFewer(c2, Ind(b), r);
      FewerTrans(c, c1, c2);
      FewerTrans(c, c2, StoreReg(c, r, dst).value);
    } else {
      StoreToFewer(c, dst, r);
    }
  }

  lemma StoreConstFewer(c: Jit, v: word, dst: Opnd)
    requires StoreConst(c, v, dst).Some?
    ensures Fewer(c, StoreConst(c, v, dst).value)
    decreases Held(c), 5
  {
    hide Scratch, Fewer, Bswap;
    var e := StoreConst(c, v, dst).value;
    if dst.Abs? && FitsDisp(dst.a) && Imm32(Bswap(v)) {
      SameFewer(c, e);
    } else {
      var (t, c1) := Scratch(c).value;
      ScratchFewer(c);
      var c2 := Emit(c1, MovImm(t, Bswap(v)));
      SameFewer(c1, c2);
      FewerTrans(c, c1, c2);
      if dst.Abs? && !FitsDisp(dst.a) {
        ScratchFewer(c2);
        SameFewer(Scratch(c2).value.1, e);
        FewerTrans(c, c2, Scratch(c2).value.1);
        FewerTrans(c, Scratch(c2).value.1, e);
      } else {
        SameFewer(c2, e);
        FewerTrans(c, c2, e);
      }
    }
  }

  lemma FlushFewer(c: Jit)
    requires FlushPending(c).Some?
    ensures Fewer(c, FlushPending(c).value)
    decreases Held(c), 1
  {
    hide ToReg, StoreReg, StoreConst, Lookup, Fewer;
    SameFewer(c, c);
    if c.pend {
      var d := c.(pend := false);
      var (v, c1) := CacheFind(d, c.pendAddr);
      SameFewer(c, d);
      TouchFewer(d, c.pendAddr);
      FewerTrans(c, d, c1);
      if v.Const? {
        StoreConstFewer(c1, v.v, Abs(c.pendAddr));
        FewerTrans(c, c1, FlushPending(c).value);
      } else {
        var p := Pin(c1, v.r);
        var (r, c2) := ToReg(p, v).value;
        var c3 := StoreReg(c2, r, Abs(c.pendAddr)).value;
        SameFewer(c1, p);
        ToRegFewer(p, v);
        StoreRegFewer(c2, r, Abs(c.pendAddr));
        SameFewer(c3, FlushPending(c).value);
        FewerTrans(c, c1, p);
        FewerTrans(c, p, c2);
        FewerTrans(c, c2, c3);
        FewerTrans(c, c3, FlushPending(c).value);
      }
    }
  }

  // ------------------------------------------------------ one entry comes

  lemma BindSingle(c: Jit, r: Reg, a: word)
    requires Single(c)
    ensures Single(Bind(c, r, a))
  {
    if Cacheable(a) {
      DropFewer(c, a, r);
      FewerSingle(c, CacheDrop(c, a));
      PutReg(CacheDrop(c, a), Bind(c, r, a), r, a);
    }
  }

  lemma PutReg(c: Jit, d: Jit, r: Reg, a: word)
    requires Single(c) && NoEntry(c, a) && d.consts == c.consts && d.aliases == c.aliases
    requires d.regs == c.regs[r := d.regs[r]] && d.regs[r].addr == a
    ensures Single(d)
  {
  }

  lemma PutConst(c: Jit, d: Jit, i: nat, a: word)
    requires Single(c) && NoEntry(c, a) && i < 16 && d.regs == c.regs && d.aliases == c.aliases
    requires d.consts == c.consts[i := d.consts[i]] && d.consts[i].addr == a
    ensures Single(d)
  {
  }

  lemma PutAlias(c: Jit, d: Jit, i: nat, a: word)
    requires Single(c) && NoEntry(c, a) && i < 16 && d.regs == c.regs && d.consts == c.consts
    requires d.aliases == c.aliases[i := d.aliases[i]] && d.aliases[i].addr == a
    ensures Single(d)
  {
  }

  lemma SetConstSingle(c: Jit, a: word, x: word)
    requires Single(c)
    ensures Single(SetConst(c, a, x))
  {
    hide FreeConst, Single;
    var d := CacheDrop(c, a);
    DropFewer(c, a, 0);
    FewerSingle(c, d);
    if Cacheable(a) {
      var k := FreeConst(d.consts, 0);
      var i := if k < 16 then k else d.constNext % 16;
      PutConst(d, SetConst(c, a, x), i, a);
    }
  }

  lemma SetAliasSingle(c: Jit, a: word, r: Reg, neg: bool)
    requires Single(c) && SetAlias(c, a, r, neg).Some?
    ensures Single(SetAlias(c, a, r, neg).value)
  {
    hide FreeAlias, Single, FlushPending, CacheDrop, NoEntry, Fewer;
    var d := CacheDrop(c, a);
    DropFewer(c, a, 0);
    FewerSingle(c, d);
    if Cacheable(a) {
      var k := FreeAlias(d.aliases, 0);
      if k < 16 {
        PutAlias(d, SetAlias(c, a, r, neg).value, k, a);
      } else {
        var i := d.aliasNext % 16;
        var e := d.(aliasNext := d.aliasNext + 1);
        SameFewer(d, e);
        var f := if e.pend && e.pendAddr == e.aliases[i].addr then FlushPending(e).value else e;
        if e.pend && e.pendAddr == e.aliases[i].addr {
          FlushFewer(e);
          FewerTrans(d, e, f);
        }
        FewerSingle(d, f);
        FewerNone(d, f, a);
        PutAlias(f, SetAlias(c, a, r, neg).value, i, a);
      }
    }
  }

  // ------------------------------------------------------------ the operands

  lemma LoadFewer(c: Jit, r: Reg, a: word, src: Opnd)
    ensures Fewer(c, LoadStatic(c, r, a)) && Fewer(c, LoadMem(c, r, src))
  {
  }

  lemma PinValFewer(c: Jit, v: CVal)
    ensures Fewer(c, PinVal(c, v)) && Fewer(c, UnpinAll(c))
  {
  }

  lemma ShiftedFewer(c: Jit, v: CVal, left: bool, n: nat)
    requires v != NoVal && Shifted(c, v, left, n).Some?
    ensures Fewer(c, Shifted(c, v, left, n).value.1)
  {
    hide ToReg, Scratch, Fewer, Shl, Shr;
    SameFewer(c, c);
    if !v.Const? {
      var (s, c1) := ToReg(c, v).value;
      var (r, c2) := Scratch(c1).value;
      ToRegFewer(c, v);
      ScratchFewer(c1);
      FewerTrans(c, c1, c2);
      SameFewer(c2, Shifted(c, v, left, n).value.1);
      FewerTrans(c, c2, Shifted(c, v, left, n).value.1);
    }
  }

  lemma OrValFewer(c: Jit, r: Reg, v: CVal)
    requires v != NoVal && OrVal(c, r, v).Some?
    ensures Fewer(c, OrVal(c, r, v).value)
  {
    hide ToReg, Fewer;
    SameFewer(c, c);
    if v != Const(0) {
      var (t, c1) := ToReg(c, v).value;
      ToRegFewer(c, v);
      SameFewer(c1, OrVal(c, r, v).value);
      FewerTrans(c, c1, OrVal(c, r, v).value);
    }
  }

  lemma CombineFewer(c: Jit, lo: CVal, hi: CVal, k: nat)
    requires lo != NoVal && hi != NoVal && k <= 64 && Combine(c, lo, hi, k).Some?
    ensures Fewer(c, Combine(c, lo, hi, k).value.1)
  {
    hide Shifted, OrVal, Fewer, Or;
    var (v, c1) := Shifted(c, lo, true, k).value;
    var (h, c2) := Shifted(c1, hi, false, 64 - k).value;
    ShiftedFewer(c, lo, true, k);
    ShiftedFewer(c1, hi, false, 64 - k);
    FewerTrans(c, c1, c2);
    if !(v.Const? && h.Const?) {
      var (x, y) := if v.Const? then (h, v) else (v, h);
      OrValFewer(c2, x.r, y);
      FewerTrans(c, c2, OrVal(c2, x.r, y).value);
    }
  }

  lemma LoadUncachedSingle(c: Jit, a: word)
    requires Single(c) && LoadUncached(c, a).Some?
    ensures Single(LoadUncached(c, a).value.1)
  {
    hide FlushPending, Scratch, LoadStatic, Bind, Fewer, Single, Low, High;
    SameFewer(c, c);
    var fl := c.pend && a % 8 != 0 && (c.pendAddr == Low(a) || c.pendAddr == High(a));
    if fl {
      FlushFewer(c);
    }
    var c1 := if fl then FlushPending(c).value else c;
    var (r, c2) := Scratch(c1).value;
    ScratchFewer(c1);
    LoadFewer(c2, r, a, Abs(a));
    FewerTrans(c, c1, c2);
    FewerTrans(c, c2, LoadStatic(c2, r, a));
    FewerSingle(c, LoadStatic(c2, r, a));
    BindSingle(LoadStatic(c2, r, a), r, a);
  }

  lemma GetWordSingle(c: Jit, a: word)
    requires Single(c) && GetWord(c, a).Some?
    ensures Single(GetWord(c, a).value.1)
  {
    hide LoadUncached, Fewer, Single, Lookup, Touch, PinVal;
    var (v, c1) := CacheFind(c, a);
    TouchFewer(c, a);
    FewerSingle(c, c1);
    if v != NoVal {
      PinValFewer(c1, v);
      FewerSingle(c1, PinVal(c1, v));
    } else {
      LoadUncachedSingle(c1, a);
    }
  }

  lemma GetStaticSingle(c: Jit, a: word)
    requires Single(c) && GetStatic(c, a).Some?
    ensures Single(GetStatic(c, a).value.1)
    decreases a % 8 != 0
  {
    hide LoadUncached, GetWord, Fewer, Single, Lookup, Touch, PinVal, Combine;
    if Spans(a) {
      var (vl, c1) := CacheFind(c, Low(a));
      var (vh, c2) := CacheFind(c1, High(a));
      TouchFewer(c, Low(a));
      TouchFewer(c1, High(a));
      FewerTrans(c, c1, c2);
      FewerSingle(c, c2);
      if vl == NoVal && vh == NoVal {
        LoadUncachedSingle(c2, a);
      } else {
        var c3 := PinVal(PinVal(c2, vl), vh);
        PinValFewer(c2, vl);
        PinValFewer(PinVal(c2, vl), vh);
        FewerTrans(c2, PinVal(c2, vl), c3);
        FewerSingle(c2, c3);
        var (lo, c4) := if vl == NoVal then GetStatic(c3, Low(a)).value else (vl, c3);
        if vl == NoVal {
          GetStaticSingle(c3, Low(a));
        }
        var (hi, c5) := if vh == NoVal then GetStatic(c4, High(a)).value else (vh, c4);
        if vh == NoVal {
          GetStaticSingle(c4, High(a));
        }
        CombineFewer(c5, lo, hi, Offset(a));
        FewerSingle(c5, Combine(c5, lo, hi, Offset(a)).value.1);
      }
    } else {
      GetWordSingle(c, a);
    }
  }

  lemma AndImmFewer(c: Jit, r: Reg, mask: word)
    requires AndImm64(c, r, mask).Some?
    ensures Fewer(c, AndImm64(c, r, mask).value)
  {
    hide Scratch, Fewer;
    if Imm32(mask) || mask == 0xffff_ffff {
      SameFewer(c, AndImm64(c, r, mask).value);
    } else {
      ScratchFewer(c);
      SameFewer(Scratch(c).value.1, AndImm64(c, r, mask).value);
      FewerTrans(c, Scratch(c).value.1, AndImm64(c, r, mask).value);
    }
  }

  lemma MaskedOrFewer(c: Jit, w: CVal, keep: word, part: CVal)
    requires w != NoVal && (part.Const? || part.InReg?) && MaskedOr(c, w, keep, part).Some?
    ensures Fewer(c, MaskedOr(c, w, keep, part).value.1)
  {
    hide ToReg, Scratch, AndImm64, OrVal, Fewer, And, Or;
    SameFewer(c, c);
    if !(w.Const? && part.Const?) && !(w.Const? && And(w.v, keep) == 0) {
      var (s, c1) := if w.Const? then (0, c) else ToReg(c, w).value;
      if !w.Const? {
        ToRegFewer(c, w);
      }
      var (r, c2) := Scratch(c1).value;
      ScratchFewer(c1);
      FewerTrans(c, c1, c2);
      var c3 := if w.Const? then Emit(c2, MovImm(r, And(w.v, keep))) else AndImm64(Emit(c2, MovRR(r, s)), r, keep).value;
      if w.Const? {
        SameFewer(c2, c3);
      } else {
        SameFewer(c2, Emit(c2, MovRR(r, s)));
        AndImmFewer(Emit(c2, MovRR(r, s)), r, keep);
        FewerTrans(c2, Emit(c2, MovRR(r, s)), c3);
      }
      FewerTrans(c, c2, c3);
      OrValFewer(c3, r, part);
      FewerTrans(c, c3, MaskedOr(c, w, keep, part).value.1);
    }
  }

  lemma UpdateWordSingle(c: Jit, a: word, w: CVal, keep: word, v: CVal, left: bool, n: nat)
    requires Single(c) && v != NoVal && UpdateWord(c, a, w, keep, v, left, n).Some?
    ensures Single(UpdateWord(c, a, w, keep, v, left, n).value)
  {
    hide Shifted, MaskedOr, SetConst, Bind, Fewer, Single;
    if w != NoVal {
      var (part, c1) := Shifted(c, v, left, n).value;
      var (x, c2) := MaskedOr(c1, w, keep, part).value;
      ShiftedFewer(c, v, left, n);
      MaskedOrFewer(c1, w, keep, part);
      FewerTrans(c, c1, c2);
      FewerSingle(c, c2);
      if x.Const? {
        SetConstSingle(c2, a, x.v);
      } else {
        BindSingle(c2, x.r, a);
      }
    }
  }

  lemma UpdateSpannedSingle(c: Jit, a: word, v: CVal)
    requires Single(c) && v != NoVal && UpdateSpanned(c, a, v).Some?
    ensures Single(UpdateSpanned(c, a, v).value)
  {
    hide UpdateWord, Fewer, Single, Lookup, Touch, PinVal, UnpinAll, Not, Shr, Low, High;
    var c1 := PinVal(UnpinAll(c), v);
    var (lv, c2) := CacheFind(c1, Low(a));
    var (hv, c3) := CacheFind(c2, High(a));
    var c4 := PinVal(PinVal(c3, lv), hv);
    PinValFewer(c, v);
    PinValFewer(UnpinAll(c), v);
    TouchFewer(c1, Low(a));
    TouchFewer(c2, High(a));
    PinValFewer(c3, lv);
    PinValFewer(PinVal(c3, lv), hv);
    FewerTrans(c, UnpinAll(c), c1);
    FewerTrans(c, c1, c2);
    FewerTrans(c, c2, c3);
    FewerTrans(c, c3, PinVal(c3, lv));
    FewerTrans(c, PinVal(c3, lv), c4);
    FewerSingle(c, c4);
    BothSingle(c4, a, lv, hv, v, Offset(a));
  }

  lemma BothSingle(c: Jit, a: word, lv: CVal, hv: CVal, v: CVal, k: nat)
    requires Single(c) && v != NoVal && k <= 64 && UpdateBoth(c, a, lv, hv, v, k).Some?
    ensures Single(UpdateBoth(c, a, lv, hv, v, k).value)
  {
    hide UpdateWord, Single, Not, Shr;
    UpdateWordSingle(c, Low(a), lv, Not(Shr(TWO64 - 1, k)), v, false, k);
    var c1 := UpdateWord(c, Low(a), lv, Not(Shr(TWO64 - 1, k)), v, false, k).value;
    UpdateWordSingle(c1, High(a), hv, Shr(TWO64 - 1, k), v, true, 64 - k);
  }

  // --------------------------------------------------------- the instruction

  lemma ReadFieldFewer(c: Jit, a: word, dyn: bool, val: word)
    ensures Fewer(c, ReadField(c, a, dyn, val).1)
  {
    hide Lookup, Touch, PinVal, Fewer;
    SameFewer(c, c);
    if dyn {
      var (v, c1) := CacheFind(c, a);
      TouchFewer(c, a);
      PinValFewer(c1, v);
      FewerTrans(c, c1, PinVal(c1, v));
    }
  }

  lemma ReadFieldsFewer(c: Jit, s: Source)
    ensures Fewer(c, ReadFields(c, s).1)
  {
    hide ReadField, UnpinAll, Fewer;
    var (_, c1) := ReadField(UnpinAll(c), s.p, s.da, s.fa);
    var (_, c2) := ReadField(c1, Add(s.p, 8), s.db, s.fb);
    PinValFewer(c, NoVal);
    ReadFieldFewer(UnpinAll(c), s.p, s.da, s.fa);
    ReadFieldFewer(c1, Add(s.p, 8), s.db, s.fb);
    ReadFieldFewer(c2, Add(s.p, 16), s.dc, s.fc);
    FewerTrans(c, UnpinAll(c), c1);
    FewerTrans(c, c1, c2);
    FewerTrans(c, c2, ReadFields(c, s).1);
  }

  lemma FieldRegSingle(c: Jit, v: CVal, a: word, bind: bool)
    requires Single(c) && FieldReg(c, v, a, bind).Some?
    ensures Single(FieldReg(c, v, a, bind).value.1)
  {
    hide ToReg, Scratch, LoadStatic, Bind, Fewer, Single;
    if v != NoVal {
      ToRegFewer(c, v);
      FewerSingle(c, ToReg(c, v).value.1);
    } else {
      var (r, c1) := Scratch(c).value;
      ScratchFewer(c);
      LoadFewer(c1, r, a, Abs(a));
      FewerTrans(c, c1, LoadStatic(c1, r, a));
      FewerSingle(c, LoadStatic(c1, r, a));
      BindSingle(LoadStatic(c1, r, a), r, a);
    }
  }

  lemma SnapFewer(c: Jit)
    ensures Fewer(c, SnapPending(c).1)
  {
    hide Lookup, Fewer;
    SameFewer(c, c);
    TouchFewer(c, c.pendAddr);
  }

  lemma CheckWordFewer(b: Build, w: int, i: nat, k: Checks)
    ensures Fewer(b.c, CheckWord(b, w, i, k).c)
  {
    hide SnapPending, Fewer;
    SameFewer(b.c, b.c);
    var c1 := SnapPending(b.c).1;
    var c2 := Emit(c1, JmpMarked(w, Smc(|b.smcs|)));
    SnapFewer(b.c);
    SameFewer(c1, c2);
    FewerTrans(b.c, c1, c2);
  }

  lemma CheckStoreSingle(b: Build, s: Source, f: Field, k: Checks)
    requires Single(b.c) && CheckStore(b, s, f, k).Some?
    ensures Single(CheckStore(b, s, f, k).value.1.c)
  {
    hide CheckWord, FieldReg, Scratch, SnapPending, Fewer, Single;
    if f.Known? {
      var b1 := CheckWord(b, f.val / 8, s.i, k);
      CheckWordFewer(b, f.val / 8, s.i, k);
      CheckWordFewer(b1, Add(f.val, 7) / 8, s.i, k);
      FewerSingle(b.c, b1.c);
      FewerSingle(b1.c, CheckWord(b1, Add(f.val, 7) / 8, s.i, k).c);
    } else {
      FieldRegSingle(b.c, f.v, Add(s.p, 8), true);
      var (rb, c0) := FieldReg(b.c, f.v, Add(s.p, 8), true).value;
      CheckDynamicFewer(b.(c := c0), rb, s.i);
      FewerSingle(c0, CheckDynamic(b.(c := c0), rb, s.i).value.c);
    }
  }

  lemma CheckDynamicFewer(b: Build, rb: Reg, i: nat)
    requires CheckDynamic(b, rb, i).Some?
    ensures Fewer(b.c, CheckDynamic(b, rb, i).value.c)
  {
    hide Scratch, SnapPending, Fewer;
    var (t1, c1) := Scratch(b.c).value;
    var (t2, c2) := Scratch(c1).value;
    ScratchFewer(b.c);
    ScratchFewer(c1);
    FewerTrans(b.c, c1, c2);
    var c3 := Emit(Emit(c2, MovRR(t1, rb)), ShrRI(t1, 12));
    SameFewer(c2, c3);
    FewerTrans(b.c, c2, c3);
    var (p, c4) := SnapPending(c3);
    SnapFewer(c3);
    FewerTrans(b.c, c3, c4);
    SameFewer(c4, CheckDynamic(b, rb, i).value.c);
    FewerTrans(b.c, c4, CheckDynamic(b, rb, i).value.c);
  }

  lemma LoadThroughFewer(c: Jit, ra: Reg)
    requires LoadThrough(c, ra).Some?
    ensures Fewer(c, LoadThrough(c, ra).value.1)
  {
    hide FlushPending, Scratch, LoadMem, Fewer;
    var c1 := FlushPending(c).value;
    var (r, c2) := Scratch(c1).value;
    FlushFewer(c);
    ScratchFewer(c1);
    LoadFewer(c2, r, 0, Ind(ra));
    FewerTrans(c, c1, c2);
    FewerTrans(c, c2, LoadMem(c2, r, Ind(ra)));
  }

  lemma OperandsSingle(c: Jit, s: Source, f: Fields, rb: Reg)
    requires Single(c)
    ensures OperandA(c, s, f.a).Some? ==> Single(OperandA(c, s, f.a).value.1)
    ensures OperandB(c, f.b, rb).Some? ==> Single(OperandB(c, f.b, rb).value.1)
    ensures OperandC(c, s, f.c).Some? ==> Single(OperandC(c, s, f.c).value.1)
  {
    hide GetStatic, FieldReg, LoadThrough, Single, Fewer;
    if OperandA(c, s, f.a).Some? {
      if f.a.Known? {
        GetStaticSingle(c, f.a.val);
      } else {
        FieldRegSingle(c, f.a.v, s.p, true);
        var (ra, c1) := FieldReg(c, f.a.v, s.p, true).value;
        LoadThroughFewer(c1, ra);
        FewerSingle(c1, LoadThrough(c1, ra).value.1);
      }
    }
    if OperandB(c, f.b, rb).Some? {
      if f.b.Known? {
        GetStaticSingle(c, f.b.val);
      } else {
        LoadThroughFewer(c, rb);
        FewerSingle(c, LoadThrough(c, rb).value.1);
      }
    }
    if OperandC(c, s, f.c).Some? && f.c.Dynamic? {
      FieldRegSingle(c, f.c.v, Add(s.p, 16), false);
    }
  }

  lemma ResultRegFewer(c: Jit, vb: CVal, f: Field)
    requires vb != NoVal && ResultReg(c, vb, f).Some?
    ensures Fewer(c, ResultReg(c, vb, f).value.1)
  {
    hide ToReg, Scratch, Fewer;
    SameFewer(c, c);
    if !InPlace(c, vb, f) {
      if vb.InReg? {
        CopyFewer(c, vb.r);
      } else {
        ToRegFewer(c, vb);
      }
    }
  }

  lemma CopyFewer(c: Jit, s: Reg)
    requires Scratch(c).Some?
    ensures var (r, c1) := Scratch(c).value; Fewer(c, Emit(c1, MovRR(r, s)))
  {
    hide Scratch, Fewer;
    var (r, c1) := Scratch(c).value;
    ScratchFewer(c);
    SameFewer(c1, Emit(c1, MovRR(r, s)));
    FewerTrans(c, c1, Emit(c1, MovRR(r, s)));
  }

  lemma ComputeFewer(c: Jit, va: CVal, vb: CVal, f: Field, branch: bool)
    requires va != NoVal && vb != NoVal && Compute(c, va, vb, f, branch).Some?
    ensures Fewer(c, Compute(c, va, vb, f, branch).value.1)
  {
    hide ToReg, Scratch, ResultReg, Fewer;
    var d := Compute(c, va, vb, f, branch).value.1;
    SameFewer(c, c);
    if va.Const? && vb.Const? {
    } else if va == Const(0) {
      if branch {
        ToRegFewer(c, vb);
        SameFewer(ToReg(c, vb).value.1, d);
        FewerTrans(c, ToReg(c, vb).value.1, d);
      }
    } else if vb == Const(0) && !branch {
    } else if va.NegReg? && !vb.NegReg? && !branch {
      var c1: Jit;
      if f.Dynamic? && vb.InReg? {
        CopyFewer(c, vb.r);
        c1 := Emit(Scratch(c).value.1, MovRR(Scratch(c).value.0, vb.r));
      } else {
        ResultRegFewer(c, vb, f);
        c1 := ResultReg(c, vb, f).value.1;
      }
      SameFewer(c1, d);
      FewerTrans(c, c1, d);
    } else if vb == Const(0) {
      ToRegFewer(c, va);
      var (r, c1) := ToReg(c, va).value;
      if va.InReg? {
        CopyFewer(c1, r);
        var c2 := Emit(Scratch(c1).value.1, MovRR(Scratch(c1).value.0, r));
        FewerTrans(c, c1, c2);
        SameFewer(c2, d);
        FewerTrans(c, c2, d);
      } else {
        SameFewer(c1, d);
        FewerTrans(c, c1, d);
      }
    } else {
      ResultRegFewer(c, vb, f);
      var (rr, c1) := ResultReg(c, vb, f).value;
      ToRegFewer(c1, va);
      var (ra, c2) := ToReg(c1, va).value;
      FewerTrans(c, c1, c2);
      SameFewer(c2, d);
      FewerTrans(c, c2, d);
    }
  }

  lemma ArithmeticSingle(c: Jit, s: Source, f: Fields, rb: Reg)
    requires Single(c) && Arithmetic(c, s, f, rb).Some?
    ensures Single(Arithmetic(c, s, f, rb).value.2)
  {
    hide OperandA, OperandB, OperandC, FlushPending, Compute, FlushFirst, Fewer, Single;
    OperandsSingle(c, s, f, rb);
    if !SameWord(f) {
      var (va, c1) := OperandA(c, s, f.a).value;
      OperandsSingle(c1, s, f, rb);
      var (vb, c2) := OperandB(c1, f.b, rb).value;
      OperandsSingle(c2, s, f, rb);
      var (rc, c3) := OperandC(c2, s, f.c).value;
      var c4 := if FlushFirst(c3, f, va, vb) then FlushPending(c3).value else c3;
      if FlushFirst(c3, f, va, vb) {
        FlushFewer(c3);
        FewerSingle(c3, c4);
      }
      ComputeFewer(c4, va, vb, f.b, Branches(s, f));
      FewerSingle(c4, Compute(c4, va, vb, f.b, Branches(s, f)).value.1);
    }
  }

  lemma StoreNowFewer(c: Jit, res: CVal, f: Field, rb: Reg)
    requires res != NoVal && StoreNow(c, res, f, rb).Some?
    ensures Fewer(c, StoreNow(c, res, f, rb).value.1)
  {
    hide FlushPending, StoreConst, StoreReg, ToReg, Fewer;
    var dst := if f.Known? then Abs(f.val) else Ind(rb);
    var c1 := FlushPending(c).value;
    FlushFewer(c);
    if res.Const? {
      StoreConstFewer(c1, res.v, dst);
      FewerTrans(c, c1, StoreConst(c1, res.v, dst).value);
    } else {
      ToRegFewer(c1, res);
      var (r, c2) := ToReg(c1, res).value;
      StoreRegFewer(c2, r, dst);
      FewerTrans(c, c1, c2);
      FewerTrans(c, c2, StoreReg(c2, r, dst).value);
    }
  }

  lemma CacheResultSingle(c: Jit, a: word, res: CVal)
    requires Single(c) && res != NoVal && CacheResult(c, a, res).Some?
    ensures Single(CacheResult(c, a, res).value)
  {
    hide SetConst, SetAlias, Bind, Single;
    match res
    case Const(x) => SetConstSingle(c, a, x);
    case NegReg(r) => SetAliasSingle(c, a, r, true);
    case InReg(r) =>
      if c.regs[r].used && c.regs[r].addr != a {
        SetAliasSingle(c, a, r, false);
      } else {
        BindSingle(c, r, a);
      }
  }

  lemma StoreResultSingle(c: Jit, x: Result, f: Field, rb: Reg)
    requires Single(c) && x.res != NoVal && StoreResult(c, x, f, rb).Some?
    ensures Single(StoreResult(c, x, f, rb).value.1)
  {
    hide FlushPending, CacheResult, StoreNow, CacheDrop, CacheDropAll, Fewer, Single;
    var d := StoreResult(c, x, f, rb).value.1;
    if Pendable(f) {
      var fl := !x.kept && c.pend && c.pendAddr != f.val;
      var c1 := if fl then FlushPending(c).value else c;
      if fl {
        FlushFewer(c);
        FewerSingle(c, c1);
      }
      CacheResultSingle(c1, f.val, x.res);
      SameFewer(CacheResult(c1, f.val, x.res).value, d);
      FewerSingle(CacheResult(c1, f.val, x.res).value, d);
    } else if !x.kept {
      StoreNowFewer(c, x.res, f, rb);
      var c1 := StoreNow(c, x.res, f, rb).value.1;
      FewerSingle(c, c1);
      DropFewer(c1, 0, 0);
      if f.Dynamic? {
        FewerSingle(c1, d);
      } else if !Spans(f.val) {
        DropFewer(c1, Low(f.val), 0);
        FewerSingle(c1, CacheDrop(c1, Low(f.val)));
        DropFewer(CacheDrop(c1, Low(f.val)), High(f.val), 0);
        FewerSingle(CacheDrop(c1, Low(f.val)), d);
      }
    }
  }

  lemma ConcludeSingle(b: Build, s: Source, f: Fields, rb: Reg, x: Result, rc: Reg)
    requires Single(b.c) && x.res != NoVal && Conclude(b, s, f, rb, x, rc).Some?
    ensures Single(Conclude(b, s, f, rb, x, rc).value.1.c)
  {
    hide StoreResult, BranchOut, UpdateSpanned, Spans, Fewer, Single;
    var c1 := b.c.(flagsLive := Branches(s, f) && x.taken == None);
    SameFewer(b.c, c1);
    FewerSingle(b.c, c1);
    StoreResultSingle(c1, x, f.b, rb);
    var (res, c2) := StoreResult(c1, x, f.b, rb).value;
    var c3 := c2.(flagsLive := false);
    SameFewer(c2, c3);
    FewerSingle(c2, c3);
    var (ended, d) := BranchOut(b.(c := c3), s, f, x.taken, rc);
    BranchFewer(b.(c := c3), s, f, x.taken, rc);
    FewerSingle(c3, d.c);
    if f.b.Known? && Spans(f.b.val) && !x.kept && !ended {
      UpdateSpannedSingle(d.c, f.b.val, res);
    }
  }

  lemma BranchFewer(b: Build, s: Source, f: Fields, taken: Option<bool>, rc: Reg)
    ensures Fewer(b.c, BranchOut(b, s, f, taken, rc).1.c)
  {
    hide SnapPending, Fewer;
    SameFewer(b.c, b.c);
    SnapFewer(b.c);
    var c1 := SnapPending(b.c).1;
    var d := BranchOut(b, s, f, taken, rc).1.c;
    if d != b.c {
      SameFewer(c1, d);
      FewerTrans(b.c, c1, d);
    }
  }

  /** Translating an instruction keeps at most one entry per word. */
  lemma TranslateInsnSingle(b: Build, s: Source, k: Checks)
    requires Single(b.c) && TranslateInsn(b, s, k).Some?
    ensures Single(TranslateInsn(b, s, k).value.1.c)
  {
    hide ReadFields, CheckStore, Arithmetic, Conclude, Fewer, Single;
    var (f, c0) := ReadFields(b.c, s);
    ReadFieldsFewer(b.c, s);
    FewerSingle(b.c, c0);
    CheckStoreSingle(b.(c := c0), s, f.b, k);
    var (rb, b1) := CheckStore(b.(c := c0), s, f.b, k).value;
    ArithmeticSingle(b1.c, s, f, rb);
    var (x, rc, c2) := Arithmetic(b1.c, s, f, rb).value;
    ConcludeSingle(b1.(c := c2), s, f, rb, x, rc);
  }

  /** Throughout the translation of a block, from an empty cache. */
  lemma {:induction false} TranslateSingle(b: Build, w: World, dyn: set<int>, k: Checks, start: word, i: nat, n: nat)
    requires i <= n && start + 24 * n < TWO64 && Single(b.c) && TranslateFrom(b, w, dyn, k, start, i, n).Some?
    ensures Single(TranslateFrom(b, w, dyn, k, start, i, n).value.2.c)
    decreases n - i
  {
    hide TranslateInsn, Single;
    if i < n {
      var s := SourceAt(w, dyn, start, i);
      TranslateInsnSingle(b, s, k);
      var (ended, d) := TranslateInsn(b, s, k).value;
      if !ended {
        TranslateSingle(d, w, dyn, k, start, i + 1, n);
      }
    }
  }

  lemma EmptySingle(movbe: bool, t: Turns)
    ensures Single(EmptyCache(movbe, t))
  {
  }

  /** Whatever block is translated, no word has two entries after any number m
      of its instructions. */
  lemma BlockSingle(w: World, start: word, copy: Option<Desc>, dyn: set<int>, k: Checks, m: nat)
    requires (copy.Some? ==> start + LOOP_LEN < TWO64) && start + 24 * m < TWO64
    requires TranslateFrom(EmptyBuild(w, start, copy), w, dyn, k, start, 0, m).Some?
    ensures Single(TranslateFrom(EmptyBuild(w, start, copy), w, dyn, k, start, 0, m).value.2.c)
  {
    hide TranslateFrom, Single;
    EmptySingle(w.movbe, w.turns);
    TranslateSingle(EmptyBuild(w, start, copy), w, dyn, k, start, 0, m);
  }
}
