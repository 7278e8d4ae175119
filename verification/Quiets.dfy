/** Loads are emitted for operands and dynamic fields only: nothing else the
    translator does emits one. */
module Quiets {
  import opened Options
  import opened Words
  import opened Bits
  import opened Memory
  import opened X86
  import opened RegCache
  import opened Operands
  import opened Insn
  import opened Blocks

  predicate IsLoad(op: Op) { op.Load? || op.LoadBE? }

  /** The code emitted from c to d has no load. */
  predicate Quiet(c: Jit, d: Jit) {
    c.code <= d.code && forall u | |c.code| <= u < |d.code| :: !IsLoad(d.code[u])
  }

  lemma QuietTrans(c: Jit, d: Jit, e: Jit)
    requires Quiet(c, d) && Quiet(d, e)
    ensures Quiet(c, e)
  {
  }

  /** A few operations. */
  lemma Plain(c: Jit, d: Jit)
    requires c.code <= d.code && |d.code| <= |c.code| + 3
    requires |d.code| > |c.code| ==> !IsLoad(d.code[|c.code|])
    requires |d.code| > |c.code| + 1 ==> !IsLoad(d.code[|c.code| + 1])
    requires |d.code| > |c.code| + 2 ==> !IsLoad(d.code[|c.code| + 2])
    ensures Quiet(c, d)
  {
  }

  lemma ScratchQuiet(c: Jit)
    requires Scratch(c).Some?
    ensures Quiet(c, Scratch(c).value.1)
    decreases Held(c), 3
  {
    hide Release, ScratchScan, Quiet;
    var best := ScratchScan(c, 0, -1);
    Plain(c, Pin(c, best));
    ReleaseQuiet(Pin(c, best), best);
    QuietTrans(c, Pin(c, best), Scratch(c).value.1);
  }

  lemma ReleaseQuiet(c: Jit, r: Reg)
    requires Release(c, r).Some?
    ensures Quiet(c, Release(c, r).value)
    decreases Held(c), 2
  {
    hide FlushPending, Lookup, Quiet;
    Plain(c, c);
    var c1 := c;
    if c.pend {
      var (v, c2) := CacheFind(c, c.pendAddr);
      Plain(c, c2);
      c1 := c2;
      if Uses(v, r) {
        FlushQuiet(c2);
        c1 := FlushPending(c2).value;
        QuietTrans(c, c2, c1);
      }
    }
    Plain(c1, DropReg(c1, r));
    QuietTrans(c, c1, DropReg(c1, r));
  }

  lemma ToRegQuiet(c: Jit, v: CVal)
    requires v != NoVal && ToReg(c, v).Some?
    ensures Quiet(c, ToReg(c, v).value.1)
    decreases Held(c), 4
  {
    hide Scratch, Quiet;
    match v
    case InReg(_) => Plain(c, c);
    case NegReg(s) =>
      var (r, c1) := Scratch(Pin(c, s)).value;
      Plain(c, Pin(c, s));
      ScratchQuiet(Pin(c, s));
      Plain(c1, Negate(Emit(c1, MovRR(r, s)), r));
      QuietTrans(c, Pin(c, s), c1);
      QuietTrans(c, c1, ToReg(c, v).value.1);
    case Const(n) =>
      var (r, c1) := Scratch(c).value;
      ScratchQuiet(c);
      Plain(c1, Emit(c1, MovImm(r, n)));
      QuietTrans(c, c1, ToReg(c, v).value.1);
  }

  lemma StoreToQuiet(c: Jit, dst: Opnd, r: Reg)
    requires StoreTo(c, dst, r).Some?
    ensures Quiet(c, StoreTo(c, dst, r).value)
    decreases Held(c), 4
  {
    hide Scratch, Quiet;
    if c.movbe {
      Plain(c, StoreTo(c, dst, r).value);
    } else {
      ScratchQuiet(c);
      Plain(Scratch(c).value.1, StoreTo(c, dst, r).value);
      QuietTrans(c, Scratch(c).value.1, StoreTo(c, dst, r).value);
    }
  }

  lemma StoreRegQuiet(c: Jit, r: Reg, dst: Opnd)
    requires StoreReg(c, r, dst).Some?
    ensures Quiet(c, StoreReg(c, r, dst).value)
    decreases Held(c), 5
  {
    hide Scratch, StoreTo, Quiet;
    if dst.Abs? && !FitsDisp(dst.a) {
      var (b, c1) := Scratch(c).value;
      var c2 := Emit(c1, MovImm(b, dst.a));
      ScratchQuiet(c);
      Plain(c1, c2);
      StoreToQuiet(c2, Ind(b), r);
      QuietTrans(c, c1, c2);
      QuietTrans(c, c2, StoreReg(c, r, dst).value);
    } else {
      StoreToQuiet(c, dst, r);
    }
  }

  lemma StoreConstQuiet(c: Jit, v: word, dst: Opnd)
    requires StoreConst(c, v, dst).Some?
    ensures Quiet(c, StoreConst(c, v, dst).value)
    decreases Held(c), 5
  {
    hide Scratch, Quiet, Bswap;
    var e := StoreConst(c, v, dst).value;
    if dst.Abs? && FitsDisp(dst.a) && Imm32(Bswap(v)) {
      Plain(c, e);
    } else {
      var (t, c1) := Scratch(c).value;
      ScratchQuiet(c);
      var c2 := Emit(c1, MovImm(t, Bswap(v)));
      Plain(c1, c2);
      QuietTrans(c, c1, c2);
      if dst.Abs? && !FitsDisp(dst.a) {
        ScratchQuiet(c2);
        Plain(Scratch(c2).value.1, e);
        QuietTrans(c, c2, Scratch(c2).value.1);
        QuietTrans(c, Scratch(c2).value.1, e);
      } else {
        Plain(c2, e);
        QuietTrans(c, c2, e);
      }
    }
  }

  lemma FlushQuiet(c: Jit)
    requires FlushPending(c).Some?
    ensures Quiet(c, FlushPending(c).value)
    decreases Held(c), 1
  {
    hide ToReg, StoreReg, StoreConst, Lookup, Quiet;
    Plain(c, c);
    if c.pend {
      var d := c.(pend := false);
      var (v, c1) := CacheFind(d, c.pendAddr);
      Plain(c, d);
      Plain(d, c1);
      QuietTrans(c, d, c1);
      if v.Const? {
        StoreConstQuiet(c1, v.v, Abs(c.pendAddr));
        QuietTrans(c, c1, FlushPending(c).value);
      } else {
        var p := Pin(c1, v.r);
        var (r, c2) := ToReg(p, v).value;
        var c3 := StoreReg(c2, r, Abs(c.pendAddr)).value;
        Plain(c1, p);
        ToRegQuiet(p, v);
        StoreRegQuiet(c2, r, Abs(c.pendAddr));
        Plain(c3, FlushPending(c).value);
        QuietTrans(c, c1, p);
        QuietTrans(c, p, c2);
        QuietTrans(c, c2, c3);
        QuietTrans(c, c3, FlushPending(c).value);
      }
    }
  }

  // ------------------------------------------------------- the other steps

  lemma ShiftedQuiet(c: Jit, v: CVal, left: bool, n: nat)
    requires v != NoVal && Shifted(c, v, left, n).Some?
    ensures Quiet(c, Shifted(c, v, left, n).value.1)
  {
    hide ToReg, Scratch, Quiet, Shl, Shr;
    Plain(c, c);
    if !v.Const? {
      var (s, c1) := ToReg(c, v).value;
      var (r, c2) := Scratch(c1).value;
      ToRegQuiet(c, v);
      ScratchQuiet(c1);
      QuietTrans(c, c1, c2);
      Plain(c2, Shifted(c, v, left, n).value.1);
      QuietTrans(c, c2, Shifted(c, v, left, n).value.1);
    }
  }

  lemma OrValQuiet(c: Jit, r: Reg, v: CVal)
    requires v != NoVal && OrVal(c, r, v).Some?
    ensures Quiet(c, OrVal(c, r, v).value)
  {
    hide ToReg, Quiet;
    Plain(c, c);
    if v != Const(0) {
      var (t, c1) := ToReg(c, v).value;
      ToRegQuiet(c, v);
      Plain(c1, OrVal(c, r, v).value);
      QuietTrans(c, c1, OrVal(c, r, v).value);
    }
  }

  lemma CombineQuiet(c: Jit, lo: CVal, hi: CVal, k: nat)
    requires lo != NoVal && hi != NoVal && k <= 64 && Combine(c, lo, hi, k).Some?
    ensures Quiet(c, Combine(c, lo, hi, k).value.1)
  {
    hide Shifted, OrVal, Quiet, Or;
    var (v, c1) := Shifted(c, lo, true, k).value;
    var (h, c2) := Shifted(c1, hi, false, 64 - k).value;
    ShiftedQuiet(c, lo, true, k);
    ShiftedQuiet(c1, hi, false, 64 - k);
    QuietTrans(c, c1, c2);
    if !(v.Const? && h.Const?) {
      var (x, y) := if v.Const? then (h, v) else (v, h);
      OrValQuiet(c2, x.r, y);
      QuietTrans(c, c2, OrVal(c2, x.r, y).value);
    }
  }

  lemma AndImmQuiet(c: Jit, r: Reg, mask: word)
    requires AndImm64(c, r, mask).Some?
    ensures Quiet(c, AndImm64(c, r, mask).value)
  {
    hide Scratch, Quiet;
    if Imm32(mask) || mask == 0xffff_ffff {
      Plain(c, AndImm64(c, r, mask).value);
    } else {
      ScratchQuiet(c);
      Plain(Scratch(c).value.1, AndImm64(c, r, mask).value);
      QuietTrans(c, Scratch(c).value.1, AndImm64(c, r, mask).value);
    }
  }

  lemma MaskedOrQuiet(c: Jit, w: CVal, keep: word, part: CVal)
    requires w != NoVal && (part.Const? || part.InReg?) && MaskedOr(c, w, keep, part).Some?
    ensures Quiet(c, MaskedOr(c, w, keep, part).value.1)
  {
    hide ToReg, Scratch, AndImm64, OrVal, Quiet, And, Or;
    Plain(c, c);
    if !(w.Const? && part.Const?) && !(w.Const? && And(w.v, keep) == 0) {
      var (s, c1) := if w.Const? then (0, c) else ToReg(c, w).value;
      if !w.Const? {
        ToRegQuiet(c, w);
      }
      var (r, c2) := Scratch(c1).value;
      ScratchQuiet(c1);
      QuietTrans(c, c1, c2);
      var c3 := if w.Const? then Emit(c2, MovImm(r, And(w.v, keep))) else AndImm64(Emit(c2, MovRR(r, s)), r, keep).value;
      if w.Const? {
        Plain(c2, c3);
      } else {
        Plain(c2, Emit(c2, MovRR(r, s)));
        AndImmQuiet(Emit(c2, MovRR(r, s)), r, keep);
        QuietTrans(c2, Emit(c2, MovRR(r, s)), c3);
      }
      QuietTrans(c, c2, c3);
      OrValQuiet(c3, r, part);
      QuietTrans(c, c3, MaskedOr(c, w, keep, part).value.1);
    }
  }

  lemma ResultRegQuiet(c: Jit, vb: CVal, f: Field)
    requires vb != NoVal && ResultReg(c, vb, f).Some?
    ensures Quiet(c, ResultReg(c, vb, f).value.1)
  {
    hide ToReg, Scratch, Quiet;
    Plain(c, c);
    if !InPlace(c, vb, f) {
      if vb.InReg? {
        CopyQuiet(c, vb.r);
      } else {
        ToRegQuiet(c, vb);
      }
    }
  }

  lemma CopyQuiet(c: Jit, s: Reg)
    requires Scratch(c).Some?
    ensures var (r, c1) := Scratch(c).value; Quiet(c, Emit(c1, MovRR(r, s)))
  {
    hide Scratch, Quiet;
    var (r, c1) := Scratch(c).value;
    ScratchQuiet(c);
    Plain(c1, Emit(c1, MovRR(r, s)));
    QuietTrans(c, c1, Emit(c1, MovRR(r, s)));
  }

  lemma ComputeQuiet(c: Jit, va: CVal, vb: CVal, f: Field, branch: bool)
    requires va != NoVal && vb != NoVal && Compute(c, va, vb, f, branch).Some?
    ensures Quiet(c, Compute(c, va, vb, f, branch).value.1)
  {
    hide ToReg, Scratch, ResultReg, Quiet;
    var d := Compute(c, va, vb, f, branch).value.1;
    Plain(c, c);
    if va.Const? && vb.Const? {
    } else if va == Const(0) {
      if branch {
        ToRegQuiet(c, vb);
        Plain(ToReg(c, vb).value.1, d);
        QuietTrans(c, ToReg(c, vb).value.1, d);
      }
    } else if vb == Const(0) && !branch {
    } else if va.NegReg? && !vb.NegReg? && !branch {
      var c1: Jit;
      if f.Dynamic? && vb.InReg? {
        CopyQuiet(c, vb.r);
        c1 := Emit(Scratch(c).value.1, MovRR(Scratch(c).value.0, vb.r));
      } else {
        ResultRegQuiet(c, vb, f);
        c1 := ResultReg(c, vb, f).value.1;
      }
      Plain(c1, d);
      QuietTrans(c, c1, d);
    } else if vb == Const(0) {
      ToRegQuiet(c, va);
      var (r, c1) := ToReg(c, va).value;
      if va.InReg? {
        CopyQuiet(c1, r);
        var c2 := Emit(Scratch(c1).value.1, MovRR(Scratch(c1).value.0, r));
        QuietTrans(c, c1, c2);
        Plain(c2, d);
        QuietTrans(c, c2, d);
      } else {
        Plain(c1, d);
        QuietTrans(c, c1, d);
      }
    } else {
      ResultRegQuiet(c, vb, f);
      var (rr, c1) := ResultReg(c, vb, f).value;
      ToRegQuiet(c1, va);
      var (ra, c2) := ToReg(c1, va).value;
      QuietTrans(c, c1, c2);
      Plain(c2, d);
      QuietTrans(c, c2, d);
    }
  }

  lemma StoreNowQuiet(c: Jit, res: CVal, f: Field, rb: Reg)
    requires res != NoVal && StoreNow(c, res, f, rb).Some?
    ensures Quiet(c, StoreNow(c, res, f, rb).value.1)
  {
    hide FlushPending, StoreConst, StoreReg, ToReg, Quiet;
    var dst := if f.Known? then Abs(f.val) else Ind(rb);
    var c1 := FlushPending(c).value;
    FlushQuiet(c);
    if res.Const? {
      StoreConstQuiet(c1, res.v, dst);
      QuietTrans(c, c1, StoreConst(c1, res.v, dst).value);
    } else {
      ToRegQuiet(c1, res);
      var (r, c2) := ToReg(c1, res).value;
      StoreRegQuiet(c2, r, dst);
      QuietTrans(c, c1, c2);
      QuietTrans(c, c2, StoreReg(c2, r, dst).value);
    }
  }

  lemma BranchQuiet(b: Build, s: Source, f: Fields, taken: Option<bool>, rc: Reg)
    ensures Quiet(b.c, BranchOut(b, s, f, taken, rc).1.c)
  {
    hide SnapPending, Quiet;
    Plain(b.c, b.c);
    SnapQuiet(b.c);
    var c1 := SnapPending(b.c).1;
    var d := BranchOut(b, s, f, taken, rc).1.c;
    if d != b.c {
      Plain(c1, d);
      QuietTrans(b.c, c1, d);
    }
  }

  lemma SnapQuiet(c: Jit)
    ensures Quiet(c, SnapPending(c).1)
  {
    hide Lookup, Quiet;
    Plain(c, SnapPending(c).1);
  }

  lemma CheckWordQuiet(b: Build, w: int, i: nat, k: Checks)
    ensures Quiet(b.c, CheckWord(b, w, i, k).c)
  {
    hide SnapPending, Quiet;
    Plain(b.c, b.c);
    var c1 := SnapPending(b.c).1;
    var c2 := Emit(c1, JmpMarked(w, Smc(|b.smcs|)));
    SnapQuiet(b.c);
    Plain(c1, c2);
    QuietTrans(b.c, c1, c2);
  }

  lemma CheckDynamicQuiet(b: Build, rb: Reg, i: nat)
    requires CheckDynamic(b, rb, i).Some?
    ensures Quiet(b.c, CheckDynamic(b, rb, i).value.c)
  {
    hide Scratch, SnapPending, Quiet;
    var (t1, c1) := Scratch(b.c).value;
    var (t2, c2) := Scratch(c1).value;
    ScratchQuiet(b.c);
    ScratchQuiet(c1);
    QuietTrans(b.c, c1, c2);
    var c3 := Emit(Emit(c2, MovRR(t1, rb)), ShrRI(t1, 12));
    Plain(c2, c3);
    QuietTrans(b.c, c2, c3);
    var (p, c4) := SnapPending(c3);
    SnapQuiet(c3);
    QuietTrans(b.c, c3, c4);
    Plain(c4, CheckDynamic(b, rb, i).value.c);
    QuietTrans(b.c, c4, CheckDynamic(b, rb, i).value.c);
  }

  lemma CheckStaticQuiet(b: Build, fb: word, i: nat, k: Checks)
    ensures Quiet(b.c, CheckStatic(b, fb, i, k).c)
  {
    hide CheckWord, Quiet;
    var b1 := CheckWord(b, fb / 8, i, k);
    CheckWordQuiet(b, fb / 8, i, k);
    CheckWordQuiet(b1, Add(fb, 7) / 8, i, k);
    QuietTrans(b.c, b1.c, CheckWord(b1, Add(fb, 7) / 8, i, k).c);
  }

  lemma RecacheQuiet(c: Jit, a: word, v: CVal)
    requires v.Const? || v.InReg?
    ensures Quiet(c, Recache(c, a, v)) && Quiet(c, CacheDrop(c, a))
    ensures (v.InReg? ==> Quiet(c, Bind(c, v.r, a))) && (v.Const? ==> Quiet(c, SetConst(c, a, v.v)))
  {
    hide FreeConst;
  }

  lemma UpdateWordQuiet(c: Jit, a: word, w: CVal, keep: word, v: CVal, left: bool, n: nat)
    requires v != NoVal && UpdateWord(c, a, w, keep, v, left, n).Some?
    ensures Quiet(c, UpdateWord(c, a, w, keep, v, left, n).value)
  {
    hide Shifted, MaskedOr, Recache, Quiet;
    Plain(c, c);
    if w != NoVal {
      var (part, c1) := Shifted(c, v, left, n).value;
      var (x, c2) := MaskedOr(c1, w, keep, part).value;
      ShiftedQuiet(c, v, left, n);
      MaskedOrQuiet(c1, w, keep, part);
      QuietTrans(c, c1, c2);
      RecacheQuiet(c2, a, x);
      QuietTrans(c, c2, Recache(c2, a, x));
    }
  }

  lemma UpdateSpannedQuiet(c: Jit, a: word, v: CVal)
    requires v != NoVal && UpdateSpanned(c, a, v).Some?
    ensures Quiet(c, UpdateSpanned(c, a, v).value)
  {
    hide UpdateWord, Quiet, Lookup, Not, Shr, Low, High;
    var c1 := PinVal(UnpinAll(c), v);
    var (lv, c2) := CacheFind(c1, Low(a));
    var (hv, c3) := CacheFind(c2, High(a));
    var c4 := PinVal(PinVal(c3, lv), hv);
    var k := Offset(a);
    Plain(c, c4);
    UpdateWordQuiet(c4, Low(a), lv, Not(Shr(TWO64 - 1, k)), v, false, k);
    var c5 := UpdateWord(c4, Low(a), lv, Not(Shr(TWO64 - 1, k)), v, false, k).value;
    UpdateWordQuiet(c5, High(a), hv, Shr(TWO64 - 1, k), v, true, 64 - k);
    QuietTrans(c, c4, c5);
    QuietTrans(c, c5, UpdateSpanned(c, a, v).value);
  }

  lemma SetAliasQuiet(c: Jit, a: word, r: Reg, neg: bool)
    requires SetAlias(c, a, r, neg).Some?
    ensures Quiet(c, SetAlias(c, a, r, neg).value)
  {
    hide FreeAlias, FlushPending, CacheDrop, Quiet;
    var d := CacheDrop(c, a);
    assert d.code == c.code by { DropCode(c, a); }
    var e := d.(aliasNext := d.aliasNext + 1);
    Plain(c, d);
    var i := d.aliasNext % 16;
    if Cacheable(a) && FreeAlias(d.aliases, 0) == 16 && e.pend && e.pendAddr == e.aliases[i].addr {
      FlushQuiet(e);
      Plain(c, e);
      Plain(FlushPending(e).value, SetAlias(c, a, r, neg).value);
      QuietTrans(c, e, FlushPending(e).value);
      QuietTrans(c, FlushPending(e).value, SetAlias(c, a, r, neg).value);
    } else {
      Plain(c, SetAlias(c, a, r, neg).value);
    }
  }

  lemma DropCode(c: Jit, a: word)
    ensures CacheDrop(c, a).code == c.code && CacheDropAll(c).code == c.code
  {
  }

  lemma CacheResultQuiet(c: Jit, a: word, res: CVal)
    requires res != NoVal && CacheResult(c, a, res).Some?
    ensures Quiet(c, CacheResult(c, a, res).value)
  {
    hide SetConst, SetAlias, Bind, Quiet;
    match res
    case Const(x) => RecacheQuiet(c, a, res);
    case NegReg(r) => SetAliasQuiet(c, a, r, true);
    case InReg(r) =>
      if c.regs[r].used && c.regs[r].addr != a {
        SetAliasQuiet(c, a, r, false);
      } else {
        RecacheQuiet(c, a, res);
      }
  }

  lemma StoreResultQuiet(c: Jit, x: Result, f: Field, rb: Reg)
    requires x.res != NoVal && StoreResult(c, x, f, rb).Some?
    ensures Quiet(c, StoreResult(c, x, f, rb).value.1)
  {
    hide FlushPending, CacheResult, StoreNow, CacheDrop, CacheDropAll, Quiet;
    var d := StoreResult(c, x, f, rb).value.1;
    Plain(c, c);
    if Pendable(f) {
      var fl := !x.kept && c.pend && c.pendAddr != f.val;
      var c1 := if fl then FlushPending(c).value else c;
      if fl {
        FlushQuiet(c);
      }
      var c2 := CacheResult(c1, f.val, x.res).value;
      CacheResultQuiet(c1, f.val, x.res);
      QuietTrans(c, c1, c2);
      Plain(c2, d);
      QuietTrans(c, c2, d);
    } else if !x.kept {
      StoreNowQuiet(c, x.res, f, rb);
      var c1 := StoreNow(c, x.res, f, rb).value.1;
      DropCode(c1, 0);
      if f.Known? {
        DropCode(c1, Low(f.val));
        DropCode(CacheDrop(c1, Low(f.val)), High(f.val));
      }
      Plain(c1, d);
      QuietTrans(c, c1, d);
    }
  }

  /** The store of the result, the branch, and what follows. */
  lemma ConcludeQuiet(b: Build, s: Source, f: Fields, rb: Reg, x: Result, rc: Reg)
    requires x.res != NoVal && Conclude(b, s, f, rb, x, rc).Some?
    ensures Quiet(b.c, Conclude(b, s, f, rb, x, rc).value.1.c)
  {
    hide StoreResult, BranchOut, UpdateSpanned, Spans, Quiet;
    var c1 := b.c.(flagsLive := Branches(s, f) && x.taken == None);
    Plain(b.c, c1);
    StoreResultQuiet(c1, x, f.b, rb);
    var (res, c2) := StoreResult(c1, x, f.b, rb).value;
    var c3 := c2.(flagsLive := false);
    Plain(c2, c3);
    QuietTrans(b.c, c1, c2);
    QuietTrans(b.c, c2, c3);
    var (ended, d) := BranchOut(b.(c := c3), s, f, x.taken, rc);
    BranchQuiet(b.(c := c3), s, f, x.taken, rc);
    QuietTrans(b.c, c3, d.c);
    if f.b.Known? && Spans(f.b.val) && !x.kept && !ended {
      UpdateSpannedQuiet(d.c, f.b.val, res);
      QuietTrans(b.c, d.c, UpdateSpanned(d.c, f.b.val, res).value);
    }
  }

  lemma FallOutQuiet(b: Build, start: word, n: nat)
    requires 0 < n && start + 24 * n < TWO64
    ensures Quiet(b.c, FallOut(b, start, n).c)
  {
    hide SnapPending, Quiet;
    SnapQuiet(b.c);
    Plain(SnapPending(b.c).1, FallOut(b, start, n).c);
    QuietTrans(b.c, SnapPending(b.c).1, FallOut(b, start, n).c);
  }
}
