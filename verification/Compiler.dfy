/** The compiler as it runs: its steps change the register cache in place and
    add exits to the block's lists, and come to what the functions say. */
module Compiler {
  import opened Options
  import opened Words
  import opened Bits
  import opened Memory
  import opened X86
  import opened RegCache
  import opened CacheClass
  import opened Operands
  import opened Insn
  import opened CopyLoop
  import opened MatchCopy
  import opened Blocks

  /** The exits of the block being translated. */
  class Exits {
    var stubs: seq<StubRec>
    var smcs: seq<SmcRec>

    constructor (s: seq<StubRec>)
      ensures stubs == s && smcs == []
    {
      stubs, smcs := s, [];
    }
  }

  ghost function BuildOf(J: Translator, X: Exits): Build
    requires J.Valid()
    reads J, J.regs, J.consts, J.aliases, X
  {
    Build(J.State(), X.stubs, X.smcs)
  }

  // --------------------------------------------------------------- operands

  method LoadMem(J: Translator, r: Reg, src: Opnd)
    requires J.Valid()
    modifies J`code
    ensures J.State() == Operands.LoadMem(old(J.State()), r, src)
  {
    if J.movbe {
      J.E(LoadBE(r, src));
    } else {
      J.E(Load(r, src));
      J.E(BswapR(r));
    }
  }

  method LoadStatic(J: Translator, r: Reg, a: word)
    requires J.Valid()
    modifies J`code
    ensures J.State() == Operands.LoadStatic(old(J.State()), r, a)
  {
    if FitsDisp(a) {
      LoadMem(J, r, Abs(a));
    } else {
      J.E(MovImm(r, a));
      LoadMem(J, r, Ind(r));
    }
  }

  method Shifted(J: Translator, v: CVal, left: bool, n: nat) returns (x: CVal)
    requires J.Valid() && v != NoVal && Operands.Shifted(J.State(), v, left, n).Some?
    modifies J, J.regs, J.consts, J.aliases
    ensures Some((x, J.State())) == Operands.Shifted(old(J.State()), v, left, n)
  {
    hide ToReg, Scratch, Shl, Shr;
    if v.Const? {
      return Const(if left then Shl(v.v, n) else Shr(v.v, n));
    }
    var s := J.InRegister(v);
    var r := J.TakeReg();
    J.E(MovRR(r, s));
    J.E(if left then ShlRI(r, n) else ShrRI(r, n));
    x := InReg(r);
  }

  method OrVal(J: Translator, r: Reg, v: CVal)
    requires J.Valid() && v != NoVal && Operands.OrVal(J.State(), r, v).Some?
    modifies J, J.regs, J.consts, J.aliases
    ensures Some(J.State()) == Operands.OrVal(old(J.State()), r, v)
  {
    hide ToReg;
    if v == Const(0) {
      return;
    }
    var t := J.InRegister(v);
    J.E(OrRR(r, t));
    if !v.InReg? {
      J.UnpinReg(t);
    }
  }

  method AndImm64(J: Translator, r: Reg, mask: word)
    requires J.Valid() && Operands.AndImm64(J.State(), r, mask).Some?
    modifies J, J.regs, J.consts, J.aliases
    ensures Some(J.State()) == Operands.AndImm64(old(J.State()), r, mask)
  {
    hide Scratch;
    if Imm32(mask) {
      J.E(AndImm(r, mask));
    } else if mask == 0xffff_ffff {
      J.E(Mov32(r));
    } else {
      var t := J.TakeReg();
      J.E(MovImm(t, mask));
      J.E(AndRR(r, t));
      J.UnpinReg(t);
    }
  }

  method LoadUncached(J: Translator, a: word) returns (v: CVal)
    requires J.Valid() && Operands.LoadUncached(J.State(), a).Some?
    modifies J, J.regs, J.consts, J.aliases
    ensures Some((v, J.State())) == Operands.LoadUncached(old(J.State()), a)
  {
    hide Scratch, FlushPending, Operands.LoadStatic, Bind;
    if J.pend && a % 8 != 0 && (J.pendAddr == Low(a) || J.pendAddr == High(a)) {
      J.Flush();
    }
    var r := J.TakeReg();
    LoadStatic(J, r, a);
    J.BindReg(r, a);
    v := InReg(r);
  }

  method GetWord(J: Translator, a: word) returns (v: CVal)
    requires J.Valid() && Operands.GetWord(J.State(), a).Some?
    modifies J, J.regs, J.consts, J.aliases
    ensures Some((v, J.State())) == Operands.GetWord(old(J.State()), a)
  {
    hide CacheFind, Operands.LoadUncached, PinVal;
    v := J.Find(a);
    if v != NoVal {
      J.PinValue(v);
    } else {
      v := LoadUncached(J, a);
    }
  }

  /** The recursion goes one deep: the halves are aligned. */
  method GetStatic(J: Translator, a: word) returns (v: CVal)
    requires J.Valid() && Operands.GetStatic(J.State(), a).Some?
    modifies J, J.regs, J.consts, J.aliases
    ensures Some((v, J.State())) == Operands.GetStatic(old(J.State()), a)
    decreases a % 8 != 0
  {
    hide CacheFind, Operands.LoadUncached, Operands.GetWord, Operands.Combine, PinVal;
    if Spans(a) {
      var lo := J.Find(Low(a));
      var hi := J.Find(High(a));
      if lo == NoVal && hi == NoVal {
        v := LoadUncached(J, a);
        return;
      }
      J.PinValue(lo);
      J.PinValue(hi);
      if lo == NoVal {
        lo := GetStatic(J, Low(a));
      }
      if hi == NoVal {
        hi := GetStatic(J, High(a));
      }
      v := Combine(J, lo, hi, Offset(a));
    } else {
      v := GetWord(J, a);
    }
  }

  method Combine(J: Translator, lo: CVal, hi: CVal, k: nat) returns (v: CVal)
    requires J.Valid() && lo != NoVal && hi != NoVal && k <= 64 && Operands.Combine(J.State(), lo, hi, k).Some?
    modifies J, J.regs, J.consts, J.aliases
    ensures Some((v, J.State())) == Operands.Combine(old(J.State()), lo, hi, k)
  {
    hide Operands.Shifted, Operands.OrVal, Or;
    v := Shifted(J, lo, true, k);
    var h := Shifted(J, hi, false, 64 - k);
    if v.Const? && h.Const? {
      return Const(Or(v.v, h.v));
    }
    if v.Const? {
      v, h := h, v;
    }
    OrVal(J, v.r, h);
  }

  method MaskedOr(J: Translator, w: CVal, keep: word, part: CVal) returns (x: CVal)
    requires J.Valid() && w != NoVal && (part.Const? || part.InReg?) && Operands.MaskedOr(J.State(), w, keep, part).Some?
    modifies J, J.regs, J.consts, J.aliases
    ensures Some((x, J.State())) == Operands.MaskedOr(old(J.State()), w, keep, part)
  {
    hide ToReg, Scratch, Operands.AndImm64, Operands.OrVal, Or, And;
    if w.Const? && part.Const? {
      return Const(Or(And(w.v, keep), part.v));
    }
    if w.Const? && And(w.v, keep) == 0 {
      return part;
    }
    var s := 0;
    if !w.Const? {
      s := J.InRegister(w);
    }
    var r := J.TakeReg();
    if w.Const? {
      J.E(MovImm(r, And(w.v, keep)));
    } else {
      J.E(MovRR(r, s));
      AndImm64(J, r, keep);
    }
    OrVal(J, r, part);
    x := InReg(r);
  }

  method Recache(J: Translator, a: word, v: CVal)
    requires J.Valid() && (v.Const? || v.InReg?)
    modifies J, J.regs, J.consts, J.aliases
    ensures J.State() == Operands.Recache(old(J.State()), a, v)
  {
    hide SetConst, Bind;
    if v.Const? {
      J.PutConst(a, v.v);
    } else {
      J.BindReg(v.r, a);
    }
  }

  method UpdateWord(J: Translator, a: word, w: CVal, keep: word, v: CVal, left: bool, n: nat)
    requires J.Valid() && v != NoVal && Operands.UpdateWord(J.State(), a, w, keep, v, left, n).Some?
    modifies J, J.regs, J.consts, J.aliases
    ensures Some(J.State()) == Operands.UpdateWord(old(J.State()), a, w, keep, v, left, n)
  {
    hide Operands.Shifted, Operands.MaskedOr, Operands.Recache;
    if w != NoVal {
      var part := Shifted(J, v, left, n);
      var x := MaskedOr(J, w, keep, part);
      Recache(J, a, x);
    }
  }

  /** Both halves, with v and whatever is cached of them pinned throughout. */
  method UpdateSpanned(J: Translator, a: word, v: CVal)
    requires J.Valid() && v != NoVal && Operands.UpdateSpanned(J.State(), a, v).Some?
    modifies J, J.regs, J.consts, J.aliases
    ensures Some(J.State()) == Operands.UpdateSpanned(old(J.State()), a, v)
  {
    hide Operands.UpdateWord, UnpinAll, PinVal, CacheFind, Shr, Not;
    var k := Offset(a);
    J.UnpinEach();
    J.PinValue(v);
    var lv := J.Find(Low(a));
    var hv := J.Find(High(a));
    J.PinValue(lv);
    J.PinValue(hv);
    UpdateWord(J, Low(a), lv, Not(Shr(TWO64 - 1, k)), v, false, k);
    UpdateWord(J, High(a), hv, Shr(TWO64 - 1, k), v, true, 64 - k);
  }

  // ------------------------------------------------------ the store check

  method ReadField(J: Translator, a: word, dyn: bool, val: word) returns (f: Field)
    requires J.Valid()
    modifies J`clock, J.regs
    ensures (f, J.State()) == Insn.ReadField(old(J.State()), a, dyn, val)
  {
    hide CacheFind, PinVal;
    if !dyn {
      return Known(val);
    }
    var v := J.Find(a);
    if v.Const? {
      return Known(v.v);
    }
    J.PinValue(v);
    f := Dynamic(v);
  }

  method ReadFields(J: Translator, s: Source) returns (f: Fields)
    requires J.Valid()
    modifies J`clock, J.regs
    ensures (f, J.State()) == Insn.ReadFields(old(J.State()), s)
  {
    hide Insn.ReadField, UnpinAll;
    J.UnpinEach();
    var a := ReadField(J, s.p, s.da, s.fa);
    var b := ReadField(J, Add(s.p, 8), s.db, s.fb);
    var c := ReadField(J, Add(s.p, 16), s.dc, s.fc);
    f := Fields(a, b, c);
  }

  method FieldReg(J: Translator, v: CVal, a: word, bind: bool) returns (r: Reg)
    requires J.Valid() && Insn.FieldReg(J.State(), v, a, bind).Some?
    modifies J, J.regs, J.consts, J.aliases
    ensures Some((r, J.State())) == Insn.FieldReg(old(J.State()), v, a, bind)
  {
    hide ToReg, Scratch, Operands.LoadStatic, Bind;
    if v != NoVal {
      r := J.InRegister(v);
    } else {
      r := J.TakeReg();
      LoadStatic(J, r, a);
      if bind {
        J.BindReg(r, a);
      }
    }
  }

  method CheckWord(J: Translator, X: Exits, w: int, i: nat, k: Checks)
    requires J.Valid()
    modifies J`clock, J`code, J.regs, X
    ensures BuildOf(J, X) == Insn.CheckWord(old(BuildOf(J, X)), w, i, k)
  {
    hide SnapPending;
    if w < k.memWords && w !in k.hoist {
      var p := J.Snap();
      J.E(JmpMarked(w, Smc(|X.smcs|)));
      X.smcs := X.smcs + [SmcRec(i, p)];
    }
  }

  /** A check for each word the store touches that was not checked on entry. */
  method CheckStatic(J: Translator, X: Exits, fb: word, i: nat, k: Checks)
    requires J.Valid()
    modifies J`clock, J`code, J.regs, X
    ensures BuildOf(J, X) == Insn.CheckStatic(old(BuildOf(J, X)), fb, i, k)
  {
    hide Insn.CheckWord;
    CheckWord(J, X, fb / 8, i, k);
    if Add(fb, 7) / 8 > fb / 8 {
      CheckWord(J, X, Add(fb, 7) / 8, i, k);
    }
  }

  method CheckDynamic(J: Translator, X: Exits, rb: Reg, i: nat)
    requires J.Valid() && Insn.CheckDynamic(BuildOf(J, X), rb, i).Some?
    modifies J, J.regs, J.consts, J.aliases, X
    ensures Some(BuildOf(J, X)) == Insn.CheckDynamic(old(BuildOf(J, X)), rb, i)
  {
    hide Scratch, SnapPending;
    var t1 := J.TakeReg();
    var t2 := J.TakeReg();
    J.E(MovRR(t1, rb));
    J.E(ShrRI(t1, 12));
    var p := J.Snap();
    J.E(JmpPage(rb, t1, t2, Smc(|X.smcs|)));
    X.smcs := X.smcs + [SmcRec(i, p)];
    J.UnpinReg(t1);
    J.UnpinReg(t2);
  }

  method CheckStore(J: Translator, X: Exits, s: Source, f: Field, k: Checks) returns (rb: Reg)
    requires J.Valid() && Insn.CheckStore(BuildOf(J, X), s, f, k).Some?
    modifies J, J.regs, J.consts, J.aliases, X
    ensures Some((rb, BuildOf(J, X))) == Insn.CheckStore(old(BuildOf(J, X)), s, f, k)
  {
    hide Insn.CheckStatic, Insn.CheckDynamic, Insn.FieldReg;
    if f.Known? {
      rb := 0;
      CheckStatic(J, X, f.val, s.i, k);
    } else {
      rb := FieldReg(J, f.v, Add(s.p, 8), true);
      CheckDynamic(J, X, rb, s.i);
    }
  }

  // ------------------------------------------------- operands and the result

  method LoadThrough(J: Translator, ra: Reg) returns (v: CVal)
    requires J.Valid() && Insn.LoadThrough(J.State(), ra).Some?
    modifies J, J.regs, J.consts, J.aliases
    ensures Some((v, J.State())) == Insn.LoadThrough(old(J.State()), ra)
  {
    hide FlushPending, Scratch, Operands.LoadMem;
    J.Flush();
    var r := J.TakeReg();
    LoadMem(J, r, Ind(ra));
    v := InReg(r);
  }

  method OperandA(J: Translator, s: Source, f: Field) returns (v: CVal)
    requires J.Valid() && Insn.OperandA(J.State(), s, f).Some?
    modifies J, J.regs, J.consts, J.aliases
    ensures Some((v, J.State())) == Insn.OperandA(old(J.State()), s, f)
  {
    hide Operands.GetStatic, Insn.FieldReg, Insn.LoadThrough;
    if f.Known? {
      v := GetStatic(J, f.val);
    } else {
      var ra := FieldReg(J, f.v, s.p, true);
      v := LoadThrough(J, ra);
    }
  }

  method OperandB(J: Translator, f: Field, rb: Reg) returns (v: CVal)
    requires J.Valid() && Insn.OperandB(J.State(), f, rb).Some?
    modifies J, J.regs, J.consts, J.aliases
    ensures Some((v, J.State())) == Insn.OperandB(old(J.State()), f, rb)
  {
    hide Operands.GetStatic, Insn.LoadThrough;
    if f.Known? {
      v := GetStatic(J, f.val);
    } else {
      v := LoadThrough(J, rb);
    }
  }

  method OperandC(J: Translator, s: Source, f: Field) returns (rc: Reg)
    requires J.Valid() && Insn.OperandC(J.State(), s, f).Some?
    modifies J, J.regs, J.consts, J.aliases
    ensures Some((rc, J.State())) == Insn.OperandC(old(J.State()), s, f)
  {
    hide Insn.FieldReg;
    if f.Known? {
      rc := 0;
    } else {
      rc := FieldReg(J, f.v, Add(s.p, 16), false);
    }
  }

  method Place(J: Translator, vb: CVal, f: Field) returns (here: bool)
    requires J.Valid()
    ensures here == InPlace(J.State(), vb, f)
  {
    hide Aliased;
    if !vb.InReg? {
      return false;
    }
    var al := J.IsAliased(vb.r);
    here := !al && (!J.regs[vb.r].used || (f.Known? && J.regs[vb.r].addr == f.val));
  }

  method Moved(J: Translator, s: Reg) returns (r: Reg)
    requires J.Valid() && Scratch(J.State()).Some?
    modifies J, J.regs, J.consts, J.aliases
    ensures var (t, c) := Scratch(old(J.State())).value; r == t && J.State() == Emit(c, MovRR(t, s))
  {
    hide Scratch;
    r := J.TakeReg();
    J.E(MovRR(r, s));
  }

  method ResultReg(J: Translator, vb: CVal, f: Field) returns (r: Reg)
    requires J.Valid() && vb != NoVal && Insn.ResultReg(J.State(), vb, f).Some?
    modifies J, J.regs, J.consts, J.aliases
    ensures Some((r, J.State())) == Insn.ResultReg(old(J.State()), vb, f)
  {
    hide Scratch, InPlace, ToReg;
    var here := Place(J, vb, f);
    if here {
      assert vb.InReg? by { InPlaceReg(J.State(), vb, f); }
      r := vb.r;
    } else if vb.InReg? {
      r := Moved(J, vb.r);
    } else {
      r := J.InRegister(vb);
    }
  }

  lemma InPlaceReg(c: Jit, vb: CVal, f: Field)
    requires InPlace(c, vb, f)
    ensures vb.InReg?
  {
  }

  /** The result, in a register or not, and the branch if it is known. */
  method Compute(J: Translator, va: CVal, vb: CVal, f: Field, branch: bool) returns (x: Result)
    requires J.Valid() && va != NoVal && vb != NoVal && Insn.Compute(J.State(), va, vb, f, branch).Some?
    modifies J, J.regs, J.consts, J.aliases
    ensures Some((x, J.State())) == Insn.Compute(old(J.State()), va, vb, f, branch)
  {
    hide Scratch, ToReg, Insn.ResultReg, Sub, Taken, Pin;
    if va.Const? && vb.Const? {
      x := Result(Const(Sub(vb.v, va.v)), Some(Taken(vb.v, va.v)), false);
    } else if va == Const(0) {
      if branch {
        var t := J.InRegister(vb);
        J.E(TestRR(t));
      }
      x := Result(vb, None, true);
    } else if vb == Const(0) && !branch {
      x := Result(if va.InReg? then NegReg(va.r) else InReg(va.r), None, false);
    } else if va.NegReg? && !vb.NegReg? && !branch {
      var rr;
      if f.Dynamic? && vb.InReg? {
        rr := Moved(J, vb.r);
      } else {
        rr := ResultReg(J, vb, f);
      }
      J.E(AddRR(rr, va.r));
      J.PinReg(rr);
      x := Result(InReg(rr), None, false);
    } else {
      var rr;
      if vb == Const(0) {
        rr := J.InRegister(va);
        if va.InReg? {
          rr := Moved(J, rr);
        }
        J.E(NegR(rr));
      } else {
        rr := ResultReg(J, vb, f);
        var ra := J.InRegister(va);
        J.E(SubRR(rr, ra));
      }
      J.PinReg(rr);
      x := Result(InReg(rr), None, false);
    }
  }

  // ------------------------------------------------- the store and the cache

  method StoreNow(J: Translator, res: CVal, f: Field, rb: Reg) returns (v: CVal)
    requires J.Valid() && res != NoVal && Insn.StoreNow(J.State(), res, f, rb).Some?
    modifies J, J.regs, J.consts, J.aliases
    ensures Some((v, J.State())) == Insn.StoreNow(old(J.State()), res, f, rb)
  {
    hide FlushPending, StoreConst, ToReg, StoreReg;
    var dst := if f.Known? then Abs(f.val) else Ind(rb);
    J.Flush();
    if res.Const? {
      J.PutImm(res.v, dst);
      v := res;
    } else {
      var r := J.InRegister(res);
      J.PutReg(r, dst);
      v := InReg(r);
    }
  }

  method CacheResult(J: Translator, a: word, res: CVal)
    requires J.Valid() && res != NoVal && Insn.CacheResult(J.State(), a, res).Some?
    modifies J, J.regs, J.consts, J.aliases
    ensures Some(J.State()) == Insn.CacheResult(old(J.State()), a, res)
  {
    hide SetConst, SetAlias, Bind;
    match res
    case Const(x) => J.PutConst(a, x);
    case NegReg(r) => J.PutAlias(a, r, true);
    case InReg(r) =>
      if J.regs[r].used && J.regs[r].addr != a {
        J.PutAlias(a, r, false);
      } else {
        J.BindReg(r, a);
      }
  }

  /** Stores the result or holds it back, and what that does to the cache. */
  method StoreResult(J: Translator, x: Result, f: Field, rb: Reg) returns (v: CVal)
    requires J.Valid() && x.res != NoVal && Insn.StoreResult(J.State(), x, f, rb).Some?
    modifies J, J.regs, J.consts, J.aliases
    ensures Some((v, J.State())) == Insn.StoreResult(old(J.State()), x, f, rb)
  {
    hide FlushPending, Insn.CacheResult, Insn.StoreNow, CacheDrop, CacheDropAll, Spans;
    v := x.res;
    if Pendable(f) {
      if !x.kept && J.pend && J.pendAddr != f.val {
        J.Flush();
      }
      CacheResult(J, f.val, v);
      if !x.kept {
        J.pend := true;
        J.pendAddr := f.val;
      }
    } else if !x.kept {
      v := StoreNow(J, v, f, rb);
      if f.Dynamic? {
        J.DropAll();
      } else if !Spans(f.val) {
        J.Drop(Low(f.val));
        J.Drop(High(f.val));
      }
    }
  }

  method BranchOut(J: Translator, X: Exits, s: Source, f: Fields, taken: Option<bool>, rc: Reg) returns (ended: bool)
    requires J.Valid()
    modifies J`clock, J`code, J.regs, X
    ensures (ended, BuildOf(J, X)) == Insn.BranchOut(old(BuildOf(J, X)), s, f, taken, rc)
  {
    hide SnapPending;
    if taken == Some(false) || !Branches(s, f) {
      return false;
    }
    var p := J.Snap();
    ended := taken == Some(true);
    J.E(if ended then Jmp(Stub(|X.stubs|)) else JmpLE(Stub(|X.stubs|)));
    X.stubs := X.stubs + [StubRec(f.c.Dynamic?, if f.c.Known? then f.c.val else 0, s.i, rc, p)];
  }

  method Arithmetic(J: Translator, s: Source, f: Fields, rb: Reg) returns (x: Result, rc: Reg)
    requires J.Valid() && Insn.Arithmetic(J.State(), s, f, rb).Some?
    modifies J, J.regs, J.consts, J.aliases
    ensures Some((x, rc, J.State())) == Insn.Arithmetic(old(J.State()), s, f, rb)
  {
    hide Insn.OperandA, Insn.OperandB, Insn.OperandC, Insn.Compute, FlushPending;
    if SameWord(f) {
      rc := OperandC(J, s, f.c);
      x := Result(Const(0), Some(true), false);
    } else {
      var va := OperandA(J, s, f.a);
      var vb := OperandB(J, f.b, rb);
      rc := OperandC(J, s, f.c);
      if !(va == Const(0) && !vb.Const?) && (!Pendable(f.b) || J.pendAddr != f.b.val) {
        J.Flush();
      }
      x := Compute(J, va, vb, f.b, Branches(s, f));
    }
  }

  method Conclude(J: Translator, X: Exits, s: Source, f: Fields, rb: Reg, x: Result, rc: Reg) returns (ended: bool)
    requires J.Valid() && x.res != NoVal && Insn.Conclude(BuildOf(J, X), s, f, rb, x, rc).Some?
    modifies J, J.regs, J.consts, J.aliases, X
    ensures Some((ended, BuildOf(J, X))) == Insn.Conclude(old(BuildOf(J, X)), s, f, rb, x, rc)
  {
    hide Insn.StoreResult, Insn.BranchOut, Operands.UpdateSpanned, Spans;
    J.flagsLive := Branches(s, f) && x.taken == None;
    var res := StoreResult(J, x, f.b, rb);
    J.flagsLive := false;
    ended := BranchOut(J, X, s, f, x.taken, rc);
    if f.b.Known? && Spans(f.b.val) && !x.kept && !ended {
      UpdateSpanned(J, f.b.val, res);
    }
  }

  /** An instruction's code, checks and exits; the result says that nothing can
      follow it. */
  method TranslateInsn(J: Translator, X: Exits, s: Source, k: Checks) returns (ended: bool)
    requires J.Valid() && Insn.TranslateInsn(BuildOf(J, X), s, k).Some?
    modifies J, J.regs, J.consts, J.aliases, X
    ensures Some((ended, BuildOf(J, X))) == Insn.TranslateInsn(old(BuildOf(J, X)), s, k)
  {
    hide Insn.ReadFields, Insn.CheckStore, Insn.Arithmetic, Insn.Conclude;
    var f := ReadFields(J, s);
    var rb := CheckStore(J, X, s, f.b, k);
    var x, rc := Arithmetic(J, s, f, rb);
    ended := Conclude(J, X, s, f, rb, x, rc);
  }

  // -------------------------------------------------------------- the block

  /** How many instructions, and which of the block's words they write. */
  method FindExtent(w: World, start: word, copy: bool) returns (n: nat, written: set<int>)
    requires w.memSize <= 0x4000_0000_0000_0000
    ensures (n, written) == Extent(w, start, copy, 0)
  {
    hide Rd, TouchedIn;
    n, written := 0, {};
    ghost var all := Extent(w, start, copy, 0);
    assert all.1 == {} + all.1;
    while n < Limit(copy) && start + 24 * (n + 1) <= w.memSize
      invariant n <= Limit(copy)
      invariant all.0 == Extent(w, start, copy, n).0 && all.1 == written + Extent(w, start, copy, n).1
      decreases Limit(copy) - n
    {
      var p := start + 24 * n;
      if n > 0 && !copy && p in w.starts {
        break;
      }
      var a, b, c := Rd(w.mem, p), Rd(w.mem, p + 8), Rd(w.mem, p + 16);
      n := n + 1;
      if (p + 8) / 8 !in w.dynMap {
        written := written + TouchedIn(b, start);
      }
      var dyn := p / 8 in w.dynMap || (p + 8) / 8 in w.dynMap || (p + 16) / 8 in w.dynMap;
      if !dyn && a == b && c != p + 24 {
        return;
      }
    }
  }

  /** Adds the words a store to b touches, if they are not there yet. */
  method HoistStore(h: seq<int>, b: word, memWords: int) returns (hoist: seq<int>)
    requires memWords <= 0x800_0000_0000_0000
    ensures hoist == HoistBoth(h, b, memWords)
  {
    hoist := h;
    var lo, hi := b / 8, Add(b, 7) / 8;
    var v := lo;
    while v <= hi && v < memWords
      invariant lo <= v <= lo + 2
      invariant hoist == if v == lo then h else if v == lo + 1 then HoistWord(h, lo, memWords) else HoistBoth(h, b, memWords)
      invariant v > lo ==> lo < memWords && lo <= hi
      invariant v > lo + 1 ==> lo < hi
      decreases hi + 1 - v
    {
      if v !in hoist {
        hoist := hoist + [v];
      }
      v := v + 1;
    }
  }

  /** The list checked on entry, in the order the instructions mention them. */
  method FindHoisted(w: World, dyn: set<int>, start: word, n: nat) returns (hoist: seq<int>)
    requires start + 24 * n < TWO64 && w.memSize <= 0x4000_0000_0000_0000
    ensures hoist == Hoisted(w, dyn, start, n)
  {
    hide Rd, HoistBoth;
    hoist := [];
    for k := 0 to n
      invariant hoist == Hoisted(w, dyn, start, k)
    {
      var p := start + 24 * k;
      if (p + 8) / 8 !in dyn {
        hoist := HoistStore(hoist, Rd(w.mem, p + 8), w.memSize / 8);
      }
    }
  }

  method FallOut(J: Translator, X: Exits, start: word, n: nat)
    requires J.Valid() && 0 < n && start + 24 * n < TWO64
    modifies J`clock, J`code, J.regs, X
    ensures BuildOf(J, X) == Blocks.FallOut(old(BuildOf(J, X)), start, n)
  {
    hide SnapPending;
    var p := J.Snap();
    J.E(Jmp(Stub(|X.stubs|)));
    X.stubs := X.stubs + [StubRec(false, start + 24 * n, n - 1, 0, p)];
  }

  /** Translates instructions until there are n or one ends the block. */
  method TranslateRun(J: Translator, X: Exits, w: World, dyn: set<int>, k: Checks, start: word, n: nat) returns (i: nat, ended: bool)
    requires J.Valid() && start + 24 * n < TWO64 && TranslateFrom(BuildOf(J, X), w, dyn, k, start, 0, n).Some?
    modifies J, J.regs, J.consts, J.aliases, X
    ensures Some((i, ended, BuildOf(J, X))) == TranslateFrom(old(BuildOf(J, X)), w, dyn, k, start, 0, n)
  {
    hide Insn.TranslateInsn, SourceAt;
    i, ended := 0, false;
    while i < n && !ended
      invariant 0 <= i <= n
      invariant TranslateFrom(old(BuildOf(J, X)), w, dyn, k, start, 0, n) ==
                if ended then Some((i, true, BuildOf(J, X))) else TranslateFrom(BuildOf(J, X), w, dyn, k, start, i, n)
    {
      ended := TranslateInsn(J, X, SourceAt(w, dyn, start, i), k);
      i := i + 1;
    }
  }

  /** Translates the block at start. */
  method Translate(w: World, start: word) returns (blk: Block)
    requires start % 8 == 0 && start + 24 <= w.memSize <= 0x4000_0000_0000_0000 && Blocks.Translate(w, start).Some?
    ensures Some(blk) == Blocks.Translate(w, start)
  {
    hide Rd, FindCopy, Extent, Hoisted, TranslateFrom, Blocks.FallOut, Baked;
    var copy := Match(w.mem, w.dynMap, start, w.memSize);
    var n, written := FindExtent(w, start, copy.Some?);
    if n != 19 {
      copy := None;
    }
    var dyn := w.dynMap + written;
    var hoist := FindHoisted(w, dyn, start, n);
    var k := Checks(hoist, w.memSize / 8);
    var J := new Translator(w.movbe, w.turns);
    var X := new Exits(if copy.Some? then [StubRec(false, start + LOOP_LEN, 18, 0, NotHeld)] else []);
    assert BuildOf(J, X) == EmptyBuild(w, start, copy);
    var i, ended := TranslateRun(J, X, w, dyn, k, start, n);
    if !ended {
      FallOut(J, X, start, i);
    }
    blk := Block(start, i, hoist, J.code, X.stubs, X.smcs, Baked(w, dyn, start, i), copy, w.movbe);
  }

  // -------------------------------------------------------------- the stubs

  /** A stub's code for a held-back store: t and base are the first registers that
      hold neither the value nor what the stub goes on to use. */
  method StubStore(p: Pending, keep: int, movbe: bool) returns (ops: seq<Op>)
    ensures ops == Blocks.StubStore(p, keep, movbe)
  {
    hide Bswap;
    if p.NotHeld? || p.v.NoVal? {
      return [];
    }
    var t := 0;
    while t == HeldReg(p) || t == keep
      invariant 0 <= t <= NotThese(0, HeldReg(p), keep)
      decreases NotThese(0, HeldReg(p), keep) - t
    {
      t := t + 1;
    }
    var base := t + 1;
    while base == HeldReg(p) || base == keep
      invariant t + 1 <= base <= NotThese(t + 1, HeldReg(p), keep)
      decreases NotThese(t + 1, HeldReg(p), keep) - base
    {
      base := base + 1;
    }
    var dst := Abs(p.addr);
    ops := [];
    if !FitsDisp(p.addr) {
      ops := [MovImm(base, p.addr)];
      dst := Ind(base);
    }
    if p.v.Const? {
      ops := ops + [MovImm(t, Bswap(p.v.v)), Store(dst, t)];
    } else if p.v.InReg? && movbe {
      ops := ops + [StoreBE(dst, p.v.r)];
    } else {
      ops := ops + [MovRR(t, p.v.r)];
      if p.v.NegReg? {
        ops := ops + [NegR(t)];
      }
      ops := ops + if movbe then [StoreBE(dst, t)] else [BswapR(t), Store(dst, t)];
    }
  }
}
