/** Translation of one SUBLEQ instruction into a block being built. */
module Insn {
  import opened Options
  import opened Words
  import opened Memory
  import opened X86
  import opened RegCache
  import opened Operands

  /** An exit of the block by a branch: to a static target or to C in creg. */
  datatype StubRec = StubRec(dyn: bool, target: word, idx: nat, creg: Reg, pend: Pending)

  /** An exit before an instruction that would store to translated code. */
  datatype SmcRec = SmcRec(idx: nat, pend: Pending)

  datatype Build = Build(c: Jit, stubs: seq<StubRec>, smcs: seq<SmcRec>)

  /** An instruction as read when translated, and which of its fields are read
      at run time instead; the i-th of its block, at p. */
  datatype Source = Source(p: word, i: nat, fa: word, fb: word, fc: word, da: bool, db: bool, dc: bool)

  /** What a block's store checks rely on: the words checked when it is entered,
      and how many words there are. */
  datatype Checks = Checks(hoist: seq<int>, memWords: int)

  /** A field's value, known when translating or cached (if at all) as v. */
  datatype Field = Known(val: word) | Dynamic(v: CVal)

  datatype Fields = Fields(a: Field, b: Field, c: Field)

  predicate Extends(b: Build, d: Build) {
    b.c.code <= d.c.code && b.stubs <= d.stubs && b.smcs <= d.smcs
  }

  function ReadField(c: Jit, a: word, dyn: bool, val: word): (r: (Field, Jit))
    ensures r.1.code == c.code
  {
    if !dyn then (Known(val), c)
    else
      var (v, c1) := CacheFind(c, a);
      if v.Const? then (Known(v.v), c1) else (Dynamic(v), PinVal(c1, v))
  }

  function ReadFields(c: Jit, s: Source): (r: (Fields, Jit))
    ensures r.1.code == c.code
  {
    var (a, c1) := ReadField(UnpinAll(c), s.p, s.da, s.fa);
    var (b, c2) := ReadField(c1, Add(s.p, 8), s.db, s.fb);
    var (d, c3) := ReadField(c2, Add(s.p, 16), s.dc, s.fc);
    (Fields(a, b, d), c3)
  }

  /** A register with a dynamic field: as cached, or loaded, and then cached if
      bind is set. */
  function FieldReg(c: Jit, v: CVal, a: word, bind: bool): (o: Option<(Reg, Jit)>)
    ensures o.Some? ==> c.code <= o.value.1.code
  {
    if v != NoVal then ToReg(c, v)
    else
      var (r, c1) :- Scratch(c);
      var c2 := LoadStatic(c1, r, a);
      Some((r, if bind then Bind(c2, r, a) else c2))
  }

  // ------------------------------------------------------ the store check

  function CheckWord(b: Build, w: int, i: nat, k: Checks): (d: Build)
    ensures Extends(b, d)
  {
    if w >= k.memWords || w in k.hoist then b
    else
      var (p, c1) := SnapPending(b.c);
      Build(Emit(c1, JmpMarked(w, Smc(|b.smcs|))), b.stubs, b.smcs + [SmcRec(i, p)])
  }

  function CheckStatic(b: Build, fb: word, i: nat, k: Checks): (d: Build)
    ensures Extends(b, d)
  {
    var w0, w1 := fb / 8, Add(fb, 7) / 8;
    var b1 := CheckWord(b, w0, i, k);
    if w1 <= w0 then b1 else CheckWord(b1, w1, i, k)
  }

  function CheckDynamic(b: Build, rb: Reg, i: nat): (o: Option<Build>)
    ensures o.Some? ==> Extends(b, o.value)
  {
    var (t1, c1) :- Scratch(b.c);
    var (t2, c2) :- Scratch(c1);
    var c3 := Emit(Emit(c2, MovRR(t1, rb)), ShrRI(t1, 12));
    var (p, c4) := SnapPending(c3);
    var c5 := Emit(c4, JmpPage(rb, t1, t2, Smc(|b.smcs|)));
    Some(Build(Unpin(Unpin(c5, t1), t2), b.stubs, b.smcs + [SmcRec(i, p)]))
  }

  /** Checks the store; for a dynamic B also the register with it. */
  function CheckStore(b: Build, s: Source, f: Field, k: Checks): (o: Option<(Reg, Build)>)
    ensures o.Some? ==> Extends(b, o.value.1)
  {
    if f.Known? then Some((0, CheckStatic(b, f.val, s.i, k)))
    else
      var (rb, c1) :- FieldReg(b.c, f.v, Add(s.p, 8), true);
      var b1 :- CheckDynamic(b.(c := c1), rb, s.i);
      Some((rb, b1))
  }

  // ---------------------------------------------------------- the operands

  /** The word where register ra points. */
  function LoadThrough(c: Jit, ra: Reg): (o: Option<(CVal, Jit)>)
    ensures o.Some? ==> c.code <= o.value.1.code && o.value.0 != NoVal
  {
    var c1 :- FlushPending(c);
    var (r, c2) :- Scratch(c1);
    Some((InReg(r), LoadMem(c2, r, Ind(ra))))
  }

  function OperandA(c: Jit, s: Source, f: Field): (o: Option<(CVal, Jit)>)
    ensures o.Some? ==> c.code <= o.value.1.code && o.value.0 != NoVal
  {
    if f.Known? then GetStatic(c, f.val)
    else
      var (ra, c1) :- FieldReg(c, f.v, s.p, true);
      LoadThrough(c1, ra)
  }

  function OperandB(c: Jit, f: Field, rb: Reg): (o: Option<(CVal, Jit)>)
    ensures o.Some? ==> c.code <= o.value.1.code && o.value.0 != NoVal
  {
    if f.Known? then GetStatic(c, f.val) else LoadThrough(c, rb)
  }

  /** A dynamic C, read before the store. */
  function OperandC(c: Jit, s: Source, f: Field): (o: Option<(Reg, Jit)>)
    ensures o.Some? ==> c.code <= o.value.1.code
  {
    if f.Known? then Some((0, c)) else FieldReg(c, f.v, Add(s.p, 16), false)
  }

  // ------------------------------------------------------------ the result

  /** The new B; whether the branch is known; and whether B stays as it is. */
  datatype Result = Result(res: CVal, taken: Option<bool>, kept: bool)

  predicate SameWord(f: Fields) { f.a.Known? && f.b.Known? && f.a.val == f.b.val }

  predicate Branches(s: Source, f: Fields) { f.c.Dynamic? || f.c.val != Add(s.p, 24) }

  predicate Pendable(f: Field) { f.Known? && Cacheable(f.val) }

  /** B's register holds nothing but B, so that the result can go there. */
  predicate InPlace(c: Jit, vb: CVal, f: Field) {
    && vb.InReg? && !Aliased(c, vb.r)
    && (!c.regs[vb.r].used || (f.Known? && c.regs[vb.r].addr == f.val))
  }

  /** A register to compute in, with B's value. */
  function ResultReg(c: Jit, vb: CVal, f: Field): (o: Option<(Reg, Jit)>)
    requires vb != NoVal
    ensures o.Some? ==> c.code <= o.value.1.code
  {
    if InPlace(c, vb, f) then Some((vb.r, c))
    else if vb.InReg? then
      var (r, c1) :- Scratch(c);
      Some((r, Emit(c1, MovRR(r, vb.r))))
    else ToReg(c, vb)
  }

  function Compute(c: Jit, va: CVal, vb: CVal, f: Field, branch: bool): (o: Option<(Result, Jit)>)
    requires va != NoVal && vb != NoVal
    ensures o.Some? ==> c.code <= o.value.1.code && o.value.0.res != NoVal
  {
    if va.Const? && vb.Const? then
      Some((Result(Const(Sub(vb.v, va.v)), Some(Taken(vb.v, va.v)), false), c))
    else if va == Const(0) then
      if branch then
        var (t, c1) :- ToReg(c, vb);
        Some((Result(vb, None, true), Emit(c1, TestRR(t))))
      else Some((Result(vb, None, true), c))
    else if vb == Const(0) && !branch then
      Some((Result(if va.InReg? then NegReg(va.r) else InReg(va.r), None, false), c))
    else if va.NegReg? && !vb.NegReg? && !branch then
      var (rr, c1) :-
        if f.Dynamic? && vb.InReg? then
          var (r, c0) :- Scratch(c); Some((r, Emit(c0, MovRR(r, vb.r))))
        else ResultReg(c, vb, f);
      Some((Result(InReg(rr), None, false), Pin(Emit(c1, AddRR(rr, va.r)), rr)))
    else if vb == Const(0) then
      var (r, c1) :- ToReg(c, va);
      var (rr, c2) :-
        if va.InReg? then
          var (r2, c0) :- Scratch(c1); Some((r2, Emit(c0, MovRR(r2, r))))
        else Some((r, c1));
      Some((Result(InReg(rr), None, false), Pin(Emit(c2, NegR(rr)), rr)))
    else
      var (rr, c1) :- ResultReg(c, vb, f);
      var (ra, c2) :- ToReg(c1, va);
      Some((Result(InReg(rr), None, false), Pin(Emit(c2, SubRR(rr, ra)), rr)))
  }

  /** The held-back store goes first unless the coming one makes it dead. */
  predicate FlushFirst(c: Jit, f: Fields, va: CVal, vb: CVal) {
    !(va == Const(0) && !vb.Const?) && (!Pendable(f.b) || c.pendAddr != f.b.val)
  }

  // ------------------------------------------------- the store and the cache

  /** Stores a result that cannot be held back, and where it is then. */
  function StoreNow(c: Jit, res: CVal, f: Field, rb: Reg): (o: Option<(CVal, Jit)>)
    requires res != NoVal
    ensures o.Some? ==> c.code <= o.value.1.code && o.value.0 != NoVal
    ensures o.Some? ==> o.value.0.Const? || o.value.0.InReg?
  {
    var dst := if f.Known? then Abs(f.val) else Ind(rb);
    var c1 :- FlushPending(c);
    if res.Const? then
      var c2 :- StoreConst(c1, res.v, dst);
      Some((res, c2))
    else
      var (r, c2) :- ToReg(c1, res);
      var c3 :- StoreReg(c2, r, dst);
      Some((InReg(r), c3))
  }

  /** Makes res the cached value of the word at a. */
  function CacheResult(c: Jit, a: word, res: CVal): (o: Option<Jit>)
    requires res != NoVal
    ensures o.Some? ==> c.code <= o.value.code
  {
    match res
    case Const(x) => Some(SetConst(c, a, x))
    case NegReg(r) => SetAlias(c, a, r, true)
    case InReg(r) =>
      if c.regs[r].used && c.regs[r].addr != a then SetAlias(c, a, r, false) else Some(Bind(c, r, a))
  }

  /** The store of the result, held back if it can be, and what it does to the
      cache, except for the words an unaligned one spans. */
  function StoreResult(c: Jit, x: Result, f: Field, rb: Reg): (o: Option<(CVal, Jit)>)
    requires x.res != NoVal
    ensures o.Some? ==> c.code <= o.value.1.code && o.value.0 != NoVal
  {
    if Pendable(f) then
      var c1 :- if !x.kept && c.pend && c.pendAddr != f.val then FlushPending(c) else Some(c);
      var c2 :- CacheResult(c1, f.val, x.res);
      Some((x.res, if x.kept then c2 else c2.(pend := true, pendAddr := f.val)))
    else if x.kept then Some((x.res, c))
    else
      var (res, c1) :- StoreNow(c, x.res, f, rb);
      Some((res,
        if f.Dynamic? then CacheDropAll(c1)
        else if Spans(f.val) then c1
        else CacheDrop(CacheDrop(c1, Low(f.val)), High(f.val))))
  }

  /** The branch out of the block; whether it is unconditional. */
  function BranchOut(b: Build, s: Source, f: Fields, taken: Option<bool>, rc: Reg): (r: (bool, Build))
    ensures Extends(b, r.1)
  {
    if taken == Some(false) || !Branches(s, f) then (false, b)
    else
      var (p, c1) := SnapPending(b.c);
      var rec := StubRec(f.c.Dynamic?, if f.c.Known? then f.c.val else 0, s.i, rc, p);
      var x := Stub(|b.stubs|);
      (taken == Some(true), Build(Emit(c1, if taken == Some(true) then Jmp(x) else JmpLE(x)), b.stubs + [rec], b.smcs))
  }

  /** The instruction's operands and result, from the checked store on. */
  function Arithmetic(c: Jit, s: Source, f: Fields, rb: Reg): (o: Option<(Result, Reg, Jit)>)
    ensures o.Some? ==> c.code <= o.value.2.code && o.value.0.res != NoVal
  {
    if SameWord(f) then
      var (rc, c1) :- OperandC(c, s, f.c);
      Some((Result(Const(0), Some(true), false), rc, c1))
    else
      var (va, c1) :- OperandA(c, s, f.a);
      var (vb, c2) :- OperandB(c1, f.b, rb);
      var (rc, c3) :- OperandC(c2, s, f.c);
      var c4 :- if FlushFirst(c3, f, va, vb) then FlushPending(c3) else Some(c3);
      var (x, c5) :- Compute(c4, va, vb, f.b, Branches(s, f));
      Some((x, rc, c5))
  }

  /** Stores the result and branches; whether that ended the block. */
  function Conclude(b: Build, s: Source, f: Fields, rb: Reg, x: Result, rc: Reg): (o: Option<(bool, Build)>)
    requires x.res != NoVal
    ensures o.Some? ==> Extends(b, o.value.1)
  {
    hide StoreResult, BranchOut, UpdateSpanned, Spans;
    var c1 := b.c.(flagsLive := Branches(s, f) && x.taken == None);
    var (res, c2) :- StoreResult(c1, x, f.b, rb);
    var (ended, d) := BranchOut(b.(c := c2.(flagsLive := false)), s, f, x.taken, rc);
    if f.b.Known? && Spans(f.b.val) && !x.kept && !ended then
      var c3 :- UpdateSpanned(d.c, f.b.val, res);
      Some((ended, d.(c := c3)))
    else Some((ended, d))
  }

  /** All phases of an instruction, and whether an unconditional jump closed them.
      */
  function TranslateInsn(b: Build, s: Source, k: Checks): (o: Option<(bool, Build)>)
    ensures o.Some? ==> Extends(b, o.value.1)
  {
    hide ReadFields, CheckStore, Arithmetic, Conclude;
    var (f, c0) := ReadFields(b.c, s);
    var (rb, b1) :- CheckStore(b.(c := c0), s, f.b, k);
    var (x, rc, c2) :- Arithmetic(b1.c, s, f, rb);
    Conclude(b1.(c := c2), s, f, rb, x, rc)
  }
}
