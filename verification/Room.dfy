/** There is always a register to take, as long as no operand has to be put
    together from two words: an instruction pins no more than the eleven. */
module Room {
  import opened Options
  import opened Words
  import opened Memory
  import opened X86
  import opened RegCache
  import opened CacheProofs
  import opened Operands
  import opened OperandProofs
  import opened Insn
  import opened InsnCorrect
  import opened OwnC
  import opened OneEntry
  import opened Blocks

  // ----------------------------------------------------------- counting pins

  function PinCount(s: seq<CReg>): nat {
    if s == [] then 0 else PinCount(s[..|s| - 1]) + if s[|s| - 1].pinned then 1 else 0
  }

  lemma {:induction false} PinOne(s: seq<CReg>, r: nat, e: CReg)
    requires r < |s|
    ensures PinCount(s[r := e]) == PinCount(s) - (if s[r].pinned then 1 else 0) + (if e.pinned then 1 else 0)
  {
    var n := |s| - 1;
    if r == n {
      assert s[r := e][..n] == s[..n];
    } else {
      PinOne(s[..n], r, e);
      assert s[r := e][..n] == s[..n][r := e];
    }
  }

  lemma {:induction false} PinSame(s: seq<CReg>, t: seq<CReg>)
    requires |s| == |t| && forall i | 0 <= i < |s| :: s[i].pinned == t[i].pinned
    ensures PinCount(s) == PinCount(t)
  {
    if s != [] {
      PinSame(s[..|s| - 1], t[..|t| - 1]);
    }
  }

  lemma {:induction false} PinAll(s: seq<CReg>)
    requires forall i | 0 <= i < |s| :: s[i].pinned
    ensures PinCount(s) == |s|
  {
    if s != [] {
      PinAll(s[..|s| - 1]);
    }
  }

  lemma {:induction false} PinNone(s: seq<CReg>)
    requires forall i | 0 <= i < |s| :: !s[i].pinned
    ensures PinCount(s) == 0
  {
    if s != [] {
      PinNone(s[..|s| - 1]);
    }
  }

  /** Registers pinned, and two more that storing what is held back may pin. */
  function Weight(c: Jit): nat { PinCount(c.regs) + if c.pend then 2 else 0 }

  /** The held-back word is cached. */
  predicate HeldCached(c: Jit) { c.pend ==> Lookup(c, c.pendAddr) != NoVal }

  lemma SameWeight(c: Jit, d: Jit)
    requires d.pend == c.pend && forall i | 0 <= i < 11 :: c.regs[i].pinned == d.regs[i].pinned
    ensures Weight(c) == Weight(d)
  {
    PinSame(c.regs, d.regs);
  }

  lemma FindSame(c: Jit, a: word)
    ensures var d := CacheFind(c, a).1;
      && Weight(d) == Weight(c) && d.pend == c.pend && d.pendAddr == c.pendAddr && (HeldCached(c) ==> HeldCached(d))
      && forall b :: Lookup(d, b) == Lookup(c, b)
    ensures forall r | 0 <= r < 11 :: CacheFind(c, a).1.regs[r].pinned == c.regs[r].pinned
  {
    hide Lookup, PinCount;
    var (v, d) := CacheFind(c, a);
    TouchOk(c, v);
    SameWeight(c, d);
    forall b: word
      ensures Lookup(d, b) == Lookup(c, b)
    {
      SameLookup(c, d, b);
    }
  }

  lemma PinWeight(c: Jit, r: Reg)
    ensures Weight(Pin(c, r)) == Weight(c) + (if c.regs[r].pinned then 0 else 1)
    ensures Weight(Unpin(c, r)) == Weight(c) - (if c.regs[r].pinned then 1 else 0)
    ensures forall b :: Lookup(Pin(c, r), b) == Lookup(c, b) == Lookup(Unpin(c, r), b)
  {
    hide Lookup, PinCount;
    PinOne(c.regs, r, c.regs[r].(pinned := true));
    PinOne(c.regs, r, c.regs[r].(pinned := false));
    forall b: word
      ensures Lookup(Pin(c, r), b) == Lookup(c, b) == Lookup(Unpin(c, r), b)
    {
      PinLookup(c, r, b);
    }
  }

  lemma EmitSame(c: Jit, d: Jit)
    requires d == c.(code := d.code)
    ensures Weight(d) == Weight(c) && (HeldCached(c) ==> HeldCached(d))
  {
    hide Lookup, PinCount;
    FreeLookup(c, d, c.pendAddr);
  }

  // --------------------------------------- registers and the held-back store

  /** What a step comes to: a state, no more than n heavier. */
  predicate Within(c: Jit, o: Option<Jit>, n: nat) {
    o.Some? && Weight(o.value) <= Weight(c) + n && HeldCached(o.value)
    && (o.value.pend ==> c.pend && o.value.pendAddr == c.pendAddr)
  }

  predicate HasRoom(c: Jit) { Weight(c) <= 9 || (Weight(c) <= 10 && !c.pend) }

  function JitOf<T>(o: Option<(T, Jit)>): Option<Jit> { if o.Some? then Some(o.value.1) else None }

  lemma ScratchRoom(c: Jit)
    requires HeldCached(c) && HasRoom(c)
    ensures Within(c, JitOf(Scratch(c)), 1)
    decreases Held(c), 3
  {
    hide Release, ScratchScan, Lookup, PinCount;
    var best := ScratchScan(c, 0, -1);
    if best < 0 {
      PinAll(c.regs);
      assert false;
    }
    PinWeight(c, best);
    ReleaseRoom(Pin(c, best), best);
  }

  lemma ReleaseRoom(c: Jit, r: Reg)
    requires HeldCached(c) && c.regs[r].pinned && (c.pend ==> Weight(c) <= 10)
    ensures Within(c, Release(c, r), 0)
    decreases Held(c), 2
  {
    hide FlushPending, Lookup, PinCount;
    var c1 := c;
    if c.pend {
      var (v, c2) := CacheFind(c, c.pendAddr);
      FindSame(c, c.pendAddr);
      if Uses(v, r) {
        FlushRoom(c2);
        c1 := FlushPending(c2).value;
      } else {
        c1 := c2;
        DropRegKeeps(c2, r, c.pendAddr);
      }
    }
    SameWeight(c1, DropReg(c1, r));
  }

  lemma ToRegRoom(c: Jit, v: CVal)
    requires v != NoVal && HeldCached(c) && PinnedIn(c, v) && (v.InReg? || HasRoom(c))
    ensures Within(c, JitOf(ToReg(c, v)), if v.InReg? then 0 else 1)
    decreases Held(c), 4
  {
    hide Scratch, Lookup, PinCount;
    match v
    case InReg(_) =>
    case NegReg(s) =>
      assert Pin(c, s) == c by { assert c.regs[s].(pinned := true) == c.regs[s]; }
      ScratchRoom(c);
      var (r, c1) := Scratch(c).value;
      EmitSame(c1, Negate(Emit(c1, MovRR(r, s)), r));
    case Const(n) =>
      ScratchRoom(c);
      var (r, c1) := Scratch(c).value;
      EmitSame(c1, Emit(c1, MovImm(r, n)));
  }

  lemma StoreToRoom(c: Jit, dst: Opnd, r: Reg)
    requires !c.pend && Weight(c) <= 10
    ensures Within(c, StoreTo(c, dst, r), 1)
    decreases Held(c), 4
  {
    hide Scratch, Lookup, PinCount;
    if c.movbe {
      EmitSame(c, StoreTo(c, dst, r).value);
    } else {
      ScratchRoom(c);
      EmitSame(Scratch(c).value.1, StoreTo(c, dst, r).value);
    }
  }

  lemma StoreRegRoom(c: Jit, r: Reg, dst: Opnd)
    requires !c.pend && Weight(c) <= if dst.Abs? then 9 else 10
    ensures Within(c, StoreReg(c, r, dst), if dst.Abs? then 2 else 1)
    decreases Held(c), 5
  {
    hide Scratch, StoreTo, Lookup, PinCount;
    if dst.Abs? && !FitsDisp(dst.a) {
      ScratchRoom(c);
      var (b, c1) := Scratch(c).value;
      EmitSame(c1, Emit(c1, MovImm(b, dst.a)));
      StoreToRoom(Emit(c1, MovImm(b, dst.a)), Ind(b), r);
    } else {
      StoreToRoom(c, dst, r);
    }
  }

  lemma StoreConstRoom(c: Jit, v: word, dst: Opnd)
    requires !c.pend && Weight(c) <= if dst.Abs? then 9 else 10
    ensures Within(c, StoreConst(c, v, dst), if dst.Abs? then 2 else 1)
    decreases Held(c), 5
  {
    hide Scratch, Lookup, PinCount, Bswap;
    var be := Bswap(v);
    if dst.Abs? && FitsDisp(dst.a) && Imm32(be) {
      EmitSame(c, StoreConst(c, v, dst).value);
    } else {
      ScratchRoom(c);
      var (t, c1) := Scratch(c).value;
      var c2 := Emit(c1, MovImm(t, be));
      EmitSame(c1, c2);
      if dst.Abs? && !FitsDisp(dst.a) {
        ScratchRoom(c2);
        EmitSame(Scratch(c2).value.1, StoreConst(c, v, dst).value);
      } else {
        EmitSame(c2, StoreConst(c, v, dst).value);
      }
    }
  }

  /** Storing what is held back weighs nothing more: it was counted. */
  lemma FlushRoom(c: Jit)
    requires HeldCached(c) && (c.pend ==> Weight(c) <= if PinnedIn(c, Lookup(c, c.pendAddr)) then 10 else 9)
    ensures Within(c, FlushPending(c), 0) && !FlushPending(c).value.pend
    decreases Held(c), 1
  {
    hide ToReg, StoreReg, StoreConst, Lookup, PinCount;
    if c.pend {
      var d := c.(pend := false);
      FreeLookup(c, d, c.pendAddr);
      SameRegs(c, d);
      var (v, c1) := CacheFind(d, c.pendAddr);
      FindSame(d, c.pendAddr);
      assert v == Lookup(c, c.pendAddr);
      if v.Const? {
        StoreConstRoom(c1, v.v, Abs(c.pendAddr));
      } else {
        FlushRegRoom(c1, v, c.pendAddr);
      }
    }
  }

  lemma SameRegs(c: Jit, d: Jit)
    requires c.pend && d == c.(pend := false)
    ensures Weight(d) == Weight(c) - 2
  {
    hide PinCount;
  }

  lemma FlushRegRoom(c: Jit, v: CVal, a: word)
    requires !c.pend && (v.InReg? || v.NegReg?) && Weight(c) <= if c.regs[v.r].pinned then 8 else 7
    ensures
      var t := ToReg(Pin(c, v.r), v);
      && t.Some?
      && var (r, c2) := t.value; var o := StoreReg(c2, r, Abs(a));
         && o.Some?
         && var c3 := o.value; var c4 := if r != v.r then Unpin(c3, r) else c3;
            var e := if c.regs[v.r].pinned then Pin(c4, v.r) else Unpin(c4, v.r);
            Weight(e) <= Weight(c) + 2 && !e.pend
    decreases Held(c), 6
  {
    hide ToReg, StoreReg, Lookup, PinCount;
    var p := Pin(c, v.r);
    PinWeight(c, v.r);
    ToRegRoom(p, v);
    var (r, c2) := ToReg(p, v).value;
    ToRegHolds(p, v, 0);
    StoreRegRoom(c2, r, Abs(a));
    StoreRegHolds(c2, r, Abs(a), 0);
    var c3 := StoreReg(c2, r, Abs(a)).value;
    InRegSame(p, v);
    HoldsPins(p, c2, 0);
    HoldsPins(c2, c3, 0);
    PinWeight(c3, r);
    var c4 := if r != v.r then Unpin(c3, r) else c3;
    PinWeight(c4, v.r);
  }

  lemma InRegSame(c: Jit, v: CVal)
    ensures v.InReg? ==> ToReg(c, v) == Some((v.r, c))
  {
  }

  lemma HoldsPins(c: Jit, d: Jit, a: word)
    requires Holds(c, d, a)
    ensures forall r: Reg :: c.regs[r].pinned ==> d.regs[r].pinned
  {
    hide Stands;
  }

  // ------------------------------------------------------------ the operands

  lemma BindSame(c: Jit, r: Reg, a: word)
    requires Free(c, r) && HeldCached(c)
    ensures Weight(Bind(c, r, a)) == Weight(c) && HeldCached(Bind(c, r, a))
    ensures Bind(c, r, a).pend == c.pend && Bind(c, r, a).pendAddr == c.pendAddr
  {
    hide Lookup, PinCount;
    if Cacheable(a) {
      SameWeight(c, Bind(c, r, a));
      BindLookup(c, r, a, c.pendAddr);
    }
  }

  lemma PinValWeight(c: Jit, v: CVal)
    ensures Weight(PinVal(c, v)) <= Weight(c) + (if v.InReg? || v.NegReg? then 1 else 0) && (HeldCached(c) ==> HeldCached(PinVal(c, v)))
    ensures PinVal(c, v).pend == c.pend && PinVal(c, v).pendAddr == c.pendAddr && PinnedIn(PinVal(c, v), v)
  {
    hide Lookup, PinCount;
    if v.InReg? || v.NegReg? {
      PinWeight(c, v.r);
    }
  }

  /** An aligned operand takes at most one more register. */
  lemma GetWordRoom(c: Jit, a: word)
    requires HeldCached(c) && Weight(c) <= 9
    ensures Within(c, JitOf(GetWord(c, a)), 1)
    ensures var (v, d) := GetWord(c, a).value; PinnedIn(d, v) && (v.Const? ==> Weight(d) <= Weight(c))
  {
    hide Lookup, PinCount, PinVal, LoadUncached, Touch;
    var (v, c1) := CacheFind(c, a);
    FindSame(c, a);
    if v != NoVal {
      PinValWeight(c1, v);
    } else {
      LoadUncachedRoom(c1, a);
    }
  }

  lemma LoadUncachedRoom(c: Jit, a: word)
    requires HeldCached(c) && Weight(c) <= 9
    ensures Within(c, JitOf(LoadUncached(c, a)), 1)
    ensures var (v, d) := LoadUncached(c, a).value; v.InReg? && d.regs[v.r].pinned
  {
    hide Lookup, PinCount, FlushPending, Scratch, LoadStatic, Bind, Low, High;
    var fl := c.pend && a % 8 != 0 && (c.pendAddr == Low(a) || c.pendAddr == High(a));
    if fl {
      FlushRoom(c);
    }
    var c1 := if fl then FlushPending(c).value else c;
    ScratchRoom(c1);
    ScratchHolds(c1, 0);
    var (r, c2) := Scratch(c1).value;
    LoadFrame(c2, r, a, Abs(a));
    var c3 := LoadStatic(c2, r, a);
    EmitSame(c2, c3);
    BindSame(c3, r, a);
    BindPins(c3, r, a);
  }

  lemma FieldRegRoom(c: Jit, v: CVal, a: word, bind: bool)
    requires HeldCached(c) && PinnedIn(c, v) && Weight(c) <= 9
    ensures Within(c, JitOf(FieldReg(c, v, a, bind)), 1)
  {
    hide Lookup, PinCount, ToReg, Scratch, LoadStatic, Bind;
    if v != NoVal {
      ToRegRoom(c, v);
    } else {
      ScratchRoom(c);
      ScratchHolds(c, 0);
      var (r, c1) := Scratch(c).value;
      LoadFrame(c1, r, a, Abs(a));
      var c2 := LoadStatic(c1, r, a);
      EmitSame(c1, c2);
      BindSame(c2, r, a);
    }
  }

  lemma LoadThroughRoom(c: Jit, ra: Reg)
    requires HeldCached(c) && Weight(c) <= 9
    ensures Within(c, JitOf(LoadThrough(c, ra)), 1) && !LoadThrough(c, ra).value.1.pend
    ensures var (v, d) := LoadThrough(c, ra).value; v.InReg? && d.regs[v.r].pinned && Free(d, v.r)
  {
    hide Lookup, PinCount, FlushPending, Scratch, LoadMem;
    FlushRoom(c);
    var c1 := FlushPending(c).value;
    ScratchRoom(c1);
    ScratchHolds(c1, 0);
    var (r, c2) := Scratch(c1).value;
    LoadFrame(c2, r, 0, Ind(ra));
    EmitSame(c2, LoadMem(c2, r, Ind(ra)));
  }

  // --------------------------------------------------------- the instruction

  /** No operand known when translating spans two words that may be cached. */
  predicate NoSpans(f: Fields) {
    (f.a.Known? ==> !Spans(f.a.val)) && (f.b.Known? ==> !Spans(f.b.val))
  }

  /** A dynamic field may have a register pinned, and takes another. */
  function Load(f: Field): nat { if f.Dynamic? then 1 else 0 }

  predicate FieldPinned(c: Jit, f: Field) { f.Dynamic? ==> PinnedIn(c, f.v) }

  lemma ReadFieldRoom(c: Jit, a: word, dyn: bool, val: word)
    requires HeldCached(c)
    ensures var (f, d) := ReadField(c, a, dyn, val);
      && HeldCached(d) && Weight(d) <= Weight(c) + Load(f) && d.pend == c.pend && FieldPinned(d, f)
      && forall r: Reg :: c.regs[r].pinned ==> d.regs[r].pinned
  {
    hide Lookup, PinCount, PinVal, Touch;
    if dyn {
      var (v, c1) := CacheFind(c, a);
      FindSame(c, a);
      PinValWeight(c1, v);
      PinValHolds(c1, v, 0);
      HoldsPins(c1, PinVal(c1, v), 0);
    }
  }

  lemma UnpinWeight(c: Jit)
    ensures Weight(UnpinAll(c)) == (if c.pend then 2 else 0) && (HeldCached(c) ==> HeldCached(UnpinAll(c)))
  {
    hide FindConst, FindAlias, FindReg, PinCount;
    PinNone(UnpinAll(c).regs);
    FindRegSame(c.regs, UnpinAll(c).regs, c.pendAddr, 0);
  }

  lemma ReadFieldsRoom(c: Jit, s: Source)
    requires HeldCached(c)
    ensures var (f, d) := ReadFields(c, s);
      && HeldCached(d) && Weight(d) <= 2 + Load(f.a) + Load(f.b) + Load(f.c) && FieldPinned(d, f.a) && FieldPinned(d, f.b) && FieldPinned(d, f.c)
  {
    hide ReadField, UnpinAll, PinCount, Lookup;
    UnpinWeight(c);
    var (_, c1) := ReadField(UnpinAll(c), s.p, s.da, s.fa);
    ReadFieldRoom(UnpinAll(c), s.p, s.da, s.fa);
    var (_, c2) := ReadField(c1, Add(s.p, 8), s.db, s.fb);
    ReadFieldRoom(c1, Add(s.p, 8), s.db, s.fb);
    ReadFieldRoom(c2, Add(s.p, 16), s.dc, s.fc);
  }

  lemma SnapSame(c: Jit)
    requires HeldCached(c)
    ensures var d := SnapPending(c).1; Weight(d) == Weight(c) && HeldCached(d) && d.pend == c.pend && d.pendAddr == c.pendAddr
    ensures forall r | 0 <= r < 11 :: SnapPending(c).1.regs[r].pinned == c.regs[r].pinned
  {
    hide PinCount, Lookup;
    FindSame(c, c.pendAddr);
  }

  lemma CheckWordRoom(b: Build, w: int, i: nat, k: Checks)
    requires HeldCached(b.c)
    ensures Within(b.c, Some(CheckWord(b, w, i, k).c), 0)
  {
    hide PinCount, Lookup, SnapPending;
    SnapSame(b.c);
    var c1 := SnapPending(b.c).1;
    EmitSame(c1, Emit(c1, JmpMarked(w, Smc(|b.smcs|))));
  }

  function BuildOf(o: Option<Build>): Option<Jit> { if o.Some? then Some(o.value.c) else None }

  lemma CheckDynamicRoom(b: Build, rb: Reg, i: nat)
    requires HeldCached(b.c) && Weight(b.c) <= 8
    ensures Within(b.c, BuildOf(CheckDynamic(b, rb, i)), 0)
  {
    hide PinCount, Lookup, SnapPending, Scratch;
    ScratchRoom(b.c);
    ScratchHolds(b.c, 0);
    var (t1, c1) := Scratch(b.c).value;
    ScratchRoom(c1);
    ScratchHolds(c1, 0);
    HoldsPins(c1, Scratch(c1).value.1, 0);
    var (t2, c2) := Scratch(c1).value;
    var c3 := Emit(Emit(c2, MovRR(t1, rb)), ShrRI(t1, 12));
    EmitSame(c2, c3);
    SnapSame(c3);
    var (p, c4) := SnapPending(c3);
    var c5 := Emit(c4, JmpPage(rb, t1, t2, Smc(|b.smcs|)));
    EmitSame(c4, c5);
    PinWeight(c5, t1);
    PinWeight(Unpin(c5, t1), t2);
  }

  function CheckOf(o: Option<(Reg, Build)>): Option<Jit> { if o.Some? then Some(o.value.1.c) else None }

  lemma CheckStoreRoom(b: Build, s: Source, f: Field, k: Checks)
    requires HeldCached(b.c) && Weight(b.c) <= 7 && FieldPinned(b.c, f)
    ensures Within(b.c, CheckOf(CheckStore(b, s, f, k)), Load(f))
  {
    hide PinCount, Lookup, CheckWord, CheckDynamic, FieldReg;
    if f.Known? {
      CheckWordRoom(b, f.val / 8, s.i, k);
      CheckWordRoom(CheckWord(b, f.val / 8, s.i, k), Add(f.val, 7) / 8, s.i, k);
    } else {
      FieldRegRoom(b.c, f.v, Add(s.p, 8), true);
      var (rb, c1) := FieldReg(b.c, f.v, Add(s.p, 8), true).value;
      CheckDynamicRoom(b.(c := c1), rb, s.i);
    }
  }

  lemma GetIsWord(c: Jit, a: word)
    requires !Spans(a)
    ensures GetStatic(c, a) == GetWord(c, a)
  {
    hide GetWord, LoadUncached, Combine, Lookup;
  }

  /** A and what it points to. */
  lemma OperandARoom(c: Jit, s: Source, f: Field)
    requires HeldCached(c) && FieldPinned(c, f) && Weight(c) <= 8 && (f.Known? ==> !Spans(f.val))
    ensures Within(c, JitOf(OperandA(c, s, f)), 1 + Load(f))
    ensures var (v, d) := OperandA(c, s, f).value; PinnedIn(d, v) && (f.Dynamic? ==> v.InReg? && !d.pend)
  {
    hide PinCount, Lookup, GetStatic, FieldReg, LoadThrough, Spans;
    if f.Known? {
      GetIsWord(c, f.val);
      GetWordRoom(c, f.val);
    } else {
      FieldRegRoom(c, f.v, s.p, true);
      LoadThroughRoom(FieldReg(c, f.v, s.p, true).value.1, FieldReg(c, f.v, s.p, true).value.0);
    }
  }

  lemma OperandBRoom(c: Jit, f: Field, rb: Reg)
    requires HeldCached(c) && Weight(c) <= 9 && (f.Known? ==> !Spans(f.val))
    ensures Within(c, JitOf(OperandB(c, f, rb)), 1)
    ensures var (v, d) := OperandB(c, f, rb).value; PinnedIn(d, v) && (f.Dynamic? ==> v.InReg? && Free(d, v.r) && !d.pend)
  {
    hide PinCount, Lookup, GetStatic, LoadThrough, Spans;
    if f.Known? {
      GetIsWord(c, f.val);
      GetWordRoom(c, f.val);
    } else {
      LoadThroughRoom(c, rb);
    }
  }

  lemma OperandCRoom(c: Jit, s: Source, f: Field, v: CVal)
    requires HeldCached(c) && FieldPinned(c, f) && Weight(c) <= 9 && PinnedIn(c, v)
    ensures Within(c, JitOf(OperandC(c, s, f)), Load(f))
    ensures var d := OperandC(c, s, f).value.1; PinnedIn(d, v) && (v.InReg? && Free(c, v.r) ==> Free(d, v.r))
  {
    hide PinCount, Lookup, FieldReg;
    if f.Dynamic? {
      FieldRegRoom(c, f.v, Add(s.p, 16), false);
      FieldRegHolds(c, f.v, Add(s.p, 16), false, 0);
      HoldsPins(c, FieldReg(c, f.v, Add(s.p, 16), false).value.1, 0);
      FieldRegFewer(c, f.v, Add(s.p, 16));
      FewerFree(c, FieldReg(c, f.v, Add(s.p, 16), false).value.1, v);
    }
  }

  lemma FieldRegFewer(c: Jit, v: CVal, a: word)
    requires FieldReg(c, v, a, false).Some?
    ensures Fewer(c, FieldReg(c, v, a, false).value.1)
  {
    hide ToReg, Scratch, LoadStatic, Fewer;
    if v != NoVal {
      ToRegFewer(c, v);
    } else {
      var (r, c1) := Scratch(c).value;
      ScratchFewer(c);
      LoadFewer(c1, r, a, Abs(a));
      FewerTrans(c, c1, LoadStatic(c1, r, a));
    }
  }

  lemma FewerFree(c: Jit, d: Jit, v: CVal)
    requires Fewer(c, d)
    ensures v.InReg? && Free(c, v.r) ==> Free(d, v.r)
  {
  }

  // ------------------------------------------------------------ the result

  /** The registers computing the result takes, but for those of a dynamic B,
      which it is computed in place of. */
  function Extra(va: CVal, vb: CVal, f: Field, branch: bool, c: Jit): nat {
    (if f.Dynamic? && branch && vb.InReg? && Free(c, vb.r) then 0 else 1) + (if va.InReg? then 0 else 1)
  }

  lemma ResultRegRoom(c: Jit, vb: CVal, f: Field)
    requires vb != NoVal && HeldCached(c) && PinnedIn(c, vb) && (InPlace(c, vb, f) || HasRoom(c))
    ensures Within(c, JitOf(ResultReg(c, vb, f)), if InPlace(c, vb, f) then 0 else 1)
    ensures var (rr, d) := ResultReg(c, vb, f).value; d.regs[rr].pinned && forall r: Reg :: c.regs[r].pinned ==> d.regs[r].pinned
  {
    hide PinCount, Lookup, Scratch, ToReg;
    if !InPlace(c, vb, f) {
      if vb.InReg? {
        CopyRoom(c, vb.r);
      } else {
        ToRegRoom(c, vb);
        ToRegHolds(c, vb, 0);
        HoldsPins(c, ToReg(c, vb).value.1, 0);
      }
    }
  }

  lemma CopyRoom(c: Jit, s: Reg)
    requires HeldCached(c) && HasRoom(c)
    ensures Scratch(c).Some?
    ensures var (r, c1) := Scratch(c).value; var d := Emit(c1, MovRR(r, s));
      Within(c, Some(d), 1) && d.regs[r].pinned && forall q: Reg :: c.regs[q].pinned ==> d.regs[q].pinned
  {
    hide PinCount, Lookup, Scratch;
    ScratchRoom(c);
    ScratchHolds(c, 0);
    var (r, c1) := Scratch(c).value;
    HoldsPins(c, c1, 0);
    EmitSame(c1, Emit(c1, MovRR(r, s)));
  }

  lemma FreeInPlace(c: Jit, vb: CVal, f: Field)
    requires vb.InReg? && Free(c, vb.r)
    ensures InPlace(c, vb, f)
  {
  }

  function ComputeOf(o: Option<(Result, Jit)>): Option<Jit> { if o.Some? then Some(o.value.1) else None }

  lemma ComputeRoom(c: Jit, va: CVal, vb: CVal, f: Field, branch: bool)
    requires va != NoVal && vb != NoVal && HeldCached(c) && PinnedIn(c, va) && PinnedIn(c, vb)
    requires Weight(c) + Extra(va, vb, f, branch, c) <= 10 && (Weight(c) == 10 ==> Extra(va, vb, f, branch, c) == 0 && !c.pend)
    ensures Within(c, ComputeOf(Compute(c, va, vb, f, branch)), Extra(va, vb, f, branch, c))
    ensures var (x, d) := Compute(c, va, vb, f, branch).value; PinnedIn(d, x.res)
    ensures var (x, d) := Compute(c, va, vb, f, branch).value;
      x.res.NegReg? ==> x.kept || (vb.Const? && !branch && Weight(d) <= Weight(c))
  {
    hide PinCount, Lookup, Scratch, ToReg, ResultReg;
    if va.Const? && vb.Const? {
    } else if va == Const(0) {
      if branch {
        ToRegRoom(c, vb);
        ToRegHolds(c, vb, 0);
        var (t, c1) := ToReg(c, vb).value;
        HoldsPins(c, c1, 0);
        EmitSame(c1, Emit(c1, TestRR(t)));
      }
    } else if vb == Const(0) && !branch {
    } else if va.NegReg? && !vb.NegReg? && !branch {
      AddRoom(c, va, vb, f);
    } else if vb == Const(0) {
      NegRoom(c, va, f);
    } else {
      SubRoom(c, va, vb, f, branch);
    }
  }

  lemma AddRoom(c: Jit, va: CVal, vb: CVal, f: Field)
    requires va.NegReg? && !vb.NegReg? && vb != NoVal && vb != Const(0) && HeldCached(c) && PinnedIn(c, vb) && Weight(c) <= 8
    ensures Within(c, ComputeOf(Compute(c, va, vb, f, false)), 2)
    ensures var (x, d) := Compute(c, va, vb, f, false).value; x.res.InReg? && PinnedIn(d, x.res)
  {
    hide PinCount, Lookup, Scratch, ToReg, ResultReg;
    var c1: Jit, rr: Reg;
    if f.Dynamic? && vb.InReg? {
      CopyRoom(c, vb.r);
      rr, c1 := Scratch(c).value.0, Emit(Scratch(c).value.1, MovRR(Scratch(c).value.0, vb.r));
    } else {
      ResultRegRoom(c, vb, f);
      rr, c1 := ResultReg(c, vb, f).value.0, ResultReg(c, vb, f).value.1;
    }
    EmitSame(c1, Emit(c1, AddRR(rr, va.r)));
    PinWeight(Emit(c1, AddRR(rr, va.r)), rr);
  }

  lemma NegRoom(c: Jit, va: CVal, f: Field)
    requires va != NoVal && !va.Const? && HeldCached(c) && PinnedIn(c, va) && Weight(c) <= 9
    ensures Within(c, ComputeOf(Compute(c, va, Const(0), f, true)), 1)
    ensures var (x, d) := Compute(c, va, Const(0), f, true).value; x.res.InReg? && PinnedIn(d, x.res)
  {
    hide PinCount, Lookup, Scratch, ToReg;
    ToRegRoom(c, va);
    ToRegHolds(c, va, 0);
    var (r, c1) := ToReg(c, va).value;
    var rr, c2 := r, c1;
    if va.InReg? {
      CopyRoom(c1, r);
      rr, c2 := Scratch(c1).value.0, Emit(Scratch(c1).value.1, MovRR(Scratch(c1).value.0, r));
    }
    EmitSame(c2, Emit(c2, NegR(rr)));
    PinWeight(Emit(c2, NegR(rr)), rr);
  }

  lemma SubRoom(c: Jit, va: CVal, vb: CVal, f: Field, branch: bool)
    requires va != NoVal && vb != NoVal && HeldCached(c) && PinnedIn(c, va) && PinnedIn(c, vb)
    requires Weight(c) + Extra(va, vb, f, branch, c) <= 10 && (Weight(c) == 10 ==> Extra(va, vb, f, branch, c) == 0 && !c.pend)
    ensures ResultReg(c, vb, f).Some?
    ensures ToReg(ResultReg(c, vb, f).value.1, va).Some?
    ensures var (rr, c1) := ResultReg(c, vb, f).value;
      var (ra, c2) := ToReg(c1, va).value;
      var d := Pin(Emit(c2, SubRR(rr, ra)), rr);
      Within(c, Some(d), Extra(va, vb, f, branch, c)) && d.regs[rr].pinned
  {
    hide PinCount, Lookup, Scratch, ToReg, ResultReg, InPlace;
    if vb.InReg? && Free(c, vb.r) {
      FreeInPlace(c, vb, f);
    }
    ResultRegRoom(c, vb, f);
    var (rr, c1) := ResultReg(c, vb, f).value;
    ToRegRoom(c1, va);
    ToRegHolds(c1, va, 0);
    var (ra, c2) := ToReg(c1, va).value;
    HoldsPins(c1, c2, 0);
    EmitSame(c2, Emit(c2, SubRR(rr, ra)));
    PinWeight(Emit(c2, SubRR(rr, ra)), rr);
  }

  /** How heavy the state may be once the operands and the result are there. */
  predicate Heavy(c: Jit, f: Fields) {
    Weight(c) <= 9 || (Weight(c) == 10 && !c.pend && f.b.Dynamic?)
  }

  lemma ArithmeticRoom(c: Jit, s: Source, f: Fields, rb: Reg)
    requires HeldCached(c) && NoSpans(f) && FieldPinned(c, f.a) && FieldPinned(c, f.c)
    requires Weight(c) <= 2 + Load(f.a) + 2 * Load(f.b) + Load(f.c)
    ensures Arithmetic(c, s, f, rb).Some?
    ensures var (x, rc, d) := Arithmetic(c, s, f, rb).value;
      && HeldCached(d) && Heavy(d, f) && PinnedIn(d, x.res) && (x.kept ==> !x.res.Const?)
      && (x.res.NegReg? && !x.kept ==> Weight(d) <= 8)
  {
    hide PinCount, Lookup, OperandA, OperandB, OperandC, Compute, Spans, FlushPending, FlushFirst, HeldCached;
    if SameWord(f) {
      OperandCRoom(c, s, f.c, NoVal);
    } else {
      OperandARoom(c, s, f.a);
      var (va, c1) := OperandA(c, s, f.a).value;
      OperandAHolds(c, s, f.a, Add(s.p, 16));
      HoldsPins(c, c1, Add(s.p, 16));
      OperandBRoom(c1, f.b, rb);
      var (vb, c2) := OperandB(c1, f.b, rb).value;
      OperandBHolds(c1, f.b, rb, 0);
      HoldsPins(c1, c2, 0);
      OperandCRoom(c2, s, f.c, vb);
      OperandCRoom(c2, s, f.c, va);
      var (rc, c3) := OperandC(c2, s, f.c).value;
      FinishRoom(c3, s, f, va, vb);
    }
  }

  lemma FinishRoom(c: Jit, s: Source, f: Fields, va: CVal, vb: CVal)
    requires va != NoVal && vb != NoVal && HeldCached(c) && PinnedIn(c, va) && PinnedIn(c, vb)
    requires Weight(c) <= 4 + 2 * (Load(f.a) + Load(f.b) + Load(f.c))
    requires f.a.Dynamic? ==> va.InReg? && !c.pend
    requires f.b.Dynamic? ==> vb.InReg? && Free(c, vb.r) && !c.pend
    ensures FlushFirst(c, f, va, vb) ==> FlushPending(c).Some?
    ensures var c4 := if FlushFirst(c, f, va, vb) then FlushPending(c).value else c;
      && Compute(c4, va, vb, f.b, Branches(s, f)).Some?
      && var (x, d) := Compute(c4, va, vb, f.b, Branches(s, f)).value;
         && HeldCached(d) && Heavy(d, f) && PinnedIn(d, x.res) && (x.kept ==> !x.res.Const?)
         && (x.res.NegReg? && !x.kept ==> Weight(d) <= 8)
  {
    hide PinCount, Lookup, Compute, FlushPending, FlushFirst, HeldCached;
    var c4 := c;
    if FlushFirst(c, f, va, vb) {
      if c.pend {
        FlushRoom(c);
        FlushHolds(c, 0);
        c4 := FlushPending(c).value;
        HoldsPins(c, c4, 0);
      } else {
        NoFlush(c);
      }
    }
    ComputeRoom(c4, va, vb, f.b, Branches(s, f));
    KeptMeansZero(c4, va, vb, f.b, Branches(s, f));
  }

  lemma NoFlush(c: Jit)
    requires !c.pend
    ensures FlushPending(c) == Some(c)
  {
  }

  // ------------------------------------------------- the store and the cache

  lemma StoreNowRoom(c: Jit, res: CVal, f: Field, rb: Reg)
    requires HeldCached(c) && res != NoVal && PinnedIn(c, res)
    requires Weight(c) <= (if res.NegReg? then 8 else if f.Known? then 9 else 10) && (Weight(c) == 10 ==> !c.pend)
    ensures StoreNow(c, res, f, rb).Some? && !StoreNow(c, res, f, rb).value.1.pend
  {
    hide PinCount, Lookup, FlushPending, StoreConst, StoreReg, ToReg;
    var dst := if f.Known? then Abs(f.val) else Ind(rb);
    if c.pend {
      FlushRoom(c);
      FlushHolds(c, 0);
    } else {
      NoFlush(c);
    }
    var c1 := FlushPending(c).value;
    if res.Const? {
      StoreConstRoom(c1, res.v, dst);
    } else {
      if c.pend {
        HoldsPins(c, c1, 0);
      }
      ToRegRoom(c1, res);
      var (r, c2) := ToReg(c1, res).value;
      StoreRegRoom(c2, r, dst);
    }
  }

  lemma SetConstRoom(c: Jit, a: word, x: word)
    requires Cacheable(a)
    ensures var d := SetConst(c, a, x); Lookup(d, a) != NoVal && d.pend == c.pend && d.pendAddr == c.pendAddr
  {
    hide FreeConst, FindConst, FindReg, FindAlias;
    var e, d := CacheDrop(c, a), SetConst(c, a, x);
    var k := FreeConst(e.consts, 0);
    var i := if k < 16 then k else e.constNext % 16;
    assert d.consts[i].used && d.consts[i].addr == a;
  }

  lemma SetAliasRoom(c: Jit, a: word, r: Reg, neg: bool)
    requires HeldCached(c) && Cacheable(a) && (c.pend ==> Weight(c) <= 9)
    ensures SetAlias(c, a, r, neg).Some?
    ensures var d := SetAlias(c, a, r, neg).value;
      Lookup(d, a) != NoVal && HeldCached(d) && (d.pend ==> c.pend && d.pendAddr == c.pendAddr)
  {
    hide PinCount, Lookup, FreeAlias, CacheDrop, FlushPending;
    var e := CacheDrop(c, a);
    DropKeepsPins(c, a);
    DropLookup(c, a, c.pendAddr);
    var k := FreeAlias(e.aliases, 0);
    if k < 16 {
      AliasLookup(e, a, r, neg, k, e.pendAddr);
    } else {
      var i := e.aliasNext % 16;
      var f := e.(aliasNext := e.aliasNext + 1);
      FreeLookup(e, f, e.pendAddr);
      SameWeight(c, f);
      if f.pend && f.pendAddr == f.aliases[i].addr {
        FlushRoom(f);
        AliasLookup(FlushPending(f).value, a, r, neg, i, f.pendAddr);
      } else {
        AliasLookup(f, a, r, neg, i, f.pendAddr);
      }
    }
  }

  lemma DropKeepsPins(c: Jit, a: word)
    ensures var e := CacheDrop(c, a);
      && e.pend == c.pend && e.pendAddr == c.pendAddr && (forall i | 0 <= i < 11 :: e.regs[i].pinned == c.regs[i].pinned)
      && forall i | 0 <= i < 16 && e.aliases[i].used :: e.aliases[i].addr != a
  {
  }

  lemma CacheResultRoom(c: Jit, a: word, res: CVal)
    requires HeldCached(c) && res != NoVal && Cacheable(a) && (c.pend ==> Weight(c) <= 9)
    requires res.Const? && c.pend ==> c.pendAddr == a
    ensures CacheResult(c, a, res).Some?
    ensures var d := CacheResult(c, a, res).value; Lookup(d, a) != NoVal && HeldCached(d)
  {
    hide PinCount, Lookup, SetConst, SetAlias, Bind;
    match res
    case Const(x) => SetConstRoom(c, a, x);
    case NegReg(r) => SetAliasRoom(c, a, r, true);
    case InReg(r) =>
      if c.regs[r].used && c.regs[r].addr != a {
        SetAliasRoom(c, a, r, false);
      } else {
        BindLookup(c, r, a, c.pendAddr);
        BindPend(c, r, a);
      }
  }

  lemma BindPend(c: Jit, r: Reg, a: word)
    ensures Bind(c, r, a).pend == c.pend && Bind(c, r, a).pendAddr == c.pendAddr
  {
  }

  lemma StoreResultRoom(c: Jit, x: Result, f: Field, rb: Reg)
    requires HeldCached(c) && x.res != NoVal && PinnedIn(c, x.res) && (x.kept ==> !x.res.Const?)
    requires Weight(c) <= 9 || (Weight(c) == 10 && !c.pend && f.Dynamic?)
    requires x.res.NegReg? && !x.kept ==> Weight(c) <= 8
    ensures StoreResult(c, x, f, rb).Some? && HeldCached(StoreResult(c, x, f, rb).value.1)
  {
    hide PinCount, Lookup, FlushPending, CacheResult, StoreNow, CacheDrop, CacheDropAll;
    if Pendable(f) {
      var fl := !x.kept && c.pend && c.pendAddr != f.val;
      if fl {
        FlushRoom(c);
      }
      var c1 := if fl then FlushPending(c).value else c;
      CacheResultRoom(c1, f.val, x.res);
      var c2 := CacheResult(c1, f.val, x.res).value;
      FreeLookup(c2, c2.(pend := true, pendAddr := f.val), f.val);
    } else if !x.kept {
      StoreNowRoom(c, x.res, f, rb);
      var c1 := StoreNow(c, x.res, f, rb).value.1;
      DropPend(c1, if f.Known? then f.val else 0);
    }
  }

  lemma DropPend(c: Jit, a: word)
    ensures CacheDropAll(c).pend == c.pend && CacheDrop(CacheDrop(c, Low(a)), High(a)).pend == c.pend
  {
  }

  lemma ConcludeRoom(b: Build, s: Source, f: Fields, rb: Reg, x: Result, rc: Reg)
    requires HeldCached(b.c) && x.res != NoVal && PinnedIn(b.c, x.res) && (x.kept ==> !x.res.Const?) && NoSpans(f)
    requires Heavy(b.c, f) && (x.res.NegReg? && !x.kept ==> Weight(b.c) <= 8)
    ensures Conclude(b, s, f, rb, x, rc).Some? && HeldCached(Conclude(b, s, f, rb, x, rc).value.1.c)
  {
    hide PinCount, Lookup, StoreResult, BranchOut, UpdateSpanned, Spans;
    var c1 := b.c.(flagsLive := Branches(s, f) && x.taken == None);
    FreeLookup(b.c, c1, b.c.pendAddr);
    SameWeight(b.c, c1);
    StoreResultRoom(c1, x, f.b, rb);
    var (res, c2) := StoreResult(c1, x, f.b, rb).value;
    var c3 := c2.(flagsLive := false);
    FreeLookup(c2, c3, c2.pendAddr);
    BranchHeld(b.(c := c3), s, f, x.taken, rc);
  }

  lemma BranchHeld(b: Build, s: Source, f: Fields, taken: Option<bool>, rc: Reg)
    requires HeldCached(b.c)
    ensures HeldCached(BranchOut(b, s, f, taken, rc).1.c)
  {
    hide PinCount, Lookup, SnapPending;
    SnapSame(b.c);
    var c1, d := SnapPending(b.c).1, BranchOut(b, s, f, taken, rc).1.c;
    if d != b.c {
      FreeLookup(c1, d, c1.pendAddr);
    }
  }

  /** An instruction none of whose operands spans two words that may be cached
      is always translated: there is a register each time one is taken. */
  lemma TranslateInsnRoom(b: Build, s: Source, k: Checks)
    requires HeldCached(b.c) && NoSpans(ReadFields(b.c, s).0)
    ensures TranslateInsn(b, s, k).Some? && HeldCached(TranslateInsn(b, s, k).value.1.c)
  {
    hide PinCount, Lookup, ReadFields, CheckStore, Arithmetic, Conclude, NoSpans;
    var (f, c0) := ReadFields(b.c, s);
    ReadFieldsRoom(b.c, s);
    CheckStoreRoom(b.(c := c0), s, f.b, k);
    var (rb, b1) := CheckStore(b.(c := c0), s, f.b, k).value;
    CheckStoreHolds(b.(c := c0), s, f.b, k, Add(s.p, 16));
    HoldsPins(c0, b1.c, Add(s.p, 16));
    ArithmeticRoom(b1.c, s, f, rb);
    var (x, rc, c2) := Arithmetic(b1.c, s, f, rb).value;
    ConcludeRoom(b1.(c := c2), s, f, rb, x, rc);
  }

  /** No instruction from the i-th on has such an operand. */
  predicate AllAligned(b: Build, w: World, dyn: set<int>, k: Checks, start: word, i: nat, n: nat)
    requires i <= n && start + 24 * n < TWO64
    decreases n - i
  {
    i < n ==>
      var s := SourceAt(w, dyn, start, i);
      NoSpans(ReadFields(b.c, s).0) &&
      var o := TranslateInsn(b, s, k);
      o.Some? && !o.value.0 ==> AllAligned(o.value.1, w, dyn, k, start, i + 1, n)
  }

  /** So is a block of such instructions. */
  lemma {:induction false} TranslateRoom(b: Build, w: World, dyn: set<int>, k: Checks, start: word, i: nat, n: nat)
    requires i <= n && start + 24 * n < TWO64 && HeldCached(b.c) && AllAligned(b, w, dyn, k, start, i, n)
    ensures TranslateFrom(b, w, dyn, k, start, i, n).Some?
    decreases n - i
  {
    hide TranslateInsn, HeldCached, NoSpans, ReadFields;
    if i < n {
      var s := SourceAt(w, dyn, start, i);
      TranslateInsnRoom(b, s, k);
      var (ended, d) := TranslateInsn(b, s, k).value;
      if !ended {
        TranslateRoom(d, w, dyn, k, start, i + 1, n);
      }
    }
  }
}
