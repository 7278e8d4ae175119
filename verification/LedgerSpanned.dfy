/** What follows the store of a result always finds its registers. */
module LedgerSpanned {
  import opened Options
  import opened Words
  import opened Bits
  import opened Memory
  import opened X86
  import opened RegCache
  import opened CacheProofs
  import opened OperandProofs
  import opened Operands
  import opened Insn
  import opened InsnCorrect
  import opened OwnC
  import opened OneEntry
  import opened Room
  import LedgerProofs

  /** Something is pinned for each value in a register. */
  ghost predicate PinsKept(c: Jit, d: Jit) { forall r: Reg | c.regs[r].pinned :: d.regs[r].pinned }

  /** No register was used later than the clock says. */
  ghost predicate InTime(c: Jit, d: Jit) { LedgerProofs.LruOk(c) ==> LedgerProofs.LruOk(d) }

  /** A step taking up to n registers, with nothing held back. */
  ghost predicate Costs(c: Jit, o: Option<Jit>, n: nat) {
    o.Some? && Weight(o.value) <= Weight(c) + n && !o.value.pend && PinsKept(c, o.value) && InTime(c, o.value)
  }

  lemma ScratchCosts(c: Jit)
    requires !c.pend && Weight(c) <= 10
    ensures Costs(c, JitOf(Scratch(c)), 1) && Scratch(c).value.1.regs[Scratch(c).value.0].pinned && !c.regs[Scratch(c).value.0].pinned
  {
    hide PinCount, Lookup, Scratch, Weight, Stands;
    ScratchRoom(c);
    ScratchHolds(c, 0);
    ScratchInTime(c);
  }

  lemma ScratchInTime(c: Jit)
    requires !c.pend && Scratch(c).Some?
    ensures InTime(c, Scratch(c).value.1)
  {
    hide ScratchScan;
  }

  lemma ToRegCosts(c: Jit, v: CVal)
    requires !c.pend && v != NoVal && PinnedIn(c, v) && (v.InReg? || Weight(c) <= 10)
    ensures Costs(c, JitOf(ToReg(c, v)), if v.InReg? then 0 else 1)
    ensures var (r, d) := ToReg(c, v).value; d.regs[r].pinned && (!v.InReg? ==> !c.regs[r].pinned) && (v.InReg? ==> r == v.r && d == c)
  {
    hide PinCount, Lookup, Scratch, Weight, Negate;
    match v
    case InReg(_) =>
    case NegReg(s) =>
      assert Pin(c, s) == c by { assert c.regs[s].(pinned := true) == c.regs[s]; }
      ScratchCosts(c);
      var (r, c1) := Scratch(c).value;
      NegatePins(Emit(c1, MovRR(r, s)), r);
      EmitSame(c1, Negate(Emit(c1, MovRR(r, s)), r));
    case Const(n) =>
      ScratchCosts(c);
      var (r, c1) := Scratch(c).value;
      EmitSame(c1, Emit(c1, MovImm(r, n)));
  }

  lemma NegatePins(c: Jit, r: Reg)
    ensures Negate(c, r) == c.(code := Negate(c, r).code) && Weight(Negate(c, r)) == Weight(c)
  {
    hide PinCount;
  }

  lemma ShiftCosts(c: Jit, v: CVal, left: bool, n: nat)
    requires !c.pend && Weight(c) <= 9 && PinnedIn(c, v) && (v.Const? || v.InReg?)
    ensures Costs(c, JitOf(Shifted(c, v, left, n)), 1)
    ensures PinnedIn(Shifted(c, v, left, n).value.1, Shifted(c, v, left, n).value.0)
  {
    hide PinCount, Lookup, Scratch, Weight, Shl, Shr;
    if v.InReg? {
      ScratchCosts(c);
      var (_, c2) := Scratch(c).value;
      EmitSame(c2, Shifted(c, v, left, n).value.1);
    }
  }

  /** A register given back as soon as it was used. */
  lemma GivenBack(c: Jit, d: Jit, t: Reg)
    requires PinsKept(c, d) && !c.regs[t].pinned && d.regs[t].pinned && Weight(d) <= Weight(c) + 1
    ensures PinsKept(c, Unpin(d, t)) && Weight(Unpin(d, t)) <= Weight(c)
  {
    hide PinCount, Lookup, Weight;
    PinWeight(d, t);
  }

  lemma OrCosts(c: Jit, r: Reg, v: CVal)
    requires !c.pend && Weight(c) <= 10 && (v.Const? || (v.InReg? && PinnedIn(c, v)))
    ensures Costs(c, OrVal(c, r, v), 0)
  {
    hide PinCount, Lookup, ToReg, Weight;
    if v != Const(0) {
      ToRegCosts(c, v);
      var (t, c1) := ToReg(c, v).value;
      EmitSame(c1, Emit(c1, OrRR(r, t)));
      if !v.InReg? {
        GivenBack(c, Emit(c1, OrRR(r, t)), t);
      }
    }
  }

  lemma AndCosts(c: Jit, r: Reg, mask: word)
    requires !c.pend && Weight(c) <= 10
    ensures Costs(c, AndImm64(c, r, mask), 0)
  {
    hide PinCount, Lookup, Scratch, Weight;
    if Imm32(mask) {
      EmitSame(c, Emit(c, AndImm(r, mask)));
    } else if mask == 0xffff_ffff {
      EmitSame(c, Emit(c, Mov32(r)));
    } else {
      ScratchCosts(c);
      var (t, c1) := Scratch(c).value;
      var c2 := Emit(Emit(c1, MovImm(t, mask)), AndRR(r, t));
      EmitSame(c1, c2);
      GivenBack(c, c2, t);
    }
  }

  lemma MaskedCosts(c: Jit, w: CVal, keep: word, part: CVal)
    requires !c.pend && Weight(c) <= 8 && w != NoVal && PinnedIn(c, w) && (part.Const? || (part.InReg? && PinnedIn(c, part)))
    ensures Costs(c, JitOf(MaskedOr(c, w, keep, part)), 2)
  {
    hide PinCount, Lookup, Scratch, ToReg, OrVal, AndImm64, Weight, Or, And;
    if !(w.Const? && (part.Const? || And(w.v, keep) == 0)) {
      if !w.Const? {
        ToRegCosts(c, w);
      }
      var (s, c1) := if w.Const? then (0, c) else ToReg(c, w).value;
      ScratchCosts(c1);
      var (r, c2) := Scratch(c1).value;
      var c3 := c2;
      if w.Const? {
        c3 := Emit(c2, MovImm(r, And(w.v, keep)));
        EmitSame(c2, c3);
      } else {
        EmitSame(c2, Emit(c2, MovRR(r, s)));
        AndCosts(Emit(c2, MovRR(r, s)), r, keep);
        c3 := AndImm64(Emit(c2, MovRR(r, s)), r, keep).value;
      }
      OrCosts(c3, r, part);
    }
  }

  lemma RecacheSame(c: Jit, a: word, v: CVal)
    requires !c.pend && (v.Const? || v.InReg?)
    ensures Costs(c, Some(Recache(c, a, v)), 0)
  {
    hide PinCount, Lookup;
    var d := Recache(c, a, v);
    RecachePins(c, a, v);
    PinSame(c.regs, d.regs);
  }

  lemma RecachePins(c: Jit, a: word, v: CVal)
    requires v.Const? || v.InReg?
    ensures var d := Recache(c, a, v); d.pend == c.pend && forall r: Reg :: d.regs[r].pinned == c.regs[r].pinned
  {
    hide FreeConst;
  }

  lemma UpdateCosts(c: Jit, a: word, w: CVal, keep: word, v: CVal, left: bool, n: nat)
    requires !c.pend && Weight(c) <= 7 && PinnedIn(c, v) && (v.Const? || v.InReg?) && (w != NoVal ==> PinnedIn(c, w))
    ensures Costs(c, UpdateWord(c, a, w, keep, v, left, n), 3)
  {
    hide PinCount, Lookup, Shifted, MaskedOr, Recache, Weight;
    if w != NoVal {
      ShiftCosts(c, v, left, n);
      var (part, c1) := Shifted(c, v, left, n).value;
      MaskedCosts(c1, w, keep, part);
      var (x, c2) := MaskedOr(c1, w, keep, part).value;
      RecacheSame(c2, a, x);
    }
  }

  /** The two words of an unaligned store never take all registers. */
  lemma SpannedEnough(c: Jit, a: word, v: CVal)
    requires !c.pend && (v.Const? || v.InReg?)
    ensures UpdateSpanned(c, a, v).Some? && !UpdateSpanned(c, a, v).value.pend && InTime(c, UpdateSpanned(c, a, v).value)
  {
    hide PinCount, Lookup, UpdateWord, UnpinAll, PinVal, Touch, Shr, Not, LedgerProofs.LruOk;
    var c0 := UnpinAll(c);
    assert Weight(c0) == 0 && InTime(c, c0) by { NonePinned(c); }
    var c1 := PinVal(c0, v);
    PinValWeight(c0, v);
    PinValPins(c0, v);
    var (lv, c2) := CacheFind(c1, Low(a));
    FindSame(c1, Low(a));
    var (hv, c3) := CacheFind(c2, High(a));
    FindSame(c2, High(a));
    TouchPins(c1, lv);
    TouchPins(c2, hv);
    var c4 := PinVal(c3, lv);
    PinValWeight(c3, lv);
    PinValPins(c3, lv);
    var c5 := PinVal(c4, hv);
    PinValWeight(c4, hv);
    PinValPins(c4, hv);
    var k := Offset(a);
    UpdateCosts(c5, Low(a), lv, Not(Shr(TWO64 - 1, k)), v, false, k);
    UpdateCosts(UpdateWord(c5, Low(a), lv, Not(Shr(TWO64 - 1, k)), v, false, k).value, High(a), hv, Shr(TWO64 - 1, k), v, true, 64 - k);
  }

  lemma NonePinned(c: Jit)
    requires !c.pend
    ensures Weight(UnpinAll(c)) == 0 && !UnpinAll(c).pend && InTime(c, UnpinAll(c))
  {
    PinNone(UnpinAll(c).regs);
  }

  lemma TouchPins(c: Jit, v: CVal)
    ensures Touch(c, v).pend == c.pend && InTime(c, Touch(c, v)) && forall r: Reg :: Touch(c, v).regs[r].pinned == c.regs[r].pinned
  {
  }

  lemma PinValPins(c: Jit, v: CVal)
    ensures PinsKept(c, PinVal(c, v)) && PinVal(c, v).pend == c.pend && InTime(c, PinVal(c, v))
  {
  }

  /** Caching the word that is held back, if any, never stores it. */
  lemma CacheResultSame(c: Jit, a: word, res: CVal)
    requires Cacheable(a) && res != NoVal && (c.pend ==> c.pendAddr == a)
    ensures CacheResult(c, a, res).Some? && Lookup(CacheResult(c, a, res).value, a) != NoVal && InTime(c, CacheResult(c, a, res).value)
  {
    hide PinCount, Lookup, SetConst, SetAlias, Bind;
    CachingInTime(c, a, res);
    match res
    case Const(x) => SetConstRoom(c, a, x);
    case NegReg(r) => SetAliasSame(c, a, r, true);
    case InReg(r) =>
      if c.regs[r].used && c.regs[r].addr != a {
        SetAliasSame(c, a, r, false);
      } else {
        BindLookup(c, r, a, c.pendAddr);
      }
  }

  lemma CachingInTime(c: Jit, a: word, res: CVal)
    ensures InTime(c, CacheDrop(c, a)) && (res.Const? ==> InTime(c, SetConst(c, a, res.v))) && (res.InReg? ==> InTime(c, Bind(c, res.r, a)))
  {
    hide FreeConst;
  }

  lemma SetAliasSame(c: Jit, a: word, r: Reg, neg: bool)
    requires Cacheable(a) && (c.pend ==> c.pendAddr == a)
    ensures SetAlias(c, a, r, neg).Some? && Lookup(SetAlias(c, a, r, neg).value, a) != NoVal && InTime(c, SetAlias(c, a, r, neg).value)
  {
    hide PinCount, Lookup, FreeAlias, CacheDrop, FlushPending;
    var e := CacheDrop(c, a);
    DropKeepsPins(c, a);
    CachingInTime(c, a, NoVal);
    var k := FreeAlias(e.aliases, 0);
    if k < 16 {
      AliasLookup(e, a, r, neg, k, e.pendAddr);
    } else {
      var i := e.aliasNext % 16;
      var f := e.(aliasNext := e.aliasNext + 1);
      assert f.aliases[i].used && f.aliases[i].addr != a;
      AliasLookup(f, a, r, neg, i, f.pendAddr);
    }
  }
}
