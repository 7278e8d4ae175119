/** The register cache as the translator keeps it: tables changed in place, by
    methods that come to what the functions say. */
module CacheClass {
  import opened Options
  import opened Words
  import opened Memory
  import opened X86
  import opened RegCache

  class Translator {
    const regs: array<CReg>
    const consts: array<CConst>
    const aliases: array<CAlias>
    const movbe: bool
    var constNext: nat
    var aliasNext: nat
    var clock: nat
    var pend: bool
    var pendAddr: word
    var flagsLive: bool
    var code: seq<Op>

    ghost predicate Valid()
      reads this
    {
      regs.Length == 11 && consts.Length == 16 && aliases.Length == 16
    }

    ghost function State(): Jit
      requires Valid()
      reads this, regs, consts, aliases
    {
      Jit(regs[..], consts[..], aliases[..], constNext, aliasNext, clock, pend, pendAddr, flagsLive, movbe, code)
    }

    constructor (be: bool, t: Turns)
      ensures Valid() && fresh(regs) && fresh(consts) && fresh(aliases) && State() == EmptyCache(be, t)
    {
      regs := new CReg[11](i => CReg(false, 0, false, 0));
      consts := new CConst[16](i => CConst(false, 0, 0));
      aliases := new CAlias[16](i => CAlias(false, 0, 0, false));
      constNext, aliasNext, clock := t.constNext, t.aliasNext, t.clock;
      movbe, pend, pendAddr, flagsLive, code := be, false, 0, false, [];
      new;
      ghost var e := EmptyCache(be, t);
      assert regs[..] == e.regs && consts[..] == e.consts && aliases[..] == e.aliases;
    }

    method E(op: Op)
      requires Valid()
      modifies this`code
      ensures State() == Emit(old(State()), op)
    {
      code := code + [op];
    }

    method Drop(a: word)
      requires Valid()
      modifies regs, consts, aliases
      ensures State() == CacheDrop(old(State()), a)
    {
      for i := 0 to 11
        modifies regs
        invariant forall j | 0 <= j < 11 ::
          regs[j] == if j < i && old(regs[j]).used && old(regs[j]).addr == a then old(regs[j]).(used := false) else old(regs[j])
      {
        if regs[i].used && regs[i].addr == a {
          regs[i] := regs[i].(used := false);
        }
      }
      for i := 0 to 16
        modifies consts
        invariant forall j | 0 <= j < 16 ::
          consts[j] == if j < i && old(consts[j]).used && old(consts[j]).addr == a then old(consts[j]).(used := false) else old(consts[j])
      {
        if consts[i].used && consts[i].addr == a {
          consts[i] := consts[i].(used := false);
        }
      }
      for i := 0 to 16
        modifies aliases
        invariant forall j | 0 <= j < 16 ::
          aliases[j] == if j < i && old(aliases[j]).used && old(aliases[j]).addr == a then old(aliases[j]).(used := false) else old(aliases[j])
      {
        if aliases[i].used && aliases[i].addr == a {
          aliases[i] := aliases[i].(used := false);
        }
      }
      ghost var d := CacheDrop(old(State()), a);
      assert regs[..] == d.regs && consts[..] == d.consts && aliases[..] == d.aliases;
    }

    method DropAll()
      requires Valid()
      modifies regs, consts, aliases
      ensures State() == CacheDropAll(old(State()))
    {
      for i := 0 to 11
        modifies regs
        invariant forall j | 0 <= j < 11 :: regs[j] == if j < i then old(regs[j]).(used := false) else old(regs[j])
      {
        regs[i] := regs[i].(used := false);
      }
      for i := 0 to 16
        modifies consts
        invariant forall j | 0 <= j < 16 :: consts[j] == if j < i then old(consts[j]).(used := false) else old(consts[j])
      {
        consts[i] := consts[i].(used := false);
      }
      for i := 0 to 16
        modifies aliases
        invariant forall j | 0 <= j < 16 :: aliases[j] == if j < i then old(aliases[j]).(used := false) else old(aliases[j])
      {
        aliases[i] := aliases[i].(used := false);
      }
      ghost var d := CacheDropAll(old(State()));
      assert regs[..] == d.regs && consts[..] == d.consts && aliases[..] == d.aliases;
    }

    method SetReg(r: Reg, e: CReg)
      requires Valid()
      modifies regs
      ensures regs[..] == old(regs[..])[r := e]
    {
      regs[r] := e;
    }

    /** Marks register r as used last. */
    method Used(r: Reg)
      requires Valid()
      modifies this`clock, regs
      ensures State() == Touch(old(State()), InReg(r)) == Touch(old(State()), NegReg(r))
    {
      clock := clock + 1;
      SetReg(r, regs[r].(lru := clock));
    }

    /** The value cached for a: constants first, then registers, then names. */
    method Find(a: word) returns (v: CVal)
      requires Valid()
      modifies this`clock, regs
      ensures (v, State()) == CacheFind(old(State()), a)
    {
      hide FindConst, FindReg, FindAlias, Touch;
      ghost var c := State();
      if !Cacheable(a) {
        NoTouch(c);
        return NoVal;
      }
      for i := 0 to 16
        invariant State() == c && FindConst(consts[..], a, i) == FindConst(consts[..], a, 0)
      {
        ConstStep(consts[..], a, i);
        if consts[i].used && consts[i].addr == a {
          NoTouch(c);
          return Const(consts[i].val);
        }
      }
      ConstStep(consts[..], a, 16);
      for i := 0 to 11
        invariant State() == c && FindReg(regs[..], a, i) == FindReg(regs[..], a, 0)
      {
        RegStep(regs[..], a, i);
        if regs[i].used && regs[i].addr == a {
          Used(i);
          return InReg(i);
        }
      }
      RegStep(regs[..], a, 11);
      for i := 0 to 16
        invariant State() == c && FindAlias(aliases[..], a, i) == FindAlias(aliases[..], a, 0)
      {
        AliasStep(aliases[..], a, i);
        if aliases[i].used && aliases[i].addr == a {
          v := if aliases[i].neg then NegReg(aliases[i].reg) else InReg(aliases[i].reg);
          Used(aliases[i].reg);
          return;
        }
      }
      AliasStep(aliases[..], a, 16);
      NoTouch(c);
      v := NoVal;
    }

    method IsAliased(r: Reg) returns (b: bool)
      requires Valid()
      ensures b == Aliased(State(), r)
    {
      for i := 0 to 16
        invariant forall j | 0 <= j < i :: !(aliases[j].used && aliases[j].reg == r)
      {
        if aliases[i].used && aliases[i].reg == r {
          assert State().aliases[i] == aliases[i];
          return true;
        }
      }
      b := false;
    }

    /** Makes a constant the value of the word at a. */
    method PutConst(a: word, val: word)
      requires Valid()
      modifies this`constNext, regs, consts, aliases
      ensures State() == SetConst(old(State()), a, val)
    {
      hide CacheDrop, FreeConst;
      Drop(a);
      if !Cacheable(a) {
        return;
      }
      ghost var d := State();
      for i := 0 to 16
        invariant State() == d && FreeConst(consts[..], i) == FreeConst(consts[..], 0)
      {
        FreeConstStep(consts[..], i);
        if !consts[i].used {
          consts[i] := CConst(true, a, val);
          assert consts[..] == d.consts[i := CConst(true, a, val)];
          return;
        }
      }
      FreeConstStep(consts[..], 16);
      consts[constNext % 16] := CConst(true, a, val);
      assert consts[..] == d.consts[d.constNext % 16 := CConst(true, a, val)];
      constNext := constNext + 1;
    }

    method PinReg(r: Reg)
      requires Valid()
      modifies regs
      ensures State() == Pin(old(State()), r)
    {
      SetReg(r, regs[r].(pinned := true));
    }

    method UnpinEach()
      requires Valid()
      modifies regs
      ensures State() == UnpinAll(old(State()))
    {
      for i := 0 to 11
        invariant forall j | 0 <= j < 11 :: regs[j] == if j < i then old(regs[j]).(pinned := false) else old(regs[j])
      {
        regs[i] := regs[i].(pinned := false);
      }
      assert regs[..] == UnpinAll(old(State())).regs;
    }

    method UnpinReg(r: Reg)
      requires Valid()
      modifies regs
      ensures State() == Unpin(old(State()), r)
    {
      SetReg(r, regs[r].(pinned := false));
    }

    /** Forgets the words that stand for register r. */
    method ForgetReg(r: Reg)
      requires Valid()
      modifies regs, aliases
      ensures State() == DropReg(old(State()), r)
    {
      SetReg(r, regs[r].(used := false));
      for i := 0 to 16
        modifies aliases
        invariant forall j | 0 <= j < 16 ::
          aliases[j] == if j < i && old(aliases[j]).used && old(aliases[j]).reg == r then old(aliases[j]).(used := false) else old(aliases[j])
      {
        if aliases[i].used && aliases[i].reg == r {
          aliases[i] := aliases[i].(used := false);
        }
      }
      ghost var d := DropReg(old(State()), r);
      assert aliases[..] == d.aliases && regs[..] == d.regs;
    }

    /** In-place Release. */
    method ReleaseReg(r: Reg)
      requires Valid() && Release(State(), r).Some?
      modifies this, regs, consts, aliases
      ensures Some(State()) == Release(old(State()), r)
      decreases Held(State()), 2
    {
      hide FlushPending, DropReg, Touch, Lookup;
      if pend {
        var v := Find(pendAddr);
        TouchPend(old(State()), v);
        if Uses(v, r) {
          Flush();
        }
      }
      ForgetReg(r);
    }

    /** A register to use, pinned. */
    method TakeReg() returns (r: Reg)
      requires Valid() && Scratch(State()).Some?
      modifies this, regs, consts, aliases
      ensures Some((r, State())) == Scratch(old(State()))
      decreases Held(State()), 3
    {
      hide Release, Aliased, ScratchScan;
      ghost var c := State();
      var best := -1;
      var i := 0;
      while i < 11
        invariant 0 <= i <= 11 && -1 <= best < 11 && State() == c && (best >= 0 ==> !c.regs[best].pinned)
        invariant ScratchScan(c, i, best) == ScratchScan(c, 0, -1)
      {
        ScanStep(c, i, best);
        if !regs[i].pinned {
          var al := IsAliased(i);
          if !regs[i].used && !al {
            best := i;
            break;
          }
          if best < 0 || regs[i].lru < regs[best].lru {
            best := i;
          }
        }
        i := i + 1;
      }
      if i == 11 {
        ScanStep(c, 11, best);
      }
      r := best;
      PinReg(r);
      ReleaseReg(r);
    }

    /** Makes register r cache the word at a. */
    method BindReg(r: Reg, a: word)
      requires Valid()
      modifies this`clock, regs, consts, aliases
      ensures State() == Bind(old(State()), r, a)
    {
      hide CacheDrop;
      if Cacheable(a) {
        Drop(a);
        clock := clock + 1;
        SetReg(r, CReg(true, a, regs[r].pinned, clock));
      }
    }

    method NegateReg(r: Reg)
      requires Valid()
      modifies this`code
      ensures State() == Negate(old(State()), r)
    {
      if !flagsLive {
        E(NegR(r));
      } else {
        E(NotR(r));
        E(Lea1(r));
      }
    }

    /** In-place ToReg. */
    method InRegister(v: CVal) returns (r: Reg)
      requires Valid() && v != NoVal && ToReg(State(), v).Some?
      modifies this, regs, consts, aliases
      ensures Some((r, State())) == ToReg(old(State()), v)
      decreases Held(State()), 4
    {
      hide Scratch, Negate, Pin;
      if v.InReg? {
        return v.r;
      }
      if v.NegReg? {
        PinHeld(State(), v.r);
        PinReg(v.r);
      }
      r := TakeReg();
      if v.NegReg? {
        E(MovRR(r, v.r));
        NegateReg(r);
      } else {
        E(MovImm(r, v.v));
      }
    }

    /** Emits the big-endian store of register r. */
    method Store(dst: Opnd, r: Reg)
      requires Valid() && StoreTo(State(), dst, r).Some?
      modifies this, regs, consts, aliases
      ensures Some(State()) == StoreTo(old(State()), dst, r)
      decreases Held(State()), 4
    {
      hide Scratch;
      if movbe {
        E(StoreBE(dst, r));
      } else {
        var t := TakeReg();
        E(MovRR(t, r));
        E(BswapR(t));
        E(Op.Store(dst, t));
      }
    }

    method PutReg(r: Reg, dst: Opnd)
      requires Valid() && StoreReg(State(), r, dst).Some?
      modifies this, regs, consts, aliases
      ensures Some(State()) == StoreReg(old(State()), r, dst)
      decreases Held(State()), 5
    {
      hide Scratch, StoreTo;
      if dst.Abs? && !FitsDisp(dst.a) {
        ScratchHeld(State());
        var b := TakeReg();
        E(MovImm(b, dst.a));
        Store(Ind(b), r);
      } else {
        Store(dst, r);
      }
    }

    method PutImm(v: word, dst: Opnd)
      requires Valid() && StoreConst(State(), v, dst).Some?
      modifies this, regs, consts, aliases
      ensures Some(State()) == StoreConst(old(State()), v, dst)
      decreases Held(State()), 5
    {
      hide Scratch, Bswap;
      var be := Bswap(v);
      if dst.Abs? && FitsDisp(dst.a) && Imm32(be) {
        E(StoreImm(dst.a, be));
        return;
      }
      ScratchHeld(State());
      var t := TakeReg();
      E(MovImm(t, be));
      if dst.Abs? && !FitsDisp(dst.a) {
        var b := TakeReg();
        E(MovImm(b, dst.a));
        E(Op.Store(Ind(b), t));
      } else {
        E(Op.Store(dst, t));
      }
    }

    /** In-place FlushPending. */
    method Flush()
      requires Valid() && FlushPending(State()).Some?
      modifies this, regs, consts, aliases
      ensures Some(State()) == FlushPending(old(State()))
      decreases Held(State()), 1
    {
      hide ToReg, StoreReg, StoreConst, Lookup, Touch, Pin, Unpin;
      if !pend {
        return;
      }
      pend := false;
      var a := pendAddr;
      ghost var d := State();
      var v := Find(a);
      TouchPend(d, v);
      if v.Const? {
        PutImm(v.v, Abs(a));
      } else {
        var was := regs[v.r].pinned;
        PinHeld(State(), v.r);
        PinReg(v.r);
        ToRegHeld(State(), v);
        var r := InRegister(v);
        PutReg(r, Abs(a));
        if r != v.r {
          UnpinReg(r);
        }
        if was {
          PinReg(v.r);
        } else {
          UnpinReg(v.r);
        }
      }
    }

    /** In-place SetAlias. */
    method PutAlias(a: word, r: Reg, neg: bool)
      requires Valid() && SetAlias(State(), a, r, neg).Some?
      modifies this, regs, consts, aliases
      ensures Some(State()) == SetAlias(old(State()), a, r, neg)
    {
      hide CacheDrop, FreeAlias, FlushPending;
      Drop(a);
      if !Cacheable(a) {
        return;
      }
      ghost var d := State();
      for i := 0 to 16
        invariant State() == d && FreeAlias(aliases[..], i) == FreeAlias(aliases[..], 0)
      {
        FreeAliasStep(aliases[..], i);
        if !aliases[i].used {
          aliases[i] := CAlias(true, a, r, neg);
          assert aliases[..] == d.aliases[i := CAlias(true, a, r, neg)];
          return;
        }
      }
      FreeAliasStep(aliases[..], 16);
      var i := aliasNext % 16;
      aliasNext := aliasNext + 1;
      if pend && pendAddr == aliases[i].addr {
        Flush();
      }
      ghost var f := State();
      aliases[i] := CAlias(true, a, r, neg);
      assert aliases[..] == f.aliases[i := CAlias(true, a, r, neg)];
    }

    method PinValue(v: CVal)
      requires Valid()
      modifies regs
      ensures State() == PinVal(old(State()), v)
    {
      if v.InReg? || v.NegReg? {
        PinReg(v.r);
      }
    }

    /** What is held back here, for a stub to store. */
    method Snap() returns (p: Pending)
      requires Valid()
      modifies this`clock, regs
      ensures (p, State()) == SnapPending(old(State()))
    {
      hide Touch, Lookup;
      if pend {
        var v := Find(pendAddr);
        TouchPend(old(State()), v);
        return HeldBack(v, pendAddr);
      }
      p := NotHeld;
    }
  }

  lemma NoTouch(c: Jit)
    ensures Touch(c, NoVal) == c && forall x :: Touch(c, Const(x)) == c
  {
  }

  lemma TouchPend(c: Jit, v: CVal)
    ensures Touch(c, v).pend == c.pend && Touch(c, v).pendAddr == c.pendAddr
  {
  }

  lemma PinHeld(c: Jit, r: Reg)
    ensures Pin(c, r).pend == c.pend
  {
  }

  lemma ScratchHeld(c: Jit)
    requires Scratch(c).Some?
    ensures Scratch(c).value.1.pend ==> c.pend
  {
    hide Release;
  }

  lemma ToRegHeld(c: Jit, v: CVal)
    requires v != NoVal && ToReg(c, v).Some?
    ensures ToReg(c, v).value.1.pend ==> c.pend
  {
    hide Scratch;
  }

  lemma ConstStep(s: seq<CConst>, a: word, i: nat)
    requires i <= |s|
    ensures FindConst(s, a, i) == if i == |s| || (s[i].used && s[i].addr == a) then i else FindConst(s, a, i + 1)
  {
  }

  lemma RegStep(s: seq<CReg>, a: word, i: nat)
    requires i <= |s|
    ensures FindReg(s, a, i) == if i == |s| || (s[i].used && s[i].addr == a) then i else FindReg(s, a, i + 1)
  {
  }

  lemma AliasStep(s: seq<CAlias>, a: word, i: nat)
    requires i <= |s|
    ensures FindAlias(s, a, i) == if i == |s| || (s[i].used && s[i].addr == a) then i else FindAlias(s, a, i + 1)
  {
  }

  lemma FreeConstStep(s: seq<CConst>, i: nat)
    requires i <= |s|
    ensures FreeConst(s, i) == if i == |s| || !s[i].used then i else FreeConst(s, i + 1)
  {
  }

  lemma FreeAliasStep(s: seq<CAlias>, i: nat)
    requires i <= |s|
    ensures FreeAlias(s, i) == if i == |s| || !s[i].used then i else FreeAlias(s, i + 1)
  {
  }

  lemma ScanStep(c: Jit, i: nat, best: int)
    requires i <= 11 && -1 <= best < 11 && (best >= 0 ==> !c.regs[best].pinned)
    ensures ScratchScan(c, i, best) ==
      if i == 11 then best
      else if c.regs[i].pinned then ScratchScan(c, i + 1, best)
      else if !c.regs[i].used && !Aliased(c, i) then i
      else ScratchScan(c, i + 1, if best < 0 || c.regs[i].lru < c.regs[best].lru then i else best)
  {
    hide Aliased;
  }
}
