/** What every step of the register cache keeps: each entry stands for its word
    of the reference memory, and memory is that memory but for the store held
    back. c is the translator, m the machine that ran the code emitted so far
    from m0, and R the memory the interpreter would have. */
module CacheProofs {
  import opened Options
  import opened Words
  import opened Bits
  import opened Memory
  import opened X86
  import opened RegCache

  ghost predicate At(c: Jit, m0: Machine, m: Machine) { Run(c.code, m0) == Go(m) }

  /** v has the value x in machine m. */
  ghost predicate Denotes(v: CVal, m: Machine, x: word) {
    match v
    case NoVal => false
    case InReg(r) => m.regs[r] == x
    case NegReg(r) => Neg(m.regs[r]) == x
    case Const(n) => n == x
  }

  /** Entries other than those for address x hold their words of R. */
  ghost predicate Entries(c: Jit, m: Machine, R: Mem, x: int) {
    && (forall i | 0 <= i < 11 :: c.regs[i].used && c.regs[i].addr != x ==>
          Cacheable(c.regs[i].addr) && m.regs[i] == Rd(R, c.regs[i].addr))
    && (forall i | 0 <= i < 16 :: c.consts[i].used && c.consts[i].addr != x ==>
          Cacheable(c.consts[i].addr) && c.consts[i].val == Rd(R, c.consts[i].addr))
    && (forall i | 0 <= i < 16 :: c.aliases[i].used && c.aliases[i].addr != x ==>
          Cacheable(c.aliases[i].addr) &&
          Rd(R, c.aliases[i].addr) == (if c.aliases[i].neg then Neg(m.regs[c.aliases[i].reg]) else m.regs[c.aliases[i].reg]))
  }

  /** The held-back word is cached, and storing it makes memory R. */
  ghost predicate HeldOk(c: Jit, m: Machine, R: Mem) {
    c.pend ==>
      && Cacheable(c.pendAddr)
      && Lookup(c, c.pendAddr) != NoVal
      && R == Wr(m.mem, c.pendAddr, Rd(R, c.pendAddr))
  }

  ghost predicate Good(c: Jit, m0: Machine, m: Machine, R: Mem) {
    At(c, m0, m) && Entries(c, m, R, -1) && HeldOk(c, m, R)
  }

  /** Pinned registers, live flags, and the marks stay. */
  ghost predicate Keeps(c: Jit, m: Machine, c': Jit, m': Machine) {
    && c'.movbe == c.movbe && c'.flagsLive == c.flagsLive && m'.marks == m.marks
    && (c.flagsLive ==> m'.fl == m.fl)
    && (forall i | 0 <= i < 11 :: c.regs[i].pinned ==> c'.regs[i].pinned && m'.regs[i] == m.regs[i])
    && (forall i: Reg :: c.regs[i].pinned ==> NoNewUse(c, c', i))
  }

  /** Register i stands for no more words than before. */
  predicate NoNewUse(c: Jit, c': Jit, i: Reg) {
    && (c'.regs[i].used ==> c.regs[i].used && c'.regs[i].addr == c.regs[i].addr)
    && forall j | 0 <= j < 16 :: c'.aliases[j].used && c'.aliases[j].reg == i ==> c.aliases[j].used && c.aliases[j].reg == i
  }

  /** Memory only changes by the held-back store getting there. */
  ghost predicate MemKept(c: Jit, m: Machine, c': Jit, m': Machine, R: Mem) {
    if c'.pend then c.pend && c'.pendAddr == c.pendAddr && m'.mem == m.mem && m'.log == m.log
    else m'.mem == (if c.pend then R else m.mem) && m'.log == LogOf(c, m, R)
  }

  /** The stores logged, and the one held back as it will be. */
  function LogOf(c: Jit, m: Machine, R: Mem): seq<(word, word)> {
    if c.pend then m.log + [(c.pendAddr, Rd(R, c.pendAddr))] else m.log
  }

  /** Nothing stands for register r's value. */
  predicate Free(c: Jit, r: Reg) {
    !c.regs[r].used && forall i | 0 <= i < 16 :: c.aliases[i].used ==> c.aliases[i].reg != r
  }

  /** As translators go, only the order of last use differs. */
  predicate SameButLru(c: Jit, d: Jit) {
    && d == c.(regs := d.regs, clock := d.clock)
    && forall i | 0 <= i < 11 :: d.regs[i] == c.regs[i].(lru := d.regs[i].lru)
  }

  lemma EmitOk(c: Jit, op: Op, m0: Machine, m: Machine)
    requires At(c, m0, m)
    ensures Run(Emit(c, op).code, m0) == Exec(op, m)
  {
    hide Exec;
    RunAppend(c.code, op, m0);
  }

  lemma TouchOk(c: Jit, v: CVal)
    ensures SameButLru(c, Touch(c, v))
  {
  }

  lemma {:induction false} FindRegSame(s: RegTab, t: RegTab, a: word, i: nat)
    requires i <= 11
    requires forall j | 0 <= j < 11 :: t[j].used == s[j].used && t[j].addr == s[j].addr
    ensures FindReg(s, a, i) == FindReg(t, a, i)
    decreases 11 - i
  {
    if i < 11 {
      FindRegSame(s, t, a, i + 1);
    }
  }

  lemma SameLookup(c: Jit, d: Jit, a: word)
    requires SameButLru(c, d)
    ensures Lookup(c, a) == Lookup(d, a)
  {
    hide FindReg, FindConst, FindAlias;
    FindRegSame(c.regs, d.regs, a, 0);
  }

  lemma SameGood(c: Jit, d: Jit, m0: Machine, m: Machine, R: Mem)
    requires Good(c, m0, m, R) && SameButLru(c, d)
    ensures Good(d, m0, m, R)
  {
    hide Rd, Wr, Lookup;
    SameLookup(c, d, c.pendAddr);
  }

  /** A lookup finds the word's value. */
  lemma LookupOk(c: Jit, m: Machine, R: Mem, x: int, a: word)
    requires Entries(c, m, R, x) && a != x
    ensures Lookup(c, a) != NoVal ==> Cacheable(a) && Denotes(Lookup(c, a), m, Rd(R, a))
  {
    hide Rd, FindReg, FindConst, FindAlias;
  }

  /** Dropping a register's words keeps the lookup of what is not in it. */
  lemma DropRegKeeps(c: Jit, r: Reg, a: word)
    requires Lookup(c, a) != NoVal && !Uses(Lookup(c, a), r)
    ensures Lookup(DropReg(c, r), a) != NoVal
  {
    hide FindReg, FindConst, FindAlias;
    var d := DropReg(c, r);
    assert d.consts == c.consts;
    var k := FindReg(c.regs, a, 0);
    if k < 11 && k != r {
      assert d.regs[k] == c.regs[k];
    }
    var l := FindAlias(c.aliases, a, 0);
    if l < 16 && c.aliases[l].reg != r {
      assert d.aliases[l] == c.aliases[l];
    }
  }

  lemma DropRegEntries(c: Jit, r: Reg, m: Machine, R: Mem)
    requires Entries(c, m, R, -1)
    ensures Entries(DropReg(c, r), m, R, -1)
  {
    hide Rd;
  }

  lemma ReleaseOk(c: Jit, m0: Machine, m: Machine, R: Mem, r: Reg) returns (m': Machine)
    requires Good(c, m0, m, R) && c.regs[r].pinned && Release(c, r).Some?
    ensures var c' := Release(c, r).value;
      Good(c', m0, m', R) && Keeps(c, m, c', m') && MemKept(c, m, c', m', R) && Free(c', r)
    decreases Held(c), 2
  {
    hide Rd, Wr, Lookup, FlushPending, Run, Entries;
    m' := m;
    var c1 := c;
    if c.pend {
      var (v, c2) := CacheFind(c, c.pendAddr);
      TouchOk(c, v);
      SameGood(c, c2, m0, m, R);
      SameLookup(c, c2, c.pendAddr);
      if Uses(v, r) {
        m' := FlushOk(c2, m0, m, R);
        c1 := FlushPending(c2).value;
      } else {
        c1 := c2;
        DropRegKeeps(c2, r, c.pendAddr);
      }
    }
    assert Release(c, r).value == DropReg(c1, r);
    DropRegEntries(c1, r, m', R);
  }

  lemma ScratchOk(c: Jit, m0: Machine, m: Machine, R: Mem) returns (m': Machine)
    requires Good(c, m0, m, R) && Scratch(c).Some?
    ensures var (r, c') := Scratch(c).value;
      && Good(c', m0, m', R) && Keeps(c, m, c', m') && MemKept(c, m, c', m', R)
      && Free(c', r) && c'.regs[r].pinned && !c.regs[r].pinned
    decreases Held(c), 3
  {
    hide Rd, Wr, Lookup, Release, ScratchScan, Run;
    var best := ScratchScan(c, 0, -1);
    PinGood(c, m0, m, R, best);
    m' := ReleaseOk(Pin(c, best), m0, m, R, best);
  }

  lemma PinGood(c: Jit, m0: Machine, m: Machine, R: Mem, r: Reg)
    requires Good(c, m0, m, R)
    ensures Good(Pin(c, r), m0, m, R) && Good(Unpin(c, r), m0, m, R)
  {
    hide Rd, Wr, Lookup;
    PinLookup(c, r, c.pendAddr);
  }

  lemma PinLookup(c: Jit, r: Reg, a: word)
    ensures Lookup(Pin(c, r), a) == Lookup(c, a) == Lookup(Unpin(c, r), a)
  {
    hide FindReg, FindConst, FindAlias;
    FindRegSame(c.regs, Pin(c, r).regs, a, 0);
    FindRegSame(c.regs, Unpin(c, r).regs, a, 0);
  }

  lemma NegateIs(x: word)
    ensures Add(Not(x), 1) == Neg(x)
  {
  }

  /** One operation into a register nothing stands for. */
  lemma EmitFree(c: Jit, op: Op, m0: Machine, m: Machine, R: Mem, r: Reg, m': Machine)
    requires Good(c, m0, m, R) && Free(c, r)
    requires Exec(op, m) == Go(m') && m' == m.(regs := m.regs[r := m'.regs[r]], fl := m'.fl)
    ensures Good(Emit(c, op), m0, m', R)
  {
    hide Rd, Wr, Exec, Run, Lookup;
    EmitOk(c, op, m0, m);
    FreeLookup(c, Emit(c, op), c.pendAddr);
  }

  lemma FreeLookup(c: Jit, d: Jit, a: word)
    requires d.regs == c.regs && d.consts == c.consts && d.aliases == c.aliases
    ensures Lookup(d, a) == Lookup(c, a)
  {
    hide FindReg, FindConst, FindAlias;
  }

  lemma NegateOk(c: Jit, m0: Machine, m: Machine, R: Mem, r: Reg) returns (m': Machine)
    requires Good(c, m0, m, R) && Free(c, r)
    ensures Good(Negate(c, r), m0, m', R)
    ensures m' == m.(regs := m.regs[r := Neg(m.regs[r])], fl := m'.fl) && (c.flagsLive ==> m'.fl == m.fl)
  {
    hide Rd, Wr, Run, Lookup, Good;
    NegateIs(m.regs[r]);
    if c.flagsLive {
      var m1 := Set(m, r, Not(m.regs[r]));
      EmitFree(c, NotR(r), m0, m, R, r, m1);
      m' := Set(m1, r, Add(m1.regs[r], 1));
      EmitFree(Emit(c, NotR(r)), Lea1(r), m0, m1, R, r, m');
    } else {
      m' := SetF(m, r, Neg(m.regs[r]), SubFlags(0, m.regs[r]));
      EmitFree(c, NegR(r), m0, m, R, r, m');
    }
  }

  /** The value ends up in a register: its own, or a new pinned one. */
  lemma ToRegOk(c: Jit, v: CVal, m0: Machine, m: Machine, R: Mem, x: word) returns (m': Machine)
    requires Good(c, m0, m, R) && Denotes(v, m, x) && ToReg(c, v).Some?
    ensures var (r, c') := ToReg(c, v).value;
      && Good(c', m0, m', R) && Keeps(c, m, c', m') && MemKept(c, m, c', m', R)
      && m'.regs[r] == x
      && (v.InReg? ==> r == v.r && c' == c && m' == m)
      && (!v.InReg? ==> Free(c', r) && c'.regs[r].pinned && !c.regs[r].pinned)
      && (v.NegReg? ==> r != v.r)
    decreases Held(c), 4
  {
    hide Rd, Wr, Run, Lookup, Scratch, Negate, Good;
    match v
    case InReg(r) => m' := m;
    case NegReg(s) =>
      PinGood(c, m0, m, R, s);
      var m1 := ScratchOk(Pin(c, s), m0, m, R);
      var (r, c1) := Scratch(Pin(c, s)).value;
      var m2 := Set(m1, r, m1.regs[s]);
      EmitFree(c1, MovRR(r, s), m0, m1, R, r, m2);
      m' := NegateOk(Emit(c1, MovRR(r, s)), m0, m2, R, r);
      NegateFrame(Emit(c1, MovRR(r, s)), r);
    case Const(n) =>
      var m1 := ScratchOk(c, m0, m, R);
      var (r, c1) := Scratch(c).value;
      m' := Set(m1, r, n);
      EmitFree(c1, MovImm(r, n), m0, m1, R, r, m');
  }

  lemma NegateFrame(c: Jit, r: Reg)
    ensures Negate(c, r) == c.(code := Negate(c, r).code)
  {
  }

  /** Storing changes memory at dst only. */
  lemma EmitStore(c: Jit, op: Op, m0: Machine, m: Machine, R: Mem, a: word, x: word)
    requires Good(c, m0, m, R) && !c.pend
    requires Exec(op, m) == Go(PutMem(m, a, x))
    ensures Good(Emit(c, op), m0, PutMem(m, a, x), R)
  {
    hide Rd, Wr, Exec, Run, Lookup;
    EmitOk(c, op, m0, m);
  }

  predicate Protects(c: Jit, dst: Opnd) { dst.Ind? ==> c.regs[dst.base].pinned }

  lemma StoreToOk(c: Jit, dst: Opnd, r: Reg, m0: Machine, m: Machine, R: Mem) returns (m': Machine)
    requires Good(c, m0, m, R) && !c.pend && c.regs[r].pinned && Protects(c, dst) && StoreTo(c, dst, r).Some?
    ensures var c' := StoreTo(c, dst, r).value;
      && Good(c', m0, m', R) && Keeps(c, m, c', m') && !c'.pend
      && m'.mem == Wr(m.mem, EA(dst, m), m.regs[r]) && m'.log == m.log + [(EA(dst, m), m.regs[r])]
    decreases Held(c), 4
  {
    hide Rd, Wr, Run, Lookup, Scratch, Good, Bswap;
    if c.movbe {
      m' := PutMem(m, EA(dst, m), m.regs[r]);
      EmitStore(c, StoreBE(dst, r), m0, m, R, EA(dst, m), m.regs[r]);
    } else {
      var m1 := ScratchOk(c, m0, m, R);
      var (t, c1) := Scratch(c).value;
      var m2 := Set(m1, t, m1.regs[r]);
      EmitFree(c1, MovRR(t, r), m0, m1, R, t, m2);
      var m3 := Set(m2, t, Bswap(m2.regs[t]));
      EmitFree(Emit(c1, MovRR(t, r)), BswapR(t), m0, m2, R, t, m3);
      BswapTwice(m.regs[r]);
      m' := PutMem(m3, EA(dst, m), m.regs[r]);
      EmitStore(Emit(Emit(c1, MovRR(t, r)), BswapR(t)), Store(dst, t), m0, m3, R, EA(dst, m), m.regs[r]);
    }
  }

  lemma StoreRegOk(c: Jit, r: Reg, dst: Opnd, m0: Machine, m: Machine, R: Mem) returns (m': Machine)
    requires Good(c, m0, m, R) && !c.pend && c.regs[r].pinned && Protects(c, dst) && StoreReg(c, r, dst).Some?
    ensures var c' := StoreReg(c, r, dst).value;
      && Good(c', m0, m', R) && Keeps(c, m, c', m') && !c'.pend
      && m'.mem == Wr(m.mem, EA(dst, m), m.regs[r]) && m'.log == m.log + [(EA(dst, m), m.regs[r])]
    decreases Held(c), 5
  {
    hide Rd, Wr, Run, Lookup, Scratch, Good, StoreTo;
    if dst.Abs? && !FitsDisp(dst.a) {
      var m1 := ScratchOk(c, m0, m, R);
      var (b, c1) := Scratch(c).value;
      var m2 := Set(m1, b, dst.a);
      EmitFree(c1, MovImm(b, dst.a), m0, m1, R, b, m2);
      m' := StoreToOk(Emit(c1, MovImm(b, dst.a)), Ind(b), r, m0, m2, R);
    } else {
      m' := StoreToOk(c, dst, r, m0, m, R);
    }
  }

  lemma StoreConstOk(c: Jit, v: word, dst: Opnd, m0: Machine, m: Machine, R: Mem) returns (m': Machine)
    requires Good(c, m0, m, R) && !c.pend && Protects(c, dst) && StoreConst(c, v, dst).Some?
    ensures var c' := StoreConst(c, v, dst).value;
      && Good(c', m0, m', R) && Keeps(c, m, c', m') && !c'.pend
      && m'.mem == Wr(m.mem, EA(dst, m), v) && m'.log == m.log + [(EA(dst, m), v)]
    decreases Held(c), 5
  {
    hide Rd, Wr, Run, Lookup, Scratch, Good, Bswap;
    var be := Bswap(v);
    BswapTwice(v);
    if dst.Abs? && FitsDisp(dst.a) && Imm32(be) {
      m' := PutMem(m, dst.a, v);
      EmitStore(c, StoreImm(dst.a, be), m0, m, R, dst.a, v);
    } else {
      var m1 := ScratchOk(c, m0, m, R);
      var (t, c1) := Scratch(c).value;
      var c2 := Emit(c1, MovImm(t, be));
      var m2 := Set(m1, t, be);
      EmitFree(c1, MovImm(t, be), m0, m1, R, t, m2);
      if dst.Abs? && !FitsDisp(dst.a) {
        var m3 := ScratchOk(c2, m0, m2, R);
        var (b, c3) := Scratch(c2).value;
        var m4 := Set(m3, b, dst.a);
        EmitFree(c3, MovImm(b, dst.a), m0, m3, R, b, m4);
        m' := PutMem(m4, dst.a, v);
        EmitStore(Emit(c3, MovImm(b, dst.a)), Store(Ind(b), t), m0, m4, R, dst.a, v);
      } else {
        m' := PutMem(m2, EA(dst, m), v);
        EmitStore(c2, Store(dst, t), m0, m2, R, EA(dst, m), v);
      }
    }
  }

  /** What is held back reaches memory, and nothing else changes. */
  lemma FlushOk(c: Jit, m0: Machine, m: Machine, R: Mem) returns (m': Machine)
    requires Good(c, m0, m, R) && FlushPending(c).Some?
    ensures var c' := FlushPending(c).value;
      Good(c', m0, m', R) && Keeps(c, m, c', m') && MemKept(c, m, c', m', R) && !c'.pend
    decreases Held(c), 1
  {
    hide Rd, Wr, Run, Lookup, ToReg, StoreReg, StoreConst, Entries;
    if !c.pend {
      m' := m;
    } else {
      var d := c.(pend := false);
      FreeLookup(c, d, c.pendAddr);
      LookupOk(c, m, R, -1, c.pendAddr);
      var (v, c1) := CacheFind(d, c.pendAddr);
      TouchOk(d, v);
      SameGood(d, c1, m0, m, R) by { assert Entries(d, m, R, -1) by { SameEntries(c, d, m, R, -1); } }
      if v.Const? {
        m' := StoreConstOk(c1, v.v, Abs(c.pendAddr), m0, m, R);
      } else {
        m' := FlushRegister(c1, v, c.pendAddr, m0, m, R);
      }
    }
  }

  lemma SameEntries(c: Jit, d: Jit, m: Machine, R: Mem, x: int)
    requires Entries(c, m, R, x) && d.regs == c.regs && d.consts == c.consts && d.aliases == c.aliases
    ensures Entries(d, m, R, x)
  {
    hide Rd;
  }

  lemma FlushRegister(c: Jit, v: CVal, a: word, m0: Machine, m: Machine, R: Mem) returns (m': Machine)
    requires Good(c, m0, m, R) && !c.pend && (v.InReg? || v.NegReg?) && Denotes(v, m, Rd(R, a))
    requires ToReg(Pin(c, v.r), v).Some?
    requires var (r, c2) := ToReg(Pin(c, v.r), v).value; StoreReg(c2, r, Abs(a)).Some?
    ensures
      var was := c.regs[v.r].pinned;
      var (r, c2) := ToReg(Pin(c, v.r), v).value;
      var c3 := StoreReg(c2, r, Abs(a)).value;
      var c4 := if r != v.r then Unpin(c3, r) else c3;
      var c' := if was then Pin(c4, v.r) else Unpin(c4, v.r);
      && Good(c', m0, m', R) && Keeps(c, m, c', m') && !c'.pend
      && m'.mem == Wr(m.mem, a, Rd(R, a)) && m'.log == m.log + [(a, Rd(R, a))]
    decreases Held(c), 6
  {
    hide Rd, Wr, Run, Lookup, ToReg, StoreReg, Good;
    PinGood(c, m0, m, R, v.r);
    var m2 := ToRegOk(Pin(c, v.r), v, m0, m, R, Rd(R, a));
    var (r, c2) := ToReg(Pin(c, v.r), v).value;
    m' := StoreRegOk(c2, r, Abs(a), m0, m2, R);
    var c3 := StoreReg(c2, r, Abs(a)).value;
    PinGood(c3, m0, m', R, r);
    var c4 := if r != v.r then Unpin(c3, r) else c3;
    PinGood(c4, m0, m', R, v.r);
  }
}
