/** Operands come out as the words of the reference memory, and the words an
    unaligned store spans are cached as it left them. */
module OperandProofs {
  import opened Options
  import opened Words
  import opened Bits
  import opened Memory
  import opened Splice
  import opened X86
  import opened RegCache
  import opened CacheProofs
  import opened Operands

  /** Memory is R itself when no store is held back. */
  ghost predicate Whole(c: Jit, m0: Machine, m: Machine, R: Mem) {
    Good(c, m0, m, R) && (!c.pend ==> m.mem == R)
  }

  /** What is held back is what was, or nothing as it has been stored. */
  ghost predicate LogKept(c: Jit, m: Machine, c': Jit, m': Machine, R: Mem) {
    (c'.pend ==> c.pend && c'.pendAddr == c.pendAddr) && LogOf(c', m', R) == LogOf(c, m, R)
  }

  predicate Pinned(c: Jit, v: CVal) { (v.InReg? || v.NegReg?) ==> c.regs[v.r].pinned }

  /** A new value: a constant, or a pinned register nothing else stands for. */
  predicate Fresh(c: Jit, v: CVal) { v.Const? || (v.InReg? && Free(c, v.r) && c.regs[v.r].pinned) }

  lemma LoadMemOk(c: Jit, r: Reg, src: Opnd, m0: Machine, m: Machine, R: Mem) returns (m': Machine)
    requires Good(c, m0, m, R) && Free(c, r)
    ensures Good(LoadMem(c, r, src), m0, m', R)
    ensures m' == Set(m, r, Rd(m.mem, EA(src, m)))
    ensures LoadMem(c, r, src) == c.(code := LoadMem(c, r, src).code)
  {
    hide Rd, Wr, Run, Lookup, Good, Bswap;
    var x := Rd(m.mem, EA(src, m));
    m' := Set(m, r, x);
    if c.movbe {
      EmitFree(c, LoadBE(r, src), m0, m, R, r, m');
    } else {
      var m1 := Set(m, r, Bswap(x));
      EmitFree(c, Load(r, src), m0, m, R, r, m1);
      BswapTwice(x);
      EmitFree(Emit(c, Load(r, src)), BswapR(r), m0, m1, R, r, m');
    }
  }

  lemma LoadStaticOk(c: Jit, r: Reg, a: word, m0: Machine, m: Machine, R: Mem) returns (m': Machine)
    requires Good(c, m0, m, R) && Free(c, r)
    ensures Good(LoadStatic(c, r, a), m0, m', R)
    ensures m' == Set(m, r, Rd(m.mem, a))
    ensures LoadStatic(c, r, a) == c.(code := LoadStatic(c, r, a).code)
  {
    hide Rd, Wr, Run, Lookup, Good, LoadMem;
    if FitsDisp(a) {
      m' := LoadMemOk(c, r, Abs(a), m0, m, R);
    } else {
      var m1 := Set(m, r, a);
      EmitFree(c, MovImm(r, a), m0, m, R, r, m1);
      m' := LoadMemOk(Emit(c, MovImm(r, a)), r, Ind(r), m0, m1, R);
    }
  }

  lemma DropLookup(c: Jit, a: word, b: word)
    ensures b != a && Lookup(c, b) != NoVal ==> Lookup(CacheDrop(c, a), b) != NoVal
  {
    hide FindReg, FindConst, FindAlias;
    var d := CacheDrop(c, a);
    var k, r, l := FindConst(c.consts, b, 0), FindReg(c.regs, b, 0), FindAlias(c.aliases, b, 0);
    if b != a {
      if k < 16 {
        assert d.consts[k] == c.consts[k];
      } else if r < 11 {
        assert d.regs[r] == c.regs[r];
      } else if l < 16 {
        assert d.aliases[l] == c.aliases[l];
      }
    }
  }

  lemma DropEntries(c: Jit, m: Machine, R: Mem, a: word)
    requires Entries(c, m, R, a)
    ensures Entries(CacheDrop(c, a), m, R, -1)
    ensures forall i | 0 <= i < 11 :: CacheDrop(c, a).regs[i].used ==> CacheDrop(c, a).regs[i].addr != a
    ensures forall i | 0 <= i < 16 :: CacheDrop(c, a).consts[i].used ==> CacheDrop(c, a).consts[i].addr != a
    ensures forall i | 0 <= i < 16 :: CacheDrop(c, a).aliases[i].used ==> CacheDrop(c, a).aliases[i].addr != a
  {
    hide Rd;
  }

  /** A held-back store other than to a stays held back. */
  ghost predicate OtherHeld(c: Jit, m: Machine, R: Mem, a: word) {
    c.pend && c.pendAddr != a ==> HeldOk(c, m, R)
  }

  /** Everything but the entries is as before. */
  predicate SameRest(c: Jit, d: Jit) {
    && d.pend == c.pend && d.pendAddr == c.pendAddr && d.flagsLive == c.flagsLive && d.movbe == c.movbe
    && d.code == c.code
    && forall i | 0 <= i < 11 :: d.regs[i].pinned == c.regs[i].pinned
  }

  /** No register but r stands for a word it did not before. */
  predicate FewerUses(c: Jit, d: Jit, r: int) {
    && (forall q | 0 <= q < 11 :: q != r && d.regs[q].used ==> c.regs[q].used && d.regs[q].addr == c.regs[q].addr)
    && (forall j | 0 <= j < 16 :: d.aliases[j].used ==> c.aliases[j].used && d.aliases[j].reg == c.aliases[j].reg)
  }

  /** Rebinding a word to the register that now has its value. */
  lemma BindOk(c: Jit, r: Reg, a: word, m0: Machine, m: Machine, R: Mem)
    requires At(c, m0, m) && Entries(c, m, R, a) && OtherHeld(c, m, R, a)
    requires Cacheable(a) && m.regs[r] == Rd(R, a) && (c.regs[r].used ==> c.regs[r].addr == a)
    ensures var d := Bind(c, r, a);
      && At(d, m0, m) && Entries(d, m, R, -1) && OtherHeld(d, m, R, a) && Lookup(d, a) != NoVal && SameRest(c, d)
    ensures FewerUses(c, Bind(c, r, a), r)
  {
    hide Rd, Wr, Run, FindReg, FindConst, FindAlias, Lookup;
    var d := CacheDrop(c, a);
    DropEntries(c, m, R, a);
    DropLookup(c, a, c.pendAddr);
    BindLookup(c, r, a, c.pendAddr);
  }

  lemma BindLookup(c: Jit, r: Reg, a: word, b: word)
    requires Cacheable(a) && (c.regs[r].used ==> c.regs[r].addr == a)
    ensures Lookup(Bind(c, r, a), a) != NoVal
    ensures b != a && Lookup(c, b) != NoVal ==> Lookup(Bind(c, r, a), b) != NoVal
  {
    hide FindReg, FindConst, FindAlias;
    var d := Bind(c, r, a);
    assert d.regs[r].used && d.regs[r].addr == a;
    if b != a && Lookup(c, b) != NoVal {
      var k, q, l := FindConst(c.consts, b, 0), FindReg(c.regs, b, 0), FindAlias(c.aliases, b, 0);
      if k < 16 {
        assert d.consts[k] == c.consts[k];
      } else if q < 11 {
        assert d.regs[q] == c.regs[q];
      } else if l < 16 {
        assert d.aliases[l] == c.aliases[l];
      }
    }
  }

  lemma SetConstOk(c: Jit, a: word, x: word, m0: Machine, m: Machine, R: Mem)
    requires At(c, m0, m) && Entries(c, m, R, a) && (c.pend ==> c.pendAddr == a)
    requires Cacheable(a) && x == Rd(R, a)
    ensures var d := SetConst(c, a, x);
      && At(d, m0, m) && Entries(d, m, R, -1) && Lookup(d, a) != NoVal && SameRest(c, d)
    ensures FewerUses(c, SetConst(c, a, x), -1)
  {
    hide Rd, Wr, Run, FindReg, FindConst, FindAlias, FreeConst;
    DropEntries(c, m, R, a);
    var e, d := CacheDrop(c, a), SetConst(c, a, x);
    var k := FreeConst(e.consts, 0);
    var i := if k < 16 then k else e.constNext % 16;
    assert d.consts[i].used && d.consts[i].addr == a;
  }

  /** Making a word stand for a register, or its negation. */
  lemma SetAliasOk(c: Jit, a: word, r: Reg, neg: bool, m0: Machine, m: Machine, R: Mem) returns (m': Machine)
    requires At(c, m0, m) && Entries(c, m, R, a) && OtherHeld(c, m, R, a) && c.regs[r].pinned
    requires Cacheable(a) && Rd(R, a) == (if neg then Neg(m.regs[r]) else m.regs[r])
    requires SetAlias(c, a, r, neg).Some?
    ensures var d := SetAlias(c, a, r, neg).value;
      && At(d, m0, m') && Entries(d, m', R, -1) && OtherHeld(d, m', R, a) && Lookup(d, a) != NoVal
      && d.flagsLive == c.flagsLive && d.movbe == c.movbe && m'.marks == m.marks
      && (c.flagsLive ==> m'.fl == m.fl)
      && (forall i | 0 <= i < 11 :: c.regs[i].pinned ==> d.regs[i].pinned && m'.regs[i] == m.regs[i])
      && (c.pend && c.pendAddr == a ==> m' == m && d.pend && d.pendAddr == a)
      && (!c.pend ==> m' == m && !d.pend)
      && (c.pend && c.pendAddr != a ==> MemKept(c, m, d, m', R))
  {
    hide Rd, Wr, Run, EvictAlias, FreeAlias, Lookup;
    m' := m;
    DropEntries(c, m, R, a);
    DropLookup(c, a, c.pendAddr);
    var e := CacheDrop(c, a);
    var k := FreeAlias(e.aliases, 0);
    if k == 16 {
      hide CacheDrop;
      m' := EvictAliasOk(e, a, r, neg, m0, m, R);
    } else {
      AliasLookup(e, a, r, neg, k, e.pendAddr);
    }
  }

  /** All aliases are in use: one is forgotten. */
  lemma EvictAliasOk(e: Jit, a: word, r: Reg, neg: bool, m0: Machine, m: Machine, R: Mem) returns (m': Machine)
    requires At(e, m0, m) && Entries(e, m, R, -1) && OtherHeld(e, m, R, a) && e.regs[r].pinned && Cacheable(a)
    requires forall i | 0 <= i < 16 :: e.aliases[i].used && e.aliases[i].addr != a
    requires Rd(R, a) == (if neg then Neg(m.regs[r]) else m.regs[r])
    requires EvictAlias(e, a, r, neg).Some?
    ensures var d := EvictAlias(e, a, r, neg).value;
      && At(d, m0, m') && Entries(d, m', R, -1) && OtherHeld(d, m', R, a) && Lookup(d, a) != NoVal
      && d.flagsLive == e.flagsLive && d.movbe == e.movbe && m'.marks == m.marks
      && (e.flagsLive ==> m'.fl == m.fl)
      && (forall i | 0 <= i < 11 :: e.regs[i].pinned ==> d.regs[i].pinned && m'.regs[i] == m.regs[i])
      && (e.pend && e.pendAddr == a ==> m' == m && d.pend && d.pendAddr == a)
      && (!e.pend ==> m' == m && !d.pend)
      && (e.pend && e.pendAddr != a ==> MemKept(e, m, d, m', R))
  {
    hide Rd, Wr, Run, FlushPending, Lookup;
    m' := m;
    var i := e.aliasNext % 16;
    var f := e.(aliasNext := e.aliasNext + 1);
    FreeLookup(e, f, e.pendAddr);
    var g := f;
    if f.pend && f.pendAddr == f.aliases[i].addr {
      m' := FlushOk(f, m0, m, R);
      g := FlushPending(f).value;
    }
    AliasLookup(g, a, r, neg, i, g.pendAddr);
  }

  lemma AliasLookup(c: Jit, a: word, r: Reg, neg: bool, i: nat, b: word)
    requires i < 16 && Cacheable(a)
    ensures var d := c.(aliases := c.aliases[i := CAlias(true, a, r, neg)]);
      && Lookup(d, a) != NoVal
      && (Lookup(c, b) != NoVal && (c.aliases[i].used ==> c.aliases[i].addr != b) ==> Lookup(d, b) != NoVal)
  {
    hide FindReg, FindConst, FindAlias;
    var d := c.(aliases := c.aliases[i := CAlias(true, a, r, neg)]);
    assert d.aliases[i].used && d.aliases[i].addr == a;
    var l := FindAlias(c.aliases, b, 0);
    if l < 16 && l != i {
      assert d.aliases[l] == c.aliases[l];
    }
  }

  lemma ShiftedOk(c: Jit, v: CVal, left: bool, n: nat, m0: Machine, m: Machine, R: Mem, x: word) returns (m': Machine)
    requires Good(c, m0, m, R) && !c.flagsLive && Denotes(v, m, x) && Pinned(c, v) && Shifted(c, v, left, n).Some?
    ensures var (w, c') := Shifted(c, v, left, n).value;
      && Good(c', m0, m', R) && Keeps(c, m, c', m') && MemKept(c, m, c', m', R)
      && Denotes(w, m', if left then Shl(x, n) else Shr(x, n)) && Fresh(c', w)
      && (w.InReg? ==> !c.regs[w.r].pinned)
  {
    hide Rd, Wr, Run, Lookup, Good, ToReg, Scratch, Shl, Shr;
    if v.Const? {
      m' := m;
    } else {
      var m1 := ToRegOk(c, v, m0, m, R, x);
      var (s, c1) := ToReg(c, v).value;
      m' := ShiftCopy(c1, s, left, n, m0, m1, R, x);
    }
  }

  lemma ShiftCopy(c: Jit, s: Reg, left: bool, n: nat, m0: Machine, m: Machine, R: Mem, x: word) returns (m': Machine)
    requires Good(c, m0, m, R) && !c.flagsLive && m.regs[s] == x && c.regs[s].pinned && Scratch(c).Some?
    ensures var (r, c2) := Scratch(c).value;
      var c' := Emit(Emit(c2, MovRR(r, s)), if left then ShlRI(r, n) else ShrRI(r, n));
      && Good(c', m0, m', R) && Keeps(c, m, c', m') && MemKept(c, m, c', m', R)
      && m'.regs[r] == (if left then Shl(x, n) else Shr(x, n)) && Free(c', r) && c'.regs[r].pinned && !c.regs[r].pinned
  {
    hide Rd, Wr, Run, Lookup, Good, Scratch, Shl, Shr;
    var m2 := ScratchOk(c, m0, m, R);
    var (r, c2) := Scratch(c).value;
    var m3 := Set(m2, r, x);
    EmitFree(c2, MovRR(r, s), m0, m2, R, r, m3);
    var y := if left then Shl(x, n) else Shr(x, n);
    m' := SetF(m3, r, y, TestFlags(y));
    EmitFree(Emit(c2, MovRR(r, s)), if left then ShlRI(r, n) else ShrRI(r, n), m0, m3, R, r, m');
  }

  lemma OrValOk(c: Jit, r: Reg, v: CVal, m0: Machine, m: Machine, R: Mem, x: word) returns (m': Machine)
    requires Good(c, m0, m, R) && !c.flagsLive && Free(c, r) && c.regs[r].pinned
    requires Denotes(v, m, x) && Pinned(c, v) && OrVal(c, r, v).Some?
    ensures var c' := OrVal(c, r, v).value;
      && Good(c', m0, m', R) && MemKept(c, m, c', m', R) && Keeps(c, Set(m, r, Or(m.regs[r], x)), c', m')
  {
    hide Rd, Wr, Run, Lookup, Good, ToReg, OrN;
    if v == Const(0) {
      m' := m;
      OrZero(m.regs[r]);
      assert Set(m, r, m.regs[r]) == m;
    } else {
      var m1 := ToRegOk(c, v, m0, m, R, x);
      var (t, c1) := ToReg(c, v).value;
      var y := Or(m.regs[r], x);
      m' := SetF(m1, r, y, TestFlags(y));
      assert Free(c1, r);
      EmitFree(c1, OrRR(r, t), m0, m1, R, r, m');
      PinGood(Emit(c1, OrRR(r, t)), m0, m', R, t);
    }
  }

  /** A load that does not cover the held-back word sees R. */
  lemma LoadSeesR(c: Jit, m: Machine, R: Mem, a: word)
    requires HeldOk(c, m, R) && (!c.pend ==> m.mem == R) && a + 16 <= TWO64
    requires c.pend ==> c.pendAddr != a
    requires c.pend && a % 8 != 0 ==> c.pendAddr != Low(a) && c.pendAddr != High(a)
    ensures Rd(m.mem, a) == Rd(R, a)
  {
    hide Rd, Wr, Lookup;
    if c.pend {
      RdWrOther(m.mem, c.pendAddr, Rd(R, c.pendAddr), a);
    }
  }

  lemma LoadUncachedOk(c: Jit, a: word, m0: Machine, m: Machine, R: Mem) returns (m': Machine)
    requires Whole(c, m0, m, R) && a + 16 <= TWO64 && Lookup(c, a) == NoVal && LoadUncached(c, a).Some?
    ensures var (v, c') := LoadUncached(c, a).value;
      && Whole(c', m0, m', R) && Keeps(c, m, c', m') && LogKept(c, m, c', m', R)
      && Denotes(v, m', Rd(R, a)) && Pinned(c', v)
  {
    hide Rd, Wr, Run, Lookup, FlushPending, Scratch, LoadStatic, Bind, At, Entries;
    m' := m;
    var c1 := c;
    if c.pend && a % 8 != 0 && (c.pendAddr == Low(a) || c.pendAddr == High(a)) {
      m' := FlushOk(c, m0, m, R);
      c1 := FlushPending(c).value;
    }
    var m2 := ScratchOk(c1, m0, m', R);
    var (r, c2) := Scratch(c1).value;
    LoadSeesR(c2, m2, R, a);
    m' := LoadStaticOk(c2, r, a, m0, m2, R);
    LoadUncachedBind(LoadStatic(c2, r, a), r, a, m0, m', R);
  }

  lemma LoadUncachedBind(c: Jit, r: Reg, a: word, m0: Machine, m: Machine, R: Mem)
    requires Whole(c, m0, m, R) && Free(c, r) && m.regs[r] == Rd(R, a) && (c.pend ==> c.pendAddr != a)
    ensures var d := Bind(c, r, a); Whole(d, m0, m, R) && SameRest(c, d)
    ensures FewerUses(c, Bind(c, r, a), r)
  {
    hide Rd, Wr, Run, Lookup;
    if Cacheable(a) {
      hide Bind;
      WeakerEntries(c, m, R, a);
      BindOk(c, r, a, m0, m, R);
    }
  }

  lemma WeakerEntries(c: Jit, m: Machine, R: Mem, a: int)
    requires Entries(c, m, R, -1)
    ensures Entries(c, m, R, a)
  {
    hide Rd;
  }

  lemma SameWhole(c: Jit, d: Jit, m0: Machine, m: Machine, R: Mem)
    requires Whole(c, m0, m, R) && SameButLru(c, d)
    ensures Whole(d, m0, m, R)
  {
    hide Rd, Wr, Run, Good;
    SameGood(c, d, m0, m, R);
  }

  lemma GetWordOk(c: Jit, a: word, m0: Machine, m: Machine, R: Mem) returns (m': Machine)
    requires Whole(c, m0, m, R) && a + 16 <= TWO64 && GetWord(c, a).Some?
    ensures var (v, c') := GetWord(c, a).value;
      && Whole(c', m0, m', R) && Keeps(c, m, c', m') && LogKept(c, m, c', m', R)
      && Denotes(v, m', Rd(R, a)) && Pinned(c', v)
  {
    hide Rd, Wr, Run, Lookup, LoadUncached, Entries, At, HeldOk;
    var (v, c1) := CacheFind(c, a);
    TouchOk(c, v);
    SameWhole(c, c1, m0, m, R);
    SameLookup(c, c1, a);
    if v != NoVal {
      m' := m;
      LookupOk(c, m, R, -1, a);
      PinValOk(c1, v, m0, m, R);
    } else {
      m' := LoadUncachedOk(c1, a, m0, m, R);
    }
  }

  lemma PinValOk(c: Jit, v: CVal, m0: Machine, m: Machine, R: Mem)
    requires Good(c, m0, m, R)
    ensures Good(PinVal(c, v), m0, m, R) && Pinned(PinVal(c, v), v)
    ensures forall a :: Lookup(PinVal(c, v), a) == Lookup(c, a)
  {
    hide Rd, Wr, Run, Lookup, Good;
    if v.InReg? || v.NegReg? {
      PinGood(c, m0, m, R, v.r);
      forall a: word
        ensures Lookup(Pin(c, v.r), a) == Lookup(c, a)
      {
        PinLookup(c, v.r, a);
      }
    }
  }

  lemma CombineOk(c: Jit, lo: CVal, hi: CVal, k: nat, m0: Machine, m: Machine, R: Mem, x: word, y: word) returns (m': Machine)
    requires Whole(c, m0, m, R) && !c.flagsLive && k <= 64 && lo != NoVal && hi != NoVal
    requires Denotes(lo, m, x) && Pinned(c, lo) && Denotes(hi, m, y) && Pinned(c, hi) && Combine(c, lo, hi, k).Some?
    ensures var (v, c') := Combine(c, lo, hi, k).value;
      && Whole(c', m0, m', R) && Keeps(c, m, c', m') && LogKept(c, m, c', m', R)
      && Denotes(v, m', Or(Shl(x, k), Shr(y, 64 - k))) && Pinned(c', v)
  {
    hide Rd, Wr, Run, Lookup, Good, Shifted, OrVal, Shl, Shr, Or;
    var m1 := ShiftedOk(c, lo, true, k, m0, m, R, x);
    var (v, c1) := Shifted(c, lo, true, k).value;
    var m2 := ShiftedOk(c1, hi, false, 64 - k, m0, m1, R, y);
    var (h, c2) := Shifted(c1, hi, false, 64 - k).value;
    if v.Const? && h.Const? {
      m' := m2;
    } else if v.Const? {
      m' := OrValOk(c2, h.r, v, m0, m2, R, v.v);
      OrSwap(Shl(x, k), Shr(y, 64 - k));
    } else {
      m' := OrValOk(c2, v.r, h, m0, m2, R, Shr(y, 64 - k));
    }
  }

  lemma OrSwap(x: word, y: word)
    ensures Or(x, y) == Or(y, x)
  {
    OrComm(x, y);
  }

  /** The value of the word at a, aligned or not, as the interpreter reads it. */
  lemma GetStaticOk(c: Jit, a: word, m0: Machine, m: Machine, R: Mem) returns (m': Machine)
    requires Whole(c, m0, m, R) && !c.flagsLive && a + 16 <= TWO64 && GetStatic(c, a).Some?
    ensures var (v, c') := GetStatic(c, a).value;
      && Whole(c', m0, m', R) && Keeps(c, m, c', m') && LogKept(c, m, c', m', R)
      && Denotes(v, m', Rd(R, a)) && Pinned(c', v)
    decreases a % 8 != 0, 0
  {
    hide Rd, Wr, Run, Lookup, LoadUncached, GetWord, Good, Combine, CacheFind, PinVal, Keeps, Pinned, Denotes, GetStatic;
    UnfoldGetStatic(c, a);
    if Spans(a) {
      var (vl, c1) := CacheFind(c, Low(a));
      var (vh, c2) := CacheFind(c1, High(a));
      FindPair(c, a, m0, m, R);
      if vl == NoVal && vh == NoVal {
        UnalignedUncached(c2, a);
        m' := LoadUncachedOk(c2, a, m0, m, R);
        KeepsTrans(c, m, c2, m, LoadUncached(c2, a).value.1, m');
      } else {
        m' := SpannedOk(c, PinVal(PinVal(c2, vl), vh), vl, vh, a, m0, m, R);
      }
    } else {
      m' := GetWordOk(c, a, m0, m, R);
    }
  }

  lemma UnfoldGetStatic(c: Jit, a: word)
    ensures GetStatic(c, a) ==
      if Spans(a) then
        var (vl, c1) := CacheFind(c, Low(a));
        var (vh, c2) := CacheFind(c1, High(a));
        if vl == NoVal && vh == NoVal then LoadUncached(c2, a)
        else
          var c3 := PinVal(PinVal(c2, vl), vh);
          var (lo, c4) :- if vl == NoVal then GetStatic(c3, Low(a)) else Some((vl, c3));
          var (hi, c5) :- if vh == NoVal then GetStatic(c4, High(a)) else Some((vh, c4));
          Combine(c5, lo, hi, Offset(a))
      else GetWord(c, a)
  {
    hide LoadUncached, GetWord, Combine, CacheFind, PinVal;
  }

  lemma KeepsTrans(c: Jit, m: Machine, c1: Jit, m1: Machine, c2: Jit, m2: Machine)
    requires Keeps(c, m, c1, m1) && Keeps(c1, m1, c2, m2)
    ensures Keeps(c, m, c2, m2)
  {
    hide Free;
  }

  /** The two words an unaligned one spans, looked up and pinned. */
  lemma FindPair(c: Jit, a: word, m0: Machine, m: Machine, R: Mem)
    requires Whole(c, m0, m, R)
    ensures
      var (vl, c1) := CacheFind(c, Low(a));
      var (vh, c2) := CacheFind(c1, High(a));
      var c3 := PinVal(PinVal(c2, vl), vh);
      && Whole(c2, m0, m, R) && Keeps(c, m, c2, m) && Whole(c3, m0, m, R) && Keeps(c, m, c3, m)
      && LogKept(c, m, c2, m, R) && LogKept(c, m, c3, m, R)
      && c3.flagsLive == c.flagsLive
      && (vl != NoVal ==> Denotes(vl, m, Rd(R, Low(a))) && Pinned(c3, vl))
      && (vh != NoVal ==> Denotes(vh, m, Rd(R, High(a))) && Pinned(c3, vh))
  {
    hide Rd, Wr, Run, Good, CacheFind, PinVal, Keeps, Denotes;
    var (vl, c1) := CacheFind(c, Low(a));
    CacheFindOk(c, Low(a), m0, m, R);
    var (vh, c2) := CacheFind(c1, High(a));
    CacheFindOk(c1, High(a), m0, m, R);
    KeepsTrans(c, m, c1, m, c2, m);
    var c3 := PinVal(c2, vl);
    PinValOk(c2, vl, m0, m, R);
    PinValKeeps(c2, vl, m, vl);
    KeepsTrans(c, m, c2, m, c3, m);
    var c4 := PinVal(c3, vh);
    PinValOk(c3, vh, m0, m, R);
    PinValKeeps(c3, vh, m, vl);
    KeepsTrans(c, m, c3, m, c4, m);
  }

  lemma CacheFindOk(c: Jit, a: word, m0: Machine, m: Machine, R: Mem)
    requires Good(c, m0, m, R)
    ensures var (v, d) := CacheFind(c, a);
      && v == Lookup(c, a) && Good(d, m0, m, R) && Keeps(c, m, d, m) && d.pend == c.pend && d.pendAddr == c.pendAddr
      && d.flagsLive == c.flagsLive && d.code == c.code
      && (v != NoVal ==> Denotes(v, m, Rd(R, a)))
      && forall b :: Lookup(d, b) == Lookup(c, b)
  {
    hide Rd, Wr, Run, Lookup;
    var (v, d) := CacheFind(c, a);
    TouchOk(c, v);
    SameGood(c, d, m0, m, R);
    GoodLookup(c, m0, m, R, a);
    forall b: word
      ensures Lookup(d, b) == Lookup(c, b)
    {
      SameLookup(c, d, b);
    }
  }

  lemma PinValKeeps(c: Jit, v: CVal, m: Machine, w: CVal)
    ensures Keeps(c, m, PinVal(c, v), m) && (Pinned(c, w) ==> Pinned(PinVal(c, v), w))
    ensures var d := PinVal(c, v); d.pend == c.pend && d.pendAddr == c.pendAddr && d.flagsLive == c.flagsLive && d.code == c.code
  {
  }

  lemma GoodLookup(c: Jit, m0: Machine, m: Machine, R: Mem, a: word)
    requires Good(c, m0, m, R)
    ensures Lookup(c, a) != NoVal ==> Denotes(Lookup(c, a), m, Rd(R, a))
  {
    hide Rd, Lookup, Run;
    LookupOk(c, m, R, -1, a);
  }

  lemma UnalignedUncached(c: Jit, a: word)
    requires a % 8 != 0
    ensures Lookup(c, a) == NoVal
  {
  }

  lemma SpannedOk(b: Jit, c: Jit, vl: CVal, vh: CVal, a: word, m0: Machine, m: Machine, R: Mem) returns (m': Machine)
    requires Whole(c, m0, m, R) && !c.flagsLive && a % 8 != 0 && a + 16 <= TWO64 && Keeps(b, m, c, m) && LogKept(b, m, c, m, R)
    requires vl != NoVal ==> Denotes(vl, m, Rd(R, Low(a))) && Pinned(c, vl)
    requires vh != NoVal ==> Denotes(vh, m, Rd(R, High(a))) && Pinned(c, vh)
    requires vl == NoVal ==> GetStatic(c, Low(a)).Some?
    requires var (lo, c4) := if vl == NoVal then GetStatic(c, Low(a)).value else (vl, c);
      (vh == NoVal ==> GetStatic(c4, High(a)).Some?) &&
      var (hi, c5) := if vh == NoVal then GetStatic(c4, High(a)).value else (vh, c4);
      Combine(c5, lo, hi, Offset(a)).Some?
    ensures var (lo, c4) := if vl == NoVal then GetStatic(c, Low(a)).value else (vl, c);
      var (hi, c5) := if vh == NoVal then GetStatic(c4, High(a)).value else (vh, c4);
      var (v, c') := Combine(c5, lo, hi, Offset(a)).value;
      && Whole(c', m0, m', R) && Keeps(b, m, c', m') && LogKept(b, m, c', m', R)
      && Denotes(v, m', Rd(R, a)) && Pinned(c', v)
    decreases false, 1
  {
    hide Rd, Wr, Run, Lookup, GetStatic, Good, Combine, Denotes, Pinned, Keeps, Cacheable;
    var m1 := m;
    var (lo, c4) := if vl == NoVal then GetStatic(c, Low(a)).value else (vl, c);
    if vl == NoVal {
      m1 := GetStaticOk(c, Low(a), m0, m, R);
      KeepsRest(c, m, c4, m1);
      KeptVal(c, m, c4, m1, vh, Rd(R, High(a)));
      KeepsTrans(b, m, c, m, c4, m1);
    }
    var m2 := m1;
    var (hi, c5) := if vh == NoVal then GetStatic(c4, High(a)).value else (vh, c4);
    if vh == NoVal {
      m2 := GetStaticOk(c4, High(a), m0, m1, R);
      KeepsRest(c4, m1, c5, m2);
      KeptVal(c4, m1, c5, m2, lo, Rd(R, Low(a)));
      KeepsTrans(b, m, c4, m1, c5, m2);
    }
    m' := CombineOk(c5, lo, hi, Offset(a), m0, m2, R, Rd(R, Low(a)), Rd(R, High(a)));
    KeepsTrans(b, m, c5, m2, Combine(c5, lo, hi, Offset(a)).value.1, m');
    SplicedLoad(R, Low(a), a % 8);
  }

  lemma LowHalf(x: word)
    ensures And(x, 0xffff_ffff) == x % 0x1_0000_0000
  {
    hide AndN;
    assert Pow2(8) == 0x100;
    Pow2Add(8, 8);
    Pow2Add(16, 16);
    AndLow(x, 32);
  }

  lemma AndImm64Ok(c: Jit, r: Reg, mask: word, m0: Machine, m: Machine, R: Mem) returns (m': Machine)
    requires Good(c, m0, m, R) && !c.flagsLive && Free(c, r) && c.regs[r].pinned && AndImm64(c, r, mask).Some?
    ensures var c' := AndImm64(c, r, mask).value;
      && Good(c', m0, m', R) && MemKept(c, m, c', m', R) && Keeps(c, Set(m, r, And(m.regs[r], mask)), c', m')
  {
    hide Rd, Wr, Run, Lookup, Good, Scratch, And;
    var y := And(m.regs[r], mask);
    if Imm32(mask) {
      m' := SetF(m, r, y, TestFlags(y));
      EmitFree(c, AndImm(r, mask), m0, m, R, r, m');
    } else if mask == 0xffff_ffff {
      LowHalf(m.regs[r]);
      m' := Set(m, r, y);
      EmitFree(c, Mov32(r), m0, m, R, r, m');
    } else {
      var m1 := ScratchOk(c, m0, m, R);
      var (t, c1) := Scratch(c).value;
      var m2 := Set(m1, t, mask);
      EmitFree(c1, MovImm(t, mask), m0, m1, R, t, m2);
      m' := SetF(m2, r, y, TestFlags(y));
      assert Free(c1, r);
      var c2 := Emit(c1, MovImm(t, mask));
      EmitFree(c2, AndRR(r, t), m0, m2, R, r, m');
      PinGood(Emit(c2, AndRR(r, t)), m0, m', R, t);
    }
  }

  lemma MaskedOrOk(c: Jit, w: CVal, keep: word, part: CVal, m0: Machine, m: Machine, R: Mem, x: word, y: word) returns (m': Machine)
    requires Good(c, m0, m, R) && !c.flagsLive && Denotes(w, m, x) && Pinned(c, w)
    requires Denotes(part, m, y) && Fresh(c, part) && MaskedOr(c, w, keep, part).Some?
    ensures var (v, c') := MaskedOr(c, w, keep, part).value;
      && Good(c', m0, m', R) && Keeps(c, m, c', m') && MemKept(c, m, c', m', R)
      && Denotes(v, m', Or(And(x, keep), y)) && Fresh(c', v)
      && (v.InReg? && v != part ==> !c.regs[v.r].pinned)
  {
    hide Rd, Wr, Run, Lookup, Good, Scratch, ToReg, And, Or, AndImm64, OrVal;
    if w.Const? && part.Const? {
      m' := m;
    } else if w.Const? && And(w.v, keep) == 0 {
      m' := m;
      OrSwap(0, y);
      OrWithZero(y);
    } else if w.Const? {
      var m2 := ScratchOk(c, m0, m, R);
      var (r, c2) := Scratch(c).value;
      var m3 := Set(m2, r, And(x, keep));
      EmitFree(c2, MovImm(r, And(x, keep)), m0, m2, R, r, m3);
      m' := OrValOk(Emit(c2, MovImm(r, And(x, keep))), r, part, m0, m3, R, y);
    } else {
      var m1 := ToRegOk(c, w, m0, m, R, x);
      var (s, c1) := ToReg(c, w).value;
      m' := MaskedReg(c1, s, keep, part, m0, m1, R, x, y);
    }
  }

  lemma OrWithZero(y: word)
    ensures Or(y, 0) == y
  {
    OrZero(y);
  }

  lemma MaskedReg(c: Jit, s: Reg, keep: word, part: CVal, m0: Machine, m: Machine, R: Mem, x: word, y: word) returns (m': Machine)
    requires Good(c, m0, m, R) && !c.flagsLive && m.regs[s] == x && c.regs[s].pinned
    requires Denotes(part, m, y) && Pinned(c, part) && Scratch(c).Some?
    requires var (r, c2) := Scratch(c).value; AndImm64(Emit(c2, MovRR(r, s)), r, keep).Some?
    requires var (r, c2) := Scratch(c).value;
      (part.Const? || part.InReg?) && OrVal(AndImm64(Emit(c2, MovRR(r, s)), r, keep).value, r, part).Some?
    ensures var (r, c2) := Scratch(c).value;
      var c3 := AndImm64(Emit(c2, MovRR(r, s)), r, keep).value;
      var c' := OrVal(c3, r, part).value;
      && Good(c', m0, m', R) && Keeps(c, m, c', m') && MemKept(c, m, c', m', R)
      && m'.regs[r] == Or(And(x, keep), y) && Free(c', r) && c'.regs[r].pinned && !c.regs[r].pinned
  {
    hide Rd, Wr, Run, Lookup, Good, Scratch, And, Or, AndImm64, OrVal;
    var m2 := ScratchOk(c, m0, m, R);
    var (r, c2) := Scratch(c).value;
    var m3 := Set(m2, r, x);
    EmitFree(c2, MovRR(r, s), m0, m2, R, r, m3);
    var c3 := Emit(c2, MovRR(r, s));
    var m4 := AndImm64Ok(c3, r, keep, m0, m3, R);
    m' := OrValOk(AndImm64(c3, r, keep).value, r, part, m0, m4, R, y);
  }

  lemma Retarget(c: Jit, m: Machine, R: Mem, a: word, x: word)
    requires Entries(c, m, R, a) && a % 8 == 0
    ensures Entries(c, m, Wr(R, a, x), a)
  {
    hide Rd, Wr;
    forall b: word | b % 8 == 0 && b != a
      ensures Rd(Wr(R, a, x), b) == Rd(R, b)
    {
      RdWrOther(R, a, x, b);
    }
  }

  function Shift(v: word, left: bool, n: nat): word { if left then Shl(v, n) else Shr(v, n) }

  lemma UpdateWordOk(c: Jit, a: word, w: CVal, keep: word, v: CVal, left: bool, n: nat, m0: Machine, m: Machine, R: Mem, y: word)
    returns (m': Machine)
    requires Good(c, m0, m, R) && !c.pend && !c.flagsLive && Cacheable(a) && w != NoVal
    requires Denotes(w, m, Rd(R, a)) && Pinned(c, w) && Denotes(v, m, y) && Pinned(c, v)
    requires UpdateWord(c, a, w, keep, v, left, n).Some?
    ensures var c' := UpdateWord(c, a, w, keep, v, left, n).value;
      && Good(c', m0, m', Wr(R, a, Or(And(Rd(R, a), keep), Shift(y, left, n))))
      && Keeps(c, m, c', m') && !c'.pend && m'.mem == m.mem && m'.log == m.log
  {
    hide Rd, Wr, Run, Lookup, Good, Shl, Shr, And, Or, Shifted, MaskedOr, Recache, Entries;
    var z := Shift(y, left, n);
    var m1 := ShiftedOk(c, v, left, n, m0, m, R, y);
    var (part, c1) := Shifted(c, v, left, n).value;
    m' := MaskedOrOk(c1, w, keep, part, m0, m1, R, Rd(R, a), z);
    var (x, c2) := MaskedOr(c1, w, keep, part).value;
    RecacheOk(c2, a, x, m0, m', R, Or(And(Rd(R, a), keep), z));
  }

  lemma RecacheOk(c: Jit, a: word, v: CVal, m0: Machine, m: Machine, R: Mem, x: word)
    requires Good(c, m0, m, R) && !c.pend && Cacheable(a) && (v.Const? || v.InReg?) && Fresh(c, v) && Denotes(v, m, x)
    ensures var d := Recache(c, a, v);
      && Good(d, m0, m, Wr(R, a, x)) && SameRest(c, d)
      && FewerUses(c, d, if v.InReg? then v.r else -1)
  {
    hide Rd, Wr, Run, Lookup, SetConst, Bind;
    WeakerEntries(c, m, R, a);
    Retarget(c, m, R, a, x);
    RdWrSame(R, a, x);
    if v.Const? {
      SetConstOk(c, a, x, m0, m, Wr(R, a, x));
    } else {
      BindOk(c, v.r, a, m0, m, Wr(R, a, x));
    }
  }

  /** An unaligned store is the two stores of the words it spans. */
  lemma SpanIsTwo(R: Mem, a: word, v: word)
    requires a % 8 != 0 && a + 16 <= TWO64
    ensures var S := Wr(R, a, v); S == Wr(Wr(R, Low(a), Rd(S, Low(a))), High(a), Rd(S, High(a)))
  {
    hide Rd, Encode;
    var S := Wr(R, a, v);
    var lo, hi := Low(a), High(a);
    var T := Wr(Wr(R, lo, Rd(S, lo)), hi, Rd(S, hi));
    WrRd(S, lo);
    WrRd(S, hi);
    assert S[lo..lo + 8] == Encode(Rd(S, lo)) by { WrAt(S, lo, Rd(S, lo)); }
    assert S[hi..hi + 8] == Encode(Rd(S, hi)) by { WrAt(S, hi, Rd(S, hi)); }
    forall i | 0 <= i < |S|
      ensures S[i] == T[i]
    {
      if lo <= i < lo + 8 {
        assert S[i] == S[lo..lo + 8][i - lo];
      } else if hi <= i < hi + 8 {
        assert S[i] == S[hi..hi + 8][i - hi];
      }
    }
  }

  lemma WrAt(m: Mem, a: word, v: word)
    ensures Wr(m, a, v)[a..a + 8] == Encode(v)
  {
    hide Encode;
  }

  lemma UnpinAllOk(c: Jit, m0: Machine, m: Machine, R: Mem)
    requires Good(c, m0, m, R)
    ensures var d := UnpinAll(c);
      && Good(d, m0, m, R) && d == c.(regs := d.regs)
      && (forall i: Reg :: Free(c, i) ==> Free(d, i))
      && forall b :: Lookup(d, b) == Lookup(c, b)
  {
    hide Rd, Wr, Run, FindConst, FindAlias, FindReg;
    forall b: word
      ensures Lookup(UnpinAll(c), b) == Lookup(c, b)
    {
      FindRegSame(c.regs, UnpinAll(c).regs, b, 0);
    }
  }

  /** The words an unaligned store spans, looked up and pinned with its value. */
  lemma SpannedStart(c: Jit, a: word, v: CVal, m0: Machine, m: Machine, R: Mem)
    requires Good(c, m0, m, R)
    ensures
      var c1 := PinVal(UnpinAll(c), v);
      var (lv, c2) := CacheFind(c1, Low(a));
      var (hv, c3) := CacheFind(c2, High(a));
      var c4 := PinVal(PinVal(c3, lv), hv);
      && Good(c4, m0, m, R) && c4.pend == c.pend && c4.flagsLive == c.flagsLive && c4.movbe == c.movbe
      && Pinned(c4, v) && Pinned(c4, lv) && Pinned(c4, hv)
      && lv == Lookup(c4, Low(a)) && hv == Lookup(c4, High(a))
      && (lv != NoVal ==> Denotes(lv, m, Rd(R, Low(a))))
      && (hv != NoVal ==> Denotes(hv, m, Rd(R, High(a))))
  {
    hide Rd, Wr, Run, Good, Lookup, UnpinAll, PinVal, CacheFind, Keeps, Denotes, Pinned;
    var c0 := UnpinAll(c);
    UnpinAllOk(c, m0, m, R);
    var c1 := PinVal(c0, v);
    PinValOk(c0, v, m0, m, R);
    PinValMore(c0, v, v);
    var (lv, c2) := CacheFind(c1, Low(a));
    CacheFindOk(c1, Low(a), m0, m, R);
    FindPinned(c1, Low(a), v);
    var (hv, c3) := CacheFind(c2, High(a));
    CacheFindOk(c2, High(a), m0, m, R);
    FindPinned(c2, High(a), v);
    var c4 := PinVal(c3, lv);
    PinValOk(c3, lv, m0, m, R);
    PinValMore(c3, lv, v);
    PinValOk(c4, hv, m0, m, R);
    PinValMore(c4, hv, v);
    PinValMore(c4, hv, lv);
  }

  lemma PinValMore(c: Jit, v: CVal, w: CVal)
    ensures var d := PinVal(c, v);
      && (Pinned(c, w) ==> Pinned(d, w))
      && d.pend == c.pend && d.flagsLive == c.flagsLive && d.movbe == c.movbe
  {
  }

  lemma FindPinned(c: Jit, a: word, w: CVal)
    ensures var d := CacheFind(c, a).1; (Pinned(c, w) ==> Pinned(d, w)) && d.movbe == c.movbe
  {
    hide Lookup;
  }

  /** A word that is not cached can change under the cache. */
  lemma Uncached(c: Jit, m0: Machine, m: Machine, R: Mem, a: word, x: word)
    requires Good(c, m0, m, R) && !c.pend && Cacheable(a) && Lookup(c, a) == NoVal
    ensures Good(c, m0, m, Wr(R, a, x))
  {
    hide Rd, Wr, Run, FindConst, FindAlias, FindReg;
    WeakerEntries(c, m, R, a);
    Retarget(c, m, R, a, x);
  }

  lemma KeptVal(c: Jit, m: Machine, c': Jit, m': Machine, v: CVal, x: word)
    requires Keeps(c, m, c', m')
    ensures Pinned(c, v) ==> Pinned(c', v) && (Denotes(v, m, x) ==> Denotes(v, m', x))
  {
  }

  lemma NothingToUpdate(v: CVal)
    requires v != NoVal
    ensures forall c, a, keep, left, n :: UpdateWord(c, a, NoVal, keep, v, left, n) == Some(c)
  {
  }

  lemma KeepsRest(c: Jit, m: Machine, c': Jit, m': Machine)
    requires Keeps(c, m, c', m')
    ensures c'.movbe == c.movbe && c'.flagsLive == c.flagsLive && m'.marks == m.marks
  {
  }

  /** After an unaligned store, the cache is right for the memory it left. */
  lemma UpdateSpannedOk(c: Jit, a: word, v: CVal, m0: Machine, m: Machine, R: Mem, y: word) returns (m': Machine)
    requires Good(c, m0, m, R) && !c.pend && !c.flagsLive && Spans(a) && a + 16 <= TWO64
    requires v != NoVal && Denotes(v, m, y) && m.mem == Wr(R, a, y) && UpdateSpanned(c, a, v).Some?
    ensures var c' := UpdateSpanned(c, a, v).value;
      Whole(c', m0, m', Wr(R, a, y)) && !c'.pend && !c'.flagsLive && c'.movbe == c.movbe && m'.marks == m.marks && m'.log == m.log
  {
    hide Rd, Wr, Run, Lookup, Good, Shl, Shr, And, Or, UpdateWord, CacheFind, PinVal, UnpinAll, Keeps, Denotes, Pinned, Not;
    var lo, hi, k := Low(a), High(a), Offset(a);
    var c1 := PinVal(UnpinAll(c), v);
    SpannedStart(c, a, v, m0, m, R);
    NothingToUpdate(v);
    var (lv, c2) := CacheFind(c1, lo);
    var (hv, c3) := CacheFind(c2, hi);
    var c4 := PinVal(PinVal(c3, lv), hv);
    var S := Wr(R, a, y);
    SplicedStore(R, lo, a % 8, y);
    SpanIsTwo(R, a, y);
    WrWrSwap(R, lo, Rd(S, lo), hi, Rd(S, hi));
    RdWrOther(R, lo, Rd(S, lo), hi);
    RdWrOther(R, hi, Rd(S, hi), lo);
    // words that are not cached can be taken as updated already
    var R0 := R;
    if lv == NoVal {
      Uncached(c4, m0, m, R, lo, Rd(S, lo));
      R0 := Wr(R, lo, Rd(S, lo));
    }
    if hv == NoVal {
      Uncached(c4, m0, m, R0, hi, Rd(S, hi));
      R0 := Wr(R0, hi, Rd(S, hi));
    }
    m' := m;
    var c5 := c4;
    if lv != NoVal {
      m' := UpdateWordOk(c4, lo, lv, Not(Shr(TWO64 - 1, k)), v, false, k, m0, m, R0, y);
      c5 := UpdateWord(c4, lo, lv, Not(Shr(TWO64 - 1, k)), v, false, k).value;
      R0 := Wr(R0, lo, Rd(S, lo));
      KeepsRest(c4, m, c5, m');
      KeptVal(c4, m, c5, m', v, y);
      KeptVal(c4, m, c5, m', hv, Rd(R, hi));
    }
    if hv != NoVal {
      var m1 := m';
      m' := UpdateWordOk(c5, hi, hv, Shr(TWO64 - 1, k), v, true, 64 - k, m0, m1, R0, y);
      KeepsRest(c5, m1, UpdateWord(c5, hi, hv, Shr(TWO64 - 1, k), v, true, 64 - k).value, m');
    }
  }
}
