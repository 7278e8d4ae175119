/** The ledger follows each operand. */
module LedgerOperands {
  import opened Options
  import opened Words
  import opened Bits
  import opened Memory
  import opened X86
  import opened RegCache
  import opened CacheProofs
  import opened Operands
  import opened Insn
  import opened OneEntry
  import opened Ledger
  import opened LedgerProofs

  /** The value v, held on to, is where w says. */
  ghost predicate Has(c: Jit, v: CVal, w: Where) {
    match w
    case Nowhere => false
    case Value(x) => v == CVal.Const(x)
    case At(r) => v == CVal.InReg(r) && c.regs[r].pinned
    case Minus(r) => v == CVal.NegReg(r) && c.regs[r].pinned
    case Taken => v.InReg? && c.regs[v.r].pinned
    case Negated => v.NegReg? && c.regs[v.r].pinned
  }

  lemma HasKept(c: Jit, d: Jit, v: CVal, w: Where)
    requires Has(c, v, w) && PinSame(c, d)
    ensures Has(d, v, w)
  {
    hide Aliased;
  }

  /** A step that has brought the cache from c to d, the ledger from L to L1. */
  ghost predicate Moves(z: Jit, L: Ledger, c: Jit, L1: Ledger, d: Jit) {
    Rep(z, L1, d) && PinSame(c, d)
  }

  lemma EmitMoves(z: Jit, L: Ledger, c: Jit, L1: Ledger, d: Jit, e: Jit)
    requires Moves(z, L, c, L1, d) && SameTables(d, e)
    ensures Moves(z, L, c, L1, e) && PinSame(d, e)
  {
    hide Rep, PinSame;
    RepSame(z, L1, d, e);
    PinSameTrans(c, d, e);
  }

  lemma MovesTrans(z: Jit, L: Ledger, c: Jit, L1: Ledger, d: Jit, L2: Ledger, e: Jit)
    requires Moves(z, L, c, L1, d) && Moves(z, L1, d, L2, e)
    ensures Moves(z, L, c, L2, e)
  {
    hide Rep, PinSame;
    PinSameTrans(c, d, e);
  }

  lemma TakeMoves(z: Jit, L: Ledger, c: Jit)
    requires Rep(z, L, c)
    ensures Take(z, L).Some? <==> Scratch(c).Some?
    ensures Take(z, L).Some? ==>
      var (r, d) := Scratch(c).value; Moves(z, L, c, Take(z, L).value, d) && Fresh(d, r) && !c.regs[r].pinned
  {
    hide Rep, PinSame, Take, Scratch, Fresh;
    TakeSim(z, L, c);
  }

  /** What is held on to is not in the line. */
  lemma KeepPinned(z: Jit, L: Ledger, c: Jit, v: CVal, w: Where)
    requires Rep(z, L, c) && Has(c, v, w)
    ensures Keep(L, w) == L
  {
    hide Lookup, Look;
    if w.At? || w.Minus? {
      RepLine(z, L, c, w.r);
      WithoutIs(L.line, w.r);
    }
  }

  lemma InRegSim(z: Jit, L: Ledger, c: Jit, v: CVal, w: Where)
    requires Rep(z, L, c) && Has(c, v, w)
    ensures v != NoVal && (InOne(z, L, w).Some? <==> ToReg(c, v).Some?)
    ensures InOne(z, L, w).Some? ==>
      var (w1, L1) := InOne(z, L, w).value; var (r, d) := ToReg(c, v).value;
      && Moves(z, L, c, L1, d) && Has(d, CVal.InReg(r), w1) && (v.InReg? ==> d == c && r == v.r && L1 == L)
      && (!v.InReg? ==> Fresh(d, r) && w1 == Taken && !c.regs[r].pinned)
  {
    hide Rep, PinSame, Take, Scratch, Fresh, Keep, Negate;
    KeepPinned(z, L, c, v, w);
    PinSelf(c);
    if !v.InReg? {
      TakeMoves(z, L, c);
      if v.NegReg? {
        assert Pin(c, v.r) == c;
      }
      if Take(z, L).Some? {
        var (r, d) := Scratch(c).value;
        if v.NegReg? {
          var e := Negate(Emit(d, MovRR(r, v.r)), r);
          NegateTables(Emit(d, MovRR(r, v.r)), r);
          EmitMoves(z, L, c, Take(z, L).value, d, e);
          FreshKept(d, e, r);
          FreshHas(e, r);
        } else {
          var e := Emit(d, MovImm(r, v.v));
          EmitMoves(z, L, c, Take(z, L).value, d, e);
          FreshKept(d, e, r);
          FreshHas(e, r);
        }
      }
    }
  }

  lemma FreshHas(c: Jit, r: Reg)
    requires Fresh(c, r)
    ensures Has(c, CVal.InReg(r), Taken)
  {
    hide Aliased;
  }

  lemma ShiftSim(z: Jit, L: Ledger, c: Jit, v: CVal, w: Where, left: bool, n: nat)
    requires Rep(z, L, c) && Has(c, v, w)
    ensures v != NoVal && (Shift(z, L, w, left, n).Some? <==> Shifted(c, v, left, n).Some?)
    ensures Shift(z, L, w, left, n).Some? ==>
      var (w1, L1) := Shift(z, L, w, left, n).value; var (x, d) := Shifted(c, v, left, n).value;
      Moves(z, L, c, L1, d) && Has(d, x, w1) && (w1.Value? || (w1 == Taken && x.InReg? && Fresh(d, x.r)))
  {
    hide Rep, PinSame, Take, Scratch, Fresh, ToReg, Shl, Shr, InOne;
    PinSelf(c);
    if !v.Const? {
      InRegSim(z, L, c, v, w);
      if InOne(z, L, w).Some? {
        var (_, L1) := InOne(z, L, w).value;
        var (s, c1) := ToReg(c, v).value;
        TakeMoves(z, L1, c1);
        if Take(z, L1).Some? {
          var (r, c2) := Scratch(c1).value;
          MovesTrans(z, L, c, L1, c1, Take(z, L1).value, c2);
          var d := Emit(Emit(c2, MovRR(r, s)), if left then ShlRI(r, n) else ShrRI(r, n));
          EmitMoves(z, L, c, Take(z, L1).value, c2, d);
          FreshKept(c2, d, r);
          FreshHas(d, r);
        }
      }
    }
  }

  lemma OrsSim(z: Jit, L: Ledger, c: Jit, r: Reg, y: CVal, w: Where)
    requires Rep(z, L, c) && Has(c, y, w) && (w.Value? || w.Taken?)
    ensures Ors(z, L, w).Some? <==> OrVal(c, r, y).Some?
    ensures Ors(z, L, w).Some? ==> Moves(z, L, c, Ors(z, L, w).value, OrVal(c, r, y).value)
  {
    hide Rep, PinSame, Take, Scratch, Fresh, ToReg, InOne;
    PinSelf(c);
    if y != CVal.Const(0) {
      InRegSim(z, L, c, y, w);
      assert InOne(z, L, w).Some? <==> (w.Value? ==> Take(z, L).Some?) by { InRegIs(z, L, w); }
      if ToReg(c, y).Some? {
        var (t, c1) := ToReg(c, y).value;
        var L1 := InOne(z, L, w).value.1;
        var c2 := Emit(c1, OrRR(r, t));
        EmitMoves(z, L, c, L1, c1, c2);
        InRegIs(z, L, w);
        if !y.InReg? {
          FreshKept(c1, c2, t);
          GiveMoves(z, L, c, L1, c2, t);
        }
      }
    }
  }

  lemma InRegIs(z: Jit, L: Ledger, w: Where)
    requires w.Value? || w.Taken?
    ensures w.Value? ==> (InOne(z, L, w).Some? <==> Take(z, L).Some?)
    ensures w.Value? && Take(z, L).Some? ==> InOne(z, L, w).value.1 == Take(z, L).value
    ensures w.Taken? ==> InOne(z, L, w) == Some((w, L))
  {
    hide Take;
  }

  lemma GiveMoves(z: Jit, L: Ledger, c: Jit, L1: Ledger, d: Jit, t: Reg)
    requires Moves(z, L, c, L1, d) && Fresh(d, t) && !c.regs[t].pinned
    ensures Moves(z, L, c, Give(L1, 1), Unpin(d, t))
  {
    hide Rep, Aliased;
    GiveRep(z, L1, d, t);
    AliasedSame(d, Unpin(d, t));
  }

  lemma CombineSim(z: Jit, L: Ledger, c: Jit, lo: CVal, wl: Where, hi: CVal, wh: Where, k: nat)
    requires Rep(z, L, c) && Has(c, lo, wl) && Has(c, hi, wh) && k <= 64
    ensures lo != NoVal && hi != NoVal && (Combined(z, L, wl, wh, k).Some? <==> Combine(c, lo, hi, k).Some?)
    ensures Combined(z, L, wl, wh, k).Some? ==>
      var (w1, L1) := Combined(z, L, wl, wh, k).value; var (x, d) := Combine(c, lo, hi, k).value;
      Moves(z, L, c, L1, d) && Has(d, x, w1) && (w1.Value? || (w1 == Taken && x.InReg? && Fresh(d, x.r)))
  {
    hide Rep, PinSame, Fresh, Shift, Shifted, Ors, OrVal, Or;
    ShiftSim(z, L, c, lo, wl, true, k);
    HasSome(c, hi, wh);
    if Shift(z, L, wl, true, k).Some? {
      var (v, c1) := Shifted(c, lo, true, k).value;
      var (wv, L1) := Shift(z, L, wl, true, k).value;
      HasKept(c, c1, hi, wh);
      ShiftSim(z, L1, c1, hi, wh, false, 64 - k);
      if Shift(z, L1, wh, false, 64 - k).Some? {
        var (h, c2) := Shifted(c1, hi, false, 64 - k).value;
        var (wy, L2) := Shift(z, L1, wh, false, 64 - k).value;
        MovesTrans(z, L, c, L1, c1, L2, c2);
        HasKept(c1, c2, v, wv);
        if v.InReg? {
          FreshKept(c1, c2, v.r);
        }
        if !(v.Const? && h.Const?) {
          var (x, y) := if v.Const? then (h, v) else (v, h);
          OrsSim(z, L2, c2, x.r, y, if v.Const? then wv else wy);
          if OrVal(c2, x.r, y).Some? {
            var d := OrVal(c2, x.r, y).value;
            MovesTrans(z, L, c, L2, c2, Ors(z, L2, if v.Const? then wv else wy).value, d);
            FreshKept(c2, d, x.r);
            FreshHas(d, x.r);
          }
        }
      }
    }
  }

  lemma HasSome(c: Jit, v: CVal, w: Where)
    requires Has(c, v, w)
    ensures v != NoVal && (v.Const? <==> w.Value?) && (v.NegReg? <==> w.Minus? || w.Negated?)
  {
  }

  // -------------------------------------------------------------- loading

  /** Register r, pinned, with the word at a at most. */
  ghost predicate Owns(c: Jit, r: Reg, a: word) {
    c.regs[r].pinned && !Aliased(c, r) && (c.regs[r].used ==> c.regs[r].addr == a)
  }

  lemma OwnsKept(c: Jit, d: Jit, r: Reg, a: word)
    requires Owns(c, r, a) && PinSame(c, d)
    ensures Owns(d, r, a)
  {
    hide Aliased;
  }

  lemma BindRep(z: Jit, L: Ledger, c: Jit, r: Reg, a: word)
    requires Rep(z, L, c) && Fresh(c, r) && Lookup(c, a) == NoVal
    ensures Rep(z, if Cacheable(a) then L.(got := L.got + {a}) else L, Bind(c, r, a)) && Owns(Bind(c, r, a), r, a)
    ensures forall s: Reg | s != r :: Bind(c, r, a).regs[s] == c.regs[s] && Aliased(Bind(c, r, a), s) == Aliased(c, s)
  {
    hide Lookup, Look, Aliased, Before;
    var d, M := Bind(c, r, a), L.(got := L.got + {a});
    if Cacheable(a) {
      Found(c, a);
      NothingDropped(c, a);
      AliasedSame(c, d);
      assert Empties(d) == Empties(c);
      OrderSame(c, d, L.line);
      assert IsLine(d, L.line);
      BindSingle(c, r, a);
      forall b: word
        ensures Rel(d, b, Lookup(d, b), Look(z, M, b))
      {
        BindLook(c, r, a, b);
        GotLook(z, L, a, b);
        assert Rel(c, b, Lookup(c, b), Look(z, L, b));
      }
      GotLook(z, L, a, z.pendAddr);
    }
  }

  lemma NothingDropped(c: Jit, a: word)
    requires NoEntry(c, a) && forall i | 0 <= i < 16 :: !(c.aliases[i].used && c.aliases[i].addr == a)
    ensures CacheDrop(c, a) == c
  {
    var d := CacheDrop(c, a);
    assert d.regs == c.regs && d.consts == c.consts && d.aliases == c.aliases;
  }

  lemma GotLook(z: Jit, L: Ledger, a: word, b: word)
    ensures Look(z, L.(got := L.got + {a}), b) == if b == a then Taken else Look(z, L, b)
  {
    hide Lookup;
  }

  lemma BindLook(c: Jit, r: Reg, a: word, b: word)
    requires Single(c) && Fresh(c, r) && Cacheable(a) && CacheDrop(c, a) == c && Single(Bind(c, r, a))
    requires Lookup(c, a) == NoVal
    ensures Lookup(Bind(c, r, a), b) == if b == a then CVal.InReg(r) else Lookup(c, b)
  {
    hide FindReg, FindConst, FindAlias, Lookup, CacheDrop, Aliased;
    var d := Bind(c, r, a);
    RegEntry(d, r);
    Found(c, b);
    Found(d, b);
    assert forall s: Reg | c.regs[s].used :: s != r && d.regs[s] == c.regs[s];
    if b != a {
      match Lookup(d, b)
      case Const(x) =>
        var i :| 0 <= i < 16 && d.consts[i] == CConst(true, b, x);
        ConstEntry(c, i);
      case InReg(s) =>
        if d.regs[s].used && d.regs[s].addr == b {
          RegEntry(c, s);
        } else {
          var i :| 0 <= i < 16 && d.aliases[i] == CAlias(true, b, s, false);
          AliasEntry(c, i);
        }
      case NegReg(s) =>
        var i :| 0 <= i < 16 && d.aliases[i] == CAlias(true, b, s, true);
        AliasEntry(c, i);
      case NoVal =>
    }
  }

  lemma LoadTables(c: Jit, r: Reg, a: word)
    ensures SameTables(c, LoadStatic(c, r, a)) && forall src :: SameTables(c, LoadMem(c, r, src))
  {
  }

  lemma LoadedSim(z: Jit, L: Ledger, c: Jit, a: word)
    requires Rep(z, L, c) && Look(z, L, a) == Nowhere
    ensures Loaded(z, L, a).Some? <==> LoadUncached(c, a).Some?
    ensures Loaded(z, L, a).Some? ==>
      var (x, d) := LoadUncached(c, a).value; Moves(z, L, c, Loaded(z, L, a).value, d) && x.InReg? && Has(d, x, Taken) && Owns(d, x.r, a)
  {
    hide Rep, PinSame, Fresh, Take, Scratch, Flushed, FlushPending, LoadStatic, Look, Lookup, Bind;
    RepPend(z, L, c);
    PinSelf(c);
    var first := L.held && a % 8 != 0 && (z.pendAddr == Low(a) || z.pendAddr == High(a));
    if first {
      FlushSim(z, L, c);
    }
    if !first || Flushed(z, L).Some? {
      var L1 := if first then Flushed(z, L).value else L;
      var c1 := if first then FlushPending(c).value else c;
      TakeMoves(z, L1, c1);
      if Take(z, L1).Some? {
        var L2 := Take(z, L1).value;
        var (r, c2) := Scratch(c1).value;
        MovesTrans(z, L, c, L1, c1, L2, c2);
        var c3 := LoadStatic(c2, r, a);
        LoadTables(c2, r, a);
        EmitMoves(z, L, c, L2, c2, c3);
        FreshKept(c2, c3, r);
        StillNowhere(z, L, c, L1, c1, a, first);
        TakenNowhere(z, L1, L2, c3, a);
        BindRep(z, L2, c3, r, a);
        Unpinned(c, c1, r);
        BindMoves(z, L, c, c3, r, a);
      }
    }
  }

  lemma BindMoves(z: Jit, L: Ledger, c: Jit, d: Jit, r: Reg, a: word)
    requires PinSame(c, d) && !c.regs[r].pinned && Owns(Bind(d, r, a), r, a)
    requires forall s: Reg | s != r :: Bind(d, r, a).regs[s] == d.regs[s] && Aliased(Bind(d, r, a), s) == Aliased(d, s)
    ensures PinSame(c, Bind(d, r, a)) && Has(Bind(d, r, a), CVal.InReg(r), Taken)
  {
    hide Aliased, Bind;
  }

  /** A word that is nowhere stays so, but for being loaded. */
  lemma StillNowhere(z: Jit, L: Ledger, c: Jit, L1: Ledger, c1: Jit, a: word, first: bool)
    requires Rep(z, L, c) && Look(z, L, a) == Nowhere
    requires if first then Flushed(z, L) == Some(L1) else L1 == L
    ensures Look(z, L1, a) == Nowhere
  {
    hide Lookup, Stores, StoresValue;
    if first {
      FlushGone(z, L);
    }
  }

  lemma FlushGone(z: Jit, L: Ledger)
    ensures Flushed(z, L).Some? ==> L.gone <= Flushed(z, L).value.gone && Flushed(z, L).value.got == L.got
  {
    hide Look, Stores, StoresValue, Keep;
    if L.held {
      var far, L0, w := !FitsDisp(z.pendAddr), L.(held := false), Look(z, L, z.pendAddr);
      KeepGone(L0, w);
      match w
      case Value(x) => ValueGone(L0, x, far, true);
      case Taken => StoresGone(z, L0, far);
      case At(_) => StoresGone(z, Keep(L0, w), far);
      case Minus(_) =>
        if TakeFree(Keep(L0, w)).Some? {
          StoresGone(z, TakeFree(Keep(L0, w)).value, far);
        }
      case _ =>
    }
  }

  lemma KeepGone(L: Ledger, w: Where)
    ensures Keep(L, w).gone == L.gone && Keep(L, w).got == L.got
  {
  }

  lemma StoresGone(z: Jit, L: Ledger, far: bool)
    ensures Stores(z, L, far).Some? ==> L.gone <= Stores(z, L, far).value.gone && Stores(z, L, far).value.got == L.got
  {
  }

  lemma ValueGone(L: Ledger, x: word, far: bool, near: bool)
    ensures StoresValue(L, x, far, near).Some? ==>
      L.gone <= StoresValue(L, x, far, near).value.gone && StoresValue(L, x, far, near).value.got == L.got
  {
    hide Bswap;
  }

  lemma TakenNowhere(z: Jit, L: Ledger, L1: Ledger, c: Jit, a: word)
    requires Take(z, L) == Some(L1) && Look(z, L, a) == Nowhere && Rep(z, L1, c)
    ensures Look(z, L1, a) == Nowhere && Lookup(c, a) == NoVal
  {
    hide Lookup, Flushed, Touched, Rep;
    FlushGone(z, L.(line := if L.line == [] then [] else L.line[1..]));
    TouchedGot(z, L.(free := if L.free > 0 then L.free - 1 else 0));
    TouchedGot(z, L.(line := if L.line == [] then [] else L.line[1..]));
    LookAt(z, L1, c, a);
  }

  /** Register r has what it had when the instruction began. */
  ghost predicate AsBefore(z: Jit, c: Jit, r: Reg) {
    c.regs[r].used == z.regs[r].used && c.regs[r].addr == z.regs[r].addr && Aliased(c, r) == Aliased(z, r)
  }

  /** What finding an operand comes to. */
  ghost predicate Found1(z: Jit, L: Ledger, c: Jit, L1: Ledger, d: Jit, v: CVal, w: Where, a: word) {
    && Moves(z, L, c, L1, d) && Has(d, v, w) && w != Negated
    && (w == Taken ==> v.InReg? && Owns(d, v.r, a)) && (w.At? ==> AsBefore(z, d, w.r))
  }

  lemma WordSim(z: Jit, L: Ledger, c: Jit, a: word)
    requires Rep(z, L, c)
    ensures Word(z, L, a).Some? <==> GetWord(c, a).Some?
    ensures Word(z, L, a).Some? ==>
      var (w, L1) := Word(z, L, a).value; var (v, d) := GetWord(c, a).value; Found1(z, L, c, L1, d, v, w, a)
  {
    hide Rep, PinSame, Loaded, LoadUncached, Look, Lookup, Keep, Aliased;
    LookAt(z, L, c, a);
    if Lookup(c, a) != NoVal {
      FindPin(z, L, c, a);
      var v := Lookup(c, a);
      var d := PinVal(Touch(c, v), v);
      AliasedSame(c, d);
      if Look(z, L, a) == Taken {
        PinnedIn(c, d, v.r);
      }
      if Look(z, L, a).At? {
        StaysAt(z, L, c, a);
      }
    } else {
      assert Touch(c, NoVal) == c;
      LoadedSim(z, L, c, a);
    }
  }

  lemma StaysAt(z: Jit, L: Ledger, c: Jit, a: word)
    requires Rep(z, L, c) && Look(z, L, a).At?
    ensures AsBefore(z, c, Look(z, L, a).r)
  {
    hide Lookup, Aliased;
    FoundHeld(z, a, Look(z, L, a).r);
  }

  // ----------------------------------------- two words looked up together

  lemma {:induction false} WithoutSwap(s: seq<Reg>, a: Reg, b: Reg)
    ensures Without(Without(s, a), b) == Without(Without(s, b), a)
  {
    if s != [] {
      WithoutSwap(s[1..], a, b);
    }
  }

  function KeepVal(L: Ledger, v: CVal): Ledger {
    if v.InReg? || v.NegReg? then L.(line := Without(L.line, v.r)) else L
  }

  lemma PinValRep(z: Jit, L: Ledger, c: Jit, v: CVal)
    requires Rep(z, L, c) && (v.InReg? || v.NegReg? ==> !Empty(c, v.r))
    ensures Rep(z, KeepVal(L, v), PinVal(c, v)) && PinSame(c, PinVal(c, v))
  {
    hide Rep, PinSame, Aliased, LruSame;
    PinSelf(c);
    if v.InReg? || v.NegReg? {
      PinRep(z, L, c, v.r);
    }
  }

  lemma MovedKept(L: Ledger, v: CVal, u: CVal)
    ensures KeepVal(KeepVal(Moved(Moved(L, v), u), v), u) == KeepVal(KeepVal(L, v), u)
  {
    if v.InReg? || v.NegReg? {
      WithoutMoved(L.line, v.r);
      WithoutIs(L.line, v.r);
    }
    if u.InReg? || u.NegReg? {
      var l := Moved(L, v).line;
      WithoutMoved(l, u.r);
      WithoutIs(l, u.r);
      if v.InReg? || v.NegReg? {
        WithoutSwap(Moved(Moved(L, v), u).line, v.r, u.r);
        WithoutSwap(l, v.r, u.r);
        WithoutSwap(L.line, v.r, u.r);
      }
    }
  }

  /** What the ledger does for a value is what is done for its register. */
  lemma KeepIs(z: Jit, L: Ledger, c: Jit, M: Ledger, a: word)
    requires Rep(z, L, c) && (forall r: Reg | r in M.line :: r in L.line)
    ensures KeepVal(M, Lookup(c, a)) == Keep(M, Look(z, L, a))
  {
    hide Lookup, Look;
    LookAt(z, L, c, a);
    var v := Lookup(c, a);
    if v.InReg? || v.NegReg? {
      RepLine(z, L, c, v.r);
      WithoutIs(M.line, v.r);
    }
  }

  lemma FindTwo(z: Jit, L: Ledger, c: Jit, a: word, b: word)
    requires Rep(z, L, c)
    ensures var va, vb := Lookup(c, a), Lookup(c, b); var d := PinVal(PinVal(Touch(Touch(c, va), vb), va), vb);
      && Lookup(Touch(c, va), b) == vb
      && Moves(z, L, c, Keep(Keep(L, Look(z, L, a)), Look(z, L, b)), d)
      && (va != NoVal ==> Has(d, va, Look(z, L, a))) && (vb != NoVal ==> Has(d, vb, Look(z, L, b)))
  {
    hide Rep, PinSame, Look, Lookup, Aliased, Touch, Moved;
    var va, vb := Lookup(c, a), Lookup(c, b);
    var c1 := Touch(c, va);
    TouchRep(z, L, c, a);
    TouchedEntries(c, va, b);
    TouchRep(z, Moved(L, va), c1, b);
    var c2 := Touch(c1, vb);
    PinSameTrans(c, c1, c2);
    Nonempty(c, a, c2) by { TouchedAll(c, va, c1); TouchedAll(c1, vb, c2); }
    Nonempty(c, b, c2) by { TouchedAll(c, va, c1); TouchedAll(c1, vb, c2); }
    var M := Moved(Moved(L, va), vb);
    PinValRep(z, M, c2, va);
    var c3 := PinVal(c2, va);
    PinSameTrans(c, c2, c3);
    PinnedNonempty(c2, va, vb);
    PinValRep(z, KeepVal(M, va), c3, vb);
    var d := PinVal(c3, vb);
    PinSameTrans(c, c3, d);
    MovedKept(L, va, vb);
    KeepIs(z, L, c, L, a);
    WithoutLine(L, va);
    KeepIs(z, L, c, KeepVal(L, va), b);
    LookAt(z, L, c, a);
    LookAt(z, L, c, b);
    PinsBoth(c2, va, vb);
  }

  lemma TouchedEntries(c: Jit, v: CVal, b: word)
    ensures Lookup(Touch(c, v), b) == Lookup(c, b)
  {
    hide Lookup;
    SameEntries2(c, Touch(c, v), b);
  }

  lemma TouchedAll(c: Jit, v: CVal, d: Jit)
    requires d == Touch(c, v)
    ensures forall r: Reg :: Empty(d, r) == Empty(c, r)
  {
    hide Aliased;
    AliasedSame(c, d);
  }

  lemma Nonempty(c: Jit, a: word, d: Jit)
    requires forall r: Reg :: Empty(d, r) == Empty(c, r)
    ensures var v := Lookup(c, a); v.InReg? || v.NegReg? ==> !Empty(d, v.r)
  {
    hide Lookup;
    var v := Lookup(c, a);
    if v.InReg? || v.NegReg? {
      FoundHeld(c, a, v.r);
    }
  }

  lemma PinnedNonempty(c: Jit, v: CVal, u: CVal)
    requires u.InReg? || u.NegReg? ==> !Empty(c, u.r)
    ensures u.InReg? || u.NegReg? ==> !Empty(PinVal(c, v), u.r)
  {
    hide Aliased;
    AliasedSame(c, PinVal(c, v));
  }

  lemma WithoutLine(L: Ledger, v: CVal)
    ensures forall r: Reg | r in KeepVal(L, v).line :: r in L.line
  {
    if v.InReg? || v.NegReg? {
      WithoutIs(L.line, v.r);
    }
  }

  lemma PinsBoth(c: Jit, v: CVal, u: CVal)
    ensures var d := PinVal(PinVal(c, v), u);
      && (v.InReg? || v.NegReg? ==> d.regs[v.r].pinned) && (u.InReg? || u.NegReg? ==> d.regs[u.r].pinned)
  {
  }

  lemma StaticSim(z: Jit, L: Ledger, c: Jit, a: word)
    requires Rep(z, L, c)
    ensures Static(z, L, a).Some? <==> GetStatic(c, a).Some?
    ensures Static(z, L, a).Some? ==>
      var (w, L1) := Static(z, L, a).value; var (v, d) := GetStatic(c, a).value; Found1(z, L, c, L1, d, v, w, a)
  {
    hide Rep, PinSame, Look, Lookup, Keep, Word, GetWord, LoadUncached, Loaded, Combined, Combine, Touch, PinVal, Moves;
    if !Spans(a) {
      WordSim(z, L, c, a);
    } else {
      var lo, hi := Look(z, L, Low(a)), Look(z, L, High(a));
      LookAt(z, L, c, Low(a));
      LookAt(z, L, c, High(a));
      FindTwo(z, L, c, Low(a), High(a));
      if lo == Nowhere && hi == Nowhere {
        assert Touch(c, NoVal) == c by { TouchNone(c); }
        Unaligned(z, L, c, a);
        LoadedSim(z, L, c, a);
      } else {
        SpannedSim(z, L, c, a);
      }
    }
  }

  lemma TouchNone(c: Jit)
    ensures Touch(c, NoVal) == c && PinVal(c, NoVal) == c
  {
  }

  lemma Unaligned(z: Jit, L: Ledger, c: Jit, a: word)
    requires Rep(z, L, c) && Spans(a)
    ensures Look(z, L, a) == Nowhere
  {
    hide Rep;
    LookAt(z, L, c, a);
    NotCached(c, a);
  }

  lemma NotCached(c: Jit, a: word)
    requires !Cacheable(a)
    ensures Lookup(c, a) == NoVal
  {
  }

  /** One of the two words, found before or loaded now. */
  lemma HalfSim(z: Jit, L: Ledger, c: Jit, a: word, v: CVal, w: Where)
    requires Rep(z, L, c) && a % 8 == 0 && (v == NoVal <==> w == Nowhere) && (v != NoVal ==> Has(c, v, w))
    ensures var o := if w == Nowhere then Word(z, L, a) else Some((w, L));
      var p := if v == NoVal then GetStatic(c, a) else Some((v, c));
      && (o.Some? <==> p.Some?)
      && (o.Some? ==> Moves(z, L, c, o.value.1, p.value.1) && Has(p.value.1, p.value.0, o.value.0))
  {
    hide Rep, PinSame, Word, GetWord, Lookup, Look;
    PinSelf(c);
    if w == Nowhere {
      WordSim(z, L, c, a);
    }
  }

  lemma SpannedSim(z: Jit, L: Ledger, c: Jit, a: word)
    requires Rep(z, L, c) && Spans(a) && !(Look(z, L, Low(a)) == Nowhere && Look(z, L, High(a)) == Nowhere)
    ensures Static(z, L, a).Some? <==> GetStatic(c, a).Some?
    ensures Static(z, L, a).Some? ==>
      var (w, L1) := Static(z, L, a).value; var (v, d) := GetStatic(c, a).value; Found1(z, L, c, L1, d, v, w, a)
  {
    hide Rep, PinSame, Look, Lookup, Keep, Word, GetWord, LoadUncached, Loaded, Combined, Combine, Touch, PinVal, Moves, Has;
    var lo, hi := Look(z, L, Low(a)), Look(z, L, High(a));
    var vl, vh := Lookup(c, Low(a)), Lookup(c, High(a));
    FindTwo(z, L, c, Low(a), High(a));
    Nothing(z, L, c, Low(a));
    Nothing(z, L, c, High(a));
    var c3 := PinVal(PinVal(Touch(Touch(c, vl), vh), vl), vh);
    var L1 := Keep(Keep(L, lo), hi);
    MovesRep(z, L, c, L1, c3);
    assert Low(a) % 8 == 0 && High(a) % 8 == 0 by { Halves(a); }
    HalfSim(z, L1, c3, Low(a), vl, lo);
    var o := if lo == Nowhere then Word(z, L1, Low(a)) else Some((lo, L1));
    var p := if vl == NoVal then GetStatic(c3, Low(a)) else Some((vl, c3));
    if o.Some? {
      var (lo1, L2) := o.value;
      var (l, c4) := p.value;
      MovesTrans(z, L, c, L1, c3, L2, c4);
      MovesRep(z, L1, c3, L2, c4);
      if vh != NoVal {
        HasKept(c3, c4, vh, hi);
      }
      HalfSim(z, L2, c4, High(a), vh, hi);
      var o2 := if hi == Nowhere then Word(z, L2, High(a)) else Some((hi, L2));
      var p2 := if vh == NoVal then GetStatic(c4, High(a)) else Some((vh, c4));
      if o2.Some? {
        var (hi1, L3) := o2.value;
        var (h, c5) := p2.value;
        MovesTrans(z, L, c, L2, c4, L3, c5);
        MovesRep(z, L2, c4, L3, c5);
        HasKept(c4, c5, l, lo1);
        CombineSim(z, L3, c5, l, lo1, h, hi1, Offset(a));
        assert GetStatic(c, a) == Combine(c5, l, h, Offset(a));
        assert Static(z, L, a) == Combined(z, L3, lo1, hi1, Offset(a));
        if Combined(z, L3, lo1, hi1, Offset(a)).Some? {
          var (w, L4) := Combined(z, L3, lo1, hi1, Offset(a)).value;
          var (x, d) := Combine(c5, l, h, Offset(a)).value;
          MovesTrans(z, L, c, L3, c5, L4, d);
          HasSome(d, x, w);
          if x.InReg? {
            FreshOwns(d, x.r, a);
          }
        }
      }
    }
  }

  lemma Halves(a: word)
    ensures Low(a) % 8 == 0 && (Spans(a) ==> High(a) % 8 == 0)
  {
  }

  lemma MovesRep(z: Jit, L: Ledger, c: Jit, L1: Ledger, d: Jit)
    requires Moves(z, L, c, L1, d)
    ensures Rep(z, L1, d) && PinSame(c, d)
  {
  }

  lemma Nothing(z: Jit, L: Ledger, c: Jit, a: word)
    requires Rep(z, L, c)
    ensures Look(z, L, a) == Nowhere <==> Lookup(c, a) == NoVal
  {
    hide Rep, Lookup, Look;
    LookAt(z, L, c, a);
  }

  lemma FreshOwns(c: Jit, r: Reg, a: word)
    requires Fresh(c, r)
    ensures Owns(c, r, a)
  {
  }

  // ------------------------------------------------------ the other operands

  lemma FieldInSim(z: Jit, L: Ledger, c: Jit, v: CVal, a: word, bind: bool)
    requires Rep(z, L, c) && (if v == NoVal then bind ==> Look(z, L, a) == Nowhere else Has(c, v, Seen(v)))
    ensures FieldIn(z, L, v, a, bind).Some? <==> FieldReg(c, v, a, bind).Some?
    ensures FieldIn(z, L, v, a, bind).Some? ==>
      var (w, L1) := FieldIn(z, L, v, a, bind).value; var (r, d) := FieldReg(c, v, a, bind).value;
      Moves(z, L, c, L1, d) && Has(d, CVal.InReg(r), w)
  {
    hide Rep, PinSame, Fresh, Take, Scratch, InOne, ToReg, LoadStatic, Look, Lookup, Bind;
    PinSelf(c);
    if v != NoVal {
      InRegSim(z, L, c, v, Seen(v));
    } else {
      TakeMoves(z, L, c);
      if Take(z, L).Some? {
        var L1 := Take(z, L).value;
        var (r, c1) := Scratch(c).value;
        var c2 := LoadStatic(c1, r, a);
        LoadTables(c1, r, a);
        EmitMoves(z, L, c, L1, c1, c2);
        FreshKept(c1, c2, r);
        if bind {
          TakenNowhere(z, L, L1, c2, a);
          BindRep(z, L1, c2, r, a);
          BindMoves(z, L, c, c2, r, a);
        } else {
          FreshHas(c2, r);
        }
      }
    }
  }

  lemma ThroughSim(z: Jit, L: Ledger, c: Jit, ra: Reg, a: word)
    requires Rep(z, L, c)
    ensures Through(z, L).Some? <==> LoadThrough(c, ra).Some?
    ensures Through(z, L).Some? ==>
      var (w, L1) := Through(z, L).value; var (v, d) := LoadThrough(c, ra).value; Found1(z, L, c, L1, d, v, w, a) && w == Taken && Fresh(d, v.r)
  {
    hide Rep, PinSame, Fresh, Take, Scratch, Flushed, FlushPending, LoadMem;
    FlushSim(z, L, c);
    if Flushed(z, L).Some? {
      var L1, c1 := Flushed(z, L).value, FlushPending(c).value;
      TakeMoves(z, L1, c1);
      if Take(z, L1).Some? {
        var (r, c2) := Scratch(c1).value;
        MovesTrans(z, L, c, L1, c1, Take(z, L1).value, c2);
        var d := LoadMem(c2, r, Ind(ra));
        LoadTables(c2, r, 0);
        EmitMoves(z, L, c, Take(z, L1).value, c2, d);
        FreshKept(c2, d, r);
        FreshHas(d, r);
        FreshOwns(d, r, a);
      }
    }
  }
}
