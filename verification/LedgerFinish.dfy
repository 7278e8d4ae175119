/** The store of the result, and with it the whole instruction and the block:
    translated exactly if the ledger adds up. */
module LedgerFinish {
  import opened Options
  import opened Words
  import opened Memory
  import opened X86
  import opened RegCache
  import opened CacheProofs
  import opened Operands
  import O = OperandProofs
  import opened Insn
  import opened OneEntry
  import R = Room
  import opened Ledger
  import opened LedgerProofs
  import opened LedgerOperands
  import opened LedgerSpanned
  import opened LedgerInsn

  // ---------------------------------------------- what is held on to stays

  predicate Safe(L: Ledger, r: Reg) { r !in L.gone && r !in L.line }

  lemma TakeFreeSafe(L: Ledger, r: Reg)
    requires Safe(L, r) && TakeFree(L).Some?
    ensures Safe(TakeFree(L).value, r)
  {
  }

  lemma StoresSafe(z: Jit, L: Ledger, far: bool, r: Reg)
    requires Safe(L, r)
    ensures Stores(z, L, far).Some? ==> Safe(Stores(z, L, far).value, r)
  {
    hide Safe, TakeFree;
    if far && TakeFree(L).Some? {
      TakeFreeSafe(L, r);
      if !z.movbe && TakeFree(TakeFree(L).value).Some? {
        TakeFreeSafe(TakeFree(L).value, r);
      }
    } else if !far && !z.movbe && TakeFree(L).Some? {
      TakeFreeSafe(L, r);
    }
  }

  lemma StoresValueSafe(L: Ledger, x: word, far: bool, near: bool, r: Reg)
    requires Safe(L, r)
    ensures StoresValue(L, x, far, near).Some? ==> Safe(StoresValue(L, x, far, near).value, r)
  {
    hide Safe, TakeFree, Bswap;
    if TakeFree(L).Some? {
      TakeFreeSafe(L, r);
      if far && TakeFree(TakeFree(L).value).Some? {
        TakeFreeSafe(TakeFree(L).value, r);
      }
    }
  }

  lemma KeepSafe(L: Ledger, w: Where, r: Reg)
    requires Safe(L, r)
    ensures Safe(Keep(L, w), r)
  {
    if w.At? || w.Minus? {
      WithoutIs(L.line, w.r);
    }
  }

  lemma FlushedSafe(z: Jit, L: Ledger, r: Reg)
    requires Safe(L, r)
    ensures Flushed(z, L).Some? ==> Safe(Flushed(z, L).value, r)
  {
    hide Stores, StoresValue, TakeFree, Look, Keep;
    if L.held {
      var far, L0, w := !FitsDisp(z.pendAddr), L.(held := false), Look(z, L, z.pendAddr);
      KeepSafe(L0, w, r);
      match w
      case Value(x) => StoresValueSafe(L0, x, far, true, r);
      case Taken => StoresSafe(z, L0, far, r);
      case At(_) => StoresSafe(z, Keep(L0, w), far, r);
      case Minus(_) =>
        if TakeFree(Keep(L0, w)).Some? {
          TakeFreeSafe(Keep(L0, w), r);
          StoresSafe(z, TakeFree(Keep(L0, w)).value, far, r);
        }
      case _ =>
    }
  }

  lemma TouchedSafe(z: Jit, L: Ledger, r: Reg)
    requires Safe(L, r)
    ensures Safe(Touched(z, L), r)
  {
    hide Look;
    var w := Look(z, L, z.pendAddr);
    if w.At? || w.Minus? {
      WithoutIs(L.line, w.r);
    }
  }

  lemma TakeSafe(z: Jit, L: Ledger, r: Reg)
    requires Safe(L, r)
    ensures Take(z, L).Some? ==> Safe(Take(z, L).value, r)
  {
    hide Look, Touched, Flushed;
    if L.free > 0 {
      TouchedSafe(z, L.(free := L.free - 1), r);
    } else if L.line != [] {
      TouchedSafe(z, L.(line := L.line[1..]), r);
      FlushedSafe(z, L.(line := L.line[1..]), r);
      TouchedGot(z, L.(line := L.line[1..]));
    }
  }

  lemma InOneSafe(z: Jit, L: Ledger, w: Where, r: Reg)
    requires Safe(L, r)
    ensures InOne(z, L, w).Some? ==> Safe(InOne(z, L, w).value.1, r)
  {
    hide Take, Safe, Keep;
    KeepSafe(L, w, r);
    TakeSafe(z, Keep(L, w), r);
  }

  /** The word at a is still where it was found. */
  predicate StillThere(z: Jit, L: Ledger, w: Where, a: word) {
    w.At? || w.Minus? ==> Look(z, L, a) == w && Safe(L, w.r)
  }

  lemma WordStill(z: Jit, L: Ledger, a: word)
    requires Word(z, L, a).Some?
    ensures StillThere(z, Word(z, L, a).value.1, Word(z, L, a).value.0, a)
  {
    hide Lookup, Loaded;
    var w := Look(z, L, a);
    if w.At? || w.Minus? {
      WithoutIs(L.line, w.r);
      LookLine(z, L, Without(L.line, w.r), a);
    }
  }

  lemma StillLater(z: Jit, L: Ledger, L1: Ledger, w: Where, a: word)
    requires StillThere(z, L, w, a) && L1.got == L.got && (w.At? || w.Minus? ==> Safe(L1, w.r))
    ensures StillThere(z, L1, w, a)
  {
    hide Lookup;
  }

  lemma InOneStill(z: Jit, L: Ledger, v: Where, w: Where, a: word)
    requires StillThere(z, L, w, a) && InOne(z, L, v).Some?
    ensures StillThere(z, InOne(z, L, v).value.1, w, a)
  {
    hide InOne, Look;
    InOneGot(z, L, v);
    if w.At? || w.Minus? {
      InOneSafe(z, L, v, w.r);
    }
    StillLater(z, L, InOne(z, L, v).value.1, w, a);
  }

  lemma ForCStill(z: Jit, L: Ledger, s: Source, f: Field, w: Where, a: word)
    requires StillThere(z, L, w, a) && ForC(z, L, s, f).Some?
    ensures StillThere(z, ForC(z, L, s, f).value, w, a)
  {
    hide InOne, Take, StillThere;
    if f.Dynamic? {
      if f.v != NoVal {
        InOneStill(z, L, Seen(f.v), w, a);
      } else {
        TakeStill(z, L, w, a);
      }
    }
  }

  lemma TakeStill(z: Jit, L: Ledger, w: Where, a: word)
    requires StillThere(z, L, w, a) && Take(z, L).Some?
    ensures StillThere(z, Take(z, L).value, w, a)
  {
    hide Take, Look;
    TakeGot(z, L);
    if w.At? || w.Minus? {
      TakeSafe(z, L, w.r);
    }
    StillLater(z, L, Take(z, L).value, w, a);
  }

  /** B, where it is to stay as it is. */
  ghost predicate Staying(z: Jit, L: Ledger, c: Jit, v: CVal, w: Where, f: Field) {
    Pendable(f) ==> Has(c, v, w) && StillThere(z, L, w, f.val) && w != Negated && (w == Taken ==> Owns(c, v.r, f.val))
  }

  lemma StayingKept(z: Jit, L: Ledger, c: Jit, L1: Ledger, d: Jit, v: CVal, w: Where, f: Field)
    requires Staying(z, L, c, v, w, f) && PinSame(c, d) && (Pendable(f) ==> StillThere(z, L1, w, f.val))
    ensures Staying(z, L1, d, v, w, f)
  {
    hide PinSame, Owns, StillThere;
    if Pendable(f) {
      HasKept(c, d, v, w);
      if w == Taken {
        OwnsKept(c, d, v.r, f.val);
      }
    }
  }

  // ---------------------------------------------------- caching the result

  /** Good enough to go on from. */
  ghost predicate Going(c: Jit) { R.HeldCached(c) && LruOk(c) }

  lemma RepGoing(z: Jit, L: Ledger, c: Jit)
    requires Rep(z, L, c)
    ensures Going(c)
  {
    hide Lookup, Look, LruOk, IsLine, Stay, Single;
    LookAt(z, L, c, z.pendAddr);
  }

  /** An entry of a leaves its place free. */
  lemma DropFrees(c: Jit, a: word, i: nat)
    requires i < 16 && c.aliases[i].used && c.aliases[i].addr == a
    ensures FreeAlias(CacheDrop(c, a).aliases, 0) < 16
  {
    var d := CacheDrop(c, a);
    assert !d.aliases[i].used;
  }

  lemma AliasInPlace(c: Jit, a: word, r: Reg, neg: bool, i: nat)
    requires Going(c) && Cacheable(a) && i < 16 && c.aliases[i].used && c.aliases[i].addr == a
    ensures SetAlias(c, a, r, neg).Some? && var d := SetAlias(c, a, r, neg).value; Going(d) && d.pend == c.pend && d.pendAddr == c.pendAddr
  {
    hide Lookup, FreeAlias, CacheDrop, LruOk;
    DropFrees(c, a, i);
    var e := CacheDrop(c, a);
    R.DropKeepsPins(c, a);
    O.DropLookup(c, a, c.pendAddr);
    CachingInTime(c, a, NoVal);
    AliasOnly(c, a, r, neg);
    O.AliasLookup(e, a, r, neg, FreeAlias(e.aliases, 0), e.pendAddr);
  }

  lemma AliasOnly(c: Jit, a: word, r: Reg, neg: bool)
    requires FreeAlias(CacheDrop(c, a).aliases, 0) < 16 && InTime(c, CacheDrop(c, a))
    ensures SetAlias(c, a, r, neg).Some? && InTime(c, SetAlias(c, a, r, neg).value)
  {
    hide FreeAlias, CacheDrop;
  }

  /** What B is in stays an entry of its word, or becomes one. */
  lemma StayingCached(z: Jit, L: Ledger, c: Jit, v: CVal, w: Where, f: Field)
    requires Rep(z, L, c) && Staying(z, L, c, v, w, f) && Pendable(f) && !w.Value?
    ensures v != NoVal && CacheResult(c, f.val, v).Some? && Going(CacheResult(c, f.val, v).value)
  {
    hide Rep, Look, Lookup, FindReg, FindConst, FindAlias, SetAlias, Bind, Going, Aliased;
    RepGoing(z, L, c);
    LookAt(z, L, c, f.val);
    var a := f.val;
    if w == Taken {
      BindGoing(c, v.r, a);
    } else {
      Found(c, a);
      if w.At? && c.regs[v.r].used && c.regs[v.r].addr == a {
        BindGoing(c, v.r, a);
      } else {
        var i :| 0 <= i < 16 && c.aliases[i] == CAlias(true, a, v.r, w.Minus?);
        AliasInPlace(c, a, v.r, w.Minus?, i);
        if w.At? && !c.regs[v.r].used {
          BindGoing(c, v.r, a);
        }
      }
    }
  }

  lemma BindGoing(c: Jit, r: Reg, a: word)
    requires Going(c) && Cacheable(a) && (c.regs[r].used ==> c.regs[r].addr == a)
    ensures Going(Bind(c, r, a))
  {
    hide Lookup, Bind, LruOk;
    CachingInTime(c, a, CVal.InReg(r));
    O.BindLookup(c, r, a, c.pendAddr);
    R.BindPend(c, r, a);
  }

  // ----------------------------------------------------- storing the result

  lemma StoreNowSim(z: Jit, L: Ledger, c: Jit, v: CVal, w: Where, f: Field, rb: Reg)
    requires Rep(z, L, c) && Has(c, v, w)
    ensures v != NoVal && (StoredNow(z, L, w, f).Some? <==> StoreNow(c, v, f, rb).Some?)
    ensures StoredNow(z, L, w, f).Some? ==> var d := StoreNow(c, v, f, rb).value.1; LruOk(d) && !d.pend
  {
    hide Rep, PinSame, InOne, ToReg, Flushed, FlushPending, Stores, StoresValue, StoreReg, StoreConst, LruSame, LruOk, Moves;
    var dst := if f.Known? then Abs(f.val) else Ind(rb);
    var far := f.Known? && !FitsDisp(f.val);
    HasSome(c, v, w);
    FlushSim(z, L, c);
    if Flushed(z, L).Some? {
      var L1, c1 := Flushed(z, L).value, FlushPending(c).value;
      HasKept(c, c1, v, w);
      if v.Const? {
        StoresValueSim(z, L1, c1, v.v, dst);
        if StoresValue(L1, v.v, far, f.Known?).Some? {
          RepEnds(z, StoresValue(L1, v.v, far, f.Known?).value, StoreConst(c1, v.v, dst).value);
        }
      } else {
        InRegSim(z, L1, c1, v, w);
        InOneHeld(z, L1, w);
        if InOne(z, L1, w).Some? {
          var L2 := InOne(z, L1, w).value.1;
          var (r, c2) := ToReg(c1, v).value;
          MovesRep(z, L1, c1, L2, c2);
          StoresSim(z, L2, c2, r, dst);
          if Stores(z, L2, far).Some? {
            RepEnds(z, Stores(z, L2, far).value, StoreReg(c2, r, dst).value);
          }
        }
      }
    }
  }

  lemma InOneHeld(z: Jit, L: Ledger, w: Where)
    requires !L.held
    ensures InOne(z, L, w).Some? ==> !InOne(z, L, w).value.1.held
  {
    hide Take;
    TakeGot(z, Keep(L, w));
  }

  lemma RepEnds(z: Jit, L: Ledger, c: Jit)
    requires Rep(z, L, c) && !L.held
    ensures LruOk(c) && !c.pend
  {
    hide LruOk, IsLine, Looks, Stay, Single;
  }

  lemma StoreResultSim(z: Jit, L: Ledger, c: Jit, x: Result, w: Where, f: Field, rb: Reg)
    requires Rep(z, L, c) && Has(c, x.res, w) && (x.kept ==> !w.Value? && Staying(z, L, c, x.res, w, f))
    ensures x.res != NoVal && (Finished(z, L, w, x.kept, f).Some? <==> StoreResult(c, x, f, rb).Some?)
    ensures Finished(z, L, w, x.kept, f).Some? ==>
      var (v, d) := StoreResult(c, x, f, rb).value; Going(d) && (!Pendable(f) && !x.kept ==> !d.pend && (v.Const? || v.InReg?))
  {
    hide Rep, PinSame, Flushed, FlushPending, StoredNow, StoreNow, CacheResult, CacheDrop, CacheDropAll, Going, Staying;
    HasSome(c, x.res, w);
    if Pendable(f) {
      if x.kept {
        StayingCached(z, L, c, x.res, w, f);
      } else {
        PendSim(z, L, c, x.res, f);
      }
    } else if x.kept {
      RepGoing(z, L, c);
    } else {
      StoreNowSim(z, L, c, x.res, w, f, rb);
      if StoredNow(z, L, w, f).Some? {
        var c1 := StoreNow(c, x.res, f, rb).value.1;
        DropGoing(c1, if f.Known? then f.val else 0);
      }
    }
  }

  lemma DropGoing(c: Jit, a: word)
    requires LruOk(c) && !c.pend
    ensures Going(c) && Going(CacheDropAll(c)) && Going(CacheDrop(CacheDrop(c, Low(a)), High(a)))
    ensures !CacheDropAll(c).pend && !CacheDrop(CacheDrop(c, Low(a)), High(a)).pend
  {
    CachingInTime(c, Low(a), NoVal);
    CachingInTime(CacheDrop(c, Low(a)), High(a), NoVal);
    R.DropPend(c, a);
  }

  /** A result held back: in place of the store of the same word, or after the
      one held back before. */
  lemma PendSim(z: Jit, L: Ledger, c: Jit, v: CVal, f: Field)
    requires Rep(z, L, c) && v != NoVal && Pendable(f)
    ensures var first := L.held && z.pendAddr != f.val;
      var o := if first then Flushed(z, L) else Some(L);
      && (first <==> c.pend && c.pendAddr != f.val) && (o.Some? <==> (if first then FlushPending(c) else Some(c)).Some?)
      && (o.Some? ==>
            var c1 := (if first then FlushPending(c) else Some(c)).value;
            CacheResult(c1, f.val, v).Some? && Going(CacheResult(c1, f.val, v).value.(pend := true, pendAddr := f.val)))
  {
    hide Rep, PinSame, Flushed, FlushPending, CacheResult, Lookup, LruOk;
    RepPend(z, L, c);
    RepLru2(z, L, c);
    FlushSim(z, L, c);
    var first := L.held && z.pendAddr != f.val;
    if !first || Flushed(z, L).Some? {
      var c1 := if first then FlushPending(c).value else c;
      if first {
        RepEnds(z, Flushed(z, L).value, c1);
      }
      CacheResultSame(c1, f.val, v);
      var d := CacheResult(c1, f.val, v).value;
      FreeLookup(d, d.(pend := true, pendAddr := f.val), f.val);
      assert LruOk(d.(pend := true, pendAddr := f.val)) by { SameLru(d, d.(pend := true, pendAddr := f.val)); }
    }
  }

  lemma SameLru(c: Jit, d: Jit)
    requires d.regs == c.regs && d.clock == c.clock
    ensures LruOk(c) <==> LruOk(d)
  {
  }

  lemma RepLru2(z: Jit, L: Ledger, c: Jit)
    requires Rep(z, L, c)
    ensures LruOk(c)
  {
    hide LruOk, IsLine, Looks, Stay, Single;
  }

  lemma BranchGoing(b: Build, s: Source, f: Fields, taken: Option<bool>, rc: Reg)
    requires Going(b.c)
    ensures Going(BranchOut(b, s, f, taken, rc).1.c) && BranchOut(b, s, f, taken, rc).1.c.pend == b.c.pend
  {
    hide Lookup;
    R.BranchHeld(b, s, f, taken, rc);
  }

  lemma ConcludeSim(z: Jit, L: Ledger, b: Build, s: Source, f: Fields, rb: Reg, x: Result, w: Where, rc: Reg)
    requires Rep(z, L, b.c) && Has(b.c, x.res, w) && (x.kept ==> !w.Value? && Staying(z, L, b.c, x.res, w, f.b))
    ensures x.res != NoVal && (Finished(z, L, w, x.kept, f.b).Some? <==> Conclude(b, s, f, rb, x, rc).Some?)
    ensures Finished(z, L, w, x.kept, f.b).Some? ==> Going(Conclude(b, s, f, rb, x, rc).value.1.c)
  {
    hide Rep, PinSame, Finished, StoreResult, BranchOut, UpdateSpanned, Going, Staying, Cacheable, LruSame;
    var c1 := b.c.(flagsLive := Branches(s, f) && x.taken == None);
    RepSame(z, L, b.c, c1);
    HasKept(b.c, c1, x.res, w);
    if x.kept && Pendable(f.b) {
      StillHeld(z, L, b.c, x.res, w, f.b);
    }
    if x.kept {
      StayingKept(z, L, b.c, L, c1, x.res, w, f.b);
    }
    StoreResultSim(z, L, c1, x, w, f.b, rb);
    if Finished(z, L, w, x.kept, f.b).Some? {
      var (res, c2) := StoreResult(c1, x, f.b, rb).value;
      GoingSame(c2, c2.(flagsLive := false));
      BranchGoing(b.(c := c2.(flagsLive := false)), s, f, x.taken, rc);
      var (ended, d) := BranchOut(b.(c := c2.(flagsLive := false)), s, f, x.taken, rc);
      if f.b.Known? && Spans(f.b.val) && !x.kept && !ended {
        assert !Pendable(f.b) by { SpansNot(f.b); }
        SpannedEnough(d.c, f.b.val, res);
        SpannedGoing(d.c, f.b.val, res);
      }
    }
  }

  lemma SpansNot(f: Field)
    requires f.Known? && Spans(f.val)
    ensures !Pendable(f)
  {
  }

  lemma SpannedGoing(c: Jit, a: word, v: CVal)
    requires Going(c) && v != NoVal && UpdateSpanned(c, a, v).Some?
    requires !UpdateSpanned(c, a, v).value.pend && InTime(c, UpdateSpanned(c, a, v).value)
    ensures Going(UpdateSpanned(c, a, v).value)
  {
    hide UpdateSpanned;
  }

  lemma StillHeld(z: Jit, L: Ledger, c: Jit, v: CVal, w: Where, f: Field)
    requires Staying(z, L, c, v, w, f) && Pendable(f)
    ensures StillThere(z, L, w, f.val)
  {
  }

  lemma GoingSame(c: Jit, d: Jit)
    requires Going(c) && d == c.(flagsLive := d.flagsLive)
    ensures Going(d)
  {
    hide Lookup;
    FreeLookup(c, d, c.pendAddr);
  }
}
