/** An instruction is translated exactly if its ledger adds up. */
module LedgerInsn {
  import opened Options
  import opened Words
  import opened Bits
  import opened Memory
  import opened X86
  import opened RegCache
  import opened CacheProofs
  import opened Operands
  import opened Insn
  import opened OneEntry
  import R = Room
  import opened Ledger
  import opened LedgerProofs
  import opened LedgerOperands
  import opened LedgerSpanned

  // ------------------------------------------------------- the beginning

  lemma BeforeTotal(c: Jit, r: Reg, s: Reg, t: Reg)
    ensures r != s ==> Before(c, r, s) || Before(c, s, r)
    ensures Before(c, r, s) && Before(c, s, t) ==> Before(c, r, t)
  {
  }

  ghost predicate Sorted(c: Jit, l: seq<Reg>) { forall i, j | 0 <= i < j < |l| :: Before(c, l[i], l[j]) }

  lemma {:induction false} InsertIs(c: Jit, s: seq<Reg>, r: Reg)
    requires Sorted(c, s) && r !in s
    ensures Sorted(c, Insert(c, s, r)) && |Insert(c, s, r)| == |s| + 1
    ensures forall x: Reg :: x in Insert(c, s, r) <==> x == r || x in s
    decreases |s|
  {
    hide Before;
    if s == [] {
    } else if Before(c, r, s[0]) {
      forall j | 0 <= j < |s|
        ensures Before(c, r, s[j])
      {
        BeforeTotal(c, r, s[0], s[j]);
      }
    } else {
      InsertIs(c, s[1..], r);
      var t := Insert(c, s[1..], r);
      BeforeTotal(c, r, s[0], r);
      assert s == [s[0]] + s[1..];
      forall j | 0 <= j < |t|
        ensures Before(c, s[0], t[j])
      {
        assert t[j] in t;
        if t[j] != r {
          assert t[j] in s[1..];
          var i :| 0 <= i < |s[1..]| && s[1..][i] == t[j];
          assert Before(c, s[0], s[i + 1]);
        }
      }
    }
  }

  function EmptyBelow(c: Jit, n: nat): set<Reg> { set r: Reg | 0 <= r < 11 && r < n && Empty(c, r) }

  lemma {:induction false} LineIs(c: Jit, n: nat)
    requires n <= 11
    ensures Sorted(c, Line(c, n)) && |Line(c, n)| + |EmptyBelow(c, n)| == n
    ensures forall r: Reg :: r in Line(c, n) <==> r < n && !Empty(c, r)
  {
    hide Before, Empty;
    if n == 0 {
      assert EmptyBelow(c, 0) == {};
    } else {
      LineIs(c, n - 1);
      if Empty(c, n - 1) {
        assert EmptyBelow(c, n) == EmptyBelow(c, n - 1) + {n - 1};
      } else {
        assert EmptyBelow(c, n) == EmptyBelow(c, n - 1);
        InsertIs(c, Line(c, n - 1), n - 1);
      }
    }
  }

  /** What an instruction's translation starts from. */
  ghost predicate Ready(c: Jit) { Single(c) && R.HeldCached(c) && LruOk(c) }

  lemma OpeningRep(c: Jit)
    requires Ready(c)
    ensures Rep(c, Opening(c), UnpinAll(c))
  {
    hide Lookup, Before, Aliased, Line;
    var d, L := UnpinAll(c), Opening(c);
    LineIs(c, 11);
    AliasedSame(c, d);
    assert Empties(d) == EmptyBelow(c, 11);
    OrderSame(c, d, L.line);
    assert IsLine(d, L.line);
    forall a: word
      ensures Rel(d, a, Lookup(d, a), Look(c, L, a))
    {
      SameEntries2(c, d, a);
    }
    SameFewer(c, d);
    FewerSingle(c, d);
  }

  // ---------------------------------------------------------- the fields

  ghost predicate Begun(L: Ledger) { L.gone == {} && L.got == {} }

  /** A field, if it is read at run time, is held on to when cached. */
  ghost predicate FieldHas(z: Jit, c: Jit, f: Field, a: word) {
    f.Dynamic? ==> f.v == Lookup(z, a) && !f.v.Const? && (f.v != NoVal ==> Has(c, f.v, Seen(f.v)))
  }

  lemma FieldHasKept(z: Jit, c: Jit, d: Jit, f: Field, a: word)
    requires FieldHas(z, c, f, a) && PinSame(c, d)
    ensures FieldHas(z, d, f, a)
  {
    hide PinSame, Lookup, Has;
    if f.Dynamic? && f.v != NoVal {
      HasKept(c, d, f.v, Seen(f.v));
    }
  }

  lemma ReadFieldSim(z: Jit, L: Ledger, c: Jit, a: word, dyn: bool, val: word)
    requires Rep(z, L, c) && Begun(L)
    ensures var (f, d) := ReadField(c, a, dyn, val);
      Moves(z, L, c, KeepField(L, f), d) && FieldHas(z, d, f, a) && Begun(KeepField(L, f)) && KeepField(L, f).held == L.held
  {
    hide Rep, PinSame, Lookup, LruSame;
    PinSelf(c);
    if dyn {
      FindPin(z, L, c, a);
      LookAt(z, L, c, a);
      var v := Lookup(c, a);
      if v.Const? || v == NoVal {
        assert Touch(c, v) == c;
      }
    }
  }

  lemma ReadFieldsSim(z: Jit, L: Ledger, c: Jit, s: Source)
    requires Rep(z, L, UnpinAll(c)) && Begun(L)
    ensures var (f, d) := ReadFields(c, s);
      && Rep(z, KeepFields(L, f), d) && Begun(KeepFields(L, f))
      && FieldHas(z, d, f.a, s.p) && FieldHas(z, d, f.b, Add(s.p, 8)) && FieldHas(z, d, f.c, Add(s.p, 16))
  {
    hide Rep, PinSame, ReadField, UnpinAll, FieldHas, KeepField;
    var c0 := UnpinAll(c);
    ReadFieldSim(z, L, c0, s.p, s.da, s.fa);
    var (a, c1) := ReadField(c0, s.p, s.da, s.fa);
    var L1 := KeepField(L, a);
    ReadFieldSim(z, L1, c1, Add(s.p, 8), s.db, s.fb);
    var (b, c2) := ReadField(c1, Add(s.p, 8), s.db, s.fb);
    var L2 := KeepField(L1, b);
    ReadFieldSim(z, L2, c2, Add(s.p, 16), s.dc, s.fc);
    var (e, c3) := ReadField(c2, Add(s.p, 16), s.dc, s.fc);
    FieldHasKept(z, c1, c2, a, s.p);
    FieldHasKept(z, c2, c3, a, s.p);
    FieldHasKept(z, c2, c3, b, Add(s.p, 8));
  }

  // ------------------------------------------------------- the store check

  lemma SnapSim(z: Jit, L: Ledger, c: Jit)
    requires Rep(z, L, c)
    ensures Moves(z, L, c, Touched(z, L), SnapPending(c).1)
  {
    hide Rep, PinSame, Lookup, Look, LruSame;
    RepPend(z, L, c);
    PinSelf(c);
    if c.pend {
      HeldTouched(z, L, c);
    }
  }

  lemma CheckWordSim(z: Jit, L: Ledger, b: Build, w: int, i: nat, k: Checks)
    requires Rep(z, L, b.c)
    ensures Moves(z, L, b.c, CheckedWord(z, L, w, k), CheckWord(b, w, i, k).c)
  {
    hide Rep, PinSame, Touched, SnapPending, LruSame;
    PinSelf(b.c);
    if !(w >= k.memWords || w in k.hoist) {
      SnapSim(z, L, b.c);
      EmitMoves(z, L, b.c, Touched(z, L), SnapPending(b.c).1, CheckWord(b, w, i, k).c);
    }
  }

  lemma CheckDynamicSim(z: Jit, L: Ledger, b: Build, rb: Reg, i: nat)
    requires Rep(z, L, b.c)
    ensures var o := match Take(z, L) { case None => None case Some(L1) =>
        match Take(z, L1) { case None => None case Some(L2) => Some(Give(Touched(z, L2), 2)) } };
      && (o.Some? <==> CheckDynamic(b, rb, i).Some?)
      && (o.Some? ==> Moves(z, L, b.c, o.value, CheckDynamic(b, rb, i).value.c))
  {
    hide Rep, PinSame, Touched, SnapPending, Take, Scratch, Fresh, LruSame;
    var c := b.c;
    TakeMoves(z, L, c);
    if Take(z, L).Some? {
      var L1 := Take(z, L).value;
      var (t1, c1) := Scratch(c).value;
      TakeMoves(z, L1, c1);
      if Take(z, L1).Some? {
        var L2 := Take(z, L1).value;
        var (t2, c2) := Scratch(c1).value;
        MovesTrans(z, L, c, L1, c1, L2, c2);
        var c3 := Emit(Emit(c2, MovRR(t1, rb)), ShrRI(t1, 12));
        EmitMoves(z, L, c, L2, c2, c3);
        SnapSim(z, L2, c3);
        var c4 := SnapPending(c3).1;
        MovesTrans(z, L, c, L2, c3, Touched(z, L2), c4);
        var c5 := Emit(c4, JmpPage(rb, t1, t2, Smc(|b.smcs|)));
        EmitMoves(z, L, c, Touched(z, L2), c4, c5);
        FreshKept(c1, c2, t1);
        FreshKept(c2, c3, t1);
        FreshKept(c3, c4, t1);
        FreshKept(c4, c5, t1);
        FreshKept(c2, c3, t2);
        FreshKept(c3, c4, t2);
        FreshKept(c4, c5, t2);
        Unpinned(c, c1, t2);
        assert t1 != t2 by { assert c1.regs[t1].pinned by { FreshPinned(c1, t1); } }
        GiveTwo(z, L, c, Touched(z, L2), c5, t1, t2);
      }
    }
  }

  lemma FreshPinned(c: Jit, r: Reg)
    requires Fresh(c, r)
    ensures c.regs[r].pinned
  {
  }

  lemma GiveTwo(z: Jit, L: Ledger, c: Jit, L1: Ledger, d: Jit, t: Reg, u: Reg)
    requires Moves(z, L, c, L1, d) && Fresh(d, t) && Fresh(d, u) && t != u && !c.regs[t].pinned && !c.regs[u].pinned
    ensures Moves(z, L, c, Give(L1, 2), Unpin(Unpin(d, t), u))
  {
    hide Rep, PinSame, Aliased;
    GiveMoves(z, L, c, L1, d, t);
    AliasedSame(d, Unpin(d, t));
    GiveMoves(z, L, c, Give(L1, 1), Unpin(d, t), u);
    assert Give(Give(L1, 1), 1) == Give(L1, 2);
  }

  lemma CheckStaticSim(z: Jit, L: Ledger, b: Build, s: Source, f: Field, k: Checks)
    requires Rep(z, L, b.c) && f.Known?
    ensures Checked(z, L, s, f, k).Some? && Moves(z, L, b.c, Checked(z, L, s, f, k).value, CheckStatic(b, f.val, s.i, k).c)
    ensures Checked(z, L, s, f, k).value.got == L.got
  {
    hide Rep, PinSame, Touched, CheckWord, CheckedWord;
    var w0, w1 := f.val / 8, Add(f.val, 7) / 8;
    CheckWordSim(z, L, b, w0, s.i, k);
    CheckedGot(z, L, w0, k);
    var L1, b1 := CheckedWord(z, L, w0, k), CheckWord(b, w0, s.i, k);
    if w1 > w0 {
      MovesRep(z, L, b.c, L1, b1.c);
      CheckWordSim(z, L1, b1, w1, s.i, k);
      CheckedGot(z, L1, w1, k);
      MovesTrans(z, L, b.c, L1, b1.c, CheckedWord(z, L1, w1, k), CheckWord(b1, w1, s.i, k).c);
    }
  }

  lemma CheckedGot(z: Jit, L: Ledger, w: int, k: Checks)
    ensures CheckedWord(z, L, w, k).got == L.got && CheckedWord(z, L, w, k).held == L.held
  {
    hide Touched;
    TouchedGot(z, L);
  }

  lemma CheckStoreSim(z: Jit, L: Ledger, b: Build, s: Source, f: Field, k: Checks)
    requires Rep(z, L, b.c) && Begun(L) && FieldHas(z, b.c, f, Add(s.p, 8))
    ensures Checked(z, L, s, f, k).Some? <==> CheckStore(b, s, f, k).Some?
    ensures Checked(z, L, s, f, k).Some? ==>
      Moves(z, L, b.c, Checked(z, L, s, f, k).value, CheckStore(b, s, f, k).value.1.c) && Checked(z, L, s, f, k).value.got <= {Add(s.p, 8)}
  {
    hide Rep, PinSame, Touched, CheckStatic, CheckDynamic, FieldIn, FieldReg, Take, Look, Lookup, Has;
    if f.Known? {
      CheckStaticSim(z, L, b, s, f, k);
    } else {
      var a := Add(s.p, 8);
      FieldNowhere(z, L, f, a);
      FieldInSim(z, L, b.c, f.v, a, true);
      if FieldIn(z, L, f.v, a, true).Some? {
        var L1 := FieldIn(z, L, f.v, a, true).value.1;
        var (rb, c1) := FieldReg(b.c, f.v, a, true).value;
        MovesRep(z, L, b.c, L1, c1);
        CheckDynamicSim(z, L1, b.(c := c1), rb, s.i);
        CheckDynamicGot(z, L, f, a);
        if CheckDynamic(b.(c := c1), rb, s.i).Some? {
          MovesTrans(z, L, b.c, L1, c1, Checked(z, L, s, f, k).value, CheckStore(b, s, f, k).value.1.c);
        }
      }
    }
  }

  lemma FieldNowhere(z: Jit, L: Ledger, f: Field, a: word)
    requires f.Dynamic? && f.v == Lookup(z, a) && a !in L.got
    ensures f.v == NoVal ==> Look(z, L, a) == Nowhere
  {
    hide Lookup;
  }

  lemma TakeGot(z: Jit, L: Ledger)
    ensures Take(z, L).Some? ==> Take(z, L).value.got == L.got && L.gone <= Take(z, L).value.gone && (Take(z, L).value.held ==> L.held)
  {
    hide Flushed, Touched, Look;
    FlushGone(z, L.(line := if L.line == [] then [] else L.line[1..]));
    TouchedGot(z, L.(free := if L.free > 0 then L.free - 1 else 0));
    TouchedGot(z, L.(line := if L.line == [] then [] else L.line[1..]));
    FlushedHeld(z, L.(line := if L.line == [] then [] else L.line[1..]));
  }

  lemma FlushedHeld(z: Jit, L: Ledger)
    ensures Flushed(z, L).Some? ==> !Flushed(z, L).value.held
  {
    hide Look, Bswap;
  }

  lemma InOneGot(z: Jit, L: Ledger, w: Where)
    ensures InOne(z, L, w).Some? ==> InOne(z, L, w).value.1.got == L.got
  {
    hide Take;
    TakeGot(z, Keep(L, w));
  }

  lemma CheckDynamicGot(z: Jit, L: Ledger, f: Field, a: word)
    requires f.Dynamic? && L.got == {}
    ensures FieldIn(z, L, f.v, a, true).Some? ==>
      var L1 := FieldIn(z, L, f.v, a, true).value.1;
      L1.got <= {a} && (Take(z, L1).Some? ==> var L2 := Take(z, L1).value; L2.got == L1.got && (Take(z, L2).Some? ==>
        var L3 := Take(z, L2).value; L3.got == L1.got && Give(Touched(z, L3), 2).got == L1.got))
  {
    hide Take, InOne, Touched;
    TakeGot(z, L);
    InOneGot(z, L, Seen(f.v));
    if FieldIn(z, L, f.v, a, true).Some? {
      var L1 := FieldIn(z, L, f.v, a, true).value.1;
      TakeGot(z, L1);
      if Take(z, L1).Some? {
        var L2 := Take(z, L1).value;
        TakeGot(z, L2);
        if Take(z, L2).Some? {
          TouchedGot(z, Take(z, L2).value);
        }
      }
    }
  }

  // ------------------------------------------------------------ the operands

  lemma ForASim(z: Jit, L: Ledger, c: Jit, s: Source, f: Field)
    requires Rep(z, L, c) && L.got <= {Add(s.p, 8)} && FieldHas(z, c, f, s.p)
    ensures ForA(z, L, s, f).Some? <==> OperandA(c, s, f).Some?
    ensures ForA(z, L, s, f).Some? ==>
      var (w, L1) := ForA(z, L, s, f).value; var (v, d) := OperandA(c, s, f).value; Moves(z, L, c, L1, d) && Has(d, v, w) && w != Negated
  {
    hide Rep, PinSame, Static, GetStatic, FieldIn, FieldReg, Through, LoadThrough, Look, Lookup, Has;
    if f.Known? {
      StaticSim(z, L, c, f.val);
    } else {
      assert s.p != Add(s.p, 8);
      FieldNowhere(z, L, f, s.p);
      FieldInSim(z, L, c, f.v, s.p, true);
      if FieldIn(z, L, f.v, s.p, true).Some? {
        var L1 := FieldIn(z, L, f.v, s.p, true).value.1;
        var (ra, c1) := FieldReg(c, f.v, s.p, true).value;
        MovesRep(z, L, c, L1, c1);
        ThroughSim(z, L1, c1, ra, 0);
        if Through(z, L1).Some? {
          MovesTrans(z, L, c, L1, c1, Through(z, L1).value.1, LoadThrough(c1, ra).value.1);
        }
      }
    }
  }

  /** B's register, where B was loaded or found, has nothing but B. */
  ghost predicate Alike(z: Jit, c: Jit, v: CVal, w: Where, f: Field) { Has(c, v, w) && (InPlace(c, v, f) <==> Alone(z, w, f)) }

  lemma AlikeKept(z: Jit, c: Jit, d: Jit, v: CVal, w: Where, f: Field)
    requires Alike(z, c, v, w, f) && PinSame(c, d)
    ensures Alike(z, d, v, w, f)
  {
    hide Aliased;
    HasKept(c, d, v, w);
  }

  lemma ForBSim(z: Jit, L: Ledger, c: Jit, f: Field, rb: Reg)
    requires Rep(z, L, c)
    ensures ForB(z, L, f).Some? <==> OperandB(c, f, rb).Some?
    ensures ForB(z, L, f).Some? ==>
      var (w, L1) := ForB(z, L, f).value; var (v, d) := OperandB(c, f, rb).value;
      Moves(z, L, c, L1, d) && Alike(z, d, v, w, f) && w != Negated && (f.Dynamic? ==> w == Taken)
  {
    hide Rep, PinSame, Static, GetStatic, Through, LoadThrough, Aliased;
    if f.Known? {
      StaticSim(z, L, c, f.val);
    } else {
      ThroughSim(z, L, c, rb, 0);
    }
  }

  lemma ForCSim(z: Jit, L: Ledger, c: Jit, s: Source, f: Field)
    requires Rep(z, L, c) && FieldHas(z, c, f, Add(s.p, 16))
    ensures ForC(z, L, s, f).Some? <==> OperandC(c, s, f).Some?
    ensures ForC(z, L, s, f).Some? ==> Moves(z, L, c, ForC(z, L, s, f).value, OperandC(c, s, f).value.1)
  {
    hide Rep, PinSame, FieldIn, FieldReg, Look, Lookup, Has, LruSame;
    PinSelf(c);
    if f.Dynamic? {
      FieldInSim(z, L, c, f.v, Add(s.p, 16), false);
    }
  }

  // -------------------------------------------------------------- the result

  lemma MovedSim(z: Jit, L: Ledger, c: Jit, s: Reg)
    requires Rep(z, L, c)
    ensures Take(z, L).Some? <==> Scratch(c).Some?
    ensures Take(z, L).Some? ==>
      var (r, d) := Scratch(c).value; Moves(z, L, c, Take(z, L).value, Emit(d, MovRR(r, s))) && Emit(d, MovRR(r, s)).regs[r].pinned
  {
    hide Rep, PinSame, Take, Scratch, Fresh;
    TakeMoves(z, L, c);
    if Take(z, L).Some? {
      var (r, d) := Scratch(c).value;
      EmitMoves(z, L, c, Take(z, L).value, d, Emit(d, MovRR(r, s)));
      FreshPinned(d, r);
    }
  }

  lemma ForResultSim(z: Jit, L: Ledger, c: Jit, v: CVal, w: Where, f: Field)
    requires Rep(z, L, c) && Alike(z, c, v, w, f) && w != Negated
    ensures v != NoVal && (ForResult(z, L, w, f).Some? <==> ResultReg(c, v, f).Some?)
    ensures ForResult(z, L, w, f).Some? ==>
      var (r, d) := ResultReg(c, v, f).value; Moves(z, L, c, ForResult(z, L, w, f).value, d) && d.regs[r].pinned
  {
    hide Rep, PinSame, Take, Scratch, InOne, ToReg, InPlace, Alone, Fresh, LruSame;
    PinSelf(c);
    HasSome(c, v, w);
    PlaceReg(c, v, f);
    if !Alone(z, w, f) {
      if v.InReg? {
        NotTaken(z, w, f);
        MovedSim(z, L, c, v.r);
      } else {
        InRegSim(z, L, c, v, w);
        if InOne(z, L, w).Some? {
          FreshPinned(ToReg(c, v).value.1, ToReg(c, v).value.0);
        }
      }
    }
  }

  lemma PlaceReg(c: Jit, v: CVal, f: Field)
    ensures InPlace(c, v, f) ==> v.InReg?
  {
  }

  lemma NotTaken(z: Jit, w: Where, f: Field)
    ensures !Alone(z, w, f) ==> !w.Taken?
  {
  }

  /** A step that has brought the cache to d, where register r is pinned. */
  lemma PinMoves(z: Jit, L: Ledger, c: Jit, L1: Ledger, d: Jit, op: Op, r: Reg)
    requires Moves(z, L, c, L1, d) && d.regs[r].pinned
    ensures Moves(z, L, c, L1, Pin(Emit(d, op), r)) && Pin(Emit(d, op), r).regs[r].pinned
  {
    hide Rep, PinSame;
    assert Pin(Emit(d, op), r) == Emit(d, op);
    EmitMoves(z, L, c, L1, d, Emit(d, op));
  }

  /** What is computed is where the ledger says. */
  ghost predicate Computing(z: Jit, L: Ledger, c: Jit, o: Option<(Where, bool, Ledger)>, p: Option<(Result, Jit)>) {
    && (o.Some? <==> p.Some?)
    && (o.Some? ==>
          var (w, kept, L1) := o.value; var (x, d) := p.value;
          Moves(z, L, c, L1, d) && Has(d, x.res, w) && x.kept == kept)
  }

  lemma ComputeSim(z: Jit, L: Ledger, c: Jit, va: CVal, wa: Where, vb: CVal, wb: Where, f: Field, branch: bool)
    requires Rep(z, L, c) && Has(c, va, wa) && wa != Negated && Alike(z, c, vb, wb, f) && wb != Negated && (f.Dynamic? ==> wb == Taken)
    ensures va != NoVal && vb != NoVal && Computing(z, L, c, Computed(z, L, wa, wb, f, branch), Compute(c, va, vb, f, branch))
  {
    hide Rep, PinSame, Take, Scratch, InOne, ToReg, ResultReg, ForResult, Sub, Fresh, LruSame, InPlace, Alone, Moves;
    PinSelf(c);
    HasSome(c, va, wa);
    HasSome(c, vb, wb);
    SelfMoves(z, L, c);
    if va.Const? && vb.Const? {
    } else if va == Const(0) {
      ComputeZero(z, L, c, va, wa, vb, wb, f, branch);
    } else if vb == Const(0) && !branch {
    } else if va.NegReg? && !vb.NegReg? && !branch {
      ComputeSum(z, L, c, va, wa, vb, wb, f);
    } else if vb == Const(0) {
      ComputeNegation(z, L, c, va, wa, vb, wb, f);
    } else {
      ComputeDifference(z, L, c, va, wa, vb, wb, f, branch);
    }
  }

  lemma SelfMoves(z: Jit, L: Ledger, c: Jit)
    requires Rep(z, L, c)
    ensures Moves(z, L, c, L, c)
  {
    hide Rep;
  }

  lemma ComputeZero(z: Jit, L: Ledger, c: Jit, va: CVal, wa: Where, vb: CVal, wb: Where, f: Field, branch: bool)
    requires Rep(z, L, c) && va == Const(0) && wa == Value(0) && Has(c, vb, wb) && !vb.Const? && wb != Negated
    ensures vb != NoVal && Computing(z, L, c, Computed(z, L, wa, wb, f, branch), Compute(c, va, vb, f, branch))
  {
    hide Rep, PinSame, InOne, ToReg, LruSame;
    PinSelf(c);
    HasSome(c, vb, wb);
    if branch {
      InRegSim(z, L, c, vb, wb);
      if InOne(z, L, wb).Some? {
        var (t, d) := ToReg(c, vb).value;
        var e := Emit(d, TestRR(t));
        EmitMoves(z, L, c, InOne(z, L, wb).value.1, d, e);
        PinSameTrans(c, d, e);
        HasKept(c, e, vb, wb);
      }
    }
  }

  lemma ComputeSum(z: Jit, L: Ledger, c: Jit, va: CVal, wa: Where, vb: CVal, wb: Where, f: Field)
    requires Rep(z, L, c) && Has(c, va, wa) && va.NegReg? && wa.Minus? && Alike(z, c, vb, wb, f) && !vb.NegReg? && wb != Negated
    requires (f.Dynamic? ==> wb == Taken) && vb != Const(0)
    ensures vb != NoVal && Computing(z, L, c, Computed(z, L, wa, wb, f, false), Compute(c, va, vb, f, false))
  {
    hide Rep, PinSame, Take, Scratch, ResultReg, ForResult, InPlace, Alone, Moves;
    HasSome(c, vb, wb);
    if f.Dynamic? && vb.InReg? {
      MovedSim(z, L, c, vb.r);
      if Take(z, L).Some? {
        var (r, d) := Scratch(c).value;
        PinMoves(z, L, c, Take(z, L).value, Emit(d, MovRR(r, vb.r)), AddRR(r, va.r), r);
      }
    } else {
      ForResultSim(z, L, c, vb, wb, f);
      if ForResult(z, L, wb, f).Some? {
        var (r, d) := ResultReg(c, vb, f).value;
        PinMoves(z, L, c, ForResult(z, L, wb, f).value, d, AddRR(r, va.r), r);
      }
    }
  }

  lemma ComputeNegation(z: Jit, L: Ledger, c: Jit, va: CVal, wa: Where, vb: CVal, wb: Where, f: Field)
    requires Rep(z, L, c) && Has(c, va, wa) && !va.Const? && wa != Negated && vb == Const(0) && wb == Value(0)
    ensures va != NoVal && Computing(z, L, c, Computed(z, L, wa, wb, f, true), Compute(c, va, vb, f, true))
  {
    hide Rep, PinSame, Take, Scratch, InOne, ToReg, Moves, Fresh;
    HasSome(c, va, wa);
    InRegSim(z, L, c, va, wa);
    if InOne(z, L, wa).Some? {
      var L1 := InOne(z, L, wa).value.1;
      var (r, c1) := ToReg(c, va).value;
      MovesRep(z, L, c, L1, c1);
      if va.InReg? {
        MovedSim(z, L1, c1, r);
        if Take(z, L1).Some? {
          var (t, c2) := Scratch(c1).value;
          MovesTrans(z, L, c, L1, c1, Take(z, L1).value, Emit(c2, MovRR(t, r)));
          PinMoves(z, L, c, Take(z, L1).value, Emit(c2, MovRR(t, r)), NegR(t), t);
        }
      } else {
        FreshPinned(c1, r);
        PinMoves(z, L, c, L1, c1, NegR(r), r);
      }
    }
  }

  lemma AlikeHas(z: Jit, c: Jit, v: CVal, w: Where, f: Field)
    requires Alike(z, c, v, w, f)
    ensures Has(c, v, w)
  {
  }

  /** The last case of the two. */
  lemma DifferenceIs(z: Jit, L: Ledger, c: Jit, va: CVal, wa: Where, vb: CVal, wb: Where, f: Field, branch: bool)
    requires Has(c, va, wa) && wa != Negated && Has(c, vb, wb) && wb != Negated
    requires !(va.Const? && vb.Const?) && va != Const(0) && vb != Const(0) && !(va.NegReg? && !vb.NegReg? && !branch)
    ensures va != NoVal && vb != NoVal
    ensures Computed(z, L, wa, wb, f, branch) == match ForResult(z, L, wb, f) { case None => None case Some(L1) =>
      match InOne(z, L1, wa) { case None => None case Some(p) => Some((Where.Taken, false, p.1)) } }
    ensures Compute(c, va, vb, f, branch) == match ResultReg(c, vb, f) { case None => None case Some(q) =>
      match ToReg(q.1, va) { case None => None case Some(t) => Some((Result(InReg(q.0), None, false), Pin(Emit(t.1, SubRR(q.0, t.0)), q.0))) } }
  {
    hide InOne, ToReg, ResultReg, ForResult;
    HasSome(c, va, wa);
    HasSome(c, vb, wb);
  }

  lemma ComputeDifference(z: Jit, L: Ledger, c: Jit, va: CVal, wa: Where, vb: CVal, wb: Where, f: Field, branch: bool)
    requires Rep(z, L, c) && Has(c, va, wa) && wa != Negated && Alike(z, c, vb, wb, f) && wb != Negated
    requires !(va.Const? && vb.Const?) && va != Const(0) && vb != Const(0) && !(va.NegReg? && !vb.NegReg? && !branch)
    ensures va != NoVal && vb != NoVal && Computing(z, L, c, Computed(z, L, wa, wb, f, branch), Compute(c, va, vb, f, branch))
  {
    hide Rep, PinSame, InOne, ToReg, ResultReg, ForResult, Alike, Moves, Fresh, Compute, Computed, LruSame;
    assert Has(c, vb, wb) by { AlikeHas(z, c, vb, wb, f); }
    HasSome(c, va, wa);
    HasSome(c, vb, wb);
    DifferenceIs(z, L, c, va, wa, vb, wb, f, branch);
    ForResultSim(z, L, c, vb, wb, f);
    if ForResult(z, L, wb, f).Some? {
      var L1 := ForResult(z, L, wb, f).value;
      var (rr, c1) := ResultReg(c, vb, f).value;
      MovesRep(z, L, c, L1, c1);
      HasKept(c, c1, va, wa);
      InRegSim(z, L1, c1, va, wa);
      if InOne(z, L1, wa).Some? {
        var L2 := InOne(z, L1, wa).value.1;
        var (ra, c2) := ToReg(c1, va).value;
        MovesRep(z, L1, c1, L2, c2);
        PinnedIn(c1, c2, rr);
        MovesTrans(z, L, c, L1, c1, L2, c2);
        PinMoves(z, L, c, L2, c2, SubRR(rr, ra), rr);
      }
    }
  }
}
