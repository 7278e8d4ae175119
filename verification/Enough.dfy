/** A register is found each time one is taken exactly if the ledger adds up,
    for an instruction and for a block. */
module Enough {
  import opened Options
  import opened Words
  import opened Memory
  import opened X86
  import opened RegCache
  import opened Operands
  import opened Insn
  import opened CopyLoop
  import opened Blocks
  import opened OneEntry
  import R = Room
  import opened Ledger
  import opened LedgerProofs
  import opened LedgerOperands
  import opened LedgerInsn
  import opened LedgerFinish

  lemma BStays(z: Jit, L: Ledger, f: Field, L1: Ledger, d: Jit, v: CVal, w: Where)
    requires ForB(z, L, f) == Some((w, L1)) && Alike(z, d, v, w, f) && w != Negated
    ensures Staying(z, L1, d, v, w, f)
  {
    hide Word, StillThere;
    if Pendable(f) {
      WordStill(z, L, f.val);
    }
  }

  /** B stays only if nothing is stored before. */
  lemma KeptIs(z: Jit, L: Ledger, c: Jit, va: CVal, wa: Where, vb: CVal, wb: Where, f: Field, branch: bool)
    requires va != NoVal && vb != NoVal && Compute(c, va, vb, f, branch).Some? && Compute(c, va, vb, f, branch).value.0.kept
    ensures Compute(c, va, vb, f, branch).value.0.res == vb && va == Const(0) && !vb.Const?
    ensures wa == Value(0) && !wb.Value? && Computed(z, L, wa, wb, f, branch).Some? ==>
      var (w, _, L1) := Computed(z, L, wa, wb, f, branch).value;
      w == wb && (L1 == L || (InOne(z, L, wb).Some? && L1 == InOne(z, L, wb).value.1))
  {
    hide ToReg, ResultReg, Scratch, InOne;
  }

  /** What the result comes to. */
  ghost predicate Resulting(z: Jit, L: Ledger, c: Jit, f: Field, o: Option<(Where, bool, Ledger)>, p: Option<(Result, Jit)>) {
    && Computing(z, L, c, o, p)
    && (o.Some? && o.value.1 ==> !o.value.0.Value? && Staying(z, o.value.2, p.value.1, p.value.0.res, o.value.0, f))
  }

  lemma ResultSim(z: Jit, L: Ledger, c: Jit, va: CVal, wa: Where, vb: CVal, wb: Where, f: Field, branch: bool)
    requires Rep(z, L, c) && Has(c, va, wa) && wa != Negated && Alike(z, c, vb, wb, f) && wb != Negated && (f.Dynamic? ==> wb == Taken)
    requires wa == Value(0) && !wb.Value? ==> Staying(z, L, c, vb, wb, f)
    ensures va != NoVal && vb != NoVal
    ensures Resulting(z, L, c, f, Computed(z, L, wa, wb, f, branch), Compute(c, va, vb, f, branch))
  {
    hide Rep, PinSame, Compute, Computed, InOne, Staying, StillThere, InPlace, Alone;
    HasSome(c, va, wa);
    HasSome(c, vb, wb);
    ComputeSim(z, L, c, va, wa, vb, wb, f, branch);
    var o, p := Computed(z, L, wa, wb, f, branch), Compute(c, va, vb, f, branch);
    if o.Some? && o.value.1 {
      KeptIs(z, L, c, va, wa, vb, wb, f, branch);
      MovesRep(z, L, c, o.value.2, p.value.1);
      if Pendable(f) && o.value.2 != L {
        StillHeld(z, L, c, vb, wb, f);
        InOneStill(z, L, wb, wb, f.val);
      } else if Pendable(f) {
        StillHeld(z, L, c, vb, wb, f);
      }
      StayingKept(z, L, c, o.value.2, p.value.1, vb, wb, f);
    }
  }

  lemma MiddleSim(z: Jit, L: Ledger, c: Jit, s: Source, f: Fields, rb: Reg)
    requires Rep(z, L, c) && L.got <= {Add(s.p, 8)} && FieldHas(z, c, f.a, s.p) && FieldHas(z, c, f.c, Add(s.p, 16))
    ensures var o := Arithmetic(c, s, f, rb);
      Resulting(z, L, c, f.b, Middle(z, L, s, f), if o.Some? then Some((o.value.0, o.value.2)) else None)
  {
    hide Rep, PinSame, ForA, ForB, ForC, OperandA, OperandB, OperandC, FieldHas, Flushed, FlushPending, Computed, Compute, Alike, Staying;
    if SameWord(f) {
      ForCSim(z, L, c, s, f.c);
    } else {
      ForASim(z, L, c, s, f.a);
      if ForA(z, L, s, f.a).Some? {
        var (wa, L1) := ForA(z, L, s, f.a).value;
        var (va, c1) := OperandA(c, s, f.a).value;
        FieldHasKept(z, c, c1, f.c, Add(s.p, 16));
        ForBSim(z, L1, c1, f.b, rb);
        if ForB(z, L1, f.b).Some? {
          var (wb, L2) := ForB(z, L1, f.b).value;
          var (vb, c2) := OperandB(c1, f.b, rb).value;
          MovesTrans(z, L, c, L1, c1, L2, c2);
          HasKept(c1, c2, va, wa);
          FieldHasKept(z, c1, c2, f.c, Add(s.p, 16));
          BStays(z, L1, f.b, L2, c2, vb, wb);
          LastSim(z, L, c, s, f, va, wa, vb, wb, L2, c2);
        }
      }
    }
  }

  /** C, the held-back store, and the result. */
  lemma LastSim(z: Jit, L: Ledger, c: Jit, s: Source, f: Fields, va: CVal, wa: Where, vb: CVal, wb: Where, L2: Ledger, c2: Jit)
    requires Moves(z, L, c, L2, c2) && FieldHas(z, c2, f.c, Add(s.p, 16))
    requires Has(c2, va, wa) && wa != Negated && Alike(z, c2, vb, wb, f.b) && wb != Negated && (f.b.Dynamic? ==> wb == Taken)
    requires Staying(z, L2, c2, vb, wb, f.b)
    ensures va != NoVal && vb != NoVal
    ensures var o := match ForC(z, L2, s, f.c) { case None => None case Some(L3) =>
        var first := !(wa == Value(0) && !wb.Value?) && (!Pendable(f.b) || z.pendAddr != f.b.val);
        match (if first then Flushed(z, L3) else Some(L3)) { case None => None case Some(L4) => Computed(z, L4, wa, wb, f.b, Branches(s, f)) } };
      var p := match OperandC(c2, s, f.c) { case None => None case Some(q) =>
        match (if FlushFirst(q.1, f, va, vb) then FlushPending(q.1) else Some(q.1)) {
          case None => None case Some(c4) => Compute(c4, va, vb, f.b, Branches(s, f)) } };
      Resulting(z, L, c, f.b, o, p)
  {
    hide Rep, PinSame, ForC, OperandC, FieldHas, Flushed, FlushPending, Computed, Compute, Alike, Staying, Cacheable;
    MovesRep(z, L, c, L2, c2);
    HasSome(c2, va, wa);
    assert Has(c2, vb, wb) by { AlikeHas(z, c2, vb, wb, f.b); }
    HasSome(c2, vb, wb);
    ForCSim(z, L2, c2, s, f.c);
    if ForC(z, L2, s, f.c).Some? {
      var L3, c3 := ForC(z, L2, s, f.c).value, OperandC(c2, s, f.c).value.1;
      MovesTrans(z, L, c, L2, c2, L3, c3);
      MovesRep(z, L, c, L3, c3);
      RepPend(z, L3, c3);
      FlushSim(z, L3, c3);
      var first := FlushFirst(c3, f, va, vb);
      if !first || Flushed(z, L3).Some? {
        var L4 := if first then Flushed(z, L3).value else L3;
        var c4 := if first then FlushPending(c3).value else c3;
        PinSelf(c3);
        MovesTrans(z, L, c, L3, c3, L4, c4);
        PinSameTrans(c2, c3, c4);
        HasKept(c2, c4, va, wa);
        AlikeKept(z, c2, c4, vb, wb, f.b);
        if !first {
          if Pendable(f.b) {
            StillHeld(z, L2, c2, vb, wb, f.b);
            ForCStill(z, L2, s, f.c, wb, f.b.val);
          }
          StayingKept(z, L2, c2, L3, c3, vb, wb, f.b);
        }
        ResultSim(z, L4, c4, va, wa, vb, wb, f.b, Branches(s, f));
        ResultingTrans(z, L, c, L4, c4, f.b, Computed(z, L4, wa, wb, f.b, Branches(s, f)), Compute(c4, va, vb, f.b, Branches(s, f)));
      }
    }
  }

  lemma ResultingTrans(z: Jit, L: Ledger, c: Jit, L1: Ledger, d: Jit, f: Field, o: Option<(Where, bool, Ledger)>, p: Option<(Result, Jit)>)
    requires Moves(z, L, c, L1, d) && Resulting(z, L1, d, f, o, p)
    ensures Resulting(z, L, c, f, o, p)
  {
    hide Rep, PinSame, Staying;
    if o.Some? {
      MovesTrans(z, L, c, L1, d, o.value.2, p.value.1);
    }
  }

  /** An instruction is translated exactly if its ledger adds up, and what it
      leaves is ready for the next. */
  lemma InsnEnough(b: Build, s: Source, k: Checks)
    requires Ready(b.c)
    ensures TranslateInsn(b, s, k).Some? <==> Suffices(b.c, s, k)
    ensures TranslateInsn(b, s, k).Some? ==> Ready(TranslateInsn(b, s, k).value.1.c)
  {
    hide Rep, PinSame, ReadFields, Opening, UnpinAll, CheckStore, Checked, Middle, Arithmetic, Finished, Conclude, KeepFields;
    hide FieldHas, Staying, Single, LruOk, R.HeldCached;
    var z := b.c;
    OpeningRep(z);
    assert Begun(Opening(z)) by { OpeningBegun(z); }
    ReadFieldsSim(z, Opening(z), z, s);
    var (f, c0) := ReadFields(z, s);
    var L0 := KeepFields(Opening(z), f);
    CheckStoreSim(z, L0, b.(c := c0), s, f.b, k);
    if Checked(z, L0, s, f.b, k).Some? {
      var L1 := Checked(z, L0, s, f.b, k).value;
      var (rb, b1) := CheckStore(b.(c := c0), s, f.b, k).value;
      MovesRep(z, L0, c0, L1, b1.c);
      FieldHasKept(z, c0, b1.c, f.a, s.p);
      FieldHasKept(z, c0, b1.c, f.c, Add(s.p, 16));
      MiddleSim(z, L1, b1.c, s, f, rb);
      if Middle(z, L1, s, f).Some? {
        var (w, kept, L2) := Middle(z, L1, s, f).value;
        var (x, rc, c2) := Arithmetic(b1.c, s, f, rb).value;
        ResultingIs(z, L1, b1.c, f.b, w, kept, L2, x, c2);
        ConcludeSim(z, L2, b1.(c := c2), s, f, rb, x, w, rc);
      }
    }
    if TranslateInsn(b, s, k).Some? {
      TranslateInsnSingle(b, s, k);
    }
  }

  lemma OpeningBegun(c: Jit)
    ensures Begun(Opening(c))
  {
    hide Line;
  }

  lemma ResultingIs(z: Jit, L: Ledger, c: Jit, f: Field, w: Where, kept: bool, L1: Ledger, x: Result, d: Jit)
    requires Resulting(z, L, c, f, Some((w, kept, L1)), Some((x, d)))
    ensures Rep(z, L1, d) && Has(d, x.res, w) && x.kept == kept && (kept ==> !w.Value? && Staying(z, L1, d, x.res, w, f))
  {
  }

  // ------------------------------------------------------------------ blocks

  /** The instructions from the i-th to before the j-th are translated and none
      ends the block; the ledger of the j-th does not add up. */
  predicate FailsAt(b: Build, w: World, dyn: set<int>, k: Checks, start: word, i: nat, j: nat)
    requires i <= j && start + 24 * (j + 1) < TWO64
  {
    var o := TranslateFrom(b, w, dyn, k, start, i, j);
    o.Some? && !o.value.1 && !Suffices(o.value.2.c, SourceAt(w, dyn, start, j), k)
  }

  ghost predicate FailsBefore(b: Build, w: World, dyn: set<int>, k: Checks, start: word, i: nat, n: nat)
    requires start + 24 * n < TWO64
  {
    exists j | i <= j < n :: FailsAt(b, w, dyn, k, start, i, j)
  }

  lemma FailsNext(b: Build, w: World, dyn: set<int>, k: Checks, start: word, i: nat, j: nat)
    requires i < j && start + 24 * (j + 1) < TWO64
    ensures FailsAt(b, w, dyn, k, start, i, j) <==>
      var o := TranslateInsn(b, SourceAt(w, dyn, start, i), k); o.Some? && !o.value.0 && FailsAt(o.value.1, w, dyn, k, start, i + 1, j)
  {
    hide TranslateInsn, Suffices;
  }

  /** A run of instructions is not translated exactly if some ledger does not
      add up. */
  lemma {:induction false} RunEnough(b: Build, w: World, dyn: set<int>, k: Checks, start: word, i: nat, n: nat)
    requires i <= n && start + 24 * n < TWO64 && Ready(b.c)
    ensures TranslateFrom(b, w, dyn, k, start, i, n) == None <==> FailsBefore(b, w, dyn, k, start, i, n)
    decreases n - i
  {
    hide TranslateInsn, Ready, Suffices, FailsAt, TranslateFrom;
    NoneIs(b, w, dyn, k, start, i, n);
    if i < n {
      InsnEnough(b, SourceAt(w, dyn, start, i), k);
      assert FailsAt(b, w, dyn, k, start, i, i) <==> !Suffices(b.c, SourceAt(w, dyn, start, i), k) by { FailsNow(b, w, dyn, k, start, i); }
      forall j | i < j < n
        ensures FailsAt(b, w, dyn, k, start, i, j) <==>
          var o := TranslateInsn(b, SourceAt(w, dyn, start, i), k); o.Some? && !o.value.0 && FailsAt(o.value.1, w, dyn, k, start, i + 1, j)
      {
        FailsNext(b, w, dyn, k, start, i, j);
      }
      var o := TranslateInsn(b, SourceAt(w, dyn, start, i), k);
      if o.Some? && !o.value.0 {
        RunEnough(o.value.1, w, dyn, k, start, i + 1, n);
        var d, i1 := o.value.1, i + 1;
        if j :| i1 <= j < n && FailsAt(d, w, dyn, k, start, i1, j) {
          assert FailsAt(b, w, dyn, k, start, i, j);
        }
      }
    }
  }

  lemma NoneIs(b: Build, w: World, dyn: set<int>, k: Checks, start: word, i: nat, n: nat)
    requires i <= n && start + 24 * n < TWO64
    ensures TranslateFrom(b, w, dyn, k, start, i, n) == None <==>
      i < n && var o := TranslateInsn(b, SourceAt(w, dyn, start, i), k);
        o == None || (!o.value.0 && TranslateFrom(o.value.1, w, dyn, k, start, i + 1, n) == None)
  {
    hide TranslateInsn;
  }

  lemma FailsNow(b: Build, w: World, dyn: set<int>, k: Checks, start: word, i: nat)
    requires start + 24 * (i + 1) < TWO64
    ensures FailsAt(b, w, dyn, k, start, i, i) <==> !Suffices(b.c, SourceAt(w, dyn, start, i), k)
  {
    hide Suffices;
  }

  lemma EmptyReady(movbe: bool, t: Turns)
    ensures Ready(EmptyCache(movbe, t))
  {
    EmptySingle(movbe, t);
  }

  /** Some way into the block at start, the ledger of the next instruction does
      not add up. */
  ghost predicate Short(w: World, start: word)
    requires start % 8 == 0 && start + 24 <= w.memSize <= 0x4000_0000_0000_0000
  {
    var found := FindCopy(w.mem, w.dynMap, start, w.memSize);
    var (n, written) := Extent(w, start, found.Some?, 0);
    var dyn := w.dynMap + written;
    var k := Checks(Hoisted(w, dyn, start, n), w.memSize / 8);
    FailsBefore(EmptyBuild(w, start, if n == 19 then found else None), w, dyn, k, start, 0, n)
  }

  /** A block is not translated exactly if it is short of registers so. */
  lemma BlockEnough(w: World, start: word)
    requires start % 8 == 0 && start + 24 <= w.memSize <= 0x4000_0000_0000_0000
    ensures Translate(w, start) == None <==> Short(w, start)
  {
    hide TranslateFrom, Ready, FailsBefore, FindCopy, Extent, Hoisted;
    var found := FindCopy(w.mem, w.dynMap, start, w.memSize);
    var (n, written) := Extent(w, start, found.Some?, 0);
    var dyn := w.dynMap + written;
    var k := Checks(Hoisted(w, dyn, start, n), w.memSize / 8);
    var b := EmptyBuild(w, start, if n == 19 then found else None);
    EmptyReady(w.movbe, w.turns);
    RunEnough(b, w, dyn, k, start, 0, n);
    assert Translate(w, start) == None <==> TranslateFrom(b, w, dyn, k, start, 0, n) == None;
  }
}
