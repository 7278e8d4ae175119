/** One translated instruction does what the interpreter's step does. */
module InsnProofs {
  import opened Options
  import opened Words
  import opened Bits
  import opened Memory
  import opened Subleq
  import opened X86
  import opened RegCache
  import opened CacheProofs
  import opened Operands
  import opened OperandProofs
  import opened Insn

  /** A field read when translating, or cached, or in memory at a, is x. */
  ghost predicate FieldOk(f: Field, c: Jit, m: Machine, a: word, x: word) {
    match f
    case Known(v) => v == x
    case Dynamic(v) =>
      if v == NoVal then c.pend ==> c.pendAddr != a
      else Denotes(v, m, x) && Pinned(c, v)
  }

  /** The held-back store as it stands here makes memory R. */
  ghost predicate Stored(p: Pending, m: Machine, R: Mem) {
    match p
    case NotHeld => m.mem == R
    case HeldBack(v, a) => v != NoVal && R == Wr(m.mem, a, ValueOf(v, m))
  }

  /** The stores logged once what is held back is stored from here. */
  function LoggedAt(p: Pending, m: Machine): seq<(word, word)> {
    if p.HeldBack? && p.v != NoVal then m.log + [(p.addr, ValueOf(p.v, m))] else m.log
  }

  function ValueOf(v: CVal, m: Machine): word
    requires v != NoVal
  {
    match v
    case InReg(r) => m.regs[r]
    case NegReg(r) => Neg(m.regs[r])
    case Const(x) => x
  }

  /** A store at b touches the word with index w. */
  predicate Touches(b: word, w: int) { w == b / 8 || w == Add(b, 7) / 8 }

  /** The page bytes cover the marked words, also from the page before. */
  ghost predicate PagesCover(k: Marks) {
    forall w | w in k.words :: w * 8 / 0x1000 in k.pages && (w * 8 / 0x1000 > 0 ==> w * 8 / 0x1000 - 1 in k.pages)
  }

  ghost predicate Unmarked(b: word, k: Marks) { forall w | Touches(b, w) :: w !in k.words }

  /** What was checked on entry, and words past the end, are not marked. */
  ghost predicate ChecksHold(k: Checks, marks: Marks) {
    forall w | w in marks.words :: 0 <= w < k.memWords && w !in k.hoist
  }

  lemma FieldKept(f: Field, c: Jit, m: Machine, c': Jit, m': Machine, R: Mem, a: word, x: word)
    requires FieldOk(f, c, m, a, x) && Keeps(c, m, c', m')
    requires c'.pend ==> c.pend && c'.pendAddr == c.pendAddr
    ensures FieldOk(f, c', m', a, x)
  {
  }

  lemma ReadFieldOk(c: Jit, a: word, dyn: bool, val: word, m0: Machine, m: Machine, R: Mem)
    requires Good(c, m0, m, R) && (!dyn ==> val == Rd(R, a))
    ensures var (f, d) := ReadField(c, a, dyn, val);
      && Good(d, m0, m, R) && Keeps(c, m, d, m) && d.pend == c.pend && d.pendAddr == c.pendAddr
      && FieldOk(f, d, m, a, Rd(R, a)) && (f.Dynamic? ==> dyn)
  {
    hide Rd, Wr, Run, Good, PinVal, CacheFind, Keeps, Pinned, Denotes;
    if dyn {
      var (v, c1) := CacheFind(c, a);
      CacheFindOk(c, a, m0, m, R);
      PinValOk(c1, v, m0, m, R);
      PinValKeeps(c1, v, m, v);
      KeepsTrans(c, m, c1, m, PinVal(c1, v), m);
      if v == NoVal {
        HeldIsCached(c, m0, m, R);
      } else if v.Const? {
        ConstIs(v, m, Rd(R, a));
      }
    } else {
      KeepsSelf(c, m);
    }
  }

  lemma ConstIs(v: CVal, m: Machine, x: word)
    requires v.Const? && Denotes(v, m, x)
    ensures v.v == x
  {
  }

  lemma KeepsSelf(c: Jit, m: Machine)
    ensures Keeps(c, m, c, m)
  {
  }

  lemma HeldIsCached(c: Jit, m0: Machine, m: Machine, R: Mem)
    requires Good(c, m0, m, R)
    ensures c.pend ==> Lookup(c, c.pendAddr) != NoVal
  {
  }

  /** The fields of the instruction at p, as it is in R. */
  ghost predicate FieldsOk(f: Fields, s: Source, c: Jit, m: Machine, R: Mem) {
    && FieldOk(f.a, c, m, s.p, Rd(R, s.p))
    && FieldOk(f.b, c, m, Add(s.p, 8), Rd(R, Add(s.p, 8)))
    && FieldOk(f.c, c, m, Add(s.p, 16), Rd(R, Add(s.p, 16)))
  }

  /** Static fields still hold the values they had when translated. */
  ghost predicate StaticOk(s: Source, R: Mem) {
    && (!s.da ==> s.fa == Rd(R, s.p))
    && (!s.db ==> s.fb == Rd(R, Add(s.p, 8)))
    && (!s.dc ==> s.fc == Rd(R, Add(s.p, 16)))
  }

  lemma FieldsKept(f: Fields, s: Source, c: Jit, m: Machine, c': Jit, m': Machine, R: Mem)
    requires FieldsOk(f, s, c, m, R) && Keeps(c, m, c', m')
    requires c'.pend ==> c.pend && c'.pendAddr == c.pendAddr
    ensures FieldsOk(f, s, c', m', R)
  {
    hide Rd, Keeps, FieldOk;
    FieldKept(f.a, c, m, c', m', R, s.p, Rd(R, s.p));
    FieldKept(f.b, c, m, c', m', R, Add(s.p, 8), Rd(R, Add(s.p, 8)));
    FieldKept(f.c, c, m, c', m', R, Add(s.p, 16), Rd(R, Add(s.p, 16)));
  }

  lemma ReadFieldsOk(c: Jit, s: Source, m0: Machine, m: Machine, R: Mem)
    requires Whole(c, m0, m, R) && StaticOk(s, R)
    ensures var (f, d) := ReadFields(c, s);
      && Whole(d, m0, m, R) && d.flagsLive == c.flagsLive && d.movbe == c.movbe && FieldsOk(f, s, d, m, R)
      && d.pend == c.pend && d.pendAddr == c.pendAddr
      && (f.a.Dynamic? ==> s.da) && (f.b.Dynamic? ==> s.db) && (f.c.Dynamic? ==> s.dc)
  {
    hide Rd, Wr, Run, Good, UnpinAll, ReadField, Keeps, FieldOk;
    var c0 := UnpinAll(c);
    UnpinAllOk(c, m0, m, R);
    var (a, c1) := ReadField(c0, s.p, s.da, s.fa);
    ReadFieldOk(c0, s.p, s.da, s.fa, m0, m, R);
    KeepsRest(c0, m, c1, m);
    var (b, c2) := ReadField(c1, Add(s.p, 8), s.db, s.fb);
    ReadFieldOk(c1, Add(s.p, 8), s.db, s.fb, m0, m, R);
    KeepsRest(c1, m, c2, m);
    FieldKept(a, c1, m, c2, m, R, s.p, Rd(R, s.p));
    var (d, c3) := ReadField(c2, Add(s.p, 16), s.dc, s.fc);
    ReadFieldOk(c2, Add(s.p, 16), s.dc, s.fc, m0, m, R);
    KeepsRest(c2, m, c3, m);
    FieldKept(a, c2, m, c3, m, R, s.p, Rd(R, s.p));
    FieldKept(b, c2, m, c3, m, R, Add(s.p, 8), Rd(R, Add(s.p, 8)));
  }

  lemma FieldRegOk(c: Jit, v: CVal, a: word, bind: bool, m0: Machine, m: Machine, R: Mem) returns (m': Machine)
    requires Whole(c, m0, m, R) && FieldOk(Dynamic(v), c, m, a, Rd(R, a)) && a % 8 == 0 && a + 16 <= TWO64
    requires FieldReg(c, v, a, bind).Some?
    ensures var (r, c') := FieldReg(c, v, a, bind).value;
      && Whole(c', m0, m', R) && Keeps(c, m, c', m') && LogKept(c, m, c', m', R)
      && m'.regs[r] == Rd(R, a) && c'.regs[r].pinned
      && (v.InReg? ==> r == v.r && c' == c && m' == m) && (!v.InReg? ==> !c.regs[r].pinned)
  {
    hide Rd, Wr, Run, Good, Lookup, ToReg, Scratch, LoadStatic, Bind;
    if v != NoVal {
      m' := ToRegOk(c, v, m0, m, R, Rd(R, a));
    } else {
      var m1 := ScratchOk(c, m0, m, R);
      var (r, c1) := Scratch(c).value;
      GoodHeld(c1, m0, m1, R);
      LoadSeesR(c1, m1, R, a);
      m' := LoadStaticOk(c1, r, a, m0, m1, R);
      LoadUncachedBind(LoadStatic(c1, r, a), r, a, m0, m', R);
    }
  }

  lemma GoodHeld(c: Jit, m0: Machine, m: Machine, R: Mem)
    requires Good(c, m0, m, R)
    ensures HeldOk(c, m, R)
  {
  }

  /** A stub taken here stores what is held back as the snapshot says. */
  lemma SnapOk(c: Jit, m0: Machine, m: Machine, R: Mem)
    requires Whole(c, m0, m, R)
    ensures var (p, d) := SnapPending(c);
      && Stored(p, m, R) && LoggedAt(p, m) == LogOf(c, m, R)
      && Whole(d, m0, m, R) && Keeps(c, m, d, m) && SameRest(c, d)
      && (forall i: Reg :: Free(c, i) ==> Free(d, i))
  {
    hide Rd, Wr, Run, Lookup;
    if c.pend {
      var (v, d) := CacheFind(c, c.pendAddr);
      LookupOk(c, m, R, -1, c.pendAddr);
      TouchOk(c, v);
      SameGood(c, d, m0, m, R);
    }
  }

  /** Left before instruction i, whose store at b touches a marked word. */
  ghost predicate LeftSmc(d: Build, m0: Machine, i: nat, R: Mem, b: word, L: seq<(word, word)>) {
    var o := Run(d.c.code, m0);
    && o.Left? && o.x.Smc? && o.x.k < |d.smcs| && d.smcs[o.x.k].idx == i
    && Stored(d.smcs[o.x.k].pend, o.m, R) && LoggedAt(d.smcs[o.x.k].pend, o.m) == L
    && !Unmarked(b, o.m.marks) && o.m.marks == m0.marks
  }

  lemma LeftSmcStays(d: Build, e: Build, m0: Machine, i: nat, R: Mem, b: word, L: seq<(word, word)>)
    requires LeftSmc(d, m0, i, R, b, L) && Extends(d, e)
    ensures LeftSmc(e, m0, i, R, b, L)
  {
    hide Run, Stored, LoggedAt;
    RunPrefix(d.c.code, e.c.code, m0);
  }

  lemma CheckWordOk(b: Build, w: int, i: nat, k: Checks, m0: Machine, m: Machine, R: Mem, a: word) returns (m': Machine)
    requires Whole(b.c, m0, m, R) && !b.c.flagsLive && ChecksHold(k, m.marks) && Touches(a, w) && m.marks == m0.marks
    ensures var d := CheckWord(b, w, i, k);
      || LeftSmc(d, m0, i, R, a, LogOf(b.c, m, R))
      || (Whole(d.c, m0, m', R) && Keeps(b.c, m, d.c, m') && w !in m.marks.words && m'.log == m.log
          && d.c.pend == b.c.pend && d.c.pendAddr == b.c.pendAddr)
  {
    hide Rd, Wr, Run, Lookup;
    m' := m;
    if w < k.memWords && w !in k.hoist {
      SnapOk(b.c, m0, m, R);
      var (p, c1) := SnapPending(b.c);
      EmitOk(c1, JmpMarked(w, Smc(|b.smcs|)), m0, m);
      var m1 := m.(fl := TestFlags(if w in m.marks.words then 1 else 0));
      if w in m.marks.words {
        StoredMem(p, m, m1, R);
        assert !Unmarked(a, m.marks);
      } else {
        m' := m1;
        EmittedSame(c1, JmpMarked(w, Smc(|b.smcs|)), m0, m, m1, R);
      }
    }
  }

  lemma StoredMem(p: Pending, m: Machine, m': Machine, R: Mem)
    requires Stored(p, m, R) && m'.mem == m.mem && m'.regs == m.regs && m'.log == m.log
    ensures Stored(p, m', R) && LoggedAt(p, m') == LoggedAt(p, m)
  {
  }

  lemma EmittedSame(c: Jit, op: Op, m0: Machine, m: Machine, m': Machine, R: Mem)
    requires Whole(c, m0, m, R) && Exec(op, m) == Go(m') && m'.regs == m.regs && m'.mem == m.mem
    ensures Whole(Emit(c, op), m0, m', R)
  {
    hide Rd, Wr, Run, Exec, Lookup;
    EmitOk(c, op, m0, m);
    FreeLookup(c, Emit(c, op), c.pendAddr);
  }

  lemma CheckStaticOk(b: Build, fb: word, i: nat, k: Checks, m0: Machine, m: Machine, R: Mem) returns (m': Machine)
    requires Whole(b.c, m0, m, R) && !b.c.flagsLive && ChecksHold(k, m.marks) && m.marks == m0.marks && fb + 16 <= TWO64
    ensures var d := CheckStatic(b, fb, i, k);
      || LeftSmc(d, m0, i, R, fb, LogOf(b.c, m, R))
      || (Whole(d.c, m0, m', R) && Keeps(b.c, m, d.c, m') && Unmarked(fb, m.marks) && m'.log == m.log
          && d.c.pend == b.c.pend && d.c.pendAddr == b.c.pendAddr)
  {
    hide Rd, Wr, Run, Lookup, CheckWord, Whole, Keeps, LeftSmc;
    var w0, w1 := fb / 8, Add(fb, 7) / 8;
    m' := CheckWordOk(b, w0, i, k, m0, m, R, fb);
    var b1 := CheckWord(b, w0, i, k);
    if w1 > w0 {
      var d := CheckWord(b1, w1, i, k);
      if LeftSmc(b1, m0, i, R, fb, LogOf(b.c, m, R)) {
        LeftSmcStays(b1, d, m0, i, R, fb, LogOf(b.c, m, R));
      } else {
        var m1 := m';
        KeepsRest(b.c, m, b1.c, m1);
        m' := CheckWordOk(b1, w1, i, k, m0, m1, R, fb);
        if !LeftSmc(d, m0, i, R, fb, LogOf(b.c, m, R)) {
          KeepsTrans(b.c, m, b1.c, m1, d.c, m');
        }
      }
    }
  }

  lemma PageTells(b: word, k: Marks)
    requires PagesCover(k) && b + 16 <= TWO64 && b / 0x1000 !in k.pages
    ensures Unmarked(b, k)
  {
    FirstPage(b / 8, b);
    SecondPage(b);
  }

  lemma FirstPage(w: int, b: word)
    requires w == b / 8
    ensures w * 8 / 0x1000 == b / 0x1000
  {
    assert b / 0x1000 == b / 8 / 0x200;
    assert w * 8 / 0x1000 == w / 0x200;
  }

  lemma SecondPage(b: word)
    requires b + 16 <= TWO64
    ensures var w := Add(b, 7) / 8; w * 8 / 0x1000 == b / 0x1000 || w * 8 / 0x1000 - 1 == b / 0x1000
  {
    var w := (b + 7) / 8;
    assert b / 0x1000 == b / 8 / 0x200;
    assert w * 8 / 0x1000 == w / 0x200;
    assert w == b / 8 || w == b / 8 + 1;
  }

  lemma Shr12(x: word)
    ensures Shr(x, 12) == x / 0x1000
  {
    assert Pow2(4) == 0x10;
    assert Pow2(8) == 0x100;
    assert Pow2(12) == 0x1000;
  }

  lemma CheckDynamicOk(b: Build, rb: Reg, i: nat, m0: Machine, m: Machine, R: Mem) returns (m': Machine)
    requires Whole(b.c, m0, m, R) && !b.c.flagsLive && PagesCover(m.marks) && m.marks == m0.marks
    requires b.c.regs[rb].pinned && m.regs[rb] + 16 <= TWO64 && CheckDynamic(b, rb, i).Some?
    ensures var d := CheckDynamic(b, rb, i).value;
      || LeftSmc(d, m0, i, R, m.regs[rb], LogOf(b.c, m, R))
      || (Whole(d.c, m0, m', R) && Keeps(b.c, m, d.c, m') && Unmarked(m.regs[rb], m.marks) && LogKept(b.c, m, d.c, m', R))
  {
    hide Rd, Wr, Run, Lookup, Scratch, At, Entries, HeldOk, PagesCover, Unmarked, LeftSmc;
    var m1 := ScratchOk(b.c, m0, m, R);
    var (t1, c1) := Scratch(b.c).value;
    var m2 := ScratchOk(c1, m0, m1, R);
    var (t2, c2) := Scratch(c1).value;
    assert Free(c2, t1);
    var m3 := Set(m2, t1, m.regs[rb]);
    EmitFree(c2, MovRR(t1, rb), m0, m2, R, t1, m3);
    Shr12(m.regs[rb]);
    var x := m.regs[rb] / 0x1000;
    var m4 := SetF(m3, t1, x, TestFlags(x));
    EmitFree(Emit(c2, MovRR(t1, rb)), ShrRI(t1, 12), m0, m3, R, t1, m4);
    var c3 := Emit(Emit(c2, MovRR(t1, rb)), ShrRI(t1, 12));
    m' := PageExitOk(b, c3, rb, t1, t2, i, m0, m4, R);
  }

  lemma PageExitOk(b: Build, c: Jit, rb: Reg, t1: Reg, t2: Reg, i: nat, m0: Machine, m: Machine, R: Mem) returns (m': Machine)
    requires Whole(c, m0, m, R) && !c.flagsLive && PagesCover(m.marks) && m.marks == m0.marks
    requires t1 != rb && t2 != rb && t1 != t2 && Free(c, t1) && Free(c, t2)
    requires m.regs[rb] + 16 <= TWO64 && m.regs[t1] == m.regs[rb] / 0x1000
    ensures
      var (p, c4) := SnapPending(c);
      var c5 := Emit(c4, JmpPage(rb, t1, t2, Smc(|b.smcs|)));
      var d := Build(Unpin(Unpin(c5, t1), t2), b.stubs, b.smcs + [SmcRec(i, p)]);
      || LeftSmc(d, m0, i, R, m.regs[rb], LogOf(c, m, R))
      || (Whole(d.c, m0, m', R) && KeepsBut2(c, m, d.c, m', t1, t2) && Unmarked(m.regs[rb], m.marks) && m'.log == m.log
          && d.c.pend == c.pend && d.c.pendAddr == c.pendAddr)
  {
    hide Rd, Wr, Run, Lookup, At, Entries, HeldOk, PagesCover, Stored, Unmarked, BitmapWord;
    SnapOk(c, m0, m, R);
    var (p, c4) := SnapPending(c);
    var op := JmpPage(rb, t1, t2, Smc(|b.smcs|));
    EmitOk(c4, op, m0, m) by { assert At(c4, m0, m); }
    var c5 := Emit(c4, op);
    var d := Build(Unpin(Unpin(c5, t1), t2), b.stubs, b.smcs + [SmcRec(i, p)]);
    var B := m.regs[rb];
    assert Run(d.c.code, m0) == Exec(op, m);
    if m.regs[t1] !in m.marks.pages {
      PageTells(B, m.marks);
      m' := m.(fl := SubFlags(0, 0));
      EmittedSame(c4, op, m0, m, m', R);
      UnpinTwo(c5, t1, t2, m0, m', R);
    } else {
      var hi := Add(B, 7) / 8;
      m' := SetF(Set(m, t1, hi), t2, BitmapWord(m.marks.words, hi / 64), TestFlags(hi));
      if B / 8 in m.marks.words || hi in m.marks.words {
        assert Touches(B, B / 8) && Touches(B, hi);
        assert !Unmarked(B, m.marks) by { MarkedOne(B, m.marks); }
        StoredFree(p, c, m, m', R, t1, t2);
      } else {
        assert Unmarked(B, m.marks) by { UnmarkedBoth(B, m.marks); }
        TwoFree(c4, op, m0, m, R, t1, t2, m');
        UnpinTwo(c5, t1, t2, m0, m', R);
      }
    }
  }

  lemma MarkedOne(b: word, k: Marks)
    requires b / 8 in k.words || Add(b, 7) / 8 in k.words
    ensures !Unmarked(b, k)
  {
    assert Touches(b, b / 8) && Touches(b, Add(b, 7) / 8);
  }

  lemma UnmarkedBoth(b: word, k: Marks)
    requires b / 8 !in k.words && Add(b, 7) / 8 !in k.words
    ensures Unmarked(b, k)
  {
  }

  /** As Keeps, with two registers free to change and no longer pinned. */
  ghost predicate KeepsBut2(c: Jit, m: Machine, c': Jit, m': Machine, s: Reg, t: Reg) {
    && c'.movbe == c.movbe && c'.flagsLive == c.flagsLive && m'.marks == m.marks
    && (forall i: Reg | i != s && i != t :: c.regs[i].pinned ==> c'.regs[i].pinned && m'.regs[i] == m.regs[i])
    && (forall i: Reg | i != s && i != t :: Free(c, i) ==> Free(c', i))
  }

  lemma UnpinTwo(c: Jit, s: Reg, t: Reg, m0: Machine, m: Machine, R: Mem)
    requires Whole(c, m0, m, R)
    ensures Whole(Unpin(Unpin(c, s), t), m0, m, R)
  {
    hide Rd, Wr, Run, Good;
    PinGood(c, m0, m, R, s);
    PinGood(Unpin(c, s), m0, m, R, t);
  }

  lemma TwoFree(c: Jit, op: Op, m0: Machine, m: Machine, R: Mem, s: Reg, t: Reg, m': Machine)
    requires Whole(c, m0, m, R) && Free(c, s) && Free(c, t) && Exec(op, m) == Go(m')
    requires m' == m.(regs := m.regs[s := m'.regs[s]][t := m'.regs[t]], fl := m'.fl)
    ensures Whole(Emit(c, op), m0, m', R)
  {
    hide Rd, Wr, Run, Exec, Lookup;
    EmitOk(c, op, m0, m);
    FreeLookup(c, Emit(c, op), c.pendAddr);
  }

  /** What is held back is not in a free register. */
  lemma StoredFree(p: Pending, c: Jit, m: Machine, m': Machine, R: Mem, s: Reg, t: Reg)
    requires p == SnapPending(c).0 && Stored(p, m, R) && Free(c, s) && Free(c, t)
    requires m'.mem == m.mem && m'.regs == m.regs[s := m'.regs[s]][t := m'.regs[t]] && m'.log == m.log
    ensures Stored(p, m', R) && LoggedAt(p, m') == LoggedAt(p, m)
  {
    hide Wr, FindReg, FindConst, FindAlias;
  }
}
