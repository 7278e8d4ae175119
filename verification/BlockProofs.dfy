/** A block does what the interpreter does, whichever way it is left. */
module BlockProofs {
  import opened Options
  import opened Words
  import opened Memory
  import opened Subleq
  import opened X86
  import opened RegCache
  import opened CacheProofs
  import opened OperandProofs
  import opened Insn
  import opened InsnProofs
  import opened InsnCorrect
  import opened OwnC
  import opened OwnExact
  import opened Enough
  import opened LedgerInsn
  import opened CopyLoop
  import opened Blocks

  // --------------------------------------------------------------- stubs

  /** The registers a stub uses are the first four, never the stack pointer. */
  lemma StubRegisters(p: Pending, keep: int)
    ensures var t := NotThese(0, HeldReg(p), keep);
      var base := NotThese(t + 1, HeldReg(p), keep);
      t < base <= 3 && t != keep && base != keep && t != HeldReg(p) && base != HeldReg(p)
  {
  }

  lemma RunNone(m: Machine)
    ensures Run([], m) == Go(m)
  {
  }

  lemma RunOne(op: Op, m: Machine)
    ensures Run([op], m) == Exec(op, m)
  {
    hide Exec;
    assert [op][..0] == [];
  }

  lemma RunCons(op: Op, ops: seq<Op>, m: Machine)
    requires Exec(op, m).Go?
    ensures Run([op] + ops, m) == Run(ops, Exec(op, m).m)
  {
    hide Exec;
    RunConcat([op], ops, m);
    RunOne(op, m);
  }

  /** A stub stores what was held back, and keeps a register it needs. */
  lemma StubStoreOk(p: Pending, keep: int, movbe: bool, m: Machine, R: Mem)
    requires Stored(p, m, R)
    ensures var o := Run(StubStore(p, keep, movbe), m);
      o.Go? && o.m.mem == R && o.m.log == LoggedAt(p, m) && (0 <= keep < 11 ==> o.m.regs[keep] == m.regs[keep])
  {
    hide Rd, Wr, Run, NotThese;
    RunNone(m);
    if p.HeldBack? {
      StubRegisters(p, keep);
      var t := NotThese(0, HeldReg(p), keep);
      var base := NotThese(t + 1, HeldReg(p), keep);
      if FitsDisp(p.addr) {
        StubTail(p, t, Abs(p.addr), keep, movbe, m, R);
        assert StubStore(p, keep, movbe) == TailOf(p, t, Abs(p.addr), movbe);
      } else {
        var m1 := Set(m, base, p.addr);
        StubTail(p, t, Ind(base), keep, movbe, m1, R);
        RunCons(MovImm(base, p.addr), TailOf(p, t, Ind(base), movbe), m);
        assert StubStore(p, keep, movbe) == [MovImm(base, p.addr)] + TailOf(p, t, Ind(base), movbe);
      }
    }
  }

  function TailOf(p: Pending, t: Reg, dst: Opnd, movbe: bool): seq<Op>
    requires p.HeldBack? && p.v != NoVal
  {
    match p.v
    case Const(x) => [MovImm(t, Bswap(x)), Store(dst, t)]
    case InReg(r) =>
      if movbe then [StoreBE(dst, r)] else [MovRR(t, r), BswapR(t), Store(dst, t)]
    case NegReg(r) =>
      [MovRR(t, r), NegR(t)] + if movbe then [StoreBE(dst, t)] else [BswapR(t), Store(dst, t)]
  }

  lemma StubTail(p: Pending, t: Reg, dst: Opnd, keep: int, movbe: bool, m: Machine, R: Mem)
    requires p.HeldBack? && p.v != NoVal && R == Wr(m.mem, p.addr, ValueOf(p.v, m)) && EA(dst, m) == p.addr
    requires t != keep && (dst.Ind? ==> dst.base != t) && t != HeldReg(p)
    ensures var o := Run(TailOf(p, t, dst, movbe), m);
      o.Go? && o.m.mem == R && o.m.log == m.log + [(p.addr, ValueOf(p.v, m))] && (0 <= keep < 11 ==> o.m.regs[keep] == m.regs[keep])
  {
    hide Rd, Wr, Run, Bswap;
    match p.v
    case Const(x) =>
      BswapTwice(x);
      RunTwo(MovImm(t, Bswap(x)), Store(dst, t), m);
    case InReg(r) =>
      if movbe {
        RunOne(StoreBE(dst, r), m);
      } else {
        BswapTwice(m.regs[r]);
        RunThree(MovRR(t, r), BswapR(t), Store(dst, t), m);
      }
    case NegReg(r) =>
      var m1 := SetF(Set(m, t, m.regs[r]), t, Neg(m.regs[r]), SubFlags(0, m.regs[r]));
      RunTwo(MovRR(t, r), NegR(t), m);
      BswapTwice(Neg(m.regs[r]));
      if movbe {
        RunOne(StoreBE(dst, t), m1);
        RunConcat([MovRR(t, r), NegR(t)], [StoreBE(dst, t)], m);
      } else {
        RunTwo(BswapR(t), Store(dst, t), m1);
        RunConcat([MovRR(t, r), NegR(t)], [BswapR(t), Store(dst, t)], m);
      }
  }

  lemma RunTwo(a: Op, b: Op, m: Machine)
    requires Exec(a, m).Go?
    ensures Run([a, b], m) == Exec(b, Exec(a, m).m)
  {
    hide Exec;
    assert [a, b] == [a] + [b];
    RunCons(a, [b], m);
    RunOne(b, Exec(a, m).m);
  }

  lemma RunThree(a: Op, b: Op, c: Op, m: Machine)
    requires Exec(a, m).Go? && Exec(b, Exec(a, m).m).Go?
    ensures Run([a, b, c], m) == Exec(c, Exec(b, Exec(a, m).m).m)
  {
    hide Exec;
    assert [a, b, c] == [a] + [b, c];
    RunCons(a, [b, c], m);
    RunTwo(b, c, Exec(a, m).m);
  }

  // ------------------------------------------------------------- the marks

  /** No marked word changed. */
  ghost predicate MarksKept(m: Mem, n: Mem, words: set<int>) {
    forall w | w in words && 0 <= 8 * w < TWO64 :: Rd(n, 8 * w) == Rd(m, 8 * w)
  }

  lemma UnmarkedKeeps(m: Mem, b: word, x: word, k: Marks)
    requires Unmarked(b, k) && b + 16 <= TWO64
    ensures MarksKept(m, Wr(m, b, x), k.words)
  {
    hide Rd, Wr;
    assert Touches(b, b / 8) && Touches(b, Add(b, 7) / 8);
    forall w | w in k.words && 0 <= 8 * w < TWO64
      ensures Rd(Wr(m, b, x), 8 * w) == Rd(m, 8 * w)
    {
      RdWrOther(m, b, x, 8 * w);
    }
  }

  lemma MarksKeptTrans(a: Mem, b: Mem, c: Mem, words: set<int>)
    requires MarksKept(a, b, words) && MarksKept(b, c, words)
    ensures MarksKept(a, c, words)
  {
    hide Rd;
  }

  // -------------------------------------------------- the order of stores

  /** A store of the interpreter, and what was there. */
  datatype Entry = Entry(addr: word, was: word, now: word)

  function EntryOf(s: Cpu): Entry {
    var a, b := Rd(s.mem, s.eip), Rd(s.mem, Add(s.eip, 8));
    Entry(b, Rd(s.mem, b), Sub(Rd(s.mem, b), Rd(s.mem, a)))
  }

  /** The stores of the next n steps. */
  function Trace(s: Cpu, n: nat): seq<Entry> {
    if n == 0 then [] else Trace(s, n - 1) + [EntryOf(Steps(s, n - 1))]
  }

  /** L lists stores of T, in T's order. An entry of T may be absent from L if it
      changed nothing, or if the entry of L that comes next has its address. */
  ghost predicate Thin(T: seq<Entry>, L: seq<(word, word)>)
    decreases |T|
  {
    if T == [] then L == []
    else
      var t, rest := T[|T| - 1], T[..|T| - 1];
      || (t.now == t.was && Thin(rest, L))
      || (L != [] && L[|L| - 1] == (t.addr, t.now) &&
          (Thin(rest, L[..|L| - 1]) || exists v: word :: Thin(rest, L[..|L| - 1] + [(t.addr, v)])))
  }

  lemma ThinMore(T: seq<Entry>, t: Entry, L: seq<(word, word)>, L': seq<(word, word)>)
    requires Thin(T, L) && LogStep(L, L', t.addr, t.was, t.now)
    ensures Thin(T + [t], L')
  {
    assert (T + [t])[..|T|] == T;
    if !(t.now == t.was && L' == L) {
      if L' == L + [(t.addr, t.now)] {
        assert L'[..|L'| - 1] == L;
      } else {
        assert L'[..|L'| - 1] == L[..|L| - 1];
        var v := L[|L| - 1].1;
        assert L[..|L| - 1] + [(t.addr, v)] == L;
      }
    }
  }

  // ---------------------------------------------------------- the body

  /** The instruction at s.eip, and its operands, lie in memory. */
  ghost predicate InBounds(s: Cpu, memSize: int) {
    && s.eip + 24 <= memSize <= 0x4000_0000_0000_0000
    && Rd(s.mem, s.eip) + 8 <= memSize && Rd(s.mem, Add(s.eip, 8)) + 8 <= memSize
  }

  /** So do those of the next n steps. */
  ghost predicate SafeFor(s: Cpu, n: nat, memSize: int) {
    forall j: nat | j < n :: InBounds(Steps(s, j), memSize)
  }

  /** Where a stub taken at t goes: on as the interpreter, but by a stub that has
      C in the register with the result of a store to it, to what C is now. */
  ghost predicate GoesTo(r: StubRec, t: Cpu, target: word) {
    var q := Add(t.eip, 16);
    target == if Through(r, q) && OwnJump(t) then Rd(Step(t).mem, q) else Step(t).eip
  }

  /** The reference run of a block, i instructions in, and its stores. */
  ghost predicate Reached(start: word, m0: Machine, i: nat, R: Mem, L: seq<(word, word)>)
    requires start + 24 * i < TWO64
  {
    && Steps(Cpu(m0.mem, start), i) == Cpu(R, start + 24 * i) && MarksKept(m0.mem, R, m0.marks.words)
    && Thin(Trace(Cpu(m0.mem, start), i), L)
  }

  /** The static fields of the instructions up to n hold what was baked. */
  ghost predicate StaticsHold(w: World, dyn: set<int>, start: word, n: nat, m0: Machine) {
    forall a: word | start <= a < start + 24 * n && a % 8 == 0 && a / 8 !in dyn ::
      Rd(m0.mem, a) == Rd(w.mem, a) && a / 8 in m0.marks.words
  }

  /** Where the code left, the reference run is, once the stub has stored. */
  ghost predicate LeavesRight(code: seq<Op>, stubs: seq<StubRec>, smcs: seq<SmcRec>, start: word, n: nat, m0: Machine)
    requires start + 24 * n < TWO64
  {
    match Run(code, m0)
    case Go(_) => false
    case Left(Smc(k), m) =>
      && k < |smcs| && smcs[k].idx < n
      && var j := smcs[k].idx;
         var s := Steps(Cpu(m0.mem, start), j);
         && s.eip == start + 24 * j && Stored(smcs[k].pend, m, s.mem)
         && Thin(Trace(Cpu(m0.mem, start), j), LoggedAt(smcs[k].pend, m))
         && MarksKept(m0.mem, s.mem, m0.marks.words) && !Unmarked(Rd(s.mem, Add(s.eip, 8)), m0.marks)
    case Left(Stub(k), m) =>
      && k < |stubs| && stubs[k].idx < n
      && var r := stubs[k];
         var t, s := Steps(Cpu(m0.mem, start), r.idx), Steps(Cpu(m0.mem, start), r.idx + 1);
         && (r.dyn ==> t.eip == start + 24 * r.idx) && GoesTo(r, t, if r.dyn then m.regs[r.creg] else r.target) && Stored(r.pend, m, s.mem)
         && Thin(Trace(Cpu(m0.mem, start), r.idx + 1), LoggedAt(r.pend, m))
         && MarksKept(m0.mem, s.mem, m0.marks.words)
  }

  ghost predicate LeftRight(d: Build, start: word, n: nat, m0: Machine)
    requires start + 24 * n < TWO64
  {
    LeavesRight(d.c.code, d.stubs, d.smcs, start, n, m0)
  }

  /** The block's translation is done, and runs right. */
  ghost predicate BodyDone(n: nat, ended: bool, d: Build, start: word, m0: Machine, m: Machine, R: Mem)
    requires start + 24 * n < TWO64
  {
    LeftRight(d, start, n, m0) || (!ended && Whole(d.c, m0, m, R) && m.marks == m0.marks && Reached(start, m0, n, R, LogOf(d.c, m, R)))
  }

  lemma StaticSource(w: World, dyn: set<int>, start: word, i: nat, n: nat, m0: Machine, R: Mem)
    requires i < n && start % 8 == 0 && start + 24 * n + 24 < TWO64 && StaticsHold(w, dyn, start, n, m0)
    requires MarksKept(m0.mem, R, m0.marks.words)
    ensures StaticOk(SourceAt(w, dyn, start, i), R)
  {
    hide Rd, StaticsHold, MarksKept;
    var p := start + 24 * i;
    StaticField(w, dyn, start, n, m0, R, p);
    StaticField(w, dyn, start, n, m0, R, p + 8);
    StaticField(w, dyn, start, n, m0, R, p + 16);
  }

  lemma StaticField(w: World, dyn: set<int>, start: word, n: nat, m0: Machine, R: Mem, a: word)
    requires start <= a < start + 24 * n && a % 8 == 0 && StaticsHold(w, dyn, start, n, m0)
    requires MarksKept(m0.mem, R, m0.marks.words)
    ensures a / 8 !in dyn ==> Rd(R, a) == Rd(w.mem, a)
  {
    hide Rd;
    if a / 8 !in dyn {
      var v := a / 8;
      assert 8 * v == a && v in m0.marks.words;
      assert Rd(R, 8 * v) == Rd(m0.mem, 8 * v);
    }
  }

  /** Where an instruction's stub goes. */
  lemma StubGoes(c: Jit, d: Build, s: Source, n: nat, m0: Machine, R: Mem, L: seq<(word, word)>)
    requires Taken(ValB(s, R), ValA(s, R)) && s.p + 24 < TWO64
    requires LeftStub(d, m0, s.i, n, NewMem(s, R), if GoesAstray(c, s, R) then Sub(ValB(s, R), ValA(s, R)) else ValC(s, R), L)
    requires GoesAstray(c, s, R) ==> n < |d.stubs| && Through(d.stubs[n], Add(s.p, 16))
    ensures var r, o := d.stubs[n], Run(d.c.code, m0);
      GoesTo(r, Cpu(R, s.p), if r.dyn then o.m.regs[r.creg] else r.target)
  {
    hide Rd, Wr, Run, OwnInReg, LoggedAt;
    var q, r, m := Add(s.p, 16), d.stubs[n], Run(d.c.code, m0).m;
    StepIs(s, R);
    if OwnJump(Cpu(R, s.p)) && Through(r, q) {
      RdWrSame(R, q, Sub(ValB(s, R), ValA(s, R)));
      RdWrSame(m.mem, q, m.regs[r.creg]);
    }
  }

  /** One instruction further. */
  lemma BodyStep(b: Build, d: Build, ended: bool, w: World, dyn: set<int>, k: Checks, start: word, i: nat, n: nat,
                 m0: Machine, m: Machine, R: Mem) returns (m': Machine)
    requires i < n && start % 8 == 0 && start + 24 * n <= w.memSize <= 0x4000_0000_0000_0000
    requires Whole(b.c, m0, m, R) && !b.c.flagsLive && m.marks == m0.marks && Reached(start, m0, i, R, LogOf(b.c, m, R))
    requires StaticsHold(w, dyn, start, i + 1, m0) && InBounds(Cpu(R, start + 24 * i), w.memSize)
    requires ChecksHold(k, m0.marks) && PagesCover(m0.marks)
    requires TranslateInsn(b, SourceAt(w, dyn, start, i), k) == Some((ended, d)) && Ready(b.c)
    ensures Ready(d.c)
    ensures LeftRight(d, start, i + 1, m0) ||
      (!ended && Whole(d.c, m0, m', NewMem(SourceAt(w, dyn, start, i), R)) && !d.c.flagsLive && m'.marks == m0.marks
       && Reached(start, m0, i + 1, NewMem(SourceAt(w, dyn, start, i), R), LogOf(d.c, m', NewMem(SourceAt(w, dyn, start, i), R))))
  {
    hide Rd, Wr, Run, Whole, TranslateInsn, ChecksHold, PagesCover, StaticsHold, MarksKept, Unmarked, Stored, GoesAstray;
    hide GoesTo, LoggedAt, LogOf, LogStep, Thin;
    hide Through, Ready;
    var s := SourceAt(w, dyn, start, i);
    StaticSource(w, dyn, start, i, i + 1, m0, R);
    var L := LogOf(b.c, m, R);
    var L';
    m', L' := InsnExact(b, s, k, m0, m, R);
    InsnEnough(b, s, k);
    StepIs(s, R);
    if !LeftSmc(d, m0, i, R, AddrB(s, R), L) {
      ThinMore(Trace(Cpu(m0.mem, start), i), EntryOf(Cpu(R, s.p)), L, L');
      UnmarkedKeeps(R, AddrB(s, R), Sub(ValB(s, R), ValA(s, R)), m0.marks);
      MarksKeptTrans(m0.mem, R, NewMem(s, R), m0.marks.words);
      var target := if GoesAstray(b.c, s, R) then Sub(ValB(s, R), ValA(s, R)) else ValC(s, R);
      if Taken(ValB(s, R), ValA(s, R)) && LeftStub(d, m0, s.i, |b.stubs|, NewMem(s, R), target, L') {
        StubGoes(b.c, d, s, |b.stubs|, m0, R, L');
      }
    }
  }

  lemma StepIs(s: Source, R: Mem)
    ensures Step(Cpu(R, s.p)) == Cpu(NewMem(s, R), if Taken(ValB(s, R), ValA(s, R)) then ValC(s, R) else Add(s.p, 24))
  {
    hide Rd, Wr;
  }

  lemma LeftRightStays(d: Build, e: Build, start: word, n: nat, n': nat, m0: Machine)
    requires n <= n' && start + 24 * n' < TWO64 && LeftRight(d, start, n, m0) && Extends(d, e)
    ensures LeftRight(e, start, n', m0)
  {
    hide Rd, Run, Steps, Stored, MarksKept, Unmarked, Thin, Trace, LoggedAt, GoesTo;
    RunPrefix(d.c.code, e.c.code, m0);
  }

  lemma {:induction false} BodyOk(b: Build, w: World, dyn: set<int>, k: Checks, start: word, i: nat, n: nat,
                                  m0: Machine, m: Machine, R: Mem) returns (m': Machine, R': Mem)
    requires i <= n && start % 8 == 0 && start + 24 * n <= w.memSize <= 0x4000_0000_0000_0000
    requires Whole(b.c, m0, m, R) && !b.c.flagsLive && m.marks == m0.marks && Reached(start, m0, i, R, LogOf(b.c, m, R))
    requires TranslateFrom(b, w, dyn, k, start, i, n).Some? && Ready(b.c)
    requires StaticsHold(w, dyn, start, TranslateFrom(b, w, dyn, k, start, i, n).value.0, m0)
    requires SafeFor(Cpu(m0.mem, start), TranslateFrom(b, w, dyn, k, start, i, n).value.0, w.memSize)
    requires ChecksHold(k, m0.marks) && PagesCover(m0.marks)
    ensures var (n', ended, d) := TranslateFrom(b, w, dyn, k, start, i, n).value;
      BodyDone(n', ended, d, start, m0, m', R')
    decreases n - i
  {
    hide Rd, Wr, Run, Whole, TranslateInsn, ChecksHold, PagesCover, MarksKept, InBounds, LeftRight, Steps, NewMem, Thin, Trace, LogOf;
    hide Ready;
    m', R' := m, R;
    if i < n {
      var s := SourceAt(w, dyn, start, i);
      var (ended, d) := TranslateInsn(b, s, k).value;
      var (n', ended', e) := TranslateFrom(b, w, dyn, k, start, i, n).value;
      FewerStatics(w, dyn, start, i + 1, n', m0);
      m' := BodyStep(b, d, ended, w, dyn, k, start, i, n, m0, m, R);
      R' := NewMem(s, R);
      if LeftRight(d, start, i + 1, m0) {
        LeftRightStays(d, e, start, i + 1, n', m0);
      } else if !ended {
        var m1 := m';
        m', R' := BodyOk(d, w, dyn, k, start, i + 1, n, m0, m1, R');
      }
    }
  }

  lemma FewerStatics(w: World, dyn: set<int>, start: word, i: nat, n: nat, m0: Machine)
    requires i <= n && StaticsHold(w, dyn, start, n, m0)
    ensures StaticsHold(w, dyn, start, i, m0)
  {
    hide Rd;
  }
}
