/** Running a whole block, the bulk copy included, is some number of the
    interpreter's steps: as many as it takes from the budget. */
module RunProofs {
  import opened Options
  import opened Words
  import opened Memory
  import opened Subleq
  import opened X86
  import opened RegCache
  import opened CacheProofs
  import opened Operands
  import opened OperandProofs
  import opened Insn
  import opened InsnProofs
  import opened InsnCorrect
  import opened OwnC
  import opened OwnExact
  import opened Enough
  import opened LedgerInsn
  import opened Cells
  import opened CopyLoop
  import opened CopyProofs
  import opened Blocks
  import opened BlockProofs

  /** b was translated in world w. */
  ghost predicate Translated(b: Block, w: World) {
    b.start % 8 == 0 && b.start + 24 <= w.memSize <= 0x4000_0000_0000_0000 && Translate(w, b.start) == Some(b)
  }

  /** Four words at 0 are clear of the loop and the variables it changes. */
  predicate FromZero(d: Desc) {
    d.start >= 32 && d.t1 >= 32 && d.t2 >= 32 && d.sv >= 32 && d.dv >= 32 && d.cv >= 32
  }

  /** And of the constant it moves by, and of the pages that are checked. */
  predicate ToZero(b: Block, d: Desc) {
    FromZero(d) && d.mv >= 32 && forall a | a in b.baked :: a >= 0x2000
  }

  /** The C fields that the loop of a bulk copy never uses: those of the
      instructions that move S and D, and of those that put S and D into a
      pointer, which branch only where it is 0. */
  predicate UnusedC(b: Block, d: Desc, k: nat) {
    k == 16 || k == 17 || (k == 4 && !FromZero(d)) || (k in {11, 12, 13} && !ToZero(b, d))
  }

  /** The body is the whole loop, and any of its other fields are baked. */
  ghost predicate Harmless(b: Block, d: Desc, dyn: set<int>)
    requires b.start + LOOP_LEN < TWO64
  {
    b.n == 19 && forall k: nat, f: nat | k < 19 && f < 3 && !Patched(k, f) && (b.start + 24 * k + 8 * f) / 8 in dyn :: f == 2 && UnusedC(b, d, k)
  }

  /** And if it is a copy loop, it is harmless that not all of it is baked. */
  ghost predicate Made(b: Block, w: World) {
    Translated(b, w) && (b.copy.Some? ==> b.start + LOOP_LEN < TWO64 && Harmless(b, b.copy.value, DynWords(w, b.start)))
  }

  /** The static fields of b are marked, and hold what was baked. */
  ghost predicate BakedHold(b: Block, mem: Mem, marks: Marks) {
    forall a | a in b.baked :: Rd(mem, a) == b.baked[a] && a / 8 in marks.words
  }

  ghost predicate MarksIn(marks: Marks, memSize: int) {
    PagesCover(marks) && forall w | w in marks.words :: 0 <= w < memSize / 8
  }

  // ---------------------------------------------------------------- the body

  lemma FallOutOk(b: Build, start: word, n: nat, m0: Machine, m: Machine, R: Mem)
    requires 0 < n && start + 24 * n < TWO64 && Whole(b.c, m0, m, R) && m.marks == m0.marks && Reached(start, m0, n, R, LogOf(b.c, m, R))
    ensures LeftRight(FallOut(b, start, n), start, n, m0)
  {
    hide Rd, Wr, Run, Step, Steps, MarksKept, Stored, Lookup, LoggedAt, LogOf, Thin, Trace;
    StepsNext(Cpu(m0.mem, start), n - 1);
    SnapOk(b.c, m0, m, R);
    var (p, c1) := SnapPending(b.c);
    EmitOk(c1, Jmp(Stub(|b.stubs|)), m0, m);
  }

  lemma EmptyOk(w: World, start: word, copy: Option<Desc>, m0: Machine)
    requires copy.Some? ==> start + LOOP_LEN < TWO64
    ensures Whole(EmptyBuild(w, start, copy).c, m0, m0, m0.mem) && !EmptyBuild(w, start, copy).c.flagsLive && Ready(EmptyBuild(w, start, copy).c)
    ensures m0.log == [] ==> Reached(start, m0, 0, m0.mem, LogOf(EmptyBuild(w, start, copy).c, m0, m0.mem))
  {
    hide Rd, Wr, Lookup, Ready;
    EmptyReady(w.movbe, w.turns);
  }

  /** The pieces of a translation. */
  lemma MadeParts(b: Block, w: World) returns (copy: Option<Desc>, n: nat, dyn: set<int>, k: Checks, d: Build, ended: bool)
    requires Translated(b, w)
    ensures
      && copy == b.copy && dyn == DynWords(w, b.start) && b.movbe == w.movbe && b.n <= n && 0 < n <= MAX_BLOCK
      && b.start + 24 * n <= w.memSize && k == Checks(b.hoist, w.memSize / 8) && b.hoist == Hoisted(w, dyn, b.start, n)
      && (copy.Some? ==> n == 19 && FindCopy(w.mem, w.dynMap, b.start, w.memSize) == copy)
      && TranslateFrom(EmptyBuild(w, b.start, copy), w, dyn, k, b.start, 0, n) == Some((b.n, ended, d))
      && b.baked == Baked(w, dyn, b.start, b.n) && (!ended ==> b.n == n)
      && var e := if ended then d else FallOut(d, b.start, b.n);
         b.code == e.c.code && b.stubs == e.stubs && b.smcs == e.smcs
  {
    hide FindCopy, TranslateFrom, Hoisted, Extent, Rd;
    var start := b.start;
    var found := FindCopy(w.mem, w.dynMap, start, w.memSize);
    n := Extent(w, start, found.Some?, 0).0;
    dyn := DynWords(w, start);
    copy := if n == 19 then found else None;
    k := Checks(Hoisted(w, dyn, start, n), w.memSize / 8);
    ended := TranslateFrom(EmptyBuild(w, start, copy), w, dyn, k, start, 0, n).value.1;
    d := TranslateFrom(EmptyBuild(w, start, copy), w, dyn, k, start, 0, n).value.2;
  }

  lemma MadeBounds(b: Block, w: World)
    requires Translated(b, w)
    ensures 0 < b.n <= MAX_BLOCK && b.start + 24 * b.n <= w.memSize
    ensures b.copy.Some? ==> VarsOk(b.copy.value, w.memSize) && b.copy.value.start == b.start && b.n <= 19
  {
    hide Translate, VarsOk, LoopIn;
    var copy, n, dyn, k, d, ended := MadeParts(b, w);
  }

  /** Wherever a block's body is left, the reference run is there too. */
  lemma BodyLeaves(b: Block, w: World, m0: Machine)
    requires Made(b, w) && b.start + 24 * b.n < TWO64 && BakedHold(b, m0.mem, m0.marks) && MarksIn(m0.marks, w.memSize)
    requires !HoistMarked(b, m0.marks) && SafeFor(Cpu(m0.mem, b.start), b.n, w.memSize) && m0.log == []
    ensures LeavesRight(b.code, b.stubs, b.smcs, b.start, b.n, m0)
  {
    hide Rd, Wr, Run, Translated, Harmless, Whole, TranslateFrom, PagesCover, Steps, Hoisted, LeavesRight, Reached, SafeFor;
    hide FallOut, EmptyBuild, DynWords, LogOf;
    var copy, n, dyn, k, d, ended := MadeParts(b, w);
    EmptyOk(w, b.start, copy, m0);
    HoistChecks(b, k, m0.marks);
    BakedStatics(b, w, dyn, m0);
    MadeAligned(b, w);
    var m, R := BodyOk(EmptyBuild(w, b.start, copy), w, dyn, k, b.start, 0, n, m0, m0, m0.mem);
    if LeftRight(d, b.start, b.n, m0) {
      if !ended {
        LeftRightStays(d, FallOut(d, b.start, b.n), b.start, b.n, b.n, m0);
      }
    } else {
      FallOutOk(d, b.start, b.n, m0, m, R);
    }
  }

  lemma MadeAligned(b: Block, w: World)
    requires Translated(b, w)
    ensures b.start % 8 == 0 && w.memSize <= 0x4000_0000_0000_0000
  {
    hide Translate, TemplateStatic;
  }

  lemma HoistChecks(b: Block, k: Checks, marks: Marks)
    requires !HoistMarked(b, marks) && k.hoist == b.hoist
    requires forall w | w in marks.words :: 0 <= w < k.memWords
    ensures ChecksHold(k, marks)
  {
  }

  lemma BakedStatics(b: Block, w: World, dyn: set<int>, m0: Machine)
    requires b.start + 24 * b.n < TWO64 && b.baked == Baked(w, dyn, b.start, b.n) && BakedHold(b, m0.mem, m0.marks)
    ensures StaticsHold(w, dyn, b.start, b.n, m0)
  {
    hide Rd;
    forall a: word | b.start <= a < b.start + 24 * b.n && a % 8 == 0 && a / 8 !in dyn
      ensures Rd(m0.mem, a) == Rd(w.mem, a) && a / 8 in m0.marks.words
    {
      assert a in b.baked;
    }
  }

  // ------------------------------------------------------------ leaving it

  /** Left by a stub that has C in the register with the result. */
  predicate ByOwn(b: Block, cause: Cause) {
    cause.ByReg? && cause.k < |b.stubs| && var r := b.stubs[cause.k]; 0 <= b.start + 24 * r.idx + 16 < TWO64 && Through(r, b.start + 24 * r.idx + 16)
  }

  /** The last of n steps from s is an own jump, which ends in t: not where the
      interpreter goes, but where its C points now. */
  ghost predicate Strayed(s: Cpu, n: nat, t: Cpu) {
    n > 0 && var u := Steps(s, n - 1); OwnJump(u) && t == Cpu(Step(u).mem, Rd(Step(u).mem, Add(u.eip, 16))) && t.eip != Step(u).eip
  }

  lemma StrayedIs(s: Cpu, n: nat, t: Cpu)
    requires n > 0 && OwnJump(Steps(s, n - 1)) && t.mem == Step(Steps(s, n - 1)).mem && t.eip == Rd(t.mem, Add(Steps(s, n - 1).eip, 16))
    ensures Strayed(s, n, t)
  {
    hide Rd, Wr, Steps;
    var u := Steps(s, n - 1);
    var a, b := Rd(u.mem, u.eip), Rd(u.mem, Add(u.eip, 8));
    RdWrSame(u.mem, b, Sub(Rd(u.mem, b), Rd(u.mem, a)));
  }

  /** The interpreter's memory and next instruction after n steps; but an own
      jump by a stub of its instruction that has C in the register strays. */
  ghost predicate Arrives(b: Block, mem: Mem, n: nat, L: Leave) {
    var s := Cpu(mem, b.start);
    if n > 0 && ByOwn(b, L.cause) && OwnJump(Steps(s, n - 1)) then
      Strayed(s, n, Cpu(L.mem, L.eip)) && Steps(s, n - 1).eip == b.start + 24 * b.stubs[L.cause.k].idx
    else Steps(s, n) == Cpu(L.mem, L.eip)
  }

  /** Left with the memory and the next instruction of the interpreter after as
      many steps as were taken from the budget, but for own jumps, no marked word
      changed; and what the dispatcher then relies on. */
  ghost predicate LeaveOk(b: Block, mem: Mem, budget: nat, L: Leave, x: Context) {
    && 0 <= L.budget <= budget
    && Arrives(b, mem, budget - L.budget, L)
    && MarksKept(mem, L.mem, x.marks.words)
    && match L.cause
       case Slow => L.budget == budget ==> budget < b.n
       case Watched => L.eip == b.start && x.watch.Some? && Rd(L.mem, x.watch.value.0) != x.watch.value.1
       case HoistHit => L.eip == b.start && HoistMarked(b, x.marks)
       case SmcStore => L.budget > 0 && !Unmarked(Rd(L.mem, Add(L.eip, 8)), x.marks)
       case ByReg(k) => L.budget < budget && k < |b.stubs| && b.stubs[k].dyn
       case ByStub(k) => L.budget < budget && k < |b.stubs| && !b.stubs[k].dyn && b.stubs[k].target == L.eip
  }

  lemma RunBodyOk(b: Block, mem: Mem, budget: nat, x: Context)
    requires b.start + 24 * b.n < TWO64 && b.n <= budget
    requires LeavesRight(b.code, b.stubs, b.smcs, b.start, b.n, Machine(x.regs, x.fl, mem, x.marks, []))
    ensures LeaveOk(b, mem, budget, RunBody(b, mem, budget - b.n, x), x)
  {
    hide Rd, Wr, Run, Step, Steps, MarksKept, Stored, Unmarked, StubStore, OwnJump;
    var m0 := Machine(x.regs, x.fl, mem, x.marks, []);
    match Run(b.code, m0)
    case Left(Smc(k), m) =>
      var s := Steps(Cpu(mem, b.start), b.smcs[k].idx);
      StubStoreOk(b.smcs[k].pend, -1, b.movbe, m, s.mem);
    case Left(Stub(k), m) =>
      var r := b.stubs[k];
      var s := Steps(Cpu(mem, b.start), r.idx + 1);
      StepsNext(Cpu(mem, b.start), r.idx);
      StubStoreOk(r.pend, if r.dyn then r.creg else -1, b.movbe, m, s.mem);
      var L := RunBody(b, mem, budget - b.n, x);
      assert budget - L.budget == r.idx + 1;
      if ByOwn(b, L.cause) && OwnJump(Steps(Cpu(mem, b.start), r.idx)) {
        StrayedIs(Cpu(mem, b.start), r.idx + 1, Cpu(L.mem, L.eip));
      }
  }

  lemma SafeTail(s: Cpu, n: nat, k: nat, memSize: int)
    requires SafeFor(s, n, memSize) && k <= n
    ensures SafeFor(Steps(s, k), n - k, memSize)
    ensures SafeFor(s, k, memSize)
  {
    hide Steps, InBounds;
    forall j: nat | j < n - k
      ensures InBounds(Steps(Steps(s, k), j), memSize)
    {
      StepsAdd(s, k, j);
      assert InBounds(Steps(s, k + j), memSize);
    }
  }

  lemma BakedKept(b: Block, m: Mem, n: Mem, marks: Marks)
    requires BakedHold(b, m, marks) && MarksKept(m, n, marks.words) && forall a | a in b.baked :: a % 8 == 0
    ensures BakedHold(b, n, marks)
  {
    hide Rd;
    forall a | a in b.baked
      ensures Rd(n, a) == b.baked[a]
    {
      var w := a / 8;
      assert 8 * w == a && w in marks.words;
      assert Rd(n, 8 * w) == Rd(m, 8 * w);
    }
  }

  lemma BakedAligned(b: Block, w: World)
    requires Translated(b, w)
    ensures forall a | a in b.baked :: a % 8 == 0 && b.start <= a < b.start + 24 * b.n
  {
    hide Translated, Harmless, Rd, Hoisted, TranslateFrom, FindCopy;
    var copy, n, dyn, k, d, ended := MadeParts(b, w);
  }

  // ----------------------------------------------------------- the copy loop

  lemma EndedBranches(b: Build, s: Source, k: Checks)
    requires TranslateInsn(b, s, k).Some? && TranslateInsn(b, s, k).value.0
    ensures s.dc || s.fc != Add(s.p, 24)
  {
    hide CheckStore, Arithmetic, StoreResult, UpdateSpanned, UnpinAll, CacheFind;
  }

  /** None of the loop's instructions but the last ends its block. */
  lemma {:induction false} WholeLoop(b: Build, w: World, dyn: set<int>, k: Checks, d: Desc, sd: bool, i: nat)
    requires i <= 18 && d.start + LOOP_LEN < TWO64 && LoopIn(w.mem, d, sd) && TemplateStatic(d.start, dyn)
    requires TranslateFrom(b, w, dyn, k, d.start, i, 19).Some?
    ensures TranslateFrom(b, w, dyn, k, d.start, i, 19).value.0 == 19
    decreases 19 - i
  {
    hide Rd, TranslateInsn;
    if i < 18 {
      var s := SourceAt(w, dyn, d.start, i);
      assert !Patched(i, 2);
      assert Rd(w.mem, d.start + 24 * i + 16) == TmplC(d, i);
      var (ended, e) := TranslateInsn(b, s, k).value;
      if ended {
        EndedBranches(b, s, k);
        assert false;
      }
      WholeLoop(e, w, dyn, k, d, sd, i + 1);
    } else {
      var r := TranslateFrom(b, w, dyn, k, d.start, 18, 19).value.0;
    }
  }

  lemma FoundLoop(m: Mem, dyn: set<int>, start: word, memSize: int)
    requires memSize <= 0x4000_0000_0000_0000 && FindCopy(m, dyn, start, memSize).Some?
    ensures var d := FindCopy(m, dyn, start, memSize).value;
      d.start == start && start + LOOP_LEN < TWO64 && VarsOk(d, memSize) && exists sd :: LoopIn(m, d, sd)
  {
    hide Rd;
  }

  /** A loop all of whose fields but those it patches are baked is harmless. */
  lemma StaticMade(b: Block, w: World)
    requires Translated(b, w) && b.copy.Some? && b.start + LOOP_LEN < TWO64 && TemplateStatic(b.start, DynWords(w, b.start))
    ensures Made(b, w)
  {
    hide Rd, TranslateFrom, FindCopy, LoopIn, Hoisted, VarsOk, Translated, TemplateStatic, Harmless, DynWords;
    var copy, n, dyn, k, d, ended := MadeParts(b, w);
    MadeAligned(b, w);
    FoundLoop(w.mem, w.dynMap, b.start, w.memSize);
    var sd :| LoopIn(w.mem, copy.value, sd);
    WholeLoop(EmptyBuild(w, b.start, copy), w, dyn, k, copy.value, sd, 0);
    StaticHarmless(b, copy.value, dyn);
  }

  lemma StaticHarmless(b: Block, d: Desc, dyn: set<int>)
    requires b.start + LOOP_LEN < TWO64 && TemplateStatic(b.start, dyn) && b.n == 19
    ensures Harmless(b, d, dyn)
  {
  }

  lemma LoopSize(b: Block, w: World)
    requires Made(b, w) && b.copy.Some?
    ensures b.n == 19
  {
    hide Translated;
  }

  lemma FieldBaked(b: Block, w: World, k: nat, f: nat)
    requires Translated(b, w) && b.copy.Some? && b.n == 19 && k < 19 && f < 3
    ensures b.start + LOOP_LEN < TWO64 && w.memSize <= 0x4000_0000_0000_0000
    ensures var a := b.start + 24 * k + 8 * f; a / 8 !in DynWords(w, b.start) ==> a in b.baked && b.baked[a] == Rd(w.mem, a)
  {
    hide Rd, TranslateFrom, FindCopy, Hoisted, VarsOk, Translated, DynWords;
    MadeAligned(b, w);
    MadeBounds(b, w);
    var copy, n, dyn, kk, d, ended := MadeParts(b, w);
  }

  /** The loop is still there when the block runs, but for some C fields. */
  lemma LoopStays(b: Block, w: World, mem: Mem, marks: Marks) returns (sd: bool, loose: set<nat>)
    requires Made(b, w) && b.copy.Some? && BakedHold(b, mem, marks)
    ensures b.start + LOOP_LEN < TWO64 && b.copy.value.start == b.start && LoopBut(mem, b.copy.value, sd, loose)
    ensures forall k | k in loose :: k < 19 && UnusedC(b, b.copy.value, k)
  {
    hide Rd, TranslateFrom, FindCopy, Hoisted, VarsOk, Translated, DynWords, LoopIn;
    MadeBounds(b, w);
    MadeAligned(b, w);
    var copy, n, dyn, kk, e, ended := MadeParts(b, w);
    FoundLoop(w.mem, w.dynMap, b.start, w.memSize);
    var d := copy.value;
    sd :| LoopIn(w.mem, d, sd);
    loose := set k: nat | k < 19 && (b.start + 24 * k + 16) / 8 in dyn;
    forall k: nat, f: nat | k < 19 && f < 3 && !Patched(k, f) && !(f == 2 && k in loose)
      ensures Rd(mem, d.start + 24 * k + 8 * f) == Rd(w.mem, d.start + 24 * k + 8 * f)
    {
      FieldBaked(b, w, k, f);
    }
    forall k | k in loose
      ensures UnusedC(b, d, k)
    {
      assert b.start + 24 * k + 16 == b.start + 24 * k + 8 * 2 && !Patched(k, 2);
    }
    LoopMoved(w.mem, mem, d, sd, loose);
  }

  lemma LoopMoved(m: Mem, n: Mem, d: Desc, sd: bool, loose: set<nat>)
    requires d.start + LOOP_LEN < TWO64 && LoopIn(m, d, sd)
    requires forall k: nat, f: nat | k < 19 && f < 3 && !Patched(k, f) && !(f == 2 && k in loose) ::
      Rd(n, d.start + 24 * k + 8 * f) == Rd(m, d.start + 24 * k + 8 * f)
    ensures LoopBut(n, d, sd, loose)
  {
    hide Rd;
    forall k: nat | k < 19
      ensures TmplA(d, k).Some? ==> Rd(n, d.start + 24 * k) == TmplA(d, k).value
      ensures TmplB(d, sd, k).Some? ==> Rd(n, d.start + 24 * k + 8) == TmplB(d, sd, k).value
      ensures k !in loose ==> Rd(n, d.start + 24 * k + 16) == TmplC(d, k)
    {
      assert d.start + 24 * k + 8 * 0 == d.start + 24 * k;
      assert d.start + 24 * k + 8 * 1 == d.start + 24 * k + 8;
      assert d.start + 24 * k + 8 * 2 == d.start + 24 * k + 16;
      assert !Patched(k, 2);
      if TmplA(d, k).Some? {
        assert !Patched(k, 0);
      }
      if TmplB(d, sd, k).Some? {
        assert !Patched(k, 1);
      }
    }
  }

  // the words the bulk copy changes are checked on entry, or by their pages

  lemma {:induction false} HoistedHas(w: World, dyn: set<int>, start: word, n: nat, j: nat)
    requires j < n && start + 24 * n < TWO64 && !SourceAt(w, dyn, start, j).db
    ensures var b := SourceAt(w, dyn, start, j).fb; b / 8 < w.memSize / 8 ==> b / 8 in Hoisted(w, dyn, start, n)
  {
    hide Rd;
    if j < n - 1 {
      HoistedHas(w, dyn, start, n - 1, j);
    }
  }

  lemma CellWritten(d: Desc, sd: bool, i: nat) returns (k: nat)
    requires d.start + LOOP_LEN < TWO64 && i < 9
    ensures k < 19 && TmplB(d, sd, k).Some? && TmplB(d, sd, k).value == CellsOf(d)[i] && !Patched(k, 1)
  {
    hide CellsOf;
    CellAt(d, i);
    k := if i == 0 then (if sd then 16 else 17) else if i == 1 then (if sd then 17 else 16) else if i == 2 then 18
         else if i == 3 then 0 else if i == 4 then 1 else if i == 5 then 2 else if i == 6 then 8 else if i == 7 then 9 else 7;
  }

  lemma CellHoisted(b: Block, w: World, i: nat)
    requires Made(b, w) && b.copy.Some? && i < 9
    ensures b.start + LOOP_LEN < TWO64 && b.copy.value.start == b.start && CellsOf(b.copy.value)[i] / 8 in b.hoist
  {
    hide Rd, TranslateFrom, FindCopy, Hoisted, VarsOk, Translated, Harmless, DynWords, CellsOf, TmplB, SourceAt;
    MadeAligned(b, w);
    MadeBounds(b, w);
    var copy, n, dyn, kk, e, ended := MadeParts(b, w);
    FoundLoop(w.mem, w.dynMap, b.start, w.memSize);
    var d := copy.value;
    var sd :| LoopIn(w.mem, d, sd);
    var k := CellWritten(d, sd, i);
    assert !SourceAt(w, dyn, b.start, k).db && SourceAt(w, dyn, b.start, k).fb == CellsOf(d)[i] by {
      TemplateB(b, w, dyn, d, sd, k);
    }
    HoistedHas(w, dyn, b.start, 19, k);
    CellInMemory(d, w.memSize, i);
  }

  lemma CellInMemory(d: Desc, memSize: int, i: nat)
    requires VarsOk(d, memSize) && i < 9
    ensures CellsOf(d)[i] / 8 < memSize / 8
  {
    hide CellsOf;
    CellAt(d, i);
  }

  lemma TemplateB(b: Block, w: World, dyn: set<int>, d: Desc, sd: bool, k: nat)
    requires k < 19 && d.start + LOOP_LEN < TWO64 && b.start == d.start && Harmless(b, d, dyn) && !Patched(k, 1)
    requires LoopIn(w.mem, d, sd) && TmplB(d, sd, k).Some?
    ensures var s := SourceAt(w, dyn, d.start, k); !s.db && s.fb == TmplB(d, sd, k).value
  {
    hide Rd;
    assert d.start + 24 * k + 8 * 1 == d.start + 24 * k + 8;
  }

  /** A bulk copy changes no marked word. */
  lemma CopyKeepsMarks(b: Block, w: World, mem: Mem, budget: nat, marks: Marks)
    requires Made(b, w) && b.copy.Some? && VarsOk(b.copy.value, w.memSize)
    requires MarksIn(marks, w.memSize) && !HoistMarked(b, marks)
    requires JitCopy(b.copy.value, mem, budget, w.memSize, marks.pages).n > 0
    ensures MarksKept(mem, JitCopy(b.copy.value, mem, budget, w.memSize, marks.pages).mem, marks.words)
  {
    hide Rd, Translated, Harmless, WriteAll, BulkCopy, CellsOf, LastCells, Total, VarsOk;
    var d := b.copy.value;
    var r := JitCopy(d, mem, budget, w.memSize, marks.pages);
    var s, t := Rd(mem, d.sv), Rd(mem, d.dv);
    MadeAligned(b, w);
    AllowedPages(d, mem, r.n, w.memSize, marks.pages);
    forall v | v in marks.words && 0 <= 8 * v < TWO64
      ensures Rd(r.mem, 8 * v) == Rd(mem, 8 * v)
    {
      assert Outside(8 * v, CellsOf(d)) by { MarkedOutside(b, w, v, marks); }
      RdOutside(BulkCopy(mem, t, s, 8 * r.n), CellsOf(d), LastCells(d, mem, r.n, s, t), 8 * v);
      MarkedApart(v, t, 8 * r.n, marks);
      BulkCopyOther(mem, t, s, 8 * r.n, 8 * v);
    }
  }

  lemma AllowedPages(d: Desc, m: Mem, n: nat, memSize: int, pages: set<int>)
    requires memSize <= 0x4000_0000_0000_0000 && CopyAllowed(d, m, n, memSize, pages) && VarsOk(d, memSize)
    ensures var s, t := Rd(m, d.sv), Rd(m, d.dv);
      s + 8 * n <= memSize && t + 8 * n <= memSize && PagesClear(pages, t, t + 8 * n - 1)
  {
    hide Rd, PagesClear;
  }

  lemma MarkedOutside(b: Block, w: World, v: int, marks: Marks)
    requires Made(b, w) && b.copy.Some? && !HoistMarked(b, marks) && v in marks.words && 0 <= 8 * v < TWO64
    ensures b.copy.value.start + LOOP_LEN < TWO64 && Outside(8 * v, CellsOf(b.copy.value))
  {
    hide Translated, Harmless, CellsOf, VarsOk, Disjoint, HoistMarked;
    MadeBounds(b, w);
    MadeBounds(b, w);
    var d := b.copy.value;
    forall i | 0 <= i < 9
      ensures Disjoint(8 * v, CellsOf(d)[i])
    {
      CellHoisted(b, w, i);
      CellPlace(d, w.memSize, i);
      HoistUnmarked(b, marks, CellsOf(d)[i] / 8);
      WordsApart(v, CellsOf(d)[i]);
    }
  }

  lemma HoistUnmarked(b: Block, marks: Marks, w: int)
    requires !HoistMarked(b, marks) && w in b.hoist
    ensures w !in marks.words
  {
  }

  lemma WordsApart(v: int, a: word)
    requires 0 <= 8 * v < TWO64 && a % 8 == 0 && a / 8 != v
    ensures Disjoint(8 * v, a)
  {
  }

  /** A marked word is on a page the copy does not touch. */
  lemma MarkedApart(v: int, t: word, bytes: nat, marks: Marks)
    requires PagesCover(marks) && v in marks.words && PagesClear(marks.pages, t, t + bytes - 1)
    ensures 8 * v + 8 <= t || t + bytes <= 8 * v
  {
    if !(8 * v + 8 <= t || t + bytes <= 8 * v) {
      var pg := v * 8 / 0x1000;
      assert pg in marks.pages;
      SamePage(v, t, bytes);
      assert false;
    }
  }

  lemma SamePage(v: int, t: word, bytes: nat)
    requires 8 * v + 8 > t && t + bytes > 8 * v
    ensures t / 0x1000 <= v * 8 / 0x1000 <= (t + bytes - 1) / 0x1000
  {
    assert t / 0x1000 == t / 8 / 0x200 && v * 8 / 0x1000 == v / 0x200;
    assert t / 8 <= v;
  }

  lemma BulkCopyOther(m: Mem, t: word, s: word, n: nat, a: word)
    requires t + n <= SIZE && s + n <= SIZE && (a + 8 <= t || t + n <= a)
    ensures Rd(BulkCopy(m, t, s, n), a) == Rd(m, a)
  {
    assert BulkCopy(m, t, s, n)[a..a + 8] == m[a..a + 8];
  }

  // ---------------------------------------------------------- the whole block

  /** The CPU brings to a block what was there when it was translated, as far as
      that was baked, and a program that stays in memory. */
  ghost predicate Fits(b: Block, w: World, mem: Mem, budget: nat, x: Context) {
    x.memSize == w.memSize && BakedHold(b, mem, x.marks) && MarksIn(x.marks, w.memSize) && SafeFor(Cpu(mem, b.start), budget, w.memSize)
  }

  ghost predicate Runnable(b: Block, w: World, mem: Mem, budget: nat, x: Context) { Made(b, w) && Fits(b, w, mem, budget, x) }

  lemma CopyStub(b: Block, w: World)
    requires Translated(b, w) && b.copy.Some?
    ensures |b.stubs| > 0 && b.start + LOOP_LEN < TWO64
    ensures b.stubs[0] == StubRec(false, b.start + LOOP_LEN, 18, 0, NotHeld)
  {
    hide Translated, Harmless, TranslateFrom, FindCopy, Hoisted, DynWords, VarsOk;
    MadeAligned(b, w);
    var copy, n, dyn, k, d, ended := MadeParts(b, w);
    assert Extends(EmptyBuild(w, b.start, copy), d);
  }

  /** Iterations done by the bulk copy that end the loop. */
  lemma DoneOk(b: Block, w: World, mem: Mem, budget: nat, x: Context)
    requires Runnable(b, w, mem, budget, x) && b.copy.Some? && 19 <= budget && !HoistMarked(b, x.marks)
    requires VarsOk(b.copy.value, x.memSize) && b.n == 19 && b.start + 24 * b.n < TWO64
    requires var r := JitCopy(b.copy.value, mem, budget - 19, x.memSize, x.marks.pages); r.n > 0 && r.done
    ensures var r := JitCopy(b.copy.value, mem, budget - 19, x.memSize, x.marks.pages);
      LeaveOk(b, mem, budget, LeaveBody(b, Stub(0), Machine(x.regs, x.fl, r.mem, x.marks, []), budget - 19 - (19 * r.n - 19)), x)
  {
    hide Rd, Wr, Run, Steps, Translated, Harmless, JitCopy, VarsOk, LoopIn, StubStore, SafeFor, BakedHold, MarksIn, MarksKept;
    var r := JitCopy(b.copy.value, mem, budget - 19, x.memSize, x.marks.pages);
    CopyStub(b, w);
    MadeBounds(b, w);
    CopyStepOk(b, w, mem, budget, x);
    StubStoreOk(NotHeld, -1, b.movbe, Machine(x.regs, x.fl, r.mem, x.marks, []), r.mem);
  }

  /** The fields that are not baked are not used. */
  lemma StaysIdle(b: Block, mem: Mem, loose: set<nat>, budget: nat, memSize: int, marks: Marks)
    requires b.copy.Some? && VarsOk(b.copy.value, memSize) && BakedHold(b, mem, marks) && PagesCover(marks)
    requires forall a | a in b.baked :: a % 8 == 0
    requires JitCopy(b.copy.value, mem, budget, memSize, marks.pages).n > 0
    requires forall k | k in loose :: UnusedC(b, b.copy.value, k)
    ensures var d := b.copy.value; Idle(loose, Rd(mem, d.sv), Rd(mem, d.dv))
  {
    hide Rd, BulkCopy, WriteAll, LastCells, CellsOf, Total;
    var d := b.copy.value;
    var n := JitCopy(d, mem, budget, memSize, marks.pages).n;
    AllowedFrom(d, mem, n, memSize, marks.pages);
    if Rd(mem, d.dv) == 0 {
      forall a | a in b.baked
        ensures a >= 0x2000
      {
        assert a / 8 in marks.words;
        PageOf(a);
      }
    }
  }

  lemma AllowedFrom(d: Desc, m: Mem, n: nat, memSize: int, pages: set<int>)
    requires VarsOk(d, memSize) && CopyAllowed(d, m, n, memSize, pages) && n >= COPY_MIN
    ensures Rd(m, d.sv) < TWO63 && Rd(m, d.dv) < TWO63
    ensures Rd(m, d.sv) == 0 || Rd(m, d.dv) == 0 ==> FromZero(d)
    ensures Rd(m, d.dv) == 0 ==> d.mv >= 32 && 0 !in pages
  {
    hide Rd;
    var vs := [d.t1, d.t2, d.sv, d.dv, d.cv];
    assert vs[0] in vs && vs[1] in vs && vs[2] in vs && vs[3] in vs && vs[4] in vs;
    assert forall pg | pg in pages :: !(0 <= pg <= 0) || Rd(m, d.dv) != 0;
  }

  lemma PageOf(a: word)
    requires a % 8 == 0
    ensures a / 8 * 8 / 0x1000 == a / 0x1000 && (a < 0x2000 <==> a / 0x1000 <= 1)
  {
  }

  lemma CopyStepOk(b: Block, w: World, mem: Mem, budget: nat, x: Context)
    requires Runnable(b, w, mem, budget, x) && b.copy.Some? && 19 <= budget && !HoistMarked(b, x.marks)
    requires VarsOk(b.copy.value, x.memSize) && b.copy.value.start == b.start
    requires JitCopy(b.copy.value, mem, budget - 19, x.memSize, x.marks.pages).n > 0
    ensures b.start + LOOP_LEN < TWO64
    ensures var r := JitCopy(b.copy.value, mem, budget - 19, x.memSize, x.marks.pages);
      && 19 * r.n <= budget && MarksKept(mem, r.mem, x.marks.words)
      && Steps(Cpu(mem, b.start), 19 * r.n) == Cpu(r.mem, if r.done then b.start + LOOP_LEN else b.start)
  {
    hide Rd, Wr, Steps, Translated, Harmless, JitCopy, VarsOk, LoopIn, SafeFor, BakedHold, PagesCover, MarksKept;
    BakedAligned(b, w);
    var sd, loose := LoopStays(b, w, mem, x.marks);
    StaysIdle(b, mem, loose, budget - 19, w.memSize, x.marks);
    JitCopyOk(b.copy.value, mem, sd, loose, budget - 19, x.memSize, x.marks.pages);
    CopyKeepsMarks(b, w, mem, budget - 19, x.marks);
  }

  lemma MoreRunnable(b: Block, w: World, mem: Mem, budget: nat, x: Context, k: nat, mem': Mem)
    requires Runnable(b, w, mem, budget, x) && k <= budget && MarksKept(mem, mem', x.marks.words)
    requires Steps(Cpu(mem, b.start), k) == Cpu(mem', b.start)
    ensures Runnable(b, w, mem', budget - k, x)
  {
    hide Rd, Steps, Translated, Harmless, SafeFor, BakedHold, MarksIn, MarksKept;
    SafeTail(Cpu(mem, b.start), budget, k, w.memSize);
    BakedAligned(b, w);
    BakedKept(b, mem, mem', x.marks);
  }

  lemma LeaveAfter(b: Block, mem: Mem, budget: nat, k: nat, mem': Mem, L: Leave, x: Context)
    requires k <= budget && Steps(Cpu(mem, b.start), k) == Cpu(mem', b.start) && MarksKept(mem, mem', x.marks.words)
    requires LeaveOk(b, mem', budget - k, L, x) && k > 0
    ensures LeaveOk(b, mem, budget, L, x)
  {
    hide Rd, Step, Steps, MarksKept, HoistMarked, Unmarked, ByOwn, OwnJump;
    var n := budget - k - L.budget;
    StepsAdd(Cpu(mem, b.start), k, n);
    if n > 0 {
      StepsAdd(Cpu(mem, b.start), k, n - 1);
    }
    NoOwn(b, mem', budget - k, L, x);
    MarksKeptTrans(mem, mem', L.mem, x.marks.words);
  }

  /** Left by a stub, it has made a step. */
  lemma NoOwn(b: Block, mem: Mem, budget: nat, L: Leave, x: Context)
    requires LeaveOk(b, mem, budget, L, x)
    ensures ByOwn(b, L.cause) ==> L.budget < budget
  {
    hide Rd, Steps, MarksKept, HoistMarked, Unmarked, Arrives;
  }

  /** The body, where nothing keeps the block from running. */
  lemma BodyRuns(b: Block, w: World, mem: Mem, budget: nat, x: Context)
    requires Runnable(b, w, mem, budget, x) && b.n <= budget && !HoistMarked(b, x.marks) && b.start + 24 * b.n < TWO64
    ensures LeaveOk(b, mem, budget, RunBody(b, mem, budget - b.n, x), x)
  {
    hide Rd, Steps, Translated, Harmless, SafeFor, BakedHold, MarksIn, RunBody, LeaveOk, HoistMarked;
    SafeTail(Cpu(mem, b.start), budget, b.n, w.memSize);
    BodyLeaves(b, w, Machine(x.regs, x.fl, mem, x.marks, []));
    RunBodyOk(b, mem, budget, x);
  }

  /** A block, run from its entry with any budget, leaves just what that many
      of the interpreter's steps leave as it takes from the budget. */
  lemma {:induction false} RunBlockOk(b: Block, w: World, mem: Mem, budget: nat, x: Context)
    requires Runnable(b, w, mem, budget, x)
    ensures 0 < b.n && b.start + 24 * b.n < TWO64 && (b.copy.Some? ==> VarsOk(b.copy.value, x.memSize))
    ensures LeaveOk(b, mem, budget, RunBlock(b, mem, budget, x), x)
    decreases budget
  {
    hide Rd, Wr, Steps, Translated, Harmless, JitCopy, VarsOk, LoopIn, SafeFor, BakedHold, MarksIn, MarksKept, RunBody;
    hide LeaveBody, LeavesRight, HoistMarked;
    MadeBounds(b, w);
    MadeAligned(b, w);
    var L := RunBlock(b, mem, budget, x);
    if budget < b.n || (x.watch.Some? && Rd(mem, x.watch.value.0) != x.watch.value.1) || HoistMarked(b, x.marks) {
      NoStep(Cpu(mem, b.start));
      KeptSelf(mem, x.marks.words);
    } else {
      if b.copy.Some? {
        LoopSize(b, w);
        var r := JitCopy(b.copy.value, mem, budget - b.n, x.memSize, x.marks.pages);
        if r.n > 0 {
          CopyStepOk(b, w, mem, budget, x);
          if r.done {
            DoneOk(b, w, mem, budget, x);
          } else {
            MoreRunnable(b, w, mem, budget, x, 19 * r.n, r.mem);
            RunBlockOk(b, w, r.mem, budget - 19 * r.n, x);
            LeaveAfter(b, mem, budget, 19 * r.n, r.mem, L, x);
          }
        }
      }
      if b.copy.None? || JitCopy(b.copy.value, mem, budget - b.n, x.memSize, x.marks.pages).n == 0 {
        BodyRuns(b, w, mem, budget, x);
      }
    }
  }

  lemma NoStep(s: Cpu)
    ensures Steps(s, 0) == s
  {
  }

  lemma KeptSelf(m: Mem, words: set<int>)
    ensures MarksKept(m, m, words)
  {
  }

  // -------------------------------------- when the loop's template is baked

  /** Where the loop's patched pointers point is not in the loop itself, but
      for the fields it patches. */
  predicate PointersClear(m: Mem, start: word)
    requires start + LOOP_LEN < TWO64
  {
    forall k: nat, f: nat | k < 19 && f < 3 && !Patched(k, f) ::
      && (start + 24 * k + 8 * f) / 8 !in TouchedIn(Rd(m, start + 344), start)
      && (start + 24 * k + 8 * f) / 8 !in TouchedIn(Rd(m, start + 368), start)
  }

  lemma {:induction false} ExtentWrites(w: World, start: word, i: nat, v: int) returns (j: nat)
    requires i <= 19 && w.memSize <= 0x4000_0000_0000_0000 && v in Extent(w, start, true, i).1
    ensures i <= j < 19 && start + 24 * (j + 1) <= w.memSize
    ensures v in TouchedIn(Rd(w.mem, start + 24 * j + 8), start) && (start + 24 * j + 8) / 8 !in w.dynMap
    decreases 19 - i
  {
    hide Rd, TouchedIn;
    var p := start + 24 * i;
    var b := Rd(w.mem, p + 8);
    var mine := if (p + 8) / 8 in w.dynMap then {} else TouchedIn(b, start);
    if v in mine {
      j := i;
    } else {
      j := ExtentWrites(w, start, i + 1, v);
    }
  }

  /** The loop writes none of its other fields. */
  lemma LoopTouches(d: Desc, sd: bool, memSize: int, j: nat, k: nat, f: nat)
    requires VarsOk(d, memSize) && j < 19 && TmplB(d, sd, j).Some? && k < 19 && f < 3 && !Patched(k, f)
    ensures 0 <= TmplB(d, sd, j).value < TWO64 && (d.start + 24 * k + 8 * f) / 8 !in TouchedIn(TmplB(d, sd, j).value, d.start)
  {
    hide CellsOf, TmplB, CellB, CellA, TouchedIn;
    TmplCells(d, sd, j);
    var i := CellB(sd, j);
    var a := CellsOf(d)[i];
    CellPlace(d, memSize, i);
    var v := (d.start + 24 * k + 8 * f) / 8;
    WordAt(d.start, k, f);
    if v in TouchedIn(a, d.start) {
      AlignedTouch(a, d.start, v);
      UnpatchedApart(d, memSize, i, k, f);
      assert false;
    }
  }

  lemma WordAt(start: word, k: nat, f: nat)
    requires start % 8 == 0
    ensures 8 * ((start + 24 * k + 8 * f) / 8) == start + 24 * k + 8 * f
  {
    assert (start + 24 * k + 8 * f) % 8 == 0;
  }

  lemma UnpatchedApart(d: Desc, memSize: int, i: nat, k: nat, f: nat)
    requires VarsOk(d, memSize) && i < 9 && k < 19 && f < 3 && !Patched(k, f)
    ensures CellsOf(d)[i] != d.start + 24 * k + 8 * f
  {
    hide CellsOf;
    CellPlace(d, memSize, i);
    CellAt(d, i);
  }

  lemma AlignedTouch(a: word, start: word, v: int)
    requires a % 8 == 0 && v in TouchedIn(a, start)
    ensures 8 * v == a
  {
  }

  lemma LoopB(m: Mem, d: Desc, sd: bool, j: nat)
    requires d.start + LOOP_LEN < TWO64 && LoopIn(m, d, sd) && j < 19 && j != 14 && j != 15
    ensures TmplB(d, sd, j).Some? && Rd(m, d.start + 24 * j + 8) == TmplB(d, sd, j).value
  {
    hide Rd;
  }

  lemma {:induction false} ExtentTakes(w: World, d: Desc, sd: bool, i: nat, j: nat)
    requires i <= j < 18 && d.start + LOOP_LEN <= w.memSize <= 0x4000_0000_0000_0000 && LoopIn(w.mem, d, sd)
    requires (d.start + 24 * j + 8) / 8 !in w.dynMap
    ensures TouchedIn(Rd(w.mem, d.start + 24 * j + 8), d.start) <= Extent(w, d.start, true, i).1
    decreases j - i
  {
    hide Rd, TouchedIn;
    assert Rd(w.mem, d.start + 24 * i + 16) == TmplC(d, i);
    if i < j {
      ExtentTakes(w, d, sd, i + 1, j);
    }
  }

  /** A pointer the loop patches, by the offset of its field, is read at run
      time already, or does not point at another field of the loop. */
  predicate PointerClear(w: World, start: word, at: nat)
    requires start + LOOP_LEN < TWO64 && at < LOOP_LEN
  {
    (start + at) / 8 in w.dynMap ||
    forall k: nat, f: nat | k < 19 && f < 3 && !Patched(k, f) ::
      (start + 24 * k + 8 * f) / 8 !in TouchedIn(Rd(w.mem, start + at), start)
  }

  /** Exactly when a loop found has all its fields but those it patches baked:
      neither of the pointers it stores through points into it. */
  lemma TemplateExactly(w: World, start: word)
    requires w.memSize <= 0x4000_0000_0000_0000 && FindCopy(w.mem, w.dynMap, start, w.memSize).Some?
    requires start + LOOP_LEN < TWO64
    ensures TemplateStatic(start, DynWords(w, start)) <==> PointerClear(w, start, 344) && PointerClear(w, start, 368)
  {
    hide Rd, Extent, TouchedIn, LoopIn, VarsOk;
    FoundLoop(w.mem, w.dynMap, start, w.memSize);
    var d := FindCopy(w.mem, w.dynMap, start, w.memSize).value;
    var sd :| LoopIn(w.mem, d, sd);
    LoopFitsIn(d, w.memSize);
    assert start + 24 * 14 + 8 == start + 344 && start + 24 * 15 + 8 == start + 368;
    if (start + 344) / 8 !in w.dynMap {
      ExtentTakes(w, d, sd, 0, 14);
    }
    if (start + 368) / 8 !in w.dynMap {
      ExtentTakes(w, d, sd, 0, 15);
    }
    if PointerClear(w, start, 344) && PointerClear(w, start, 368) {
      forall k: nat, f: nat | k < 19 && f < 3 && !Patched(k, f)
        ensures (start + 24 * k + 8 * f) / 8 !in DynWords(w, start)
      {
        TemplateKept(w, d, sd, k, f);
      }
    }
  }

  lemma LoopFitsIn(d: Desc, memSize: int)
    requires VarsOk(d, memSize)
    ensures d.start + LOOP_LEN <= memSize
  {
  }

  lemma TemplateKept(w: World, d: Desc, sd: bool, k: nat, f: nat)
    requires w.memSize <= 0x4000_0000_0000_0000 && VarsOk(d, w.memSize) && LoopIn(w.mem, d, sd)
    requires FindCopy(w.mem, w.dynMap, d.start, w.memSize).Some?
    requires d.start + LOOP_LEN < TWO64 && PointerClear(w, d.start, 344) && PointerClear(w, d.start, 368)
    requires k < 19 && f < 3 && !Patched(k, f)
    ensures (d.start + 24 * k + 8 * f) / 8 !in DynWords(w, d.start)
  {
    hide Rd, Extent, TouchedIn, LoopIn, VarsOk;
    var start := d.start;
    var v := (start + 24 * k + 8 * f) / 8;
    if v in Extent(w, start, true, 0).1 {
      var j := ExtentWrites(w, start, 0, v);
      if j != 14 && j != 15 {
        LoopB(w.mem, d, sd, j);
        LoopTouches(d, sd, w.memSize, j, k, f);
      }
      assert false;
    }
  }

  /** So they are whenever its pointers do not point into it. */
  lemma TemplateStays(w: World, start: word)
    requires w.memSize <= 0x4000_0000_0000_0000 && FindCopy(w.mem, w.dynMap, start, w.memSize).Some?
    requires start + LOOP_LEN < TWO64 && PointersClear(w.mem, start)
    ensures TemplateStatic(start, DynWords(w, start))
  {
    hide Rd, TouchedIn, TemplateStatic, DynWords, FindCopy;
    TemplateExactly(w, start);
  }
}
