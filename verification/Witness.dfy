/** A program on which a translated block goes elsewhere than the interpreter:
    its second instruction stores to its own C, cached in a register. */
module Witness {
  import opened Options
  import opened Words
  import opened Memory
  import opened Subleq
  import opened X86
  import opened RegCache
  import opened Operands
  import opened Insn
  import opened CopyLoop
  import opened Blocks

  // ------------------------------------------------------- simple caches

  /** What is cached is in registers: register r has the word at m[r]. The held
      word and the code are as given. */
  ghost predicate St(c: Jit, m: map<Reg, word>, pins: set<Reg>, held: Option<word>, code: seq<Op>) {
    && c.movbe && !c.flagsLive && c.code == code && c.pend == held.Some? && (held.Some? ==> c.pendAddr == held.value)
    && (forall i | 0 <= i < 16 :: !c.consts[i].used && !c.aliases[i].used)
    && (forall i | 0 <= i < 11 :: (c.regs[i].used <==> i in m) && (i in m ==> c.regs[i].addr == m[i]) && (c.regs[i].pinned <==> i in pins))
    && (forall i, j | i in m && j in m && m[i] == m[j] :: i == j)
  }

  lemma {:induction false} NoConst(s: seq<CConst>, a: word, i: nat)
    requires i <= |s| && forall j | 0 <= j < |s| :: !s[j].used
    ensures FindConst(s, a, i) == |s|
  {
  }

  lemma {:induction false} NoAlias(s: seq<CAlias>, a: word, i: nat)
    requires i <= |s| && forall j | 0 <= j < |s| :: !s[j].used
    ensures FindAlias(s, a, i) == |s|
  {
  }

  lemma Hit(c: Jit, m: map<Reg, word>, pins: set<Reg>, held: Option<word>, code: seq<Op>, r: Reg)
    requires St(c, m, pins, held, code) && r in m && Cacheable(m[r])
    ensures Lookup(c, m[r]) == InReg(r)
  {
    NoConst(c.consts, m[r], 0);
    var k := FindReg(c.regs, m[r], 0);
  }

  lemma Miss(c: Jit, m: map<Reg, word>, pins: set<Reg>, held: Option<word>, code: seq<Op>, a: word)
    requires St(c, m, pins, held, code) && forall r | r in m :: m[r] != a
    ensures Lookup(c, a) == NoVal
  {
    NoConst(c.consts, a, 0);
    NoAlias(c.aliases, a, 0);
    var k := FindReg(c.regs, a, 0);
  }

  /** Registers below r are taken, r is free: the scan ends there. */
  lemma {:induction false} ScanTo(c: Jit, r: Reg, i: nat, best: int)
    requires i <= r && -1 <= best < 11 && (best >= 0 ==> !c.regs[best].pinned)
    requires (forall j | 0 <= j < r :: c.regs[j].used) && !c.regs[r].used && !c.regs[r].pinned && !Aliased(c, r)
    ensures ScratchScan(c, i, best) == r
    decreases r - i
  {
    hide Aliased;
    if i < r {
      if c.regs[i].pinned {
        ScanTo(c, r, i + 1, best);
      } else {
        ScanTo(c, r, i + 1, if best < 0 || c.regs[i].lru < c.regs[best].lru then i else best);
      }
    }
  }

  lemma NotNamed(c: Jit, m: map<Reg, word>, pins: set<Reg>, held: Option<word>, code: seq<Op>, r: Reg)
    requires St(c, m, pins, held, code)
    ensures !Aliased(c, r)
  {
  }

  lemma Takes(c: Jit, m: map<Reg, word>, pins: set<Reg>, held: Option<word>, code: seq<Op>, r: Reg)
    requires St(c, m, pins, held, code) && r !in m && r !in pins && forall j | 0 <= j < r :: j in m
    requires held.Some? ==> exists h :: h in m && m[h] == held.value && Cacheable(held.value)
    ensures Scratch(c).Some? && Scratch(c).value.0 == r && St(Scratch(c).value.1, m, pins + {r}, held, code)
  {
    hide ScratchScan, FlushPending, Lookup, Aliased;
    NotNamed(c, m, pins, held, code, r);
    ScanTo(c, r, 0, -1);
    var p := Pin(c, r);
    assert St(p, m, pins + {r}, held, code);
    if held.Some? {
      var h :| h in m && m[h] == held.value && Cacheable(held.value);
      Hit(p, m, pins + {r}, held, code, h);
      assert St(Touch(p, InReg(h)), m, pins + {r}, held, code);
    }
  }

  /** Loading a word that is not cached. */
  lemma Loads(c: Jit, m: map<Reg, word>, pins: set<Reg>, held: Option<word>, code: seq<Op>, r: Reg, a: word)
    requires St(c, m, pins, held, code) && r !in m && r !in pins && (forall j | 0 <= j < r :: j in m)
    requires held.Some? ==> exists h :: h in m && m[h] == held.value && Cacheable(held.value)
    requires Cacheable(a) && FitsDisp(a) && forall s | s in m :: m[s] != a
    ensures GetStatic(c, a).Some?
    ensures var (v, d) := GetStatic(c, a).value;
      v == InReg(r) && St(d, m[r := a], pins + {r}, held, code + [LoadBE(r, Abs(a))])
  {
    hide Scratch, Lookup, FlushPending;
    Miss(c, m, pins, held, code, a);
    Takes(c, m, pins, held, code, r);
    var d := Scratch(c).value.1;
    var e := Emit(d, LoadBE(r, Abs(a)));
    assert St(e, m, pins + {r}, held, code + [LoadBE(r, Abs(a))]);
    Binds(e, m, pins + {r}, held, code + [LoadBE(r, Abs(a))], r, a);
  }

  lemma Binds(c: Jit, m: map<Reg, word>, pins: set<Reg>, held: Option<word>, code: seq<Op>, r: Reg, a: word)
    requires St(c, m, pins, held, code) && Cacheable(a) && forall s | s in m && s != r :: m[s] != a
    ensures St(Bind(c, r, a), m[r := a], pins, held, code)
  {
  }

  lemma Cached(c: Jit, m: map<Reg, word>, pins: set<Reg>, held: Option<word>, code: seq<Op>, r: Reg)
    requires St(c, m, pins, held, code) && r in m && Cacheable(m[r])
    ensures GetStatic(c, m[r]).Some?
    ensures var (v, d) := GetStatic(c, m[r]).value; v == InReg(r) && St(d, m, pins + {r}, held, code)
  {
    hide Lookup;
    Hit(c, m, pins, held, code, r);
  }

  // -------------------------------------------------------- the program

  const START: word := 976

  /** Loads the word at 1016 into 3000's difference, then subtracts 2000 from it:
      the C field of the second instruction. */
  ghost function Program(): Mem {
    var z: Mem := seq(SIZE, i => 0 as byte);
    var a := Wr(Wr(Wr(z, 976, 1016), 984, 3000), 992, 1000);
    Wr(Wr(Wr(Wr(a, 1000, 2000), 1008, 1016), 1016, 5), 2000, 7)
  }

  ghost function TheWorld(): World { World(Program(), {}, {1024}, 3072, true, Turns(0, 0, 0)) }

  lemma ProgramIs()
    ensures var R := Program();
      && Rd(R, 976) == 1016 && Rd(R, 984) == 3000 && Rd(R, 992) == 1000
      && Rd(R, 1000) == 2000 && Rd(R, 1008) == 1016 && Rd(R, 1016) == 5 && Rd(R, 2000) == 7
  {
    hide Rd, Wr;
    var z: Mem := seq(SIZE, i => 0 as byte);
    var m1 := Wr(z, 976, 1016);
    var m2 := Wr(m1, 984, 3000);
    var m3 := Wr(m2, 992, 1000);
    var m4 := Wr(m3, 1000, 2000);
    var m5 := Wr(m4, 1008, 1016);
    var m6 := Wr(m5, 1016, 5);
    var m7 := Wr(m6, 2000, 7);
    RdWrSame(z, 976, 1016); RdWrSame(m1, 984, 3000); RdWrSame(m2, 992, 1000); RdWrSame(m3, 1000, 2000);
    RdWrSame(m4, 1008, 1016); RdWrSame(m5, 1016, 5); RdWrSame(m6, 2000, 7);
    Later(m1, 984, 3000, 976); Later(m2, 992, 1000, 976); Later(m3, 1000, 2000, 976); Later(m4, 1008, 1016, 976);
    Later(m5, 1016, 5, 976); Later(m6, 2000, 7, 976);
    Later(m2, 992, 1000, 984); Later(m3, 1000, 2000, 984); Later(m4, 1008, 1016, 984); Later(m5, 1016, 5, 984); Later(m6, 2000, 7, 984);
    Later(m3, 1000, 2000, 992); Later(m4, 1008, 1016, 992); Later(m5, 1016, 5, 992); Later(m6, 2000, 7, 992);
    Later(m4, 1008, 1016, 1000); Later(m5, 1016, 5, 1000); Later(m6, 2000, 7, 1000);
    Later(m5, 1016, 5, 1008); Later(m6, 2000, 7, 1008);
    Later(m6, 2000, 7, 1016);
  }

  lemma Later(m: Mem, a: word, v: word, b: word)
    requires Disjoint(a, b)
    ensures Rd(Wr(m, a, v), b) == Rd(m, b)
  {
    RdWrOther(m, a, v, b);
  }

  const CHECKS: Checks := Checks([375, 127], 384)
  const FIRST: Source := Source(976, 0, 1016, 3000, 1000, false, false, false)
  const SECOND: Source := Source(1000, 1, 2000, 1016, 5, false, false, true)

  function Code1(): seq<Op> { [LoadBE(0, Abs(1016)), LoadBE(1, Abs(3000)), SubRR(1, 0)] }
  function Code2(): seq<Op> { Code1() + [LoadBE(2, Abs(2000)), StoreBE(Abs(3000), 1), SubRR(0, 2), JmpLE(Stub(0))] }

  // --------------------------------------------------- its translation

  lemma Unpins(c: Jit, m: map<Reg, word>, pins: set<Reg>, held: Option<word>, code: seq<Op>)
    requires St(c, m, pins, held, code)
    ensures St(UnpinAll(c), m, {}, held, code)
  {
  }

  lemma ReadFirst(c: Jit)
    requires St(c, map[], {}, None, [])
    ensures ReadFields(c, FIRST).0 == Fields(Known(1016), Known(3000), Known(1000))
    ensures St(ReadFields(c, FIRST).1, map[], {}, None, [])
  {
    Unpins(c, map[], {}, None, []);
  }

  /** The first instruction: the word at 1016 stays in register 0. */
  lemma FirstInsn(b: Build)
    requires St(b.c, map[], {}, None, []) && b.stubs == [] && b.smcs == []
    ensures TranslateInsn(b, FIRST, CHECKS).Some?
    ensures var (ended, d) := TranslateInsn(b, FIRST, CHECKS).value;
      !ended && d.stubs == [] && d.smcs == [] && St(d.c, map[0 := 1016, 1 := 3000], {0, 1}, Some(3000), Code1())
  {
    hide ReadFields, GetStatic, ResultReg, FlushPending, Bind, SetAlias;
    ReadFirst(b.c);
    var (f, c0) := ReadFields(b.c, FIRST);
    assert CheckStore(b.(c := c0), FIRST, f.b, CHECKS) == Some((0, b.(c := c0)));
    Loads(c0, map[], {}, None, [], 0, 1016);
    var c1 := GetStatic(c0, 1016).value.1;
    assert St(c1, map[0 := 1016], {0}, None, [LoadBE(0, Abs(1016))]);
    Loads(c1, map[0 := 1016], {0}, None, [LoadBE(0, Abs(1016))], 1, 3000);
    var c2 := GetStatic(c1, 3000).value.1;
    var code2 := [LoadBE(0, Abs(1016))] + [LoadBE(1, Abs(3000))];
    assert St(c2, map[0 := 1016, 1 := 3000], {0, 1}, None, code2);
    NothingHeld(c2);
    InPlaceReg(c2, map[0 := 1016, 1 := 3000], {0, 1}, None, code2, 1, Known(3000));
    var c3 := Pin(Emit(c2, SubRR(1, 0)), 1);
    assert code2 + [SubRR(1, 0)] == Code1();
    assert St(c3, map[0 := 1016, 1 := 3000], {0, 1}, None, Code1());
    assert Arithmetic(c0, FIRST, f, 0) == Some((Result(InReg(1), None, false), 0, c3));
    ConcludeFirst(b.(c := c3), f);
  }

  lemma NothingHeld(c: Jit)
    requires !c.pend
    ensures FlushPending(c) == Some(c)
  {
  }

  lemma InPlaceReg(c: Jit, m: map<Reg, word>, pins: set<Reg>, held: Option<word>, code: seq<Op>, r: Reg, f: Field)
    requires St(c, m, pins, held, code) && r in m && f == Known(m[r])
    ensures ResultReg(c, InReg(r), f) == Some((r, c))
  {
    assert !Aliased(c, r);
  }

  lemma ConcludeFirst(b: Build, f: Fields)
    requires St(b.c, map[0 := 1016, 1 := 3000], {0, 1}, None, Code1()) && b.stubs == [] && b.smcs == []
    requires f == Fields(Known(1016), Known(3000), Known(1000))
    ensures var x := Result(InReg(1), None, false);
      Conclude(b, FIRST, f, 0, x, 0).Some? &&
      var (ended, d) := Conclude(b, FIRST, f, 0, x, 0).value;
      !ended && d.stubs == [] && d.smcs == [] && St(d.c, map[0 := 1016, 1 := 3000], {0, 1}, Some(3000), Code1())
  {
    hide Bind, SetAlias, FlushPending;
    assert !Branches(FIRST, f) && Pendable(f.b) && !Spans(3000);
    assert b.c.(flagsLive := false) == b.c;
    Binds(b.c, map[0 := 1016, 1 := 3000], {0, 1}, None, Code1(), 1, 3000);
    assert map[0 := 1016, 1 := 3000][1 := 3000] == map[0 := 1016, 1 := 3000];
  }

  function Regs1(): map<Reg, word> { map[0 := 1016, 1 := 3000] }
  function Regs2(): map<Reg, word> { map[0 := 1016, 1 := 3000, 2 := 2000] }

  lemma ReadSecond(c: Jit)
    requires St(c, Regs1(), {0, 1}, Some(3000), Code1())
    ensures ReadFields(c, SECOND).0 == Fields(Known(2000), Known(1016), Dynamic(InReg(0)))
    ensures St(ReadFields(c, SECOND).1, Regs1(), {0}, Some(3000), Code1())
  {
    hide Lookup;
    Unpins(c, Regs1(), {0, 1}, Some(3000), Code1());
    Hit(UnpinAll(c), Regs1(), {}, Some(3000), Code1(), 0);
  }

  /** What is held back is stored, from register 1. */
  lemma Flushes(c: Jit)
    requires St(c, Regs2(), {0, 2}, Some(3000), Code1() + [LoadBE(2, Abs(2000))])
    ensures FlushPending(c).Some?
    ensures St(FlushPending(c).value, Regs2(), {0, 2}, None, Code1() + [LoadBE(2, Abs(2000)), StoreBE(Abs(3000), 1)])
  {
    hide Lookup;
    var code := Code1() + [LoadBE(2, Abs(2000))];
    assert St(c.(pend := false), Regs2(), {0, 2}, None, code);
    assert 1 in Regs2() && Regs2()[1] == 3000;
    Hit(c.(pend := false), Regs2(), {0, 2}, None, code, 1);
    var c1 := Touch(c.(pend := false), InReg(1));
    assert St(c1, Regs2(), {0, 2}, None, code);
    var c2 := Pin(c1, 1);
    assert ToReg(c2, InReg(1)) == Some((1, c2));
    assert StoreReg(c2, 1, Abs(3000)) == Some(Emit(c2, StoreBE(Abs(3000), 1)));
    assert St(Unpin(Emit(c2, StoreBE(Abs(3000), 1)), 1), Regs2(), {0, 2}, None, code + [StoreBE(Abs(3000), 1)]);
    assert code + [StoreBE(Abs(3000), 1)] == Code1() + [LoadBE(2, Abs(2000)), StoreBE(Abs(3000), 1)];
  }

  /** The second one: the difference replaces C in register 0. */
  lemma SecondInsn(b: Build)
    requires St(b.c, Regs1(), {0, 1}, Some(3000), Code1()) && b.stubs == [] && b.smcs == []
    ensures TranslateInsn(b, SECOND, CHECKS).Some?
    ensures var (ended, d) := TranslateInsn(b, SECOND, CHECKS).value;
      !ended && d.stubs == [StubRec(true, 0, 1, 0, HeldBack(InReg(0), 1016))] && d.smcs == [] && d.c.code == Code2()
  {
    hide ReadFields, GetStatic, ResultReg, FlushPending, Conclude;
    ReadSecond(b.c);
    var (f, c0) := ReadFields(b.c, SECOND);
    assert CheckStore(b.(c := c0), SECOND, f.b, CHECKS) == Some((0, b.(c := c0)));
    assert 1 in Regs1() && Regs1()[1] == 3000;
    Loads(c0, Regs1(), {0}, Some(3000), Code1(), 2, 2000);
    var c1 := GetStatic(c0, 2000).value.1;
    var code := Code1() + [LoadBE(2, Abs(2000))];
    assert Regs1()[2 := 2000] == Regs2() && {0} + {2} == {0, 2} == {0, 2} + {0};
    Cached(c1, Regs2(), {0, 2}, Some(3000), code, 0);
    var c2 := GetStatic(c1, 1016).value.1;
    Flushes(c2);
    var c3 := FlushPending(c2).value;
    var code3 := Code1() + [LoadBE(2, Abs(2000)), StoreBE(Abs(3000), 1)];
    InPlaceReg(c3, Regs2(), {0, 2}, None, code3, 0, Known(1016));
    var c4 := Pin(Emit(c3, SubRR(0, 2)), 0);
    assert St(c4, Regs2(), {0, 2}, None, code3 + [SubRR(0, 2)]);
    assert Arithmetic(c0, SECOND, f, 0) == Some((Result(InReg(0), None, false), 0, c4));
    ConcludeSecond(b.(c := c4), f);
  }

  lemma ConcludeSecond(b: Build, f: Fields)
    requires f == Fields(Known(2000), Known(1016), Dynamic(InReg(0))) && b.stubs == [] && b.smcs == []
    requires St(b.c, Regs2(), {0, 2}, None, Code1() + [LoadBE(2, Abs(2000)), StoreBE(Abs(3000), 1)] + [SubRR(0, 2)])
    ensures var x := Result(InReg(0), None, false);
      Conclude(b, SECOND, f, 0, x, 0).Some? &&
      var (ended, d) := Conclude(b, SECOND, f, 0, x, 0).value;
      !ended && d.stubs == [StubRec(true, 0, 1, 0, HeldBack(InReg(0), 1016))] && d.smcs == [] && d.c.code == Code2()
  {
    hide Bind, SetAlias, FlushPending, Lookup;
    var code := Code1() + [LoadBE(2, Abs(2000)), StoreBE(Abs(3000), 1)] + [SubRR(0, 2)];
    assert Branches(SECOND, f) && Pendable(f.b) && !Spans(1016);
    var c1 := b.c.(flagsLive := true);
    BindsLive(c1, Regs2(), {0, 2}, code);
    var c2 := Bind(c1, 0, 1016).(pend := true, pendAddr := 1016, flagsLive := false);
    assert St(c2, Regs2(), {0, 2}, Some(1016), code);
    Hit(c2, Regs2(), {0, 2}, Some(1016), code, 0);
    assert code + [JmpLE(Stub(0))] == Code2();
  }

  lemma BindsLive(c: Jit, m: map<Reg, word>, pins: set<Reg>, code: seq<Op>)
    requires St(c.(flagsLive := false), m, pins, None, code) && 0 in m && m[0] == 1016
    ensures St(Bind(c, 0, 1016).(flagsLive := false), m, pins, None, code) && Bind(c, 0, 1016).code == code
  {
    var d := c.(flagsLive := false);
    Binds(d, m, pins, None, code, 0, 1016);
    assert m[0 := 1016] == m;
    assert Bind(c, 0, 1016).(flagsLive := false) == Bind(d, 0, 1016);
  }

  // ------------------------------------------------------------- the block

  lemma TheExtent()
    ensures Extent(TheWorld(), START, false, 0) == (2, {127})
  {
    hide Rd, Program;
    ProgramIs();
    var w := TheWorld();
    assert TouchedIn(3000, START) == {};
    assert TouchedIn(1016, START) == {127};
    assert Extent(w, START, false, 2) == (2, {});
    assert {127} + {} == {127};
    assert START + 24 * 1 == 1000 && START + 24 * 1 + 8 == 1008 && START + 24 * 1 + 16 == 1016;
    assert Extent(w, START, false, 1) == (2, {127});
    var none: set<int> := {};
    assert none + {127} == {127};
  }

  lemma NoCopy()
    ensures FindCopy(Program(), {}, START, 3072) == None
  {
    hide Rd, Program;
    ProgramIs();
    var d := Desc(START, Rd(Program(), START), Rd(Program(), START + 24), Rd(Program(), START + 72), Rd(Program(), START + 240),
                  Rd(Program(), START + 440), Rd(Program(), START + 384));
    forall sd: bool
      ensures !LoopIn(Program(), d, sd)
    {
      assert TmplB(d, sd, 0) == Some(1016);
    }
  }

  lemma TheChecks()
    ensures Hoisted(TheWorld(), {127}, START, 2) == [375, 127]
    ensures SourceAt(TheWorld(), {127}, START, 0) == FIRST && SourceAt(TheWorld(), {127}, START, 1) == SECOND
  {
    hide Rd, Program;
    ProgramIs();
    var w := TheWorld();
    assert Hoisted(w, {127}, START, 0) == [];
    assert Hoisted(w, {127}, START, 1) == [375];
  }

  /** The block is those two instructions, with the jump to C in register 0. */
  lemma TheBlock() returns (b: Block)
    ensures Translate(TheWorld(), START) == Some(b) && b.n == 2 && b.copy == None && b.hoist == [375, 127] && b.movbe
    ensures Code2() <= b.code && |b.stubs| > 0 && b.stubs[0] == StubRec(true, 0, 1, 0, HeldBack(InReg(0), 1016))
  {
    hide Rd, Program, FindCopy, Extent, Hoisted, TranslateInsn, SourceAt, SnapPending;
    TheExtent();
    NoCopy();
    TheChecks();
    var w := TheWorld();
    assert DynWords(w, START) == {127};
    var e := EmptyBuild(w, START, None);
    assert St(e.c, map[], {}, None, []);
    FirstInsn(e);
    var d := TranslateInsn(e, FIRST, CHECKS).value.1;
    SecondInsn(d);
    var r := TranslateInsn(d, SECOND, CHECKS).value.1;
    assert TranslateFrom(r, w, {127}, CHECKS, START, 2, 2) == Some((2, false, r));
    assert TranslateFrom(d, w, {127}, CHECKS, START, 1, 2) == Some((2, false, r));
    assert TranslateFrom(e, w, {127}, CHECKS, START, 0, 2) == Some((2, false, r));
    b := Translate(w, START).value;
  }

  // --------------------------------------------------------- running it

  ghost function Stored(): Mem { Wr(Program(), 3000, Sub(Rd(Program(), 3000), 5)) }

  lemma StoredIs()
    ensures Rd(Stored(), 1016) == 5 && Rd(Stored(), 2000) == 7
  {
    hide Rd, Wr, Program;
    ProgramIs();
    Later(Program(), 3000, Sub(Rd(Program(), 3000), 5), 1016);
    Later(Program(), 3000, Sub(Rd(Program(), 3000), 5), 2000);
  }

  /** The code goes to stub 0 with 5 - 7 in register 0. */
  lemma CodeRuns(m0: Machine) returns (m: Machine)
    requires m0.mem == Program()
    ensures Run(Code2(), m0) == Left(Stub(0), m) && m.regs[0] == Sub(5, 7)
  {
    hide Rd, Wr, Program, Stored;
    ProgramIs();
    RunAppend([], LoadBE(0, Abs(1016)), m0);
    assert [] + [LoadBE(0, Abs(1016))] == [LoadBE(0, Abs(1016))];
    RunAppend([LoadBE(0, Abs(1016))], LoadBE(1, Abs(3000)), m0);
    var two := [LoadBE(0, Abs(1016)), LoadBE(1, Abs(3000))];
    assert [LoadBE(0, Abs(1016))] + [LoadBE(1, Abs(3000))] == two;
    RunAppend(two, SubRR(1, 0), m0);
    assert two + [SubRR(1, 0)] == Code1();
    var c4 := Code1() + [LoadBE(2, Abs(2000))];
    RunAppend(Code1(), LoadBE(2, Abs(2000)), m0);
    var c5 := c4 + [StoreBE(Abs(3000), 1)];
    RunAppend(c4, StoreBE(Abs(3000), 1), m0);
    var c6 := c5 + [SubRR(0, 2)];
    RunAppend(c5, SubRR(0, 2), m0);
    RunAppend(c6, JmpLE(Stub(0)), m0);
    assert c6 + [JmpLE(Stub(0))] == Code2();
    assert LE(SubFlags(5, 7));
    m := match Run(Code2(), m0) case Left(_, n) => n case Go(n) => n;
  }

  /** The interpreter goes to 5. */
  lemma InterpreterRuns()
    ensures Steps(Cpu(Program(), START), 2).eip == 5
  {
    hide Rd, Wr, Program;
    ProgramIs();
    StoredIs();
    var s1 := Step(Cpu(Program(), START));
    FirstStep();
    assert Steps(Cpu(Program(), START), 1) == s1 by { StepsOne(Cpu(Program(), START)); }
    var s2 := Step(s1);
    assert s2.eip == 5;
  }

  lemma StepsOne(s: Cpu)
    ensures Steps(s, 1) == Step(s)
  {
    hide Step;
    assert Steps(s, 0) == s;
  }

  lemma FirstStep()
    ensures Step(Cpu(Program(), START)).eip == 1000
    ensures var m := Step(Cpu(Program(), START)).mem;
      Rd(m, 1000) == 2000 && Rd(m, 1008) == 1016 && Rd(m, 1016) == 5 && Rd(m, 2000) == 7
  {
    hide Rd, Wr, Program;
    ProgramIs();
    var x := Sub(Rd(Program(), 3000), Rd(Program(), 1016));
    Later(Program(), 3000, x, 1000);
    Later(Program(), 3000, x, 1008);
    Later(Program(), 3000, x, 1016);
    Later(Program(), 3000, x, 2000);
  }

  /** Run from its entry with nothing marked, the block takes two instructions
      from the budget, and leaves to 5 - 7, where the interpreter is at 5. */
  lemma OwnCGoesWrong(x: Context) returns (b: Block)
    requires x.marks.words == {} && x.watch == None
    ensures Translate(TheWorld(), START) == Some(b) && b.n == 2 && b.copy == None
    ensures var L := RunBlock(b, Program(), 2, x);
      && L.budget == 0 && L.eip == Sub(5, 7)
      && L.eip != Steps(Cpu(Program(), START), 2 - L.budget).eip
  {
    hide Rd, Wr, Program, Translate, Run, Steps;
    b := TheBlock();
    assert !HoistMarked(b, x.marks);
    var m0 := Machine(x.regs, x.fl, Program(), x.marks, []);
    var m := CodeRuns(m0);
    RunPrefix(Code2(), b.code, m0);
    InterpreterRuns();
    StubKeeps(m);
    assert Translate(TheWorld(), START) == Some(b);
    assert b.start == START by { StartIs(b); }
  }

  lemma StartIs(b: Block)
    requires Translate(TheWorld(), START) == Some(b)
    ensures b.start == START
  {
    hide Program;
  }

  lemma StubKeeps(m: Machine)
    ensures MemAfter(StubStore(HeldBack(InReg(0), 1016), 0, true), m).regs == m.regs
  {
    hide Wr;
    var ops := StubStore(HeldBack(InReg(0), 1016), 0, true);
    assert ops == [StoreBE(Abs(1016), 0)];
    RunAppend([], StoreBE(Abs(1016), 0), m);
    assert [] + [StoreBE(Abs(1016), 0)] == ops;
  }
}
