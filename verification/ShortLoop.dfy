/** A program whose copy loop is translated to a block of one instruction, and a
    run of that block which makes more steps than it may. */
module ShortLoop {
  import opened Options
  import opened Words
  import opened Memory
  import opened Subleq
  import opened X86
  import opened RegCache
  import opened Operands
  import opened Insn
  import opened InsnProofs
  import opened Cells
  import opened CopyLoop
  import CopyProofs
  import opened Blocks
  import opened BlockProofs
  import opened RunProofs
  import opened Witness
  import P = CopyPlaces
  import T = CopyTurns
  import L = CopyRounds
  import H = CopyHalts
  import E = CopyExact
  import D = Dispatcher

  const FROM: word := 0x1000
  const MEMORY: int := 0x5000
  const LOOP: Desc := Desc(0x1000, 0x2000, 0x2008, 0x2010, 0x2018, 0x2020, 0x2028)

  /** The words of the program: the loop, its variables, eight words to copy and
      eight to copy to, an instruction that halts with its operand, and one more. */
  function Adr(): (adr: seq<word>)
    ensures |adr| == 84
  {
    seq(84, i requires 0 <= i < 84 => if i < 57 then 0x1000 + 8 * i else if i < 63 then 0x2000 + 8 * (i - 57) else 0x3008 + 8 * (i - 63))
  }

  /** F4 points to the C field of the first instruction. */
  function Fld(k: nat, f: nat): word
    requires k < 19 && f < 3
  {
    if k == 5 && f == 0 then 0x3008
    else if k == 14 && f == 0 then 0x3048
    else if k == 14 && f == 1 then 0x1010
    else if k == 15 && f == 1 then 0x3048
    else P.Tmpl(LOOP, true, k, f)
  }

  function Vals(): (v: seq<word>)
    ensures |v| == 84
  {
    seq(57, i requires 0 <= i < 57 => Fld(i / 3, i % 3)) + [0, 0, 0x3008, 0x3048, TWO64 - 24, MINUS8] +
    [0, 1, 2, 3, 4, 5, 6, 7, 0, 0, 0, 0, 0, 0, 0, 0, 0x30a0, 0x30a0, 0x3088, 0, 0]
  }

  ghost function Program(): Mem { WriteAll(seq(SIZE, i => 0 as byte), Adr(), Vals()) }

  ghost function TheWorld(): World { World(Program(), {}, {}, MEMORY, true, Turns(0, 0, 0)) }

  lemma ProgramIs(i: nat)
    requires i < 84
    ensures Rd(Program(), Adr()[i]) == Vals()[i]
  {
    hide Rd, WriteAll, Vals;
    RdCell(seq(SIZE, i => 0 as byte), Adr(), Vals(), i);
  }

  lemma FieldsAre(k: nat, f: nat)
    requires k < 19 && f < 3
    ensures Rd(Program(), 0x1000 + 24 * k + 8 * f) == Fld(k, f)
  {
    hide Rd, Program, Fld;
    ProgramIs(3 * k + f);
    assert (3 * k + f) / 3 == k && (3 * k + f) % 3 == f;
  }

  lemma VarsAre()
    ensures var m := Program();
      && Rd(m, 0x2000) == 0 && Rd(m, 0x2008) == 0 && Rd(m, 0x2010) == 0x3008 && Rd(m, 0x2018) == 0x3048
      && Rd(m, 0x2020) == TWO64 - 24 && Rd(m, 0x2028) == MINUS8
  {
    hide Rd, Program;
    ProgramIs(57); ProgramIs(58); ProgramIs(59); ProgramIs(60); ProgramIs(61); ProgramIs(62);
  }

  lemma FieldsFit(k: nat)
    requires k < 19
    ensures var m := Program();
      && (TmplA(LOOP, k).Some? ==> Rd(m, 0x1000 + 24 * k) == TmplA(LOOP, k).value)
      && (TmplB(LOOP, true, k).Some? ==> Rd(m, 0x1000 + 24 * k + 8) == TmplB(LOOP, true, k).value)
      && Rd(m, 0x1000 + 24 * k + 16) == TmplC(LOOP, k)
  {
    hide Rd, Program;
    FieldsAre(k, 0);
    FieldsAre(k, 1);
    FieldsAre(k, 2);
  }

  lemma LoopThere()
    ensures LoopIn(Program(), LOOP, true) && FindCopy(Program(), {}, FROM, MEMORY) == Some(LOOP) && VarsOk(LOOP, MEMORY)
  {
    hide Rd, Program;
    assert LoopIn(Program(), LOOP, true) by {
      forall k: nat | k < 19
        ensures TmplA(LOOP, k).Some? ==> Rd(Program(), 0x1000 + 24 * k) == TmplA(LOOP, k).value
        ensures TmplB(LOOP, true, k).Some? ==> Rd(Program(), 0x1000 + 24 * k + 8) == TmplB(LOOP, true, k).value
        ensures Rd(Program(), 0x1000 + 24 * k + 16) == TmplC(LOOP, k)
      {
        FieldsFit(k);
      }
    }
    FieldsAre(0, 0); FieldsAre(1, 0); FieldsAre(3, 0); FieldsAre(10, 0); FieldsAre(18, 1); FieldsAre(16, 0);
  }

  // --------------------------------------------------------- its translation

  lemma {:induction false} WholeExtent(w: World, d: Desc, sd: bool, i: nat)
    requires i <= 19 && d.start + LOOP_LEN <= w.memSize <= 0x4000_0000_0000_0000 && LoopIn(w.mem, d, sd)
    ensures Extent(w, d.start, true, i).0 == 19
    decreases 19 - i
  {
    hide Rd, TouchedIn;
    if i < 19 {
      assert Rd(w.mem, d.start + 24 * i + 16) == TmplC(d, i);
      WholeExtent(w, d, sd, i + 1);
    }
  }

  /** The first instruction's C field is read at run time, and only that. */
  lemma Dynamic()
    ensures var dyn := DynWords(TheWorld(), FROM); 0x200 !in dyn && 0x201 !in dyn && 0x202 in dyn
  {
    hide Rd, Program, TouchedIn, FindCopy;
    var w := TheWorld();
    LoopThere();
    FieldsAre(14, 1);
    ExtentTakes(w, LOOP, true, 0, 14);
    assert 0x202 in TouchedIn(0x1010, FROM) by { Touched(0x1010, 0x202); }
    forall v | v in {0x200, 0x201}
      ensures v !in DynWords(w, FROM)
    {
      if v in DynWords(w, FROM) {
        var j := ExtentWrites(w, FROM, 0, v);
        FieldsAre(j, 1);
        NotTouched(j, v);
        assert false;
      }
    }
  }

  lemma Touched(b: word, v: int)
    ensures b % 8 == 0 && b + 8 < TWO64 ==> (v in TouchedIn(b, FROM) <==> v == b / 8 && FROM <= 8 * v < FROM + 24 * MAX_BLOCK)
  {
  }

  lemma NotTouched(j: nat, v: int)
    requires j < 19 && v in {0x200, 0x201}
    ensures v !in TouchedIn(Fld(j, 1), FROM)
  {
    hide TouchedIn;
    Touched(Fld(j, 1), v);
  }

  /** An instruction that clears a word and has a C read at run time ends its block. */
  lemma EndsThere(b: Build, s: Source, k: Checks)
    requires St(b.c, map[], {}, None, []) && s.fa == s.fb && !s.da && !s.db && s.dc && Cacheable(s.fb) && s.fb / 8 in k.hoist
    ensures TranslateInsn(b, s, k).Some? && TranslateInsn(b, s, k).value.0
  {
    hide Scratch, LoadStatic, SetConst, Lookup;
    Unpins(b.c, map[], {}, None, []);
    var c := UnpinAll(b.c);
    Miss(c, map[], {}, None, [], Add(s.p, 16));
    var (f, c0) := ReadFields(b.c, s);
    assert f == Fields(Known(s.fa), Known(s.fb), Field.Dynamic(NoVal)) && c0 == c;
    assert CheckStore(b.(c := c0), s, f.b, k) == Some((0, b.(c := c0)));
    Takes(c, map[], {}, None, [], 0);
    var (r, c1) := Scratch(c0).value;
    var c2 := LoadStatic(c1, r, Add(s.p, 16));
    assert Arithmetic(c0, s, f, 0) == Some((Result(Const(0), Some(true), false), r, c2));
    LoadHolds(c1, r, Add(s.p, 16));
    var c3 := SetConst(c2.(flagsLive := false), s.fb, 0);
    assert StoreResult(c2.(flagsLive := false), Result(Const(0), Some(true), false), f.b, 0).Some?;
  }

  lemma LoadHolds(c: Jit, r: Reg, a: word)
    ensures LoadStatic(c, r, a).pend == c.pend
  {
  }

  lemma EmptyIs(w: World)
    requires w.movbe
    ensures St(EmptyBuild(w, FROM, Some(LOOP)).c, map[], {}, None, [])
  {
  }

  lemma OneOnly(b: Build, w: World, dyn: set<int>, k: Checks)
    requires TranslateInsn(b, SourceAt(w, dyn, FROM, 0), k).Some? && TranslateInsn(b, SourceAt(w, dyn, FROM, 0), k).value.0
    ensures TranslateFrom(b, w, dyn, k, FROM, 0, 19).Some?
    ensures var (m, ended, d) := TranslateFrom(b, w, dyn, k, FROM, 0, 19).value; m == 1 && ended
  {
    hide TranslateInsn, SourceAt;
  }

  lemma FirstIs(dyn: set<int>)
    requires 0x200 !in dyn && 0x201 !in dyn && 0x202 in dyn
    ensures SourceAt(TheWorld(), dyn, FROM, 0) == Source(FROM, 0, 0x2000, 0x2000, FROM + 24, false, false, true)
  {
    hide Rd, Program;
    FieldsAre(0, 0);
    FieldsAre(0, 1);
    FieldsAre(0, 2);
  }

  lemma OneInsn() returns (b: Block)
    ensures Translate(TheWorld(), FROM) == Some(b) && b.n == 1 && b.copy == Some(LOOP)
  {
    hide Rd, Program, FindCopy, TranslateInsn, Hoisted, DynWords, TranslateFrom, SourceAt, EmptyBuild, Extent;
    var w := TheWorld();
    LoopThere();
    WholeExtent(w, LOOP, true, 0);
    Dynamic();
    var dyn := DynWords(w, FROM);
    var k := Checks(Hoisted(w, dyn, FROM, 19), MEMORY / 8);
    FirstIs(dyn);
    HoistedHas(w, dyn, FROM, 19, 0);
    EmptyIs(w);
    EndsThere(EmptyBuild(w, FROM, Some(LOOP)), SourceAt(w, dyn, FROM, 0), k);
    OneOnly(EmptyBuild(w, FROM, Some(LOOP)), w, dyn, k);
    DynIs(w);
    b := Translate(w, FROM).value;
  }

  lemma DynIs(w: World)
    requires w.memSize <= 0x4000_0000_0000_0000
    ensures DynWords(w, FROM) == w.dynMap + Extent(w, FROM, FindCopy(w.mem, w.dynMap, FROM, w.memSize).Some?, 0).1
  {
  }

  // ------------------------------------------------------------------ its run

  function Scenery(sd: bool): P.Scene { P.Scene(LOOP, sd, MEMORY, P.Field(19, 0), 19, 0x30a8, 0x3000) }

  function Now(): (u: seq<int>)
    ensures |u| == 11
  {
    [0x3008, 0x3048, -24, 0, 0, 0x3008, 0x3048, 0x1010, 0x3048, 0, -8]
  }

  lemma SceneryOk(sd: bool)
    ensures T.PageOk(Scenery(sd))
  {
  }

  lemma PageHolds(sd: bool)
    ensures T.PageOk(Scenery(sd)) && T.Holds(Program(), Scenery(sd), [0, 1, 2, 3, 4, 5, 6, 7], [0, 0, 0, 0, 0, 0, 0, 0], 0)
  {
    hide Rd, Program, T.PageOk;
    SceneryOk(sd);
    var z := Scenery(sd);
    var xs: seq<word>, ts: seq<word> := [0, 1, 2, 3, 4, 5, 6, 7], [0, 0, 0, 0, 0, 0, 0, 0];
    forall l: nat | l < 8
      ensures Rd(Program(), T.Source(z, l)) == xs[l] && Rd(Program(), T.Dest(z, l)) == ts[l]
    {
      ProgramIs(63 + l);
      ProgramIs(71 + l);
    }
    ProgramIs(79); ProgramIs(80); ProgramIs(81); ProgramIs(82);
  }

  lemma PlacesNow(sd: bool)
    ensures P.At(Scenery(sd), Program(), Now(), 0) == Cpu(Program(), FROM)
  {
    hide Rd, Program, WriteAll, P.Places, CellsOf;
    var z := Scenery(sd);
    VarsAre();
    ProgramIs(83);
    FieldsAre(5, 0); FieldsAre(14, 0); FieldsAre(14, 1); FieldsAre(15, 1);
    forall i | 0 <= i < 11
      ensures P.Mods(Now())[i] == Rd(Program(), P.Places(z)[i])
    {
      P.PlaceAt(z, i);
      if i < 9 {
        CellAt(LOOP, i);
      }
    }
    WriteBack(Program(), P.Places(z), P.Mods(Now()));
  }

  /** Four rounds stay in memory. */
  lemma StaysIn(sd: bool)
    requires LoopIn(Program(), LOOP, sd)
    ensures SafeFor(Cpu(Program(), FROM), 76, MEMORY)
  {
    hide Rd, Program, LoopIn, T.PageOk, T.Holds, P.At, SafeFor, Steps, L.Different, P.WithPlaces;
    var z := Scenery(sd);
    PageHolds(sd);
    PlacesNow(sd);
    assert P.LoopWith(Program(), z, FROM) by {
      forall k: nat, f: nat | k < 19 && f < 3 && !Patched(k, f) && P.FieldAt(z.d, k, f) != z.x
        ensures P.FieldIs(Program(), z, FROM, k, f)
      {
        E.G.LoopField(Program(), LOOP, sd, k, f);
      }
    }
    var m4, u4 := L.FourTurns(Program(), z, Now(), [0, 1, 2, 3, 4, 5, 6, 7], [0, 0, 0, 0, 0, 0, 0, 0]);
  }

  lemma WholeLoopIn(m: Mem, d: Desc, sd: bool)
    requires d.start + LOOP_LEN < TWO64 && LoopIn(m, d, sd)
    ensures CopyProofs.LoopBut(m, d, sd, {})
  {
    hide Rd;
  }

  lemma CopyIsAllowed(b: Block, w: World, sd: bool)
    requires E.Found(b, w, LOOP, sd) && w == TheWorld()
    ensures CopyAllowed(LOOP, Program(), 4, MEMORY, E.MarksOf(b).pages)
  {
    hide Rd, Program, LoopIn, Translated, Hoisted, FindCopy, DynWords, Baked, VarsOk, PagesClear, E.MarksOf;
    VarsAre();
    PageThree();
    E.StagedPages(b, w, LOOP, sd, Scenery(sd), 3);
    E.AllowedAt(LOOP, Program(), MEMORY, E.MarksOf(b).pages, 0x3000, 0x3008, 0x3048);
  }

  lemma PageThree()
    ensures E.PageFree(LOOP, 3)
    ensures forall v | v in P.VarsOf(LOOP) :: v < 0x3000 || v >= 0x4000
  {
  }

  /** After 58 steps it is at the second instruction, after 76 at the end. */
  lemma Midway(sd: bool, pages: set<int>)
    requires LoopIn(Program(), LOOP, sd) && CopyAllowed(LOOP, Program(), 4, MEMORY, pages)
    ensures Steps(Cpu(Program(), FROM), 58).eip == FROM + 24
  {
    hide Rd, Wr, Program, LoopIn, CopyAllowed, WriteAll, CellsOf, Steps, Step, CopyProofs.Movable, CopyProofs.CopyWords;
    hide LastCells, CopyProofs.LoopBut;
    var m, s, t := Program(), 0x3008, 0x3048;
    VarsAre();
    LoopThere();
    WholeLoopIn(m, LOOP, sd);
    CopyProofs.AllowedMovable(LOOP, m, 4, MEMORY, pages);
    assert Total(TWO64 - 24) == 4;
    CopyProofs.Iterations(m, LOOP, sd, MEMORY, {}, 4, 3);
    CopyProofs.ReadyThrough(m, LOOP, sd, MEMORY, {}, s, t, 4, 3);
    var q, v := CopyProofs.CopyWords(m, t, s, 3), LastCells(LOOP, m, 3, s, t);
    CopyProofs.LoopStep(q, LOOP, sd, MEMORY, {}, v, 0);
    StepsNext(Cpu(m, FROM), 57);
  }

  /** The block makes the 76 steps of four rounds with a budget of 58: its body,
      for which the bulk copy pays once, is one instruction. */
  lemma Overdraws() returns (b: Block)
    ensures Translate(TheWorld(), FROM) == Some(b) && b.n == 1 && b.copy == Some(LOOP)
    ensures var w, x := TheWorld(), E.CpuOf(b, MEMORY);
      && Fits(b, w, Program(), 58, x)
      && var r, s := RunBlock(b, Program(), 58, x), Cpu(Program(), FROM);
         r.budget == -18 && r.eip == FROM + LOOP_LEN && Steps(s, 76) == Cpu(r.mem, r.eip) && Steps(s, 58).eip == FROM + 24
  {
    hide Rd, Program, LoopIn, Translate, Hoisted, FindCopy, DynWords, CopyAllowed, WriteAll, BulkCopy, LastCells, CellsOf;
    hide SafeFor, Steps, RunBlock;
    hide BakedHold, MarksIn, E.MarksOf, HoistMarked, CopyProofs.LoopBut, JitCopy;
    var w := TheWorld();
    b := OneInsn();
    var d, sd := E.IsFound(b, w);
    var m := Program();
    CopyIsAllowed(b, w, sd);
    VarsAre();
    LoopThere();
    E.BlockCopies(b, w, LOOP, sd, m, 0x3008, 0x3048, 58);
    E.FourRounds(LOOP, m, 57, MEMORY, E.MarksOf(b).pages, 0x3008, 0x3048);
    WholeLoopIn(m, LOOP, sd);
    CopyProofs.JitCopyOk(LOOP, m, sd, {}, 57, MEMORY, E.MarksOf(b).pages);
    Midway(sd, E.MarksOf(b).pages);
    StaysIn(sd);
    SafeTail(Cpu(m, FROM), 76, 58, MEMORY);
    E.MarksFit(b, w, LOOP, sd);
    OwnBaked(b, w, sd);
  }

  lemma OwnBaked(b: Block, w: World, sd: bool)
    requires E.Found(b, w, LOOP, sd)
    ensures BakedHold(b, w.mem, E.MarksOf(b))
  {
    hide Rd, LoopIn, Translated, Hoisted, FindCopy, DynWords, VarsOk;
    forall a | a in b.baked
      ensures Rd(w.mem, a) == b.baked[a] && a / 8 in E.MarksOf(b).words
    {
      assert a / 8 in D.BakedWords(b);
    }
  }
}
