/** Exactly when the block of a copy loop does what the loop's instructions do. */
module CopyExact {
  import opened Options
  import opened Words
  import opened Memory
  import opened Subleq
  import opened X86
  import opened RegCache
  import opened Insn
  import opened InsnProofs
  import opened Cells
  import opened CopyLoop
  import CopyProofs
  import opened Blocks
  import opened BlockProofs
  import opened RunProofs
  import P = CopyPlaces
  import T = CopyTurns
  import H = CopyHalts
  import L = CopyRounds
  import G = CopyStage
  import D = Dispatcher

  type Scene = P.Scene

  /** A run of the block leaves what the instructions do. */
  ghost predicate Right(b: Block, mem: Mem, budget: nat, x: Context) {
    && 0 < b.n && b.start + 24 * b.n < TWO64 && (b.copy.Some? ==> VarsOk(b.copy.value, x.memSize))
    && LeaveOk(b, mem, budget, RunBlock(b, mem, budget, x), x)
  }

  // ------------------------------------------------------------- a free page

  lemma {:induction false} FreeOf(bad: set<int>, n: nat) returns (p: nat)
    requires |bad| < n
    ensures 1 <= p <= n && p !in bad
  {
    if n in bad {
      p := FreeOf(bad - {n}, n - 1);
    } else {
      p := n;
    }
  }

  lemma {:induction false} SetOf(s: seq<int>) returns (bad: set<int>)
    ensures |bad| <= |s| && forall v | v in s :: v in bad
  {
    if s == [] {
      bad := {};
    } else {
      var rest := SetOf(s[1..]);
      bad := rest + {s[0]};
    }
  }

  /** Nothing of the loop is on page p or twice that, nor code on the next. */
  predicate PageFree(d: Desc, p: nat) {
    && 1 <= p <= 18 && (forall v | v in P.VarsOf(d) :: v / 0x1000 != p && v / 0x1000 != 2 * p)
    && d.start / 0x1000 !in {p - 1, p, p + 1} && d.start / 0x1000 !in {2 * p, 2 * p - 1}
  }

  lemma PageIs(d: Desc) returns (p: nat)
    ensures PageFree(d, p)
  {
    hide P.VarsOf;
    var s := d.start / 0x1000;
    var pages := seq(6, i requires 0 <= i < 6 => VarPage(d, i));
    var halves := seq(6, i requires 0 <= i < 6 => VarPage(d, i) / 2);
    var loop := [s - 1, s, s + 1, s / 2, (s + 1) / 2];
    var bad := SetOf(pages + halves + loop);
    p := FreeOf(bad, 18);
    forall v | v in P.VarsOf(d)
      ensures v / 0x1000 != p && v / 0x1000 != 2 * p
    {
      var i :| 0 <= i < 6 && P.VarsOf(d)[i] == v;
      assert pages[i] == v / 0x1000 && halves[i] == v / 0x1000 / 2;
      assert pages[i] in pages + halves + loop && halves[i] in pages + halves + loop;
      NotTwice(v / 0x1000, p);
    }
    assert forall l | 0 <= l < 5 :: loop[l] in pages + halves + loop;
    assert loop[0] in bad && loop[1] in bad && loop[2] in bad && loop[3] in bad && loop[4] in bad;
    NotTwice(s, p);
    NotTwice(s + 1, p);
  }

  lemma NotTwice(x: int, p: nat)
    requires p != x / 2
    ensures x != 2 * p
  {
  }

  function VarPage(d: Desc, i: nat): int
    requires i < 6
  {
    P.VarsOf(d)[i] / 0x1000
  }

  lemma PageClear(d: Desc, memSize: int, p: nat)
    requires VarsOk(d, memSize) && PageFree(d, p)
    ensures d.start + LOOP_LEN <= p * 0x1000 || d.start >= p * 0x1000 + 0x1000
    ensures d.start + LOOP_LEN <= 2 * p * 0x1000 || d.start >= 2 * p * 0x1000 + 0x1000
  {
  }

  /** The smallest memory with such a page, wherever the loop is. */
  const ROOM: int := 0x2_5000

  function SceneOf(d: Desc, sd: bool, memSize: int, p: nat, k: nat, f: nat): Scene
    requires p <= 18 && d.start + LOOP_LEN < TWO64 && k <= 19
  {
    G.Chosen(d, sd, memSize, p * 0x1000, k, f)
  }

  /** x is a word of its own. */
  lemma ChosenOk(d: Desc, sd: bool, memSize: int, g: word, k: nat, f: nat)
    requires VarsOk(d, memSize) && g % 8 == 0 && g + 0x1000 <= memSize && k <= 19 && f < 3 && (k < 19 ==> !Patched(k, f))
    requires d.start + LOOP_LEN <= g || d.start >= g + 0x1000
    requires forall v | v in P.VarsOf(d) :: v < g || v >= g + 0x1000
    ensures P.SceneOk(G.Chosen(d, sd, memSize, g, k, f))
  {
    var z := G.Chosen(d, sd, memSize, g, k, f);
    if z.j == 19 {
      assert z.x !in P.VarsOf(d);
    } else {
      FieldOff(d, memSize, z.j);
    }
  }

  lemma FieldOff(d: Desc, memSize: int, j: nat)
    requires VarsOk(d, memSize) && j < 19
    ensures var a := P.FieldAt(d, j, 2); a % 8 == 0 && a + 8 <= memSize && a !in P.VarsOf(d)
  {
  }

  lemma SceneIn(d: Desc, sd: bool, memSize: int, p: nat, k: nat, f: nat)
    requires VarsOk(d, memSize) && memSize >= ROOM && PageFree(d, p) && k <= 19 && f < 3 && (k < 19 ==> !Patched(k, f))
    ensures p <= 18 && d.start + LOOP_LEN < TWO64 && T.PageOk(SceneOf(d, sd, memSize, p, k, f))
  {
    hide VarsOk, PageFree, P.SceneOk, P.VarsOf;
    VarsBound(d, memSize);
    PageClear(d, memSize, p);
    VarsClear(d, p);
    PageLow(d, p);
    ChosenOk(d, sd, memSize, p * 0x1000, k, f);
  }

  lemma VarsBound(d: Desc, memSize: int)
    requires VarsOk(d, memSize)
    ensures d.start + LOOP_LEN < TWO64
  {
  }

  lemma PageLow(d: Desc, p: nat)
    requires PageFree(d, p)
    ensures 1 <= p <= 18
  {
  }

  lemma VarsClear(d: Desc, p: nat)
    requires PageFree(d, p)
    ensures forall v | v in P.VarsOf(d) ::
      (v < p * 0x1000 || v >= p * 0x1000 + 0x1000) && (v < 2 * p * 0x1000 || v >= 2 * p * 0x1000 + 0x1000)
  {
    forall v | v in P.VarsOf(d)
      ensures (v < p * 0x1000 || v >= p * 0x1000 + 0x1000) && (v < 2 * p * 0x1000 || v >= 2 * p * 0x1000 + 0x1000)
    {
      assert v / 0x1000 != p && v / 0x1000 != 2 * p;
    }
  }

  lemma SumIn(d: Desc, sd: bool, memSize: int, p: nat, k: nat, f: nat)
    requires VarsOk(d, memSize) && memSize >= ROOM && PageFree(d, p) && k <= 19 && f < 3 && (k < 19 ==> !Patched(k, f))
    ensures p <= 18 && d.start + LOOP_LEN < TWO64 && L.SumSpare(SceneOf(d, sd, memSize, p, k, f))
  {
    hide P.Aside, P.SceneOk, VarsOk, PageFree, P.VarsOf, G.Chosen;
    PageLow(d, p);
    SceneIn(d, sd, memSize, p, k, f);
    var z := SceneOf(d, sd, memSize, p, k, f);
    ChosenPage(d, sd, memSize, p * 0x1000, k, f);
    H.PageBounds(z);
    XPlace(z);
    forall i: nat | i < 4
      ensures T.Spare(z, 2 * z.g + 80 + 16 * i)
    {
      SumOff(d, memSize, p, i);
      P.AlignedAside(z, 2 * z.g + 80 + 16 * i);
    }
  }

  lemma ChosenPage(d: Desc, sd: bool, memSize: int, g: word, k: nat, f: nat)
    requires g + 168 < TWO64 && d.start + LOOP_LEN < TWO64 && k <= 19
    ensures var z := G.Chosen(d, sd, memSize, g, k, f); z.g == g && z.d == d && z.memSize == memSize
  {
  }

  lemma XPlace(z: Scene)
    requires T.PageOk(z)
    ensures z.x == z.g + 168 || !P.Off(z.d, z.x)
  {
    hide VarsOk;
  }

  lemma SumOff(d: Desc, memSize: int, p: nat, i: nat)
    requires VarsOk(d, memSize) && PageFree(d, p) && i < 4
    ensures var a := 2 * p * 0x1000 + 80 + 16 * i; a % 8 == 0 && P.Off(d, a) && a !in P.VarsOf(d)
  {
    hide VarsOk, P.VarsOf;
    PageClear(d, memSize, p);
    VarsClear(d, p);
  }

  // ------------------------------------------------------- what is not baked

  /** A block translated for the loop d, of whose fields dyn are not baked. */
  ghost predicate Found(b: Block, w: World, d: Desc, sd: bool) {
    && Translated(b, w) && b.start % 8 == 0 && b.copy == Some(d) && VarsOk(d, w.memSize) && d.start == b.start && LoopIn(w.mem, d, sd)
    && b.n <= 19 && b.baked == Baked(w, DynWords(w, b.start), b.start, b.n) && b.hoist == Hoisted(w, DynWords(w, b.start), b.start, 19)
    && FindCopy(w.mem, w.dynMap, b.start, w.memSize).Some? && w.memSize <= 0x4000_0000_0000_0000
  }

  lemma IsFound(b: Block, w: World) returns (d: Desc, sd: bool)
    requires Translated(b, w) && b.copy.Some?
    ensures b.start + LOOP_LEN < TWO64 && Found(b, w, d, sd)
  {
    hide Rd, TranslateFrom, FindCopy, Hoisted, VarsOk, Translated, LoopIn, DynWords, Baked;
    MadeBounds(b, w);
    MadeAligned(b, w);
    var copy, n, dyn, k, e, ended := MadeParts(b, w);
    FoundLoop(w.mem, w.dynMap, b.start, w.memSize);
    d := b.copy.value;
    sd :| LoopIn(w.mem, d, sd);
  }

  /** The words that the loop stores to at fixed addresses are none of those baked. */
  lemma WrittenNotBaked(b: Block, w: World, d: Desc, sd: bool, j: nat, v: int)
    requires Found(b, w, d, sd) && j < 18 && d.start + LOOP_LEN < TWO64 && (d.start + 24 * j + 8) / 8 !in w.dynMap
    requires v in TouchedIn(Rd(w.mem, d.start + 24 * j + 8), d.start)
    ensures v in DynWords(w, b.start)
  {
    hide Rd, TouchedIn, LoopIn, Translated, FindCopy, Extent, Hoisted, Baked;
    LoopFitsIn(d, w.memSize);
    ExtentTakes(w, d, sd, 0, j);
  }

  /** Which instruction stores to a field that the loop patches. */
  lemma PatchedDyn(b: Block, w: World, d: Desc, sd: bool, k: nat, f: nat)
    requires Found(b, w, d, sd) && k < 19 && f < 3 && Patched(k, f)
    ensures P.FieldAt(d, k, f) / 8 in DynWords(w, b.start)
  {
    hide Rd, LoopIn, Translated, Extent, Hoisted, Baked, FindCopy, DynWords;
    var j := if k == 5 then 2 else if k == 15 then 7 else if f == 0 then 8 else 9;
    var a := P.FieldAt(d, k, f);
    assert !Patched(j, 1);
    LoopB(w.mem, d, sd, j);
    FoundStatic(w.mem, w.dynMap, b.start, w.memSize, j);
    assert a / 8 in TouchedIn(a, d.start);
    WrittenNotBaked(b, w, d, sd, j, a / 8);
  }

  lemma FoundStatic(m: Mem, dyn: set<int>, start: word, memSize: int, j: nat)
    requires memSize <= 0x4000_0000_0000_0000 && FindCopy(m, dyn, start, memSize).Some? && j < 19 && j !in {14, 15}
    ensures start + 24 * j + 8 < TWO64 && (start + 24 * j + 8) / 8 !in dyn
  {
    hide Rd, LoopIn;
    assert !Patched(j, 1) && start + 24 * j + 8 * 1 == start + 24 * j + 8;
  }

  lemma {:induction false} HoistedFrom(w: World, dyn: set<int>, start: word, n: nat, v: int) returns (j: nat)
    requires start + 24 * n < TWO64 && v in Hoisted(w, dyn, start, n)
    ensures j < n && !SourceAt(w, dyn, start, j).db && v < w.memSize / 8
    ensures var a := SourceAt(w, dyn, start, j).fb; v == a / 8 || (v == Add(a, 7) / 8 && v > a / 8)
  {
    hide Rd, SourceAt;
    if n > 0 {
      var s := SourceAt(w, dyn, start, n - 1);
      if !s.db && v !in Hoisted(w, dyn, start, n - 1) {
        j := n - 1;
      } else {
        j := HoistedFrom(w, dyn, start, n - 1, v);
      }
    }
  }

  /** No word that is checked on entry is baked. */
  lemma HoistNotBaked(b: Block, w: World, d: Desc, sd: bool, v: int)
    requires Found(b, w, d, sd) && v in b.hoist
    ensures v !in D.BakedWords(b)
  {
    hide Rd, LoopIn, Translated, Extent, Hoisted, FindCopy, DynWords, VarsOk;
    if v in D.BakedWords(b) {
      LoopFitsIn(d, w.memSize);
      var dyn := DynWords(w, b.start);
      var j := HoistedFrom(w, dyn, b.start, 19, v);
      var a: word :| a in b.baked && a / 8 == v;
      var p := d.start + 24 * j + 8;
      DynMore(w, b.start, p / 8);
      if j < 18 {
        assert v in TouchedIn(Rd(w.mem, p), d.start);
        WrittenNotBaked(b, w, d, sd, j, v);
      } else {
        LoopB(w.mem, d, sd, 18);
        CounterOff(d, w.memSize, a);
      }
      assert false;
    }
  }

  lemma DynMore(w: World, start: word, v: int)
    requires w.memSize <= 0x4000_0000_0000_0000
    ensures v !in DynWords(w, start) ==> v !in w.dynMap
  {
    hide Rd, Extent, FindCopy;
  }

  lemma CounterOff(d: Desc, memSize: int, a: word)
    requires VarsOk(d, memSize) && d.start <= a < d.start + LOOP_LEN && a % 8 == 0
    ensures a / 8 != d.cv / 8 && Add(d.cv, 7) / 8 == d.cv / 8
  {
  }

  // ------------------------------------------------------------- the marks

  /** Marks for the words baked, and no others. */
  function MarksOf(b: Block): Marks { D.MarkStatic(Marks({}, {}), D.BakedWords(b)) }

  lemma MarksFit(b: Block, w: World, d: Desc, sd: bool)
    requires Found(b, w, d, sd)
    ensures MarksIn(MarksOf(b), w.memSize) && !HoistMarked(b, MarksOf(b))
  {
    hide Translated, LoopIn, FindCopy, DynWords, Hoisted, Baked, VarsOk, Rd;
    D.WordsIn(b, w);
    D.MarkedIn(Marks({}, {}), D.BakedWords(b), w.memSize);
    if HoistMarked(b, MarksOf(b)) {
      var v :| v in b.hoist && v in MarksOf(b).words;
      HoistNotBaked(b, w, d, sd, v);
    }
  }

  // ------------------------------------------------------------- the memory

  ghost predicate SetFor(z: Scene, w: World, d: Desc, sd: bool) {
    && T.PageOk(z) && z.d == d && z.sd == sd && z.memSize == w.memSize && L.SumSpare(z) && w.memSize >= ROOM
    && z.g + 0x1000 < TWO64 && z.d.start + LOOP_LEN < TWO64 && (z.c.k < 19 ==> z.c.f < 2) && LoopIn(w.mem, d, sd)
  }

  function MemOf(z: Scene, m: Mem): Mem
    requires z.g + 0x1000 < TWO64 && z.d.start + LOOP_LEN < TWO64 && (z.c.k < 19 ==> z.c.f < 2)
  {
    P.WithPlaces(z, G.Staged(m, z), G.Firsts(z))
  }

  /** What the scene changes of the loop is not baked. */
  predicate Unbaked(z: Scene, dyn: set<int>) {
    && (z.c.k < 19 ==> P.FieldAt(z.d, z.c.k, z.c.f) / 8 in dyn)
    && (z.c.k == 19 && z.j < 19 ==> P.FieldAt(z.d, z.j, 2) / 8 in dyn)
  }

  lemma StagedBaked(b: Block, w: World, d: Desc, sd: bool, z: Scene)
    requires Found(b, w, d, sd) && SetFor(z, w, d, sd) && Unbaked(z, DynWords(w, b.start)) && z.c.k <= 19
    ensures BakedHold(b, MemOf(z, w.mem), MarksOf(b))
  {
    hide Rd, LoopIn, Translated, Hoisted, FindCopy, DynWords, VarsOk, MemOf, T.PageOk, L.SumSpare;
    forall a | a in b.baked
      ensures Rd(MemOf(z, w.mem), a) == b.baked[a] && a / 8 in MarksOf(b).words
    {
      assert a / 8 in D.BakedWords(b);
      var k, f := FieldOf(b, d, a);
      if Patched(k, f) {
        PatchedDyn(b, w, d, sd, k, f);
        assert false;
      } else {
        StagedSame(w, d, sd, z, DynWords(w, b.start), k, f);
      }
    }
  }

  /** Which field a word of the loop is. */
  lemma FieldOf(b: Block, d: Desc, a: word) returns (k: nat, f: nat)
    requires d.start == b.start && b.start <= a < b.start + 24 * 19 && a % 8 == 0 && b.start % 8 == 0
    ensures k < 19 && f < 3 && a == P.FieldAt(d, k, f)
  {
    var i := (a - b.start) / 8;
    k, f := i / 3, i % 3;
  }

  lemma StagedSame(w: World, d: Desc, sd: bool, z: Scene, dyn: set<int>, k: nat, f: nat)
    requires SetFor(z, w, d, sd) && Unbaked(z, dyn) && k < 19 && f < 3 && !Patched(k, f) && P.FieldAt(d, k, f) / 8 !in dyn && z.c.k <= 19
    ensures 0 <= P.FieldAt(d, k, f) < TWO64 && Rd(MemOf(z, w.mem), P.FieldAt(d, k, f)) == Rd(w.mem, P.FieldAt(d, k, f))
  {
    hide Rd, LoopIn, P.WithPlaces, G.Staged, L.SumSpare, P.SceneOk;
    H.PageBounds(z);
    G.StagedLoop(w.mem, z);
    G.LoopField(w.mem, d, sd, k, f);
    P.FieldRead(G.Staged(w.mem, z), z, z.d.start, G.Firsts(z), k, f);
    if f == 2 && k == z.j {
      P.ModSmall(TmplC(d, k));
    }
  }

  // ----------------------------------------------------------- the bulk copy

  /** What the bulk copy looks at. */
  lemma StagedVars(w: World, d: Desc, sd: bool, z: Scene)
    requires SetFor(z, w, d, sd)
    ensures var m := MemOf(z, w.mem);
      Rd(m, d.sv) == G.FromAt(z) && Rd(m, d.dv) == G.ToAt(z) && Rd(m, d.cv) == TWO64 - 24 && Rd(m, d.mv) == MINUS8
      && Rd(m, z.x) == P.Mod(G.XAt(z))
  {
    hide Rd, LoopIn, P.WithPlaces, G.Staged, L.SumSpare, P.SceneOk, P.Places, CellsOf, G.XAt;
    H.PageBounds(z);
    var n, u := G.Staged(w.mem, z), G.Firsts(z);
    P.PlaceRead(n, z, u, 0);
    P.PlaceRead(n, z, u, 1);
    P.PlaceRead(n, z, u, 2);
    P.PlaceRead(n, z, u, 9);
    P.PlaceRead(n, z, u, 10);
    P.PlaceAt(z, 0); P.PlaceAt(z, 1); P.PlaceAt(z, 2); P.PlaceAt(z, 9); P.PlaceAt(z, 10);
    CellAt(d, 0); CellAt(d, 1); CellAt(d, 2);
    P.ModSmall(G.FromAt(z));
    P.ModSmall(G.ToAt(z));
  }

  /** Its source and target are free to be copied from and to. */
  predicate Reachable(b: Block, d: Desc, z: Scene) {
    (G.FromAt(z) == 0 ==> FromZero(d)) && (G.ToAt(z) == 0 ==> ToZero(b, d))
  }

  lemma StagedAllowed(b: Block, w: World, d: Desc, sd: bool, z: Scene, p: nat)
    requires Found(b, w, d, sd) && SetFor(z, w, d, sd) && Reachable(b, d, z) && PageFree(d, p) && z.g == p * 0x1000
    ensures CopyAllowed(d, MemOf(z, w.mem), 4, w.memSize, MarksOf(b).pages)
  {
    hide Rd, LoopIn, Translated, Hoisted, FindCopy, DynWords, MemOf, L.SumSpare, T.PageOk, Baked, PagesClear, P.VarsOf, PageFree, VarsOk;
    hide P.WithPlaces, G.Staged, MarksOf, CopyAllowed, FromZero;
    StagedVars(w, d, sd, z);
    H.PageBounds(z);
    PageLow(d, p);
    PageClear(d, w.memSize, p);
    VarsClear(d, p);
    StagedPages(b, w, d, sd, z, p);
    AllowedAt(d, MemOf(z, w.mem), w.memSize, MarksOf(b).pages, z.g, G.FromAt(z), G.ToAt(z));
  }

  lemma AllowedAt(d: Desc, m: Mem, memSize: int, pages: set<int>, g: word, s: word, t: word)
    requires Rd(m, d.sv) == s && Rd(m, d.dv) == t && (s == 0 || s == g + 8) && (t == 0 || t == g + 72)
    requires 0x1000 <= g <= 0x1_2000 && g + 0x1000 <= memSize <= 0x4000_0000_0000_0000 && PagesClear(pages, t, t + 31)
    requires d.start + LOOP_LEN <= g || d.start >= g + 0x1000
    requires forall v | v in P.VarsOf(d) :: v < g || v >= g + 0x1000
    requires (s == 0 || t == 0 ==> FromZero(d)) && (t == 0 ==> d.mv >= 32)
    ensures CopyAllowed(d, m, 4, memSize, pages)
  {
    hide Rd, PagesClear, P.VarsOf, FromZero;
    VarsListed(d);
    assert t + 32 - 1 == t + 31;
    forall v | v in [d.t1, d.t2, d.sv, d.dv, d.cv]
      ensures !Overlaps(s, 32, v, 8) && !Overlaps(t, 32, v, 8)
    {
      ZeroClear(d, v, s == 0 || t == 0);
    }
    ZeroClear(d, d.t1, s == 0 || t == 0);
  }

  lemma ZeroClear(d: Desc, v: word, zero: bool)
    requires zero ==> FromZero(d)
    ensures zero ==> d.start >= 32 && (v in [d.t1, d.t2, d.sv, d.dv, d.cv] ==> v >= 32)
  {
  }

  lemma VarsListed(d: Desc)
    ensures forall v | v in [d.t1, d.t2, d.sv, d.dv, d.cv] :: v in P.VarsOf(d)
    ensures d.mv in P.VarsOf(d)
  {
    assert P.VarsOf(d)[5] == d.mv;
  }

  lemma StagedPages(b: Block, w: World, d: Desc, sd: bool, z: Scene, p: nat)
    requires Found(b, w, d, sd) && Reachable(b, d, z) && PageFree(d, p) && z.g == p * 0x1000
    ensures PagesClear(MarksOf(b).pages, G.ToAt(z), G.ToAt(z) + 31)
  {
    hide Rd, LoopIn, Translated, Hoisted, FindCopy, DynWords, VarsOk;
    var t := G.ToAt(z);
    PageLow(d, p);
    assert t == 0 || t == p * 0x1000 + 72;
    forall pg | pg in MarksOf(b).pages
      ensures !(t / 0x1000 <= pg <= (t + 31) / 0x1000)
    {
      var v :| v in D.BakedWords(b) && (pg == v * 8 / 0x1000 || pg == v * 8 / 0x1000 - 1);
      var a: word :| a in b.baked && a / 8 == v;
      PageOf(a);
      LoopPages(d, p, a);
    }
  }

  lemma LoopPages(d: Desc, p: nat, a: word)
    requires PageFree(d, p) && d.start <= a < d.start + 24 * 19
    ensures a / 0x1000 != p && a / 0x1000 != p + 1
  {
  }

  /** Four rounds, and the loop is done. */
  lemma FourRounds(d: Desc, m: Mem, budget: nat, memSize: int, pages: set<int>, s: word, t: word)
    requires VarsOk(d, memSize) && CopyAllowed(d, m, 4, memSize, pages) && budget >= 57 && s < TWO63 && t < TWO63
    requires Rd(m, d.sv) == s && Rd(m, d.dv) == t && Rd(m, d.cv) == TWO64 - 24 && Rd(m, d.mv) == MINUS8
    ensures JitCopy(d, m, budget, memSize, pages) ==
      CopyResult(4, true, WriteAll(BulkCopy(m, t, s, 32), CellsOf(d), LastCells(d, m, 4, s, t)))
  {
    hide Rd, CopyAllowed, WriteAll, BulkCopy, LastCells, CellsOf, VarsOk;
    assert Total(TWO64 - 24) == 4;
    assert budget / 19 >= 3;
  }

  // ------------------------------------------------------------- the block

  /** A CPU that brings only the marks the block needs. */
  function CpuOf(b: Block, memSize: int): Context {
    Context(MarksOf(b), memSize, None, seq(11, i => 0), Flags(false, false, false))
  }

  /** A block of which the bulk copy does all, but for what its way out does. */
  lemma CopyLeaves(b: Block, m: Mem, budget: nat, x: Context, r: Mem)
    requires 0 < b.n <= budget && b.start + 24 * b.n < TWO64 && x.watch.None? && !HoistMarked(b, x.marks)
    requires b.copy.Some? && VarsOk(b.copy.value, x.memSize) && 0 <= b.copy.value.start + LOOP_LEN < TWO64
    requires JitCopy(b.copy.value, m, budget - b.n, x.memSize, x.marks.pages) == CopyResult(4, true, r)
    requires |b.stubs| > 0 && b.stubs[0] == StubRec(false, b.copy.value.start + LOOP_LEN, 18, 0, NotHeld)
    ensures RunBlock(b, m, budget, x) == Leave(r, b.copy.value.start + LOOP_LEN, budget - 76, ByStub(0))
  {
    hide JitCopy, VarsOk, HoistMarked, Run;
    RunNone(Machine(x.regs, x.fl, r, x.marks, []));
  }

  /** The block is left at the loop's end, with all four rounds taken from the
      budget, by the bulk copy alone. */
  lemma BlockCopies(b: Block, w: World, d: Desc, sd: bool, m: Mem, s: word, t: word, budget: nat)
    requires Found(b, w, d, sd) && CopyAllowed(d, m, 4, w.memSize, MarksOf(b).pages) && s < TWO63 && t < TWO63
    requires Rd(m, d.sv) == s && Rd(m, d.dv) == t && Rd(m, d.cv) == TWO64 - 24 && Rd(m, d.mv) == MINUS8
    requires budget >= b.n + 57 && 0 < b.n && b.start + 24 * b.n < TWO64
    ensures RunBlock(b, m, budget, CpuOf(b, w.memSize)) ==
      Leave(WriteAll(BulkCopy(m, t, s, 32), CellsOf(d), LastCells(d, m, 4, s, t)), d.start + LOOP_LEN, budget - 76, ByStub(0))
  {
    hide Rd, LoopIn, Translated, Hoisted, FindCopy, DynWords, Baked, WriteAll, BulkCopy, LastCells, CellsOf, JitCopy, CopyAllowed;
    hide HoistMarked, VarsOk, MarksOf, RunBlock;
    FourRounds(d, m, budget - b.n, w.memSize, MarksOf(b).pages, s, t);
    MarksFit(b, w, d, sd);
    CopyStub(b, w);
    CopyLeaves(b, m, budget, CpuOf(b, w.memSize), WriteAll(BulkCopy(m, t, s, 32), CellsOf(d), LastCells(d, m, 4, s, t)));
  }

  /** So in the memory of a scene. */
  lemma StagedLeave(b: Block, w: World, d: Desc, sd: bool, z: Scene, p: nat, budget: nat)
    requires Found(b, w, d, sd) && SetFor(z, w, d, sd) && Reachable(b, d, z) && PageFree(d, p) && z.g == p * 0x1000
    requires budget >= b.n + 57 && 0 < b.n && b.start + 24 * b.n < TWO64
    ensures 0 <= G.FromAt(z) < TWO63 && 0 <= G.ToAt(z) < TWO63
    ensures var m, s, t := MemOf(z, w.mem), G.FromAt(z), G.ToAt(z);
      RunBlock(b, m, budget, CpuOf(b, w.memSize)) ==
      Leave(WriteAll(BulkCopy(m, t, s, 32), CellsOf(d), LastCells(d, m, 4, s, t)), d.start + LOOP_LEN, budget - 76, ByStub(0))
  {
    hide Rd, LoopIn, Translated, Hoisted, FindCopy, DynWords, MemOf, L.SumSpare, T.PageOk, Baked, WriteAll, BulkCopy, LastCells, CellsOf;
    hide CopyAllowed, RunBlock, VarsOk, PageFree, Reachable;
    H.PageBounds(z);
    StagedVars(w, d, sd, z);
    StagedAllowed(b, w, d, sd, z, p);
    BlockCopies(b, w, d, sd, MemOf(z, w.mem), G.FromAt(z), G.ToAt(z), budget);
  }

  // ------------------------------------------------------------ they differ

  /** Some words after the bulk copy: S, D and C, moved; x, as before; and the last
      word copied. */
  lemma BulkWords(w: World, d: Desc, sd: bool, z: Scene)
    requires SetFor(z, w, d, sd) && z.j == 19
    ensures var m, s, t := MemOf(z, w.mem), z.g + 8, z.g + 72;
      var r := WriteAll(BulkCopy(m, t, s, 32), CellsOf(d), LastCells(d, m, 4, s, t));
      && Rd(r, d.sv) == s + 32 && Rd(r, d.dv) == t + 32 && Rd(r, d.cv) == 8 && Rd(r, z.x) == Rd(m, z.x)
      && Rd(r, T.Dest(z, 3)) == G.Xs(z)[3]
  {
    hide Rd, LoopIn, MemOf, L.SumSpare, P.SceneOk, WriteAll, BulkCopy, CellsOf, G.Xs, P.Places, T.Spare;
    H.PageBounds(z);
    CellsApart(d, w.memSize);
    var m, s, t := MemOf(z, w.mem), z.g + 8, z.g + 72;
    var n, v := BulkCopy(m, t, s, 32), LastCells(d, m, 4, s, t);
    StagedCounter(w, d, sd, z);
    CellAt(d, 0); CellAt(d, 1); CellAt(d, 2);
    RdCell(n, CellsOf(d), v, 0);
    RdCell(n, CellsOf(d), v, 1);
    RdCell(n, CellsOf(d), v, 2);
    assert Outside(z.x, CellsOf(d)) by { XOutside(z); }
    RdOutside(n, CellsOf(d), v, z.x);
    XOnPage(z);
    BulkCopyOther(m, t, s, 32, z.x);
    var a := T.Dest(z, 3);
    T.PageWords(z, 3);
    H.SpareIn(z, a);
    assert Outside(a, CellsOf(d)) by { AsideOutside(z, a); }
    RdOutside(n, CellsOf(d), v, a);
    BulkCopyWord(m, t, s, 32, 24);
    SourceNow(w, d, sd, z, 3);
  }

  lemma StagedCounter(w: World, d: Desc, sd: bool, z: Scene)
    requires SetFor(z, w, d, sd)
    ensures Rd(MemOf(z, w.mem), d.cv) == TWO64 - 24
  {
    hide Rd, LoopIn, MemOf, T.PageOk, L.SumSpare;
    StagedVars(w, d, sd, z);
  }

  lemma XOnPage(z: Scene)
    requires T.PageOk(z) && z.j == 19
    ensures z.x == z.g + 168
  {
  }

  lemma XOutside(z: Scene)
    requires P.SceneOk(z)
    ensures Outside(z.x, CellsOf(z.d))
  {
    hide CellsOf;
    forall i | 0 <= i < 9
      ensures Disjoint(z.x, CellsOf(z.d)[i])
    {
      P.XApart(z, i);
      CellPlace(z.d, z.memSize, i);
    }
  }

  lemma AsideOutside(z: Scene, a: word)
    requires z.d.start + LOOP_LEN < TWO64 && P.Aside(z, a)
    ensures Outside(a, CellsOf(z.d))
  {
    hide CellsOf, P.Places;
    forall i | 0 <= i < 9
      ensures Disjoint(a, CellsOf(z.d)[i])
    {
      P.PlaceAt(z, i);
      assert Disjoint(a, P.Places(z)[i]);
    }
  }

  lemma BulkCopyWord(m: Mem, t: word, s: word, n: nat, i: nat)
    requires t + n <= SIZE && s + n <= SIZE && i + 8 <= n && t + i < TWO64 && s + i < TWO64
    ensures Rd(BulkCopy(m, t, s, n), t + i) == Rd(m, s + i)
  {
    assert BulkCopy(m, t, s, n)[t + i..t + i + 8] == m[s + i..s + i + 8];
  }

  lemma SourceNow(w: World, d: Desc, sd: bool, z: Scene, l: nat)
    requires SetFor(z, w, d, sd) && l < 8
    ensures 0 <= T.Source(z, l) < TWO64 && Rd(MemOf(z, w.mem), T.Source(z, l)) == G.Xs(z)[l]
  {
    hide Rd, LoopIn, P.WithPlaces, G.Staged, L.SumSpare, P.SceneOk, G.Xs, T.Spare;
    H.PageBounds(z);
    T.PageWords(z, l);
    H.SpareIn(z, T.Source(z, l));
    G.StagedHolds(w.mem, z);
    P.AsideRead(G.Staged(w.mem, z), z, G.Firsts(z), T.Source(z, l));
  }

  /** The instructions leave something else, in memory all the way. */
  lemma Differs(w: World, d: Desc, sd: bool, z: Scene)
    requires SetFor(z, w, d, sd) && G.Otherwise(G.Staged(w.mem, z), z) && z.c.k <= 19 && (z.c.k == 19 ==> z.j < 19)
    ensures 0 <= G.FromAt(z) < TWO63 && 0 <= G.ToAt(z) < TWO63 && SafeFor(Cpu(MemOf(z, w.mem), d.start), 76, w.memSize)
    ensures var m, s, t := MemOf(z, w.mem), G.FromAt(z), G.ToAt(z);
      var r := WriteAll(BulkCopy(m, t, s, 32), CellsOf(d), LastCells(d, m, 4, s, t));
      Steps(Cpu(m, d.start), 76) != Cpu(r, d.start + LOOP_LEN)
  {
    hide Rd, LoopIn, L.SumSpare, P.SceneOk, WriteAll, BulkCopy, CellsOf, G.Xs, P.WithPlaces, G.Staged, L.Different, SafeFor;
    hide LastCells, Steps, L.Lasting;
    H.PageBounds(z);
    var n := G.Staged(w.mem, z);
    if !H.Ends(P.At(z, n, G.Firsts(z), 0), z) {
      var m4: Mem, u4: seq<int> :| |u4| == 11 && G.After76(n, z, m4, u4);
      if L.EndOf(z, 3) == z.d.start + LOOP_LEN {
        DiffersWord(w, d, sd, z, m4, u4);
      }
    }
  }

  lemma DiffersWord(w: World, d: Desc, sd: bool, z: Scene, m4: Mem, u4: seq<int>)
    requires SetFor(z, w, d, sd) && |u4| == 11 && L.Different(m4, z, u4, G.Firsts(z)) && z.j == 19 && L.Lasting(z.c) && z.c.k < 19
    ensures var m, s, t := MemOf(z, w.mem), G.FromAt(z), G.ToAt(z);
      0 <= s < TWO63 && 0 <= t < TWO63 &&
      P.WithPlaces(z, m4, u4) != WriteAll(BulkCopy(m, t, s, 32), CellsOf(d), LastCells(d, m, 4, s, t))
  {
    hide Rd, LoopIn, L.SumSpare, P.SceneOk, WriteAll, BulkCopy, CellsOf, P.WithPlaces, G.Staged, LastCells, P.Places, T.Spare, MemOf;
    H.PageBounds(z);
    BulkWords(w, d, sd, z);
    if z.c.k >= 16 {
      var i := L.Stuck(z);
      P.PlaceRead(m4, z, u4, i);
      P.PlaceAt(z, i);
      CellAt(d, i);
    } else if z.c.f == 1 {
      P.PlaceRead(m4, z, u4, 9);
      P.PlaceAt(z, 9);
      StagedVars(w, d, sd, z);
    } else {
      T.PageWords(z, 3);
      H.SpareIn(z, T.Dest(z, 3));
      P.AsideRead(m4, z, u4, T.Dest(z, 3));
    }
  }

  // ------------------------------------------------------------- the result

  /** A memory in which the block does something else than the instructions. */
  ghost predicate GoesWrong(b: Block, w: World) {
    exists mem: Mem, budget: nat, x: Context :: Fits(b, w, mem, budget, x) && !Right(b, mem, budget, x)
  }

  /** A field whose change shows, or none of them. */
  predicate Shows(k: nat, f: nat) {
    if k < 19 then f < 3 && !Patched(k, f) && !(f == 2 && k in {16, 17}) else k == 19 && f == 0
  }

  /** The scene for a field, on a page that is free. */
  lemma SetUp(b: Block, w: World, d: Desc, sd: bool, k: nat, f: nat) returns (p: nat, z: Scene)
    requires Found(b, w, d, sd) && w.memSize >= ROOM && Shows(k, f)
    ensures PageFree(d, p) && p <= 18 && d.start + LOOP_LEN < TWO64 && z == SceneOf(d, sd, w.memSize, p, k, f)
    ensures SetFor(z, w, d, sd) && G.Otherwise(G.Staged(w.mem, z), z)
  {
    hide Rd, LoopIn, Translated, Hoisted, FindCopy, DynWords, Baked, L.SumSpare, T.PageOk, G.Staged, P.LoopWith, T.Holds;
    hide G.Otherwise, G.Xs, G.Ts;
    hide PageFree, VarsOk;
    LoopFitsIn(d, w.memSize);
    p := PageIs(d);
    PageLow(d, p);
    z := SceneOf(d, sd, w.memSize, p, k, f);
    SceneIn(d, sd, w.memSize, p, k, f);
    SumIn(d, sd, w.memSize, p, k, f);
    H.PageBounds(z);
    G.ChangedField(z);
    G.StagedLoop(w.mem, z);
    G.StagedHolds(w.mem, z);
    G.Comes(G.Staged(w.mem, z), z);
  }

  /** The staged memory is one the block can be entered with. */
  lemma StagedFits(b: Block, w: World, d: Desc, sd: bool, z: Scene, budget: nat)
    requires Found(b, w, d, sd) && SetFor(z, w, d, sd) && Unbaked(z, DynWords(w, b.start)) && z.c.k <= 19 && budget <= 76
    requires SafeFor(Cpu(MemOf(z, w.mem), d.start), 76, w.memSize)
    ensures Fits(b, w, MemOf(z, w.mem), budget, CpuOf(b, w.memSize))
  {
    hide Rd, LoopIn, Translated, Hoisted, FindCopy, DynWords, Baked, SafeFor, T.PageOk, L.SumSpare, BakedHold, MarksIn;
    hide HoistMarked, VarsOk, Unbaked;
    StagedBaked(b, w, d, sd, z);
    MarksFit(b, w, d, sd);
    SafeTail(Cpu(MemOf(z, w.mem), d.start), 76, budget, w.memSize);
  }

  /** When the body is not the whole loop, the budget is overdrawn. */
  lemma ShortWrong(b: Block, w: World, d: Desc, sd: bool)
    requires Found(b, w, d, sd) && w.memSize >= ROOM && b.n < 19
    ensures GoesWrong(b, w)
  {
    hide Rd, LoopIn, Translated, Hoisted, FindCopy, DynWords, Baked, SafeFor, Fits, MemOf, RunBlock, PageFree, Arrives;
    MadeBounds(b, w);
    LoopFitsIn(d, w.memSize);
    var p, z := SetUp(b, w, d, sd, 19, 0);
    OtherwiseSafe(w, d, sd, z);
    StagedFits(b, w, d, sd, z, 75);
    StagedLeave(b, w, d, sd, z, p, 75);
    assert !Right(b, MemOf(z, w.mem), 75, CpuOf(b, w.memSize));
  }

  lemma OtherwiseSafe(w: World, d: Desc, sd: bool, z: Scene)
    requires SetFor(z, w, d, sd) && G.Otherwise(G.Staged(w.mem, z), z)
    ensures SafeFor(Cpu(MemOf(z, w.mem), d.start), 76, w.memSize)
  {
    hide Rd, LoopIn, L.SumSpare, T.PageOk, G.Staged, SafeFor, L.Different, P.WithPlaces, Steps;
  }

  /** When a field that is used is not baked, something else is left. */
  lemma FieldWrong(b: Block, w: World, d: Desc, sd: bool, k: nat, f: nat)
    requires Found(b, w, d, sd) && w.memSize >= ROOM && b.n == 19 && k < 19 && f < 3 && !Patched(k, f)
    requires (b.start + 24 * k + 8 * f) / 8 in DynWords(w, b.start) && !(f == 2 && UnusedC(b, d, k))
    ensures GoesWrong(b, w)
  {
    hide Rd, LoopIn, Translated, Hoisted, FindCopy, DynWords, Baked, SafeFor, Fits, MemOf, RunBlock, PageFree, SetFor;
    hide G.Otherwise, Steps, FromZero, ToZero;
    MadeBounds(b, w);
    LoopFitsIn(d, w.memSize);
    var p, z := SetUp(b, w, d, sd, k, f);
    ChosenUnbaked(b, d, z, DynWords(w, b.start), sd, w.memSize, p, k, f);
    Differs(w, d, sd, z);
    StagedFits(b, w, d, sd, z, 76);
    StagedLeave(b, w, d, sd, z, p, 76);
    assert !Right(b, MemOf(z, w.mem), 76, CpuOf(b, w.memSize));
  }

  lemma ChosenUnbaked(b: Block, d: Desc, z: Scene, dyn: set<int>, sd: bool, memSize: int, p: nat, k: nat, f: nat)
    requires p <= 18 && d.start + LOOP_LEN < TWO64 && k < 19 && f < 3 && !Patched(k, f) && z == SceneOf(d, sd, memSize, p, k, f)
    requires d.start == b.start && (b.start + 24 * k + 8 * f) / 8 in dyn && !(f == 2 && UnusedC(b, d, k))
    ensures Unbaked(z, dyn) && Reachable(b, d, z) && z.c.k <= 19 && (z.c.k == 19 ==> z.j < 19) && z.g == p * 0x1000
  {
    hide FromZero, ToZero;
  }

  /** The block of a copy loop does what the instructions do in every memory that
      holds what was baked, and with every budget, exactly if it is harmless: if
      its body is the whole loop, and the only fields of it that are not baked,
      but for those it patches, are C fields that are never used. */
  lemma CopyExactly(b: Block, w: World)
    requires Translated(b, w) && b.copy.Some? && w.memSize >= ROOM
    ensures b.start + LOOP_LEN < TWO64
    ensures Harmless(b, b.copy.value, DynWords(w, b.start)) <==>
      forall mem: Mem, budget: nat, x: Context :: Fits(b, w, mem, budget, x) ==> Right(b, mem, budget, x)
  {
    hide Translated, DynWords, Fits, Right, UnusedC, LoopIn, VarsOk, Hoisted, FindCopy;
    var d, sd := IsFound(b, w);
    if Harmless(b, d, DynWords(w, b.start)) {
      forall mem: Mem, budget: nat, x: Context | Fits(b, w, mem, budget, x)
        ensures Right(b, mem, budget, x)
      {
        HarmlessRight(b, w, mem, budget, x);
      }
    } else if b.n < 19 {
      ShortWrong(b, w, d, sd);
    } else {
      var k: nat, f: nat :| k < 19 && f < 3 && !Patched(k, f) && (b.start + 24 * k + 8 * f) / 8 in DynWords(w, b.start)
        && !(f == 2 && UnusedC(b, d, k));
      FieldWrong(b, w, d, sd, k, f);
    }
  }

  lemma HarmlessRight(b: Block, w: World, mem: Mem, budget: nat, x: Context)
    requires Translated(b, w) && b.copy.Some? && b.start + LOOP_LEN < TWO64 && Harmless(b, b.copy.value, DynWords(w, b.start))
    requires Fits(b, w, mem, budget, x)
    ensures Right(b, mem, budget, x)
  {
    hide Translated, Harmless, DynWords, Fits, LeaveOk, RunBlock, VarsOk;
    RunBlockOk(b, w, mem, budget, x);
  }
}
