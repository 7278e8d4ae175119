/** Rounds of the copy loop with a field changed that lead out of it, to where the
    program halts. */
module CopyHalts {
  import opened Words
  import opened Memory
  import opened Subleq
  import opened X86
  import opened RegCache
  import opened Cells
  import opened CopyLoop
  import opened CopyProofs
  import opened BlockProofs
  import opened CopyPlaces
  import opened CopyTurns

  /** The loop as a first round begins. */
  ghost predicate Ready(m: Mem, z: Scene, u: seq<int>, xs: seq<word>, ts: seq<word>) {
    PageOk(z) && |u| == 11 && LoopWith(m, z, z.d.start) && Holds(m, z, xs, ts, 0)
  }

  /** The halting instruction is there whatever the places hold. */
  lemma StopsThere(m: Mem, z: Scene, u: seq<int>, xs: seq<word>, ts: seq<word>, i: nat)
    requires PageOk(z) && |u| == 11 && Holds(m, z, xs, ts, i)
    ensures Halts(WithPlaces(z, m, u), Stop(z), Zero(z))
  {
    hide Rd, WithPlaces, Aside, SceneOk;
    PageWords(z, 0);
    AsideRead(m, z, u, Stop(z));
    AsideRead(m, z, u, Stop(z) + 8);
    AsideRead(m, z, u, Stop(z) + 16);
    AsideRead(m, z, u, Zero(z));
  }

  /** After n steps it has come there, for good. */
  lemma Stopped(s: Cpu, n: nat, m: Mem, z: Scene, u: seq<int>, xs: seq<word>, ts: seq<word>, i: nat)
    requires PageOk(z) && |u| == 11 && Holds(m, z, xs, ts, i) && n <= 76
    requires Goes(s, n, Cpu(WithPlaces(z, m, u), Stop(z)), z.memSize)
    ensures Goes(s, 76, Cpu(WithPlaces(z, m, u), Stop(z)), z.memSize)
  {
    hide Goes, Halts, Holds, WithPlaces, SceneOk;
    StopsThere(m, z, u, xs, ts, i);
    PageBounds(z);
    HaltGoes(WithPlaces(z, m, u), Stop(z), Zero(z), 76 - n, z.memSize);
    GoesOn(s, n, Cpu(WithPlaces(z, m, u), Stop(z)), 76 - n, Cpu(WithPlaces(z, m, u), Stop(z)), z.memSize);
  }

  lemma PageBounds(z: Scene)
    requires PageOk(z)
    ensures SceneOk(z) && z.d.start + LOOP_LEN < TWO64 && z.g + 0x1000 <= z.memSize <= 0x4000_0000_0000_0000
  {
  }

  /** 76 steps end where the program halts. */
  ghost predicate Ends(s: Cpu, z: Scene) { PageOk(z) && exists m: Mem :: Goes(s, 76, Cpu(m, Stop(z)), z.memSize) }

  /** By way of the branch of an instruction whose C field is x. */
  lemma JumpsOut(m: Mem, z: Scene, u: seq<int>, v: seq<int>, xs: seq<word>, ts: seq<word>)
    requires Ready(m, z, u, xs, ts) && |v| == 11 && z.j < 19 && !Patched(z.j, 0) && !Patched(z.j, 1)
    requires Goes(At(z, m, u, 0), z.j, At(z, m, v, z.j), z.memSize)
    requires v[9] == Stop(z) && Taken(Mod(v[PlaceB(z, z.j)]), Mod(v[PlaceA(z, z.j)]))
    ensures Ends(At(z, m, u, 0), z)
  {
    hide Goes, LoopWith, Holds, WithPlaces, SceneOk, PlaceA, PlaceB, Do, Mod, Taken;
    PageBounds(z);
    var w := Do(z, v, z.j);
    ModSmall(Stop(z));
    PlaceStep(m, z, z.d.start, v, z.j);
    GoesOn(At(z, m, u, 0), z.j, At(z, m, v, z.j), 1, Cpu(WithPlaces(z, m, w), Stop(z)), z.memSize);
    Stopped(At(z, m, u, 0), z.j + 1, m, z, w, xs, ts, 0);
  }

  // --------------------------------------- before the load: instructions 0 to 4

  /** What x and the places are first, for an instruction to branch to where the
      program halts: x is its C field, or becomes so by a store of the instruction
      before. */
  predicate Aimed(z: Scene, u: seq<int>) {
    && |u| == 11 && z.j < 19 && 0 <= u[0] < TWO63 && 0 <= u[1] < TWO63 && u[10] == -8 && u[2] == -24
    && if z.c.k == 19 then
         u[9] == Stop(z) && (z.j == 4 ==> u[0] == 0) && (z.j in {11, 12, 13} ==> u[1] == 0)
       else
         && z.c.f == 1 && z.c.k in {0, 1, 2, 7, 8, 9} && z.j == z.c.k + 1
         && u[match z.c.k case 0 => 3 case 1 => 4 case 2 => 5 case 7 => 8 case 8 => 6 case _ => 7] == u[9] - Stop(z)
  }

  lemma AimEarly(z: Scene, u: seq<int>) returns (v: seq<int>)
    requires Aimed(z, u) && z.j < 5
    ensures v == DoAll(z, u, 0, z.j) && |v| == 11 && v[9] == Stop(z) && Taken(Mod(v[PlaceB(z, z.j)]), Mod(v[PlaceA(z, z.j)]))
  {
    v := DoAll(z, u, 0, z.j);
    assert DoAll(z, u, 0, 1) == Do(z, DoAll(z, u, 0, 0), 0);
    assert DoAll(z, u, 0, 2) == Do(z, DoAll(z, u, 0, 1), 1);
    assert DoAll(z, u, 0, 3) == Do(z, DoAll(z, u, 0, 2), 2);
    assert DoAll(z, u, 0, 4) == Do(z, DoAll(z, u, 0, 3), 3);
  }

  lemma EndsEarly(m: Mem, z: Scene, u: seq<int>, xs: seq<word>, ts: seq<word>)
    requires Ready(m, z, u, xs, ts) && Aimed(z, u) && z.j < 5
    ensures Ends(At(z, m, u, 0), z)
  {
    hide Goes, LoopWith, Holds, SceneOk, PlaceA, PlaceB, DoAll, Mod, Taken;
    PageBounds(z);
    var v := AimEarly(z, u);
    Stretch(m, z, z.d.start, u, 0, z.j);
    JumpsOut(m, z, u, v, xs, ts);
  }

  // ------------------------------------------------------------ the load

  /** The word at S is loaded. */
  lemma LoadsFirst(m: Mem, z: Scene, v: seq<int>, xs: seq<word>, ts: seq<word>)
    requires PageOk(z) && |v| == 11 && Holds(m, z, xs, ts, 0) && v[5] == Source(z, 0)
    ensures Rd(WithPlaces(z, m, v), v[5]) == xs[0]
  {
    hide Rd, WithPlaces, Aside, SceneOk;
    PageWords(z, 0);
    AsideRead(m, z, v, v[5]);
  }

  lemma FirstPlain(z: Scene, u: seq<int>)
    requires |u| == 11 && z.c.k >= 6
    ensures var v := First(z, u);
      v[5] == v[0] == u[0] && v[3] == -u[0] && v[4] == 0 && v[1] == u[1] && v[2] == u[2] && v[10] == u[10] && v[9] == u[9]
      && v[6] == u[6] && v[7] == u[7] && v[8] == u[8]
  {
  }

  lemma LoadPlain(z: Scene)
    requires z.c.k >= 6
    ensures PlaceB(z, 5) == 4
  {
  }

  lemma EndsAtLoad(m: Mem, z: Scene, u: seq<int>, xs: seq<word>, ts: seq<word>)
    requires Ready(m, z, u, xs, ts) && Aimed(z, u) && z.j == 5 && u[0] == Source(z, 0) && xs[0] == 0
    ensures Ends(At(z, m, u, 0), z)
  {
    hide Goes, LoopWith, Holds, SceneOk, PlaceA, PlaceB, DoAll, Mod, First, WithPlaces;
    PageBounds(z);
    var v := First(z, u);
    FirstPlain(z, u);
    LoadPlain(z);
    FirstAll(z, u);
    Stretch(m, z, z.d.start, u, 0, 5);
    LoadsFirst(m, z, v, xs, ts);
    LoadGoes(m, z, z.d.start, v);
    ModSmall(0);
    ModSmall(Stop(z));
    var w := v[4 := v[4] - 0];
    GoesOn(At(z, m, u, 0), 5, At(z, m, v, 5), 1, Cpu(WithPlaces(z, m, w), Stop(z)), z.memSize);
    Stopped(At(z, m, u, 0), 6, m, z, w, xs, ts, 0);
  }

  // ------------------------------------------------------ instructions 6 to 13

  lemma AimMiddle(z: Scene, u: seq<int>) returns (v: seq<int>)
    requires Aimed(z, u) && 6 <= z.j < 14 && |u| == 11 && u[3] == -u[0]
    ensures v == DoAll(z, u, 6, z.j - 6) && |v| == 11 && v[9] == Stop(z) && Taken(Mod(v[PlaceB(z, z.j)]), Mod(v[PlaceA(z, z.j)]))
  {
    v := DoAll(z, u, 6, z.j - 6);
    assert DoAll(z, u, 6, 1) == Do(z, DoAll(z, u, 6, 0), 6);
    assert DoAll(z, u, 6, 2) == Do(z, DoAll(z, u, 6, 1), 7);
    assert DoAll(z, u, 6, 3) == Do(z, DoAll(z, u, 6, 2), 8);
    assert DoAll(z, u, 6, 4) == Do(z, DoAll(z, u, 6, 3), 9);
    if z.j > 10 {
      assert DoAll(z, u, 6, 5) == Do(z, DoAll(z, u, 6, 4), 10);
      assert DoAll(z, u, 6, 6) == Do(z, DoAll(z, u, 6, 5), 11);
      assert DoAll(z, u, 6, 7) == Do(z, DoAll(z, u, 6, 6), 12);
    }
  }

  lemma EndsMiddle(m: Mem, z: Scene, u: seq<int>, xs: seq<word>, ts: seq<word>)
    requires Ready(m, z, u, xs, ts) && Aimed(z, u) && 6 <= z.j < 14 && z.c.k >= 6 && 0 <= u[0] && u[0] + 8 <= z.memSize
    ensures Ends(At(z, m, u, 0), z)
  {
    hide Goes, LoopWith, Holds, SceneOk, PlaceA, PlaceB, DoAll, Mod, Taken, First, WithPlaces;
    PageBounds(z);
    var v := First(z, u);
    FirstPlain(z, u);
    LoadPlain(z);
    FrontSix(m, z, z.d.start, u);
    var y := Rd(WithPlaces(z, m, v), v[5]);
    var v6 := v[4 := v[4] - y];
    assert Aimed(z, v6);
    var w := AimMiddle(z, v6);
    Stretch(m, z, z.d.start, v6, 6, z.j - 6);
    GoesOn(At(z, m, u, 0), 6, At(z, m, v6, 6), z.j - 6, At(z, m, w, z.j), z.memSize);
    JumpsOut(m, z, u, w, xs, ts);
  }

  // ------------------------------------------------------ the stores and the end

  lemma SecondPlain(z: Scene, u: seq<int>, y: int)
    requires |u| == 11 && z.c.k == 19
    ensures var v := Second(z, First(z, u), y);
      v[0] == u[0] && v[1] == u[1] && v[2] == u[2] && v[4] == -y && v[6] == v[7] == v[8] == u[1] && v[9] == u[9] && v[10] == u[10]
  {
  }

  lemma EndsAtStores(m: Mem, z: Scene, u: seq<int>, xs: seq<word>, ts: seq<word>)
    requires Ready(m, z, u, xs, ts) && Aimed(z, u) && z.j in {14, 15, 18} && z.c.k == 19
    requires u[0] == Source(z, 0) && u[1] == Dest(z, 0) && xs[0] == 0
    ensures Ends(At(z, m, u, 0), z)
  {
    hide Goes, LoopWith, Holds, SceneOk, PlaceA, PlaceB, Mod, First, Second, WithPlaces, LoopNext, Spare;
    PageBounds(z);
    var w := First(z, u);
    FirstPlain(z, u);
    PageWords(z, 0);
    LoadsFirst(m, z, w, xs, ts);
    SpareIn(z, Source(z, 0));
    FrontGoes(m, z, z.d.start, u);
    var v := Second(z, w, 0);
    SecondPlain(z, u, 0);
    ModSmall(Stop(z));
    SpareIn(z, Dest(z, 0));
    if z.j == 14 {
      ClearStops(m, z, u, v, xs, ts);
    } else if z.j == 15 {
      PutStops(m, z, u, v, xs, ts);
    } else {
      var y := StoresGo(m, z, z.d.start, v);
      var m' := Wr(m, v[7], y);
      LoopStill(m, z, z.d.start, v[7], y) by { SpareIn(z, Dest(z, 0)); }
      HoldsStill(m, z, xs, ts, 0, 1, v[7], y) by { DestAligned(z); }
      RoundGoes(m, z, z.d.start, u, v, m', v);
      LastTakes(z, v);
      Stopped(At(z, m, u, 0), 19, m', z, Third(z, v), xs, ts, 1);
    }
  }

  lemma DestAligned(z: Scene)
    requires PageOk(z)
    ensures Dest(z, 0) % 8 == 0
  {
    hide SceneOk;
  }

  lemma SpareIn(z: Scene, a: int)
    requires Spare(z, a)
    ensures 0 <= a && a + 8 <= z.memSize && a < TWO64 && z.d.start + LOOP_LEN < TWO64 && Aside(z, a) && Off(z.d, a)
  {
    hide Aside;
  }

  lemma LastTakes(z: Scene, v: seq<int>)
    requires |v| == 11 && z.c.k == 19 && z.j == 18 && v[2] == -24 && v[10] == -8 && v[9] == Stop(z) && PageOk(z)
    ensures LoopNext(z, z.d.start, v) == Stop(z)
  {
    hide SceneOk;
    PageBounds(z);
  }

  lemma ClearStops(m: Mem, z: Scene, u: seq<int>, v: seq<int>, xs: seq<word>, ts: seq<word>)
    requires Ready(m, z, u, xs, ts) && |v| == 11 && z.j == 14 && Goes(At(z, m, u, 0), 14, At(z, m, v, 14), z.memSize)
    requires v[6] == v[7] == Dest(z, 0) && v[9] == Stop(z)
    ensures Ends(At(z, m, u, 0), z)
  {
    hide Goes, LoopWith, Holds, SceneOk, WithPlaces, Mod, Spare;
    PageBounds(z);
    PageWords(z, 0);
    SpareIn(z, Dest(z, 0));
    DestAligned(z);
    ModSmall(Stop(z));
    var x := Rd(WithPlaces(z, m, v), v[7]);
    ClearGoes(m, z, z.d.start, v);
    AsideWrite(m, z, v, v[7], Sub(x, x));
    var m' := Wr(m, v[7], Sub(x, x));
    HoldsStill(m, z, xs, ts, 0, 1, v[7], Sub(x, x));
    GoesOn(At(z, m, u, 0), 14, At(z, m, v, 14), 1, Cpu(WithPlaces(z, m', v), Stop(z)), z.memSize);
    Stopped(At(z, m, u, 0), 15, m', z, v, xs, ts, 1);
  }

  lemma PutStops(m: Mem, z: Scene, u: seq<int>, v: seq<int>, xs: seq<word>, ts: seq<word>)
    requires Ready(m, z, u, xs, ts) && |v| == 11 && z.j == 15 && z.c.k == 19 && Goes(At(z, m, u, 0), 14, At(z, m, v, 14), z.memSize)
    requires v[6] == v[7] == v[8] == Dest(z, 0) && v[9] == Stop(z) && v[4] == 0
    ensures Ends(At(z, m, u, 0), z)
  {
    hide Goes, LoopWith, Holds, SceneOk, WithPlaces, Mod, Spare;
    PageBounds(z);
    PageWords(z, 0);
    SpareIn(z, Dest(z, 0));
    DestAligned(z);
    ModSmall(Stop(z));
    ModSmall(0);
    var t := v[7];
    AsideRead(m, z, v, t);
    ClearAside(m, z, z.d.start, v);
    SubZero(Rd(m, t));
    var m1 := Wr(m, t, 0);
    LoopStill(m, z, z.d.start, t, 0);
    HoldsStill(m, z, xs, ts, 0, 1, t, 0);
    RdWrSame(m, t, 0);
    AsideRead(m1, z, v, t);
    PutGoes(m1, z, z.d.start, v);
    AsideWrite(m1, z, v, t, 0);
    WrWrSame(m, t, 0, 0);
    GoesOn(At(z, m, u, 0), 14, At(z, m, v, 14), 1, At(z, m1, v, 15), z.memSize);
    GoesOn(At(z, m, u, 0), 15, At(z, m1, v, 15), 1, Cpu(WithPlaces(z, m1, v), Stop(z)), z.memSize);
    Stopped(At(z, m, u, 0), 16, m1, z, v, xs, ts, 1);
  }

  // ------------------------------------ stores that change where the loop goes back

  /** The C field of the last instruction. */
  function Last(z: Scene): int { FieldAt(z.d, 18, 2) }

  /** What x and the pointers are first, for a store to be to that field. */
  predicate Turning(z: Scene, u: seq<int>) {
    && |u| == 11 && z.j == 19 && z.c.f == 0 && z.c.k in {6, 7, 9, 10, 11, 13}
    && u[0] == Source(z, 0) && u[1] == Dest(z, 0) && u[2] == -24 && u[10] == -8
    && u[9] == (match z.c.k case 6 => Last(z) - u[0] - u[1] case 7 => u[1] case 9 => u[1] case 10 => Last(z) case _ => -Last(z))
    && (z.c.k == 7 ==> u[8] == Last(z)) && (z.c.k == 9 ==> u[7] == Last(z))
  }

  /** The first word copied, and what is first where it is copied to. */
  function TurnWord(z: Scene): word {
    if z.c.k in {6, 10} then Mod(Stop(z)) else if z.c.k in {7, 11} then Mod(Stop(z) - z.d.start) else 0
  }

  function TurnTarget(z: Scene): word { if z.c.k in {9, 13} then Mod(z.d.start - Stop(z)) else 0 }

  lemma SecondTurns(z: Scene, u: seq<int>, y: int)
    requires Turning(z, u)
    ensures var v := Second(z, First(z, u), y);
      && v[0] == u[0] && v[1] == u[1] && v[2] == u[2] && v[4] == -y && v[10] == -8
      && v[6] == (if z.c.k in {6, 10} then Last(z) else u[1])
      && v[7] == (if z.c.k in {6, 9, 10, 13} then Last(z) else u[1])
      && v[8] == (if z.c.k in {6, 7, 10, 11} then Last(z) else u[1])
  {
  }

  lemma LastOff(z: Scene)
    requires PageOk(z)
    ensures Last(z) % 8 == 0 && (Last(z) < z.g || Last(z) >= z.g + 0x1000) && 0 <= Last(z) && Last(z) + 8 <= z.memSize
  {
  }

  lemma HoldsTarget(m: Mem, z: Scene, xs: seq<word>, ts: seq<word>)
    requires PageOk(z) && Holds(m, z, xs, ts, 0)
    ensures |xs| == 8 && |ts| == 8 && Rd(m, Dest(z, 0)) == ts[0]
  {
    hide Rd, SceneOk;
  }

  /** The stores leave the halting instruction's address in that field. */
  ghost predicate StoresTurn(m: Mem, z: Scene, v: seq<int>, m': Mem, xs: seq<word>, ts: seq<word>) {
    && PageOk(z) && |v| == 11
    && Goes(At(z, m, v, 14), 2, At(z, m', v, 16), z.memSize) && LoopWith(m', z, Stop(z)) && Holds(m', z, xs, ts, 1)
  }

  /** Both of them to it. */
  lemma TurnBoth(m: Mem, z: Scene, v: seq<int>, xs: seq<word>, ts: seq<word>) returns (m': Mem)
    requires PageOk(z) && |v| == 11 && LoopWith(m, z, z.d.start) && Holds(m, z, xs, ts, 0) && z.j == 19 && z.c.k < 15
    requires v[6] == v[7] == v[8] == Last(z) && Mod(0 - v[4]) == Stop(z)
    ensures StoresTurn(m, z, v, m', xs, ts)
  {
    hide Goes, LoopWith, Holds, SceneOk, WithPlaces, Mod, Rd, Wr, Aside, PlaceA;
    PageBounds(z);
    LastOff(z);
    A15(z);
    var t := Last(z);
    BackStored(m, z, z.d.start, 0);
    AsideRead(m, z, v, t);
    SubZero(z.d.start);
    ClearAside(m, z, z.d.start, v);
    var m1 := Wr(m, t, 0);
    HoldsStill(m, z, xs, ts, 0, 1, t, 0);
    ModSub(0, v[4]);
    ModSmall(0);
    BackStored(m1, z, 0, Stop(z));
    PutAside(m1, z, 0, v);
    m' := Wr(m1, t, Stop(z));
    HoldsStill(m1, z, xs, ts, 1, 1, t, Stop(z));
    GoesOn(At(z, m, v, 14), 1, At(z, m1, v, 15), 1, At(z, m', v, 16), z.memSize);
  }

  /** The first of them. */
  lemma TurnClear(m: Mem, z: Scene, v: seq<int>, xs: seq<word>, ts: seq<word>) returns (m': Mem)
    requires PageOk(z) && |v| == 11 && LoopWith(m, z, z.d.start) && Holds(m, z, xs, ts, 0) && z.j == 19 && z.c.k < 15
    requires v[7] == Last(z) && v[6] == v[8] == Dest(z, 0) && |ts| == 8 && Sub(z.d.start, ts[0]) == Stop(z)
    ensures StoresTurn(m, z, v, m', xs, ts)
  {
    hide Goes, LoopWith, Holds, SceneOk, WithPlaces, Mod, Rd, Wr, Aside, PlaceA, Sub;
    PageBounds(z);
    LastOff(z);
    PageWords(z, 0);
    SpareIn(z, Dest(z, 0));
    DestAligned(z);
    HoldsTarget(m, z, xs, ts);
    var a, t := Last(z), Dest(z, 0);
    BackStored(m, z, z.d.start, Stop(z));
    AsideRead(m, z, v, t);
    ClearAside(m, z, z.d.start, v);
    var m1 := Wr(m, a, Stop(z));
    HoldsStill(m, z, xs, ts, 0, 1, a, Stop(z));
    PutAside(m1, z, Stop(z), v);
    var x := Sub(Rd(m1, t), Mod(v[PlaceA(z, 15)]));
    m' := Wr(m1, t, x);
    LoopStill(m1, z, Stop(z), t, x);
    HoldsStill(m1, z, xs, ts, 1, 1, t, x);
    GoesOn(At(z, m, v, 14), 1, At(z, m1, v, 15), 1, At(z, m', v, 16), z.memSize);
  }

  /** The second. */
  lemma TurnPut(m: Mem, z: Scene, v: seq<int>, xs: seq<word>, ts: seq<word>) returns (m': Mem)
    requires PageOk(z) && |v| == 11 && LoopWith(m, z, z.d.start) && Holds(m, z, xs, ts, 0) && z.j == 19 && z.c.k < 15
    requires v[8] == Last(z) && v[6] == v[7] == Dest(z, 0) && Mod(z.d.start - v[4]) == Stop(z)
    ensures StoresTurn(m, z, v, m', xs, ts)
  {
    hide Goes, LoopWith, Holds, SceneOk, WithPlaces, Mod, Rd, Wr, Aside, PlaceA, Sub;
    PageBounds(z);
    LastOff(z);
    A15(z);
    PageWords(z, 0);
    SpareIn(z, Dest(z, 0));
    DestAligned(z);
    var a, t := Last(z), Dest(z, 0);
    ClearAside(m, z, z.d.start, v);
    var x := Sub(Rd(m, t), Rd(WithPlaces(z, m, v), t));
    var m1 := Wr(m, t, x);
    LoopStill(m, z, z.d.start, t, x);
    HoldsStill(m, z, xs, ts, 0, 1, t, x);
    ModSub(z.d.start, v[4]);
    ModSmall(z.d.start);
    BackStored(m1, z, z.d.start, Stop(z));
    PutAside(m1, z, z.d.start, v);
    m' := Wr(m1, a, Stop(z));
    HoldsStill(m1, z, xs, ts, 1, 1, a, Stop(z));
    GoesOn(At(z, m, v, 14), 1, At(z, m1, v, 15), 1, At(z, m', v, 16), z.memSize);
  }

  lemma A15(z: Scene)
    requires z.c.k < 15
    ensures PlaceA(z, 15) == 4
  {
  }

  lemma TurnWords(z: Scene)
    requires PageOk(z)
    ensures z.c.k in {6, 10} ==> Mod(TurnWord(z)) == Stop(z)
    ensures z.c.k in {7, 11} ==> Mod(z.d.start + TurnWord(z)) == Stop(z)
    ensures z.c.k in {9, 13} ==> Sub(z.d.start, TurnTarget(z)) == Stop(z)
  {
    hide SceneOk;
    PageBounds(z);
  }

  lemma TurnStores(m: Mem, z: Scene, u: seq<int>, v: seq<int>, xs: seq<word>, ts: seq<word>) returns (m': Mem)
    requires Ready(m, z, u, xs, ts) && Turning(z, u) && |xs| == 8 && |ts| == 8 && xs[0] == TurnWord(z) && ts[0] == TurnTarget(z)
    requires v == Second(z, First(z, u), xs[0])
    ensures StoresTurn(m, z, v, m', xs, ts)
  {
    hide Goes, LoopWith, Holds, SceneOk, Mod, First, Second, TurnWord, TurnTarget, StoresTurn, Sub;
    SecondTurns(z, u, xs[0]);
    TurnWords(z);
    PageBounds(z);
    if z.c.k in {6, 10} {
      m' := TurnBoth(m, z, v, xs, ts);
    } else if z.c.k in {7, 11} {
      m' := TurnPut(m, z, v, xs, ts);
    } else {
      m' := TurnClear(m, z, v, xs, ts);
    }
  }

  lemma EndsTurning(m: Mem, z: Scene, u: seq<int>, xs: seq<word>, ts: seq<word>)
    requires Ready(m, z, u, xs, ts) && Turning(z, u) && |xs| == 8 && |ts| == 8 && xs[0] == TurnWord(z) && ts[0] == TurnTarget(z)
    ensures Ends(At(z, m, u, 0), z)
  {
    hide Goes, LoopWith, Holds, SceneOk, PlaceA, PlaceB, Mod, First, Second, WithPlaces, LoopNext, Spare, TurnWord, TurnTarget;
    PageBounds(z);
    var w := First(z, u);
    FirstPlain(z, u);
    PageWords(z, 0);
    HoldsTarget(m, z, xs, ts);
    LoadsFirst(m, z, w, xs, ts);
    SpareIn(z, Source(z, 0));
    FrontGoes(m, z, z.d.start, u);
    var v := Second(z, w, xs[0]);
    SecondTurns(z, u, xs[0]);
    var m' := TurnStores(m, z, u, v, xs, ts);
    RoundGoes(m, z, Stop(z), u, v, m', v);
    TurnTakes(z, v);
    Stopped(At(z, m, u, 0), 19, m', z, Third(z, v), xs, ts, 1);
  }

  lemma TurnTakes(z: Scene, v: seq<int>)
    requires |v| == 11 && z.c.k < 16 && z.j == 19 && v[2] == -24 && v[10] == -8 && PageOk(z)
    ensures z.d.start + LOOP_LEN < TWO64 && 0 <= Stop(z) < TWO64 && LoopNext(z, Stop(z), v) == Stop(z)
  {
    hide SceneOk;
    PageBounds(z);
  }
}
