/** A round of the copy loop with a field changed: where its stores go, and what
    is on the page it copies on. */
module CopyTurns {
  import opened Words
  import opened Memory
  import opened Subleq
  import opened X86
  import opened RegCache
  import opened Cells
  import opened CopyLoop
  import opened CopyProofs
  import opened BlockProofs
  import opened CopyPlaces

  // -------------------------------------------------------------- the page

  /** A page of memory clear of the loop and its variables. */
  predicate PageOk(z: Scene) {
    && SceneOk(z) && z.g % 8 == 0 && 0x1000 <= z.g && z.g + 0x1000 <= z.memSize
    && (z.d.start + LOOP_LEN <= z.g || z.d.start >= z.g + 0x1000)
    && (forall v | v in VarsOf(z.d) :: v < z.g || v >= z.g + 0x1000)
    && (z.j == 19 ==> z.x == z.g + 168)
  }

  /** The words on it: eight to copy, eight to copy to, an instruction that halts,
      with its operand, and x. */
  function Source(z: Scene, l: nat): int { z.g + 8 + 8 * l }
  function Dest(z: Scene, l: nat): int { z.g + 72 + 8 * l }
  function Stop(z: Scene): int { z.g + 136 }
  function Zero(z: Scene): int { z.g + 160 }

  /** A word that can be stored to freely. */
  predicate Spare(z: Scene, a: int) {
    0 <= a && a + 8 <= z.memSize <= 0x4000_0000_0000_0000 && z.d.start + LOOP_LEN < TWO64 && Aside(z, a) && Off(z.d, a)
  }

  lemma OnPage(z: Scene, a: int)
    requires PageOk(z) && z.g <= a && a + 8 <= z.g + 0x1000 && a % 8 == 0 && a != z.x
    ensures Spare(z, a)
  {
    hide Aside;
    AlignedAside(z, a);
  }

  lemma PageWords(z: Scene, l: nat)
    requires PageOk(z) && l < 8
    ensures Spare(z, Source(z, l)) && Spare(z, Dest(z, l)) && Spare(z, Stop(z)) && Spare(z, Stop(z) + 8)
    ensures Spare(z, Stop(z) + 16) && Spare(z, Zero(z))
  {
    hide Spare, SceneOk;
    PageX(z);
    OnPage(z, Source(z, l));
    OnPage(z, Dest(z, l));
    OnPage(z, Stop(z));
    OnPage(z, Stop(z) + 8);
    OnPage(z, Stop(z) + 16);
    OnPage(z, Zero(z));
  }

  lemma PageX(z: Scene)
    requires PageOk(z)
    ensures z.x == z.g + 168 || z.x + 8 <= z.g || z.x >= z.g + 0x1000
  {
  }

  /** What is on the page as the i-th round begins: the words xs, and those of ts
      not yet copied to. */
  ghost predicate Holds(m: Mem, z: Scene, xs: seq<word>, ts: seq<word>, i: nat)
    requires PageOk(z)
  {
    && |xs| == 8 && |ts| == 8
    && (forall l: nat | l < 8 :: Rd(m, Source(z, l)) == xs[l])
    && (forall l: nat | i <= l < 8 :: Rd(m, Dest(z, l)) == ts[l])
    && Halts(m, Stop(z), Zero(z))
  }

  /** A store to another word, or to one already copied to. */
  lemma HoldsStill(m: Mem, z: Scene, xs: seq<word>, ts: seq<word>, i: nat, i': nat, a: word, y: word)
    requires PageOk(z) && Holds(m, z, xs, ts, i) && i <= i' && a % 8 == 0
    requires a < z.g || a >= z.g + 0x1000 || a == z.x || exists l: nat :: l < i' && l < 8 && a == Dest(z, l)
    ensures Holds(Wr(m, a, y), z, xs, ts, i')
  {
    hide Rd, Wr, SceneOk;
    PageX(z);
    forall l: nat | l < 8
      ensures Rd(Wr(m, a, y), Source(z, l)) == Rd(m, Source(z, l))
    {
      RdWrOther(m, a, y, Source(z, l));
    }
    forall l: nat | i' <= l < 8
      ensures Rd(Wr(m, a, y), Dest(z, l)) == Rd(m, Dest(z, l))
    {
      RdWrOther(m, a, y, Dest(z, l));
    }
    RdWrOther(m, a, y, Stop(z));
    RdWrOther(m, a, y, Stop(z) + 8);
    RdWrOther(m, a, y, Stop(z) + 16);
    RdWrOther(m, a, y, Zero(z));
  }

  // ---------------------------------------------------- the loop stays

  lemma LoopStill(m: Mem, z: Scene, back: word, a: word, y: word)
    requires SceneOk(z) && LoopWith(m, z, back) && Off(z.d, a)
    ensures LoopWith(Wr(m, a, y), z, back)
  {
    hide Rd, Wr, Tmpl;
    forall k: nat, f: nat | k < 19 && f < 3 && !Patched(k, f) && FieldAt(z.d, k, f) != z.x
      ensures FieldIs(Wr(m, a, y), z, back, k, f)
    {
      assert FieldIs(m, z, back, k, f);
      RdWrOther(m, a, y, FieldAt(z.d, k, f));
    }
  }

  /** The last instruction's C field is aside, and a store to it changes where the
      loop goes. */
  lemma BackStored(m: Mem, z: Scene, back: word, y: word)
    requires SceneOk(z) && LoopWith(m, z, back) && z.j == 19
    ensures var a := FieldAt(z.d, 18, 2);
      0 <= a && a + 8 <= z.memSize && a % 8 == 0 && Aside(z, a) && LoopWith(Wr(m, a, y), z, y) && Rd(m, a) == back
  {
    hide Rd, Wr, Tmpl, Aside;
    var a := FieldAt(z.d, 18, 2);
    AlignedAside(z, a);
    assert FieldIs(m, z, back, 18, 2);
    RdWrSame(m, a, y);
    forall k: nat, f: nat | k < 19 && f < 3 && !Patched(k, f) && FieldAt(z.d, k, f) != z.x
      ensures FieldIs(Wr(m, a, y), z, y, k, f)
    {
      assert FieldIs(m, z, back, k, f);
      if !(k == 18 && f == 2) {
        RdWrOther(m, a, y, FieldAt(z.d, k, f));
      }
    }
  }

  // ------------------------------------------------- the parts of a round

  /** Instructions 0 to 13. */
  lemma FrontGoes(m: Mem, z: Scene, back: word, u: seq<int>)
    requires SceneOk(z) && |u| == 11 && LoopWith(m, z, back) && z.j >= 14
    requires 0 <= First(z, u)[5] && First(z, u)[5] + 8 <= z.memSize
    ensures var v := First(z, u);
      Goes(At(z, m, u, 0), 14, At(z, m, Second(z, v, Rd(WithPlaces(z, m, v), v[5])), 14), z.memSize)
  {
    hide Rd, WriteAll, Places, Mods, Goes, First, Second, LoopWith, PlaceB, Do;
    var v := First(z, u);
    var y, i := Rd(WithPlaces(z, m, v), v[5]), PlaceB(z, 5);
    FrontSix(m, z, back, u);
    var v6 := v[i := v[i] - y];
    Stretch(m, z, back, v6, 6, 8);
    SecondAll(z, v, y);
    GoesOn(At(z, m, u, 0), 6, At(z, m, v6, 6), 8, At(z, m, Second(z, v, y), 14), z.memSize);
  }

  /** Instructions 0 to 5. */
  lemma FrontSix(m: Mem, z: Scene, back: word, u: seq<int>)
    requires SceneOk(z) && |u| == 11 && LoopWith(m, z, back) && z.j >= 6
    requires 0 <= First(z, u)[5] && First(z, u)[5] + 8 <= z.memSize
    ensures var v, i := First(z, u), PlaceB(z, 5);
      var y := Rd(WithPlaces(z, m, v), v[5]);
      Goes(At(z, m, u, 0), 6, At(z, m, v[i := v[i] - y], 6), z.memSize)
  {
    hide Rd, WriteAll, Places, Mods, Goes, First, LoopWith, PlaceB, Do;
    var v, i := First(z, u), PlaceB(z, 5);
    var y := Rd(WithPlaces(z, m, v), v[5]);
    Stretch(m, z, back, u, 0, 5);
    FirstAll(z, u);
    LoadGoes(m, z, back, v);
    GoesOn(At(z, m, u, 0), 5, At(z, m, v, 5), 1, At(z, m, v[i := v[i] - y], 6), z.memSize);
  }

  lemma AsideWrite(m: Mem, z: Scene, u: seq<int>, a: word, y: word)
    requires z.d.start + LOOP_LEN < TWO64 && |u| == 11 && Aside(z, a)
    ensures Wr(WithPlaces(z, m, u), a, y) == WithPlaces(z, Wr(m, a, y), u)
  {
    WrOutside(m, Places(z), Mods(u), a, y);
  }

  /** Instruction 14 where F4 points to a word aside. */
  lemma ClearAside(m: Mem, z: Scene, back: word, u: seq<int>)
    requires SceneOk(z) && |u| == 11 && LoopWith(m, z, back) && z.j != 14
    requires 0 <= u[6] && u[6] + 8 <= z.memSize && 0 <= u[7] && u[7] + 8 <= z.memSize && Aside(z, u[7])
    ensures Goes(At(z, m, u, 14), 1, At(z, Wr(m, u[7], Sub(Rd(m, u[7]), Rd(WithPlaces(z, m, u), u[6]))), u, 15), z.memSize)
  {
    hide Rd, Wr, WriteAll, Places, Mods, Goes, Aside;
    ClearGoes(m, z, back, u);
    AsideRead(m, z, u, u[7]);
    AsideWrite(m, z, u, u[7], Sub(Rd(m, u[7]), Rd(WithPlaces(z, m, u), u[6])));
  }

  /** Instruction 15 where F2 points to a word aside. */
  lemma PutAside(m: Mem, z: Scene, back: word, u: seq<int>)
    requires SceneOk(z) && |u| == 11 && LoopWith(m, z, back) && z.j != 15
    requires 0 <= u[8] && u[8] + 8 <= z.memSize && Aside(z, u[8])
    ensures Goes(At(z, m, u, 15), 1, At(z, Wr(m, u[8], Sub(Rd(m, u[8]), Mod(u[PlaceA(z, 15)]))), u, 16), z.memSize)
  {
    hide Rd, Wr, WriteAll, Places, Mods, Goes, Aside, PlaceA;
    PutGoes(m, z, back, u);
    AsideRead(m, z, u, u[8]);
    AsideWrite(m, z, u, u[8], Sub(Rd(m, u[8]), Mod(u[PlaceA(z, 15)])));
  }

  /** Both where F4 and F2 point to the same spare word. */
  lemma StoresGo(m: Mem, z: Scene, back: word, u: seq<int>) returns (y: word)
    requires SceneOk(z) && |u| == 11 && LoopWith(m, z, back) && z.j !in {14, 15}
    requires 0 <= u[6] && u[6] + 8 <= z.memSize && u[7] == u[8] && Spare(z, u[7])
    ensures y == Sub(Sub(Rd(m, u[7]), Rd(WithPlaces(z, m, u), u[6])), Mod(u[PlaceA(z, 15)]))
    ensures Goes(At(z, m, u, 14), 2, At(z, Wr(m, u[7], y), u, 16), z.memSize)
  {
    hide Rd, Wr, WriteAll, Places, Mods, Goes, Aside, PlaceA, LoopWith;
    var t := u[7];
    var x := Sub(Rd(m, t), Rd(WithPlaces(z, m, u), u[6]));
    y := Sub(x, Mod(u[PlaceA(z, 15)]));
    ClearAside(m, z, back, u);
    LoopStill(m, z, back, t, x);
    RdWrSame(m, t, x);
    PutAside(Wr(m, t, x), z, back, u);
    WrWrSame(m, t, x, y);
    GoesOn(At(z, m, u, 14), 1, At(z, Wr(m, t, x), u, 15), 1, At(z, Wr(m, t, y), u, 16), z.memSize);
  }

  /** Instruction 14 where F3 points to 0. */
  lemma ClearNothing(m: Mem, z: Scene, back: word, u: seq<int>)
    requires SceneOk(z) && |u| == 11 && LoopWith(m, z, back) && z.j != 14
    requires 0 <= u[6] && u[6] + 8 <= z.memSize && 0 <= u[7] && u[7] + 8 <= z.memSize && Rd(WithPlaces(z, m, u), u[6]) == 0
    ensures Goes(At(z, m, u, 14), 1, At(z, m, u, 15), z.memSize)
  {
    hide Rd, Wr, WriteAll, Places, Mods, Goes;
    ClearGoes(m, z, back, u);
    SubZero(Rd(WithPlaces(z, m, u), u[7]));
    WrRd(WithPlaces(z, m, u), u[7]);
  }

  /** Instruction 15 when T2 is 0. */
  lemma PutNothing(m: Mem, z: Scene, back: word, u: seq<int>)
    requires SceneOk(z) && |u| == 11 && LoopWith(m, z, back) && z.j != 15
    requires 0 <= u[8] && u[8] + 8 <= z.memSize && Mod(u[PlaceA(z, 15)]) == 0
    ensures Goes(At(z, m, u, 15), 1, At(z, m, u, 16), z.memSize)
  {
    hide Rd, Wr, WriteAll, Places, Mods, Goes, PlaceA, Mod;
    PutGoes(m, z, back, u);
    SubZero(Rd(WithPlaces(z, m, u), u[8]));
    WrRd(WithPlaces(z, m, u), u[8]);
  }

  lemma SubZero(x: word)
    ensures Sub(x, 0) == x && Sub(x, x) == 0
  {
  }

  /** Instructions 16 to 18. */
  lemma BackGoes(m: Mem, z: Scene, back: word, u: seq<int>)
    requires SceneOk(z) && |u| == 11 && LoopWith(m, z, back) && z.j !in {16, 17}
    ensures var v := Do(z, Do(z, u, 16), 17);
      Goes(At(z, m, u, 16), 3,
           Cpu(WithPlaces(z, m, Third(z, u)), NextOf(z, back, v, 18, Mod(v[PlaceB(z, 18)]), Mod(v[PlaceA(z, 18)]))), z.memSize)
  {
    hide Rd, Wr, WriteAll, Places, Mods, Goes, NextOf, LoopWith, Do, PlaceA, PlaceB;
    var v := Do(z, Do(z, u, 16), 17);
    assert DoAll(z, u, 16, 1) == Do(z, DoAll(z, u, 16, 0), 16);
    Stretch(m, z, back, u, 16, 2);
    PlaceStep(m, z, back, v, 18);
    GoesOn(At(z, m, u, 16), 2, At(z, m, v, 18), 1,
           Cpu(WithPlaces(z, m, Third(z, u)), NextOf(z, back, v, 18, Mod(v[PlaceB(z, 18)]), Mod(v[PlaceA(z, 18)]))), z.memSize);
  }

  /** Where the last instruction goes. */
  function LoopNext(z: Scene, back: word, u: seq<int>): word
    requires z.d.start + LOOP_LEN < TWO64 && |u| == 11
  {
    var v := Do(z, Do(z, u, 16), 17);
    NextOf(z, back, v, 18, Mod(v[PlaceB(z, 18)]), Mod(v[PlaceA(z, 18)]))
  }

  /** A round, from the places that instruction 14 finds. */
  lemma RoundGoes(m: Mem, z: Scene, back: word, u: seq<int>, v: seq<int>, m': Mem, w: seq<int>)
    requires SceneOk(z) && |u| == 11 && |v| == 11 && |w| == 11 && LoopWith(m', z, back) && z.j !in {16, 17}
    requires Goes(At(z, m, u, 0), 14, At(z, m, v, 14), z.memSize) && Goes(At(z, m, v, 14), 2, At(z, m', w, 16), z.memSize)
    ensures Goes(At(z, m, u, 0), 19, Cpu(WithPlaces(z, m', Third(z, w)), LoopNext(z, back, w)), z.memSize)
  {
    hide Rd, Wr, WriteAll, Places, Mods, Goes, NextOf, LoopWith, Do, PlaceA, PlaceB;
    BackGoes(m', z, back, w);
    GoesOn(At(z, m, u, 0), 14, At(z, m, v, 14), 2, At(z, m', w, 16), z.memSize);
    GoesOn(At(z, m, u, 0), 16, At(z, m', w, 16), 3, Cpu(WithPlaces(z, m', Third(z, w)), LoopNext(z, back, w)), z.memSize);
  }
}
