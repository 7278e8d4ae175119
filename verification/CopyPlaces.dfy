/** Runs of the copy loop with one of its fields changed: its words as places that
    hold integers, and what an instruction does to them. */
module CopyPlaces {
  import opened Words
  import opened Memory
  import opened Subleq
  import opened X86
  import opened RegCache
  import opened Cells
  import opened CopyLoop
  import opened CopyProofs
  import opened BlockProofs

  // ------------------------------------------------------------------ runs

  /** n steps lead from s to t, all in memory. */
  ghost predicate Goes(s: Cpu, n: nat, t: Cpu, memSize: int) { Steps(s, n) == t && SafeFor(s, n, memSize) }

  lemma GoesOn(s: Cpu, n: nat, t: Cpu, k: nat, r: Cpu, memSize: int)
    requires Goes(s, n, t, memSize) && Goes(t, k, r, memSize)
    ensures Goes(s, n + k, r, memSize)
  {
    hide Steps, InBounds;
    StepsAdd(s, n, k);
    forall j: nat | j < n + k
      ensures InBounds(Steps(s, j), memSize)
    {
      if j >= n {
        StepsAdd(s, n, j - n);
        assert InBounds(Steps(t, j - n), memSize);
      }
    }
  }

  lemma GoesStep(s: Cpu, memSize: int)
    requires InBounds(s, memSize)
    ensures Goes(s, 1, Step(s), memSize)
  {
    hide Step, InBounds;
    StepsNext(s, 0);
    forall j: nat | j < 1
      ensures InBounds(Steps(s, j), memSize)
    {
      assert Steps(s, 0) == s;
    }
  }

  lemma GoesNone(s: Cpu, memSize: int)
    ensures Goes(s, 0, s, memSize)
  {
    hide InBounds, Step;
  }

  /** An instruction that clears a word that is 0, and goes to itself. */
  ghost predicate Halts(m: Mem, e: word, z: word) {
    e + 24 < TWO64 && Rd(m, e) == z && Rd(m, e + 8) == z && Rd(m, e + 16) == e && Rd(m, z) == 0
  }

  lemma {:induction false} HaltGoes(m: Mem, e: word, z: word, n: nat, memSize: int)
    requires Halts(m, e, z) && e + 24 <= memSize <= 0x4000_0000_0000_0000 && z + 8 <= memSize
    ensures Goes(Cpu(m, e), n, Cpu(m, e), memSize)
  {
    hide Goes, Rd, Wr;
    var s := Cpu(m, e);
    if n == 0 {
      GoesNone(s, memSize);
    } else {
      HaltGoes(m, e, z, n - 1, memSize);
      AddSmall(e, 8);
      AddSmall(e, 16);
      WrRd(m, z);
      assert Step(s) == s;
      GoesStep(s, memSize);
      GoesOn(s, n - 1, s, 1, s, memSize);
    }
  }

  // ---------------------------------------------------------------- places

  function Mod(x: int): word { x % TWO64 }

  function Mods(u: seq<int>): (v: seq<word>)
    ensures |v| == |u| && forall i | 0 <= i < |u| :: v[i] == Mod(u[i])
  {
    seq(|u|, i requires 0 <= i < |u| => Mod(u[i]))
  }

  lemma ModSub(x: int, y: int)
    ensures Sub(Mod(x), Mod(y)) == Mod(x - y)
  {
  }

  lemma ModSmall(x: int)
    requires 0 <= x < TWO64
    ensures Mod(x) == x
  {
  }

  /** A field of an instruction; there is no 19-th one. */
  datatype Field = Field(k: nat, f: nat)

  /** The loop d in a memory of memSize bytes, with one word x more that it is
      to use: for the field c, which holds x's address, or as the C field of the
      j-th instruction. And a page at g, where there is nothing of the loop. */
  datatype Scene = Scene(d: Desc, sd: bool, memSize: int, c: Field, j: nat, x: word, g: word)

  function FieldAt(d: Desc, k: nat, f: nat): int { d.start + 24 * k + 8 * f }

  function VarsOf(d: Desc): (v: seq<word>)
    ensures |v| == 6
  {
    [d.t1, d.t2, d.sv, d.dv, d.cv, d.mv]
  }

  predicate Off(d: Desc, a: word) { a + 8 <= d.start || a >= d.start + LOOP_LEN }

  predicate SceneOk(z: Scene) {
    && VarsOk(z.d, z.memSize) && z.x % 8 == 0 && z.x + 8 <= z.memSize
    && z.x !in VarsOf(z.d)
    && (z.c.k < 19 ==> z.c.f < 2 && !Patched(z.c.k, z.c.f))
    && z.j <= 19 && if z.j == 19 then Off(z.d, z.x) else z.x == FieldAt(z.d, z.j, 2)
  }

  /** The words that the loop changes with fixed addresses: S, D, C, T1, T2, F1, F3,
      F4, F2, and x; and the constant it moves by. */
  function Places(z: Scene): (p: seq<word>)
    requires z.d.start + LOOP_LEN < TWO64
    ensures |p| == 11
  {
    CellsOf(z.d) + [z.x, z.d.mv]
  }

  lemma SceneStart(z: Scene)
    requires SceneOk(z)
    ensures z.d.start + LOOP_LEN < TWO64
  {
  }

  lemma PlaceAt(z: Scene, i: nat)
    requires z.d.start + LOOP_LEN < TWO64 && i < 11
    ensures Places(z)[i] == if i < 9 then CellsOf(z.d)[i] else if i == 9 then z.x else z.d.mv
  {
  }

  lemma PlaceIn(z: Scene, i: nat)
    requires SceneOk(z) && i < 11
    ensures Places(z)[i] % 8 == 0 && Places(z)[i] + 8 <= z.memSize
  {
    hide Places, CellsOf;
    PlaceAt(z, i);
    if i < 9 {
      CellPlace(z.d, z.memSize, i);
      CellAt(z.d, i);
    }
  }

  lemma XApart(z: Scene, i: nat)
    requires SceneOk(z) && i < 9
    ensures CellsOf(z.d)[i] != z.x
  {
    hide CellsOf;
    CellAt(z.d, i);
  }

  lemma PlacesApart(z: Scene)
    requires SceneOk(z)
    ensures Apart(Places(z))
  {
    hide Places, CellsOf, VarsOk, VarsOf;
    SceneStart(z);
    CellsApart(z.d, z.memSize);
    MvOutside(z.d, z.memSize);
    forall i, j | 0 <= i < j < 11
      ensures Disjoint(Places(z)[i], Places(z)[j])
    {
      PlaceAt(z, i);
      PlaceAt(z, j);
      PlaceIn(z, i);
      PlaceIn(z, j);
      if i < 9 && j == 9 {
        XApart(z, i);
      }
      if i == 9 {
        XNotMv(z);
      }
    }
  }

  lemma XNotMv(z: Scene)
    requires SceneOk(z)
    ensures z.x != z.d.mv
  {
    assert VarsOf(z.d)[5] == z.d.mv;
  }

  /** A word apart from all places. */
  predicate Aside(z: Scene, a: word)
    requires z.d.start + LOOP_LEN < TWO64
  {
    Outside(a, Places(z))
  }

  lemma AlignedAside(z: Scene, a: word)
    requires SceneOk(z) && a % 8 == 0
    requires a !in VarsOf(z.d) && a != z.x && a !in [F1(z.d), F2(z.d), F3(z.d), F4(z.d)]
    ensures Aside(z, a)
  {
    hide Places, CellsOf, VarsOk, VarsOf;
    SceneStart(z);
    forall i | 0 <= i < 11
      ensures Disjoint(a, Places(z)[i])
    {
      PlaceIn(z, i);
      NotAPlace(z, a, i);
    }
  }

  lemma NotAPlace(z: Scene, a: word, i: nat)
    requires z.d.start + LOOP_LEN < TWO64 && i < 11
    requires a !in VarsOf(z.d) && a != z.x && a !in [F1(z.d), F2(z.d), F3(z.d), F4(z.d)]
    ensures a != Places(z)[i]
  {
    hide Places, CellsOf;
    PlaceAt(z, i);
    if i < 9 {
      CellAt(z.d, i);
    }
  }

  // ------------------------------------------------------------- the loop

  /** What a field of the loop holds that it does not patch. */
  function Tmpl(d: Desc, sd: bool, k: nat, f: nat): int
    requires k < 19 && f < 3 && !Patched(k, f)
  {
    if f == 0 then TmplA(d, k).value else if f == 1 then TmplB(d, sd, k).value else TmplC(d, k)
  }

  /** The loop, but for the changed field, x, and where its last instruction
      branches to. */
  ghost predicate LoopWith(m: Mem, z: Scene, back: word)
    requires z.d.start + LOOP_LEN < TWO64
  {
    forall k: nat, f: nat | k < 19 && f < 3 && !Patched(k, f) && FieldAt(z.d, k, f) != z.x :: FieldIs(m, z, back, k, f)
  }

  ghost predicate FieldIs(m: Mem, z: Scene, back: word, k: nat, f: nat)
    requires z.d.start + LOOP_LEN < TWO64 && k < 19 && f < 3 && !Patched(k, f)
  {
    Rd(m, FieldAt(z.d, k, f)) == if z.c == Field(k, f) then z.x else if k == 18 && f == 2 then back else Tmpl(z.d, z.sd, k, f)
  }

  /** The memory with the places as u. */
  function WithPlaces(z: Scene, m: Mem, u: seq<int>): Mem
    requires z.d.start + LOOP_LEN < TWO64 && |u| == 11
  {
    WriteAll(m, Places(z), Mods(u))
  }

  /** The state with the places as u, at instruction k. */
  function At(z: Scene, m: Mem, u: seq<int>, k: nat): Cpu
    requires z.d.start + LOOP_LEN < TWO64 && |u| == 11 && k <= 19
  {
    Cpu(WithPlaces(z, m, u), z.d.start + 24 * k)
  }

  lemma FieldRead(m: Mem, z: Scene, back: word, u: seq<int>, k: nat, f: nat)
    requires SceneOk(z) && |u| == 11 && k < 19 && f < 3 && !Patched(k, f) && LoopWith(m, z, back)
    ensures Rd(WithPlaces(z, m, u), FieldAt(z.d, k, f)) ==
      if f == 2 && k == z.j then Mod(u[9]) else if z.c == Field(k, f) then z.x else if k == 18 && f == 2 then back else Tmpl(z.d, z.sd, k, f)
  {
    hide Rd, WriteAll, Places, Mods, Aside;
    var a := FieldAt(z.d, k, f);
    if a == z.x {
      PlacesApart(z);
      PlaceAt(z, 9);
      RdCell(m, Places(z), Mods(u), 9);
    } else {
      assert FieldIs(m, z, back, k, f);
      assert a % 8 == 0;
      AlignedAside(z, a);
      AsideRead(m, z, u, a);
    }
  }

  lemma AsideRead(m: Mem, z: Scene, u: seq<int>, a: word)
    requires z.d.start + LOOP_LEN < TWO64 && |u| == 11 && Aside(z, a)
    ensures Rd(WithPlaces(z, m, u), a) == Rd(m, a)
  {
    RdOutside(m, Places(z), Mods(u), a);
  }

  lemma PlaceRead(m: Mem, z: Scene, u: seq<int>, i: nat)
    requires SceneOk(z) && |u| == 11 && i < 11
    ensures Rd(WithPlaces(z, m, u), Places(z)[i]) == Mod(u[i])
  {
    hide Rd, WriteAll, Places;
    PlacesApart(z);
    RdCell(m, Places(z), Mods(u), i);
  }

  lemma PlaceWrite(m: Mem, z: Scene, u: seq<int>, i: nat, y: int)
    requires SceneOk(z) && |u| == 11 && i < 11
    ensures Wr(WithPlaces(z, m, u), Places(z)[i], Mod(y)) == WithPlaces(z, m, u[i := y])
  {
    hide Rd, Wr, WriteAll, Places;
    PlacesApart(z);
    WrCell(m, Places(z), Mods(u), i, Mod(y));
    assert Mods(u)[i := Mod(y)] == Mods(u[i := y]);
  }

  // ------------------------------------------- instructions of fixed operands

  /** The place of the A operand, if that is not patched. */
  function PlaceA(z: Scene, k: nat): (i: nat)
    requires k < 19 && !Patched(k, 0)
    ensures i < 11
  {
    if z.c == Field(k, 0) then 9
    else
      match k
      case 0 => 3 case 1 => 4 case 2 => 5 case 3 => 0 case 4 => 3 case 6 => 3 case 7 => 8 case 8 => 6 case 9 => 7
      case 10 => 1 case 11 => 3 case 12 => 3 case 13 => 3 case 15 => 4 case _ => 10
  }

  function PlaceB(z: Scene, k: nat): (i: nat)
    requires k < 19 && !Patched(k, 1)
    ensures i < 11
  {
    if z.c == Field(k, 1) then 9 else CellB(z.sd, k)
  }

  lemma OperandA(m: Mem, z: Scene, back: word, u: seq<int>, k: nat)
    requires SceneOk(z) && |u| == 11 && k < 19 && !Patched(k, 0) && LoopWith(m, z, back)
    ensures Rd(WithPlaces(z, m, u), z.d.start + 24 * k) == Places(z)[PlaceA(z, k)]
  {
    hide Rd, WriteAll, Places, Mods, CellsOf;
    FieldRead(m, z, back, u, k, 0);
    PlaceAt(z, PlaceA(z, k));
    TmplCells(z.d, z.sd, k);
  }

  lemma OperandB(m: Mem, z: Scene, back: word, u: seq<int>, k: nat)
    requires SceneOk(z) && |u| == 11 && k < 19 && !Patched(k, 1) && LoopWith(m, z, back)
    ensures Rd(WithPlaces(z, m, u), z.d.start + 24 * k + 8) == Places(z)[PlaceB(z, k)]
  {
    hide Rd, WriteAll, Places, Mods, CellsOf;
    FieldRead(m, z, back, u, k, 1);
    PlaceAt(z, PlaceB(z, k));
    TmplCells(z.d, z.sd, k);
  }

  /** Where the k-th instruction goes from values b and a. */
  function NextOf(z: Scene, back: word, u: seq<int>, k: nat, b: word, a: word): word
    requires z.d.start + LOOP_LEN < TWO64 && |u| == 11 && k < 19
  {
    if Taken(b, a) && k == z.j then Mod(u[9]) else if Taken(b, a) && k == 18 then back else z.d.start + 24 * k + 24
  }

  lemma TargetC(m: Mem, z: Scene, back: word, u: seq<int>, k: nat, b: word, a: word)
    requires SceneOk(z) && |u| == 11 && k < 19 && LoopWith(m, z, back)
    ensures NextOf(z, back, u, k, b, a) ==
      if Taken(b, a) then Rd(WithPlaces(z, m, u), z.d.start + 24 * k + 16) else z.d.start + 24 * k + 24
  {
    hide Rd, WriteAll, Places, Mods, Taken;
    FieldRead(m, z, back, u, k, 2);
  }

  /** The places after the k-th instruction. */
  function Do(z: Scene, u: seq<int>, k: nat): (v: seq<int>)
    requires |u| == 11 && k < 19 && !Patched(k, 0) && !Patched(k, 1)
    ensures |v| == 11
  {
    u[PlaceB(z, k) := u[PlaceB(z, k)] - u[PlaceA(z, k)]]
  }

  lemma PlaceStep(m: Mem, z: Scene, back: word, u: seq<int>, k: nat)
    requires SceneOk(z) && |u| == 11 && LoopWith(m, z, back) && k < 19 && !Patched(k, 0) && !Patched(k, 1)
    ensures Goes(At(z, m, u, k), 1,
                 Cpu(WithPlaces(z, m, Do(z, u, k)), NextOf(z, back, u, k, Mod(u[PlaceB(z, k)]), Mod(u[PlaceA(z, k)]))), z.memSize)
  {
    hide Rd, Wr, WriteAll, Places, Mods, Goes, NextOf, Taken, PlaceA, PlaceB;
    var p, i, j := z.d.start + 24 * k, PlaceB(z, k), PlaceA(z, k);
    AddSmall(p, 8); AddSmall(p, 16); AddSmall(p, 24);
    OperandA(m, z, back, u, k);
    OperandB(m, z, back, u, k);
    PlaceIn(z, i);
    PlaceIn(z, j);
    PlaceRead(m, z, u, i);
    PlaceRead(m, z, u, j);
    ModSub(u[i], u[j]);
    PlaceWrite(m, z, u, i, u[i] - u[j]);
    TargetC(m, z, back, u, k, Mod(u[i]), Mod(u[j]));
    GoesStep(At(z, m, u, k), z.memSize);
  }

  // ------------------------------------------------- a stretch of them

  function DoAll(z: Scene, u: seq<int>, k: nat, n: nat): (v: seq<int>)
    requires |u| == 11 && k + n <= 19 && Fixed(k, n)
    ensures |v| == 11
  {
    if n == 0 then u else Do(z, DoAll(z, u, k, n - 1), k + n - 1)
  }

  /** The operands of n instructions from k on are not patched. */
  predicate Fixed(k: nat, n: nat) { n == 0 || k + n <= 5 || (6 <= k && k + n <= 14) || (16 <= k && k + n <= 19) }

  lemma {:induction false} Stretch(m: Mem, z: Scene, back: word, u: seq<int>, k: nat, n: nat)
    requires SceneOk(z) && |u| == 11 && LoopWith(m, z, back) && k + n <= 18 && Fixed(k, n) && !(k <= z.j < k + n)
    ensures Goes(At(z, m, u, k), n, At(z, m, DoAll(z, u, k, n), k + n), z.memSize)
    decreases n
  {
    hide WriteAll, Places, Mods, Goes, Do, LoopWith;
    if n == 0 {
      GoesNone(At(z, m, u, k), z.memSize);
    } else {
      Stretch(m, z, back, u, k, n - 1);
      var v := DoAll(z, u, k, n - 1);
      PlaceStep(m, z, back, v, k + n - 1);
      GoesOn(At(z, m, u, k), n - 1, At(z, m, v, k + n - 1), 1, At(z, m, Do(z, v, k + n - 1), k + n), z.memSize);
    }
  }

  /** Instructions 0 to 4. */
  function First(z: Scene, u: seq<int>): (v: seq<int>)
    requires |u| == 11
    ensures |v| == 11
  {
    Do(z, Do(z, Do(z, Do(z, Do(z, u, 0), 1), 2), 3), 4)
  }

  /** Instruction 5, which loads y, and those to 13. */
  function Second(z: Scene, u: seq<int>, y: int): (v: seq<int>)
    requires |u| == 11
    ensures |v| == 11
  {
    var u6 := u[PlaceB(z, 5) := u[PlaceB(z, 5)] - y];
    Do(z, Do(z, Do(z, Do(z, Do(z, Do(z, Do(z, Do(z, u6, 6), 7), 8), 9), 10), 11), 12), 13)
  }

  /** Instructions 16 to 18. */
  function Third(z: Scene, u: seq<int>): (v: seq<int>)
    requires |u| == 11
    ensures |v| == 11
  {
    Do(z, Do(z, Do(z, u, 16), 17), 18)
  }

  lemma FirstAll(z: Scene, u: seq<int>)
    requires |u| == 11
    ensures DoAll(z, u, 0, 5) == First(z, u)
  {
    hide Do;
    assert DoAll(z, u, 0, 1) == Do(z, DoAll(z, u, 0, 0), 0);
    assert DoAll(z, u, 0, 2) == Do(z, DoAll(z, u, 0, 1), 1);
    assert DoAll(z, u, 0, 3) == Do(z, DoAll(z, u, 0, 2), 2);
    assert DoAll(z, u, 0, 4) == Do(z, DoAll(z, u, 0, 3), 3);
  }

  lemma SecondAll(z: Scene, u: seq<int>, y: int)
    requires |u| == 11
    ensures var v := u[PlaceB(z, 5) := u[PlaceB(z, 5)] - y]; DoAll(z, v, 6, 8) == Second(z, u, y)
  {
    hide Do;
    var v := u[PlaceB(z, 5) := u[PlaceB(z, 5)] - y];
    assert DoAll(z, v, 6, 1) == Do(z, DoAll(z, v, 6, 0), 6);
    assert DoAll(z, v, 6, 2) == Do(z, DoAll(z, v, 6, 1), 7);
    assert DoAll(z, v, 6, 3) == Do(z, DoAll(z, v, 6, 2), 8);
    assert DoAll(z, v, 6, 4) == Do(z, DoAll(z, v, 6, 3), 9);
    assert DoAll(z, v, 6, 5) == Do(z, DoAll(z, v, 6, 4), 10);
    assert DoAll(z, v, 6, 6) == Do(z, DoAll(z, v, 6, 5), 11);
    assert DoAll(z, v, 6, 7) == Do(z, DoAll(z, v, 6, 6), 12);
  }

  // ------------------------------------------ instructions through pointers

  /** Instruction 5 loads through F1. */
  lemma LoadGoes(m: Mem, z: Scene, back: word, u: seq<int>)
    requires SceneOk(z) && |u| == 11 && LoopWith(m, z, back) && 0 <= u[5] && u[5] + 8 <= z.memSize
    ensures var M := WithPlaces(z, m, u);
      var y, i := Rd(M, u[5]), PlaceB(z, 5);
      Goes(At(z, m, u, 5), 1, Cpu(WithPlaces(z, m, u[i := u[i] - y]), NextOf(z, back, u, 5, Mod(u[i]), y)), z.memSize)
  {
    hide Rd, Wr, WriteAll, Places, Mods, Goes, NextOf, Taken, PlaceB;
    var M, p, i := WithPlaces(z, m, u), z.d.start + 120, PlaceB(z, 5);
    var y := Rd(M, u[5]);
    AddSmall(p, 8); AddSmall(p, 16); AddSmall(p, 24);
    PlaceRead(m, z, u, 5);
    PlaceAt(z, 5);
    CellAt(z.d, 5);
    ModSmall(u[5]);
    ModSmall(y);
    OperandB(m, z, back, u, 5);
    PlaceIn(z, i);
    PlaceRead(m, z, u, i);
    ModSub(u[i], y);
    PlaceWrite(m, z, u, i, u[i] - y);
    TargetC(m, z, back, u, 5, Mod(u[i]), y);
    GoesStep(At(z, m, u, 5), z.memSize);
  }

  /** Instruction 14 stores through F4, from F3. */
  lemma ClearGoes(m: Mem, z: Scene, back: word, u: seq<int>)
    requires SceneOk(z) && |u| == 11 && LoopWith(m, z, back)
    requires 0 <= u[6] && u[6] + 8 <= z.memSize && 0 <= u[7] && u[7] + 8 <= z.memSize
    ensures var M := WithPlaces(z, m, u);
      var a, b := Rd(M, u[6]), Rd(M, u[7]);
      Goes(At(z, m, u, 14), 1, Cpu(Wr(M, u[7], Sub(b, a)), NextOf(z, back, u, 14, b, a)), z.memSize)
  {
    hide Rd, Wr, WriteAll, Places, Mods, Goes, NextOf, Taken;
    var M, p := WithPlaces(z, m, u), z.d.start + 336;
    AddSmall(p, 8); AddSmall(p, 16); AddSmall(p, 24);
    PlaceRead(m, z, u, 6);
    PlaceRead(m, z, u, 7);
    PlaceAt(z, 6); PlaceAt(z, 7);
    CellAt(z.d, 6); CellAt(z.d, 7);
    ModSmall(u[6]);
    ModSmall(u[7]);
    TargetC(m, z, back, u, 14, Rd(M, u[7]), Rd(M, u[6]));
    GoesStep(At(z, m, u, 14), z.memSize);
  }

  /** Instruction 15 stores through F2. */
  lemma PutGoes(m: Mem, z: Scene, back: word, u: seq<int>)
    requires SceneOk(z) && |u| == 11 && LoopWith(m, z, back) && 0 <= u[8] && u[8] + 8 <= z.memSize
    ensures var M := WithPlaces(z, m, u);
      var a, b := Mod(u[PlaceA(z, 15)]), Rd(M, u[8]);
      Goes(At(z, m, u, 15), 1, Cpu(Wr(M, u[8], Sub(b, a)), NextOf(z, back, u, 15, b, a)), z.memSize)
  {
    hide Rd, Wr, WriteAll, Places, Mods, Goes, NextOf, Taken, PlaceA;
    var M, p := WithPlaces(z, m, u), z.d.start + 360;
    AddSmall(p, 8); AddSmall(p, 16); AddSmall(p, 24);
    OperandA(m, z, back, u, 15);
    PlaceIn(z, PlaceA(z, 15));
    PlaceRead(m, z, u, PlaceA(z, 15));
    PlaceRead(m, z, u, 8);
    PlaceAt(z, 8);
    CellAt(z.d, 8);
    ModSmall(u[8]);
    TargetC(m, z, back, u, 15, Rd(M, u[8]), Mod(u[PlaceA(z, 15)]));
    GoesStep(At(z, m, u, 15), z.memSize);
  }
}
