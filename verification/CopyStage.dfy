/** A memory for any field of the copy loop that is not baked, in which the block
    is entered for four rounds and the loop, read again, does something else. */
module CopyStage {
  import opened Options
  import opened Words
  import opened Memory
  import opened Subleq
  import opened X86
  import opened RegCache
  import opened Cells
  import opened CopyLoop
  import opened CopyProofs
  import opened BlockProofs
  import opened CopyPlaces
  import opened CopyTurns
  import opened CopyRounds
  import opened CopyHalts

  // ------------------------------------------------------------- the choice

  /** Which word stands in for field f of the k-th instruction: its C field is
      itself a word of the loop; the B fields of those that clear a word lead to
      the next one's C field; all others to a word of the page. */
  function Chosen(d: Desc, sd: bool, memSize: int, g: word, k: nat, f: nat): Scene
    requires g + 168 < TWO64 && d.start + LOOP_LEN < TWO64 && k <= 19
  {
    if k < 19 && f == 2 then Scene(d, sd, memSize, Field(19, 0), k, FieldAt(d, k, 2), g)
    else if f == 1 && k in {0, 1, 2, 7, 8, 9} then Scene(d, sd, memSize, Field(k, 1), k + 1, FieldAt(d, k + 1, 2), g)
    else Scene(d, sd, memSize, if k == 19 then Field(19, 0) else Field(k, f), 19, g + 168, g)
  }

  predicate Turns(c: Field) { c.f == 0 && c.k in {6, 7, 9, 10, 11, 13} }

  function Xs(z: Scene): (xs: seq<word>)
    ensures |xs| == 8
  {
    if z.j == 19 && Turns(z.c) then [TurnWord(z), 1, 2, 3, 4, 5, 6, 7] else if z.j == 19 then Words8(z) else [0, 1, 2, 3, 4, 5, 6, 7]
  }

  function Ts(z: Scene): (ts: seq<word>)
    ensures |ts| == 8
  {
    if z.j == 19 && Turns(z.c) then [TurnTarget(z), 0, 0, 0, 0, 0, 0, 0] else if z.j == 19 then Targets8(z) else [0, 0, 0, 0, 0, 0, 0, 0]
  }

  /** Where it copies from and to: 0, for the branches that need it. */
  function FromAt(z: Scene): int { if z.c.k == 19 && z.j == 4 then 0 else z.g + 8 }
  function ToAt(z: Scene): int { if z.c.k == 19 && z.j in {11, 12, 13} then 0 else z.g + 72 }

  function XAt(z: Scene): int {
    if z.j < 19 then (if z.c.k == 19 then Stop(z) else TmplC(z.d, z.j))
    else if Turns(z.c) then
      match z.c.k
      case 6 => Last(z) - (z.g + 8) - (z.g + 72) case 7 => z.g + 72 case 9 => z.g + 72 case 10 => Last(z) case _ => -Last(z)
    else Given(z)
  }

  /** What the places hold first. */
  function Firsts(z: Scene): (u: seq<int>)
    ensures |u| == 11
  {
    var n := XAt(z) - Stop(z);
    [FromAt(z), ToAt(z), -24,
     if z.c == Field(0, 1) then n else if z.c == Field(0, 0) then -(z.g + 64) else 0,
     if z.c == Field(1, 1) then n else 0,
     if z.c == Field(2, 1) then n else if z.c == Field(2, 0) then z.g + 8 else 0,
     if z.c == Field(8, 1) then n else if z.c == Field(8, 0) then z.g + 72 else 0,
     if z.c == Field(9, 1) then n else if z.c == Field(9, 0) then Last(z) else 0,
     if z.c == Field(7, 1) then n else if z.c == Field(7, 0) then Last(z) else 0,
     XAt(z), -8]
  }

  // ------------------------------------------------------------- the memory

  /** The words of the page, in order. */
  function PageAdr(g: word): (adr: seq<word>)
    requires g + 0x1000 < TWO64
    ensures |adr| == 20 && forall i | 0 <= i < 20 :: adr[i] == g + 8 + 8 * i
  {
    seq(20, i requires 0 <= i < 20 => g + 8 + 8 * i)
  }

  function PageVals(z: Scene): (v: seq<word>)
    requires 0 <= z.g && z.g + 0x1000 < TWO64
    ensures |v| == 20
  {
    Xs(z) + Ts(z) + [Zero(z), Zero(z), Stop(z), 0]
  }

  /** m with the field changed, and the page filled. */
  function Staged(m: Mem, z: Scene): Mem
    requires z.g + 0x1000 < TWO64 && z.d.start + LOOP_LEN < TWO64 && (z.c.k < 19 ==> z.c.f < 2)
  {
    WriteAll(if z.c.k < 19 then Wr(m, FieldAt(z.d, z.c.k, z.c.f), z.x) else m, PageAdr(z.g), PageVals(z))
  }

  lemma PageApart(g: word)
    requires g + 0x1000 < TWO64
    ensures Apart(PageAdr(g))
  {
  }

  lemma OffPage(g: word, a: word)
    requires g + 0x1000 < TWO64 && (a + 8 <= g + 8 || a >= g + 168)
    ensures Outside(a, PageAdr(g))
  {
  }

  lemma StagedHolds(m: Mem, z: Scene)
    requires PageOk(z)
    ensures z.g + 0x1000 < TWO64 && z.d.start + LOOP_LEN < TWO64 && (z.c.k < 19 ==> z.c.f < 2)
    ensures Holds(Staged(m, z), z, Xs(z), Ts(z), 0)
  {
    hide Rd, Wr, WriteAll, SceneOk, Xs, Ts, PageAdr;
    PageBounds(z);
    ChangedField(z);
    var n := if z.c.k < 19 then Wr(m, FieldAt(z.d, z.c.k, z.c.f), z.x) else m;
    forall l: nat | l < 8
      ensures Rd(Staged(m, z), Source(z, l)) == Xs(z)[l] && Rd(Staged(m, z), Dest(z, l)) == Ts(z)[l]
    {
      StagedWord(n, z, l);
      StagedWord(n, z, l + 8);
    }
    StagedWord(n, z, 16);
    StagedWord(n, z, 17);
    StagedWord(n, z, 18);
    StagedWord(n, z, 19);
  }

  lemma StagedWord(n: Mem, z: Scene, i: nat)
    requires z.g + 0x1000 < TWO64 && i < 20
    ensures Rd(WriteAll(n, PageAdr(z.g), PageVals(z)), z.g + 8 + 8 * i) == PageVals(z)[i]
  {
    hide Rd, WriteAll, PageVals;
    PageApart(z.g);
    RdCell(n, PageAdr(z.g), PageVals(z), i);
  }

  lemma ChangedField(z: Scene)
    requires SceneOk(z)
    ensures z.c.k < 19 ==> z.c.f < 2 && !Patched(z.c.k, z.c.f)
  {
  }

  /** A word of the loop in it. */
  lemma StagedField(m: Mem, z: Scene, k: nat, f: nat)
    requires PageOk(z) && k < 19 && f < 3
    ensures z.g + 0x1000 < TWO64 && z.d.start + LOOP_LEN < TWO64 && (z.c.k < 19 ==> z.c.f < 2)
    ensures Rd(Staged(m, z), FieldAt(z.d, k, f)) == if z.c == Field(k, f) then z.x else Rd(m, FieldAt(z.d, k, f))
  {
    hide Rd, Wr, WriteAll, SceneOk, PageAdr, PageVals;
    PageBounds(z);
    ChangedField(z);
    var a := FieldAt(z.d, k, f);
    OffPage(z.g, a);
    var n := if z.c.k < 19 then Wr(m, FieldAt(z.d, z.c.k, z.c.f), z.x) else m;
    RdOutside(n, PageAdr(z.g), PageVals(z), a);
    if z.c.k < 19 {
      FieldsApart(z.d, k, f, z.c.k, z.c.f);
      if z.c == Field(k, f) {
        RdWrSame(m, a, z.x);
      } else {
        RdWrOther(m, FieldAt(z.d, z.c.k, z.c.f), z.x, a);
      }
    }
  }

  lemma FieldsApart(d: Desc, k: nat, f: nat, k': nat, f': nat)
    requires f < 3 && f' < 3 && k < 19 && k' < 19
    ensures (k == k' && f == f') || FieldAt(d, k, f) + 8 <= FieldAt(d, k', f') || FieldAt(d, k', f') + 8 <= FieldAt(d, k, f)
  {
  }

  lemma StagedLoop(m: Mem, z: Scene)
    requires PageOk(z) && z.d.start + LOOP_LEN < TWO64 && LoopIn(m, z.d, z.sd)
    ensures z.g + 0x1000 < TWO64 && (z.c.k < 19 ==> z.c.f < 2) && LoopWith(Staged(m, z), z, z.d.start)
  {
    hide Rd, SceneOk, Staged, LoopIn;
    PageBounds(z);
    ChangedField(z);
    forall k: nat, f: nat | k < 19 && f < 3 && !Patched(k, f) && FieldAt(z.d, k, f) != z.x
      ensures FieldIs(Staged(m, z), z, z.d.start, k, f)
    {
      StagedField(m, z, k, f);
      LoopField(m, z.d, z.sd, k, f);
    }
  }

  lemma LoopField(m: Mem, d: Desc, sd: bool, k: nat, f: nat)
    requires d.start + LOOP_LEN < TWO64 && LoopIn(m, d, sd) && k < 19 && f < 3 && !Patched(k, f)
    ensures Rd(m, FieldAt(d, k, f)) == Tmpl(d, sd, k, f)
  {
    hide Rd;
    assert d.start + 24 * k == FieldAt(d, k, 0) && d.start + 24 * k + 8 == FieldAt(d, k, 1) && d.start + 24 * k + 16 == FieldAt(d, k, 2);
    assert TmplC(d, k) == Rd(m, d.start + 24 * k + 16);
  }

  // ---------------------------------------------------------- what comes of it

  /** A word where a run of the changed loop and the bulk copy differ, or that it
      halts. */
  ghost predicate Otherwise(m: Mem, z: Scene) {
    && PageOk(z) && z.d.start + LOOP_LEN < TWO64
    && (Ends(At(z, m, Firsts(z), 0), z) ||
        (z.j == 19 && Lasting(z.c) && exists m4: Mem, u4: seq<int> :: |u4| == 11 && After76(m, z, m4, u4)))
  }

  ghost predicate After76(m: Mem, z: Scene, m4: Mem, u4: seq<int>)
    requires |u4| == 11 && z.d.start + LOOP_LEN < TWO64
  {
    Goes(At(z, m, Firsts(z), 0), 76, Cpu(WithPlaces(z, m4, u4), EndOf(z, 3)), z.memSize) && Different(m4, z, u4, Firsts(z))
  }

  /** x is the C field of an instruction that branches. */
  predicate Aims(z: Scene) {
    if z.c.k == 19 then z.j !in {16, 17} else z.c.f == 1 && z.c.k in {0, 1, 2, 7, 8, 9} && z.j == z.c.k + 1
  }

  lemma Comes(m: Mem, z: Scene)
    requires PageOk(z) && z.d.start + LOOP_LEN < TWO64 && LoopWith(m, z, z.d.start) && Holds(m, z, Xs(z), Ts(z), 0)
    requires SumSpare(z) && z.j <= 19
    requires if z.j == 19 then Lasting(z.c) || Turns(z.c) else Aims(z)
    ensures Otherwise(m, z)
  {
    hide Goes, LoopWith, Holds, SceneOk, SumSpare, Ends, Different;
    var u := Firsts(z);
    if z.j == 19 && Turns(z.c) {
      EndsTurning(m, z, u, Xs(z), Ts(z));
    } else if z.j == 19 {
      var m4, u4 := FourTurns(m, z, u, Xs(z), Ts(z));
      assert After76(m, z, m4, u4);
    } else {
      FirstsAimed(z);
      assert Xs(z)[0] == 0;
      if z.j < 5 {
        EndsEarly(m, z, u, Xs(z), Ts(z));
      } else if z.j == 5 {
        EndsAtLoad(m, z, u, Xs(z), Ts(z));
      } else if z.j < 14 {
        EndsMiddle(m, z, u, Xs(z), Ts(z));
      } else {
        EndsAtStores(m, z, u, Xs(z), Ts(z));
      }
    }
  }

  lemma FirstsAimed(z: Scene)
    requires PageOk(z) && z.j < 19 && Aims(z)
    ensures Aimed(z, Firsts(z))
  {
    hide SceneOk;
    PageBounds(z);
  }
}
