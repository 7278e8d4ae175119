/** Four rounds of the copy loop with an operand changed, that leave something else
    than the bulk copy does: a word copied, a pointer, the counter, or x. */
module CopyRounds {
  import opened Words
  import opened Memory
  import opened Subleq
  import opened X86
  import opened RegCache
  import opened Cells
  import opened CopyLoop
  import opened CopyProofs
  import opened BlockProofs
  import opened CopyPlaces
  import opened CopyTurns

  /** The fields whose change is seen after four rounds; or no field. */
  predicate Lasting(c: Field) {
    || c == Field(19, 0)
    || (c.f == 0 && c.k in {0, 1, 2, 3, 4, 8, 12, 15, 16, 17, 18})
    || (c.f == 1 && c.k in {3, 4, 5, 6, 10, 11, 12, 13, 16, 17, 18})
  }

  /** The place that does not move, when it is one of the last instructions. */
  function Stuck(z: Scene): nat { if 16 <= z.c.k < 19 then CellB(z.sd, z.c.k) else 11 }

  function SAt(z: Scene, i: nat): int { if Stuck(z) == 0 then z.g + 8 else z.g + 8 + 8 * i }
  function DAt(z: Scene, i: nat): int { if Stuck(z) == 1 then z.g + 72 else z.g + 72 + 8 * i }
  function CAt(z: Scene, i: nat): int { if Stuck(z) == 2 then -24 else -24 + 8 * i }

  /** What x holds first. */
  function Given(z: Scene): int {
    var s, t := z.g + 8, z.g + 72;
    if z.c.f == 1 then (if z.c.k == 18 then -100 else 0)
    else
      match z.c.k
      case 0 => -t case 1 => 1 case 2 => s case 3 => s case 4 => -s case 8 => t case 12 => -(s + 8) case _ => 0
  }

  function Words8(z: Scene): (xs: seq<word>)
    ensures |xs| == 8
  {
    if z.c == Field(1, 0) || z.c == Field(11, 1) then [0, 0, 0, 0, 0, 0, 0, 0]
    else if z.c == Field(10, 1) then [AtZero(z, 0), AtZero(z, 1), AtZero(z, 2), AtZero(z, 3), 0, 0, 0, 0]
    else [0, 1, 2, 3, 4, 5, 6, 7]
  }

  /** What the word at 0 holds in a round, when it is of the loop. */
  function AtZero(z: Scene, i: nat): word {
    if z.d.start == 0 then z.d.t1
    else if z.d.sv == 0 then Mod(SAt(z, i))
    else if z.d.dv == 0 then Mod(DAt(z, i))
    else if z.d.cv == 0 then Mod(CAt(z, i))
    else if z.d.mv == 0 then MINUS8
    else 0
  }

  function Targets8(z: Scene): (ts: seq<word>)
    ensures |ts| == 8
  {
    if z.c == Field(8, 0) then [0, 0, 0, 0, 0, 0, 1, 0] else [0, 0, 0, 0, 0, 0, 0, 0]
  }

  /** How far a pointer is that has been moved by 0, 8 and 16. */
  function Slide(i: nat): int { if i < 2 then 0 else if i == 2 then 8 else if i == 3 then 24 else 48 }

  /** The places as the i-th round begins. */
  predicate Begins(z: Scene, i: nat, u: seq<int>) {
    && |u| == 11 && u[0] == SAt(z, i) && u[1] == DAt(z, i) && u[2] == CAt(z, i) && u[10] == -8
    && (z.c.f == 0 ==> u[9] == Given(z)) && (z.c == Field(18, 1) ==> u[9] == -100 + 8 * i)
    && (z.c == Field(0, 0) ==> u[3] == -(z.g + 64 + 8 * i)) && (z.c == Field(1, 0) ==> u[4] + i == 0)
    && (z.c == Field(2, 0) ==> i < 4 ==> u[5] == z.g + 8 + Slide(i)) && (z.c == Field(8, 0) ==> i < 4 ==> u[6] == z.g + 72 + Slide(i))
  }

  /** By how much x is less after a round that copied y. */
  function Taking(z: Scene, i: nat, y: int): int {
    if z.c.f == 0 then 0
    else
      match z.c.k
      case 3 => SAt(z, i) case 4 => -SAt(z, i) case 5 => y case 6 => -SAt(z, i) case 10 => DAt(z, i)
      case 11 => -DAt(z, i) case 12 => -DAt(z, i) case 13 => -DAt(z, i) case _ => -8
  }

  /** The address loaded from. */
  function From(z: Scene, i: nat): int {
    if z.c == Field(0, 0) then z.g + 16 * i
    else if z.c == Field(2, 0) then z.g + 8 + Slide(i + 1)
    else if z.c in {Field(3, 0), Field(4, 0)} then z.g + 8
    else if z.c in {Field(3, 1), Field(4, 1)} then 0
    else SAt(z, i)
  }

  /** What F3, F4 and F2 are for the stores, and T2, when y was loaded. */
  function F3At(z: Scene, i: nat): int {
    if z.c in {Field(10, 1), Field(12, 1)} then 0
    else if z.c == Field(6, 1) then SAt(z, i) + DAt(z, i)
    else if z.c == Field(8, 0) then z.g + 72 + Slide(i + 1)
    else if z.c == Field(12, 0) then z.g + 16
    else DAt(z, i)
  }

  function F4At(z: Scene, i: nat): int {
    if z.c in {Field(10, 1), Field(13, 1)} then 0 else if z.c == Field(6, 1) then SAt(z, i) + DAt(z, i) else DAt(z, i)
  }

  function F2At(z: Scene, i: nat): int {
    if z.c in {Field(10, 1), Field(11, 1)} then 0 else if z.c == Field(6, 1) then SAt(z, i) + DAt(z, i) else DAt(z, i)
  }

  function T2At(z: Scene, i: nat, y: int): int {
    if z.c == Field(5, 1) then 0 else if z.c == Field(1, 0) then 0 - (i + 1) - y else -y
  }

  /** Where the i-th round ends. */
  function EndOf(z: Scene, i: nat): int { if i < 3 || Stuck(z) == 2 then z.d.start else z.d.start + LOOP_LEN }

  /** The places as the stores find them. */
  predicate Forward(z: Scene, i: nat, u: seq<int>, y: int)
    requires |u| == 11
  {
    var w := First(z, u);
    var v := Second(z, w, y);
    && w[5] == From(z, i) && v[0] == u[0] && v[1] == u[1] && v[2] == u[2] && v[10] == u[10]
    && v[6] == F3At(z, i) && v[7] == F4At(z, i) && v[8] == F2At(z, i) && v[4] == T2At(z, i, y)
    && v[9] == u[9] - (if z.c.k < 16 then Taking(z, i, y) else 0)
    && (z.c == Field(0, 0) ==> v[3] == -DAt(z, i)) && (z.c == Field(2, 0) ==> v[5] == From(z, i))
  }

  lemma ForwardA0(z: Scene, i: nat, u: seq<int>, y: int)
    requires Begins(z, i, u) && i < 4 && z.c == Field(0, 0)
    ensures Forward(z, i, u, y)
  {
  }

  lemma ForwardA1(z: Scene, i: nat, u: seq<int>, y: int)
    requires Begins(z, i, u) && i < 4 && z.c == Field(1, 0) && y == 0
    ensures Forward(z, i, u, y)
  {
  }

  lemma ForwardA2(z: Scene, i: nat, u: seq<int>, y: int)
    requires Begins(z, i, u) && i < 4 && z.c == Field(2, 0)
    ensures Forward(z, i, u, y)
  {
  }

  lemma ForwardA3(z: Scene, i: nat, u: seq<int>, y: int)
    requires Begins(z, i, u) && i < 4 && z.c == Field(3, 0)
    ensures Forward(z, i, u, y)
  {
  }

  lemma ForwardA4(z: Scene, i: nat, u: seq<int>, y: int)
    requires Begins(z, i, u) && i < 4 && z.c == Field(4, 0)
    ensures Forward(z, i, u, y)
  {
  }

  lemma ForwardA8(z: Scene, i: nat, u: seq<int>, y: int)
    requires Begins(z, i, u) && i < 4 && z.c == Field(8, 0)
    ensures Forward(z, i, u, y)
  {
  }

  lemma ForwardA12(z: Scene, i: nat, u: seq<int>, y: int)
    requires Begins(z, i, u) && i < 4 && z.c == Field(12, 0)
    ensures Forward(z, i, u, y)
  {
  }

  lemma ForwardA15(z: Scene, i: nat, u: seq<int>, y: int)
    requires Begins(z, i, u) && i < 4 && z.c == Field(15, 0)
    ensures Forward(z, i, u, y)
  {
  }

  lemma ForwardB3(z: Scene, i: nat, u: seq<int>, y: int)
    requires Begins(z, i, u) && i < 4 && z.c == Field(3, 1)
    ensures Forward(z, i, u, y)
  {
  }

  lemma ForwardB4(z: Scene, i: nat, u: seq<int>, y: int)
    requires Begins(z, i, u) && i < 4 && z.c == Field(4, 1)
    ensures Forward(z, i, u, y)
  {
  }

  lemma ForwardB5(z: Scene, i: nat, u: seq<int>, y: int)
    requires Begins(z, i, u) && i < 4 && z.c == Field(5, 1)
    ensures Forward(z, i, u, y)
  {
  }

  lemma ForwardB6(z: Scene, i: nat, u: seq<int>, y: int)
    requires Begins(z, i, u) && i < 4 && z.c == Field(6, 1)
    ensures Forward(z, i, u, y)
  {
  }

  lemma ForwardB10(z: Scene, i: nat, u: seq<int>, y: int)
    requires Begins(z, i, u) && i < 4 && z.c == Field(10, 1)
    ensures Forward(z, i, u, y)
  {
  }

  lemma ForwardB11(z: Scene, i: nat, u: seq<int>, y: int)
    requires Begins(z, i, u) && i < 4 && z.c == Field(11, 1)
    ensures Forward(z, i, u, y)
  {
  }

  lemma ForwardB12(z: Scene, i: nat, u: seq<int>, y: int)
    requires Begins(z, i, u) && i < 4 && z.c == Field(12, 1)
    ensures Forward(z, i, u, y)
  {
  }

  lemma ForwardB13(z: Scene, i: nat, u: seq<int>, y: int)
    requires Begins(z, i, u) && i < 4 && z.c == Field(13, 1)
    ensures Forward(z, i, u, y)
  {
  }

  lemma ForwardLate(z: Scene, i: nat, u: seq<int>, y: int)
    requires Begins(z, i, u) && i < 4 && (16 <= z.c.k < 19 || z.c == Field(19, 0))
    ensures Forward(z, i, u, y)
  {
  }

  lemma Forwards(z: Scene, i: nat, u: seq<int>, y: int)
    requires Begins(z, i, u) && i < 4 && Lasting(z.c) && (z.c == Field(1, 0) ==> y == 0)
    ensures Forward(z, i, u, y)
  {
    hide Begins, Forward;
    if z.c.k >= 16 {
      ForwardLate(z, i, u, y);
    } else if z.c.f == 0 {
      match z.c.k
      case 0 => ForwardA0(z, i, u, y);
      case 1 => ForwardA1(z, i, u, y);
      case 2 => ForwardA2(z, i, u, y);
      case 3 => ForwardA3(z, i, u, y);
      case 4 => ForwardA4(z, i, u, y);
      case 8 => ForwardA8(z, i, u, y);
      case 12 => ForwardA12(z, i, u, y);
      case _ => ForwardA15(z, i, u, y);
    } else {
      match z.c.k
      case 3 => ForwardB3(z, i, u, y);
      case 4 => ForwardB4(z, i, u, y);
      case 5 => ForwardB5(z, i, u, y);
      case 6 => ForwardB6(z, i, u, y);
      case 10 => ForwardB10(z, i, u, y);
      case 11 => ForwardB11(z, i, u, y);
      case 12 => ForwardB12(z, i, u, y);
      case _ => ForwardB13(z, i, u, y);
    }
  }

  /** What the last three instructions do to the places. */
  lemma ThirdIs(z: Scene, v: seq<int>)
    requires |v| == 11 && z.c.k <= 19
    ensures var d := v[10];
      Third(z, v) ==
      if z.c.k < 16 || z.c.k == 19 then v[0 := v[0] - d][1 := v[1] - d][2 := v[2] - d]
      else if z.c.f == 0 then
        v[0 := v[0] - (if Stuck(z) == 0 then v[9] else d)][1 := v[1] - (if Stuck(z) == 1 then v[9] else d)]
         [2 := v[2] - (if Stuck(z) == 2 then v[9] else d)]
      else if z.c.f == 1 then
        v[0 := if Stuck(z) == 0 then v[0] else v[0] - d][1 := if Stuck(z) == 1 then v[1] else v[1] - d]
         [2 := if Stuck(z) == 2 then v[2] else v[2] - d][9 := v[9] - d]
      else Third(z, v)
  {
  }

  /** And where the last one goes. */
  lemma LoopNextIs(z: Scene, i: nat, v: seq<int>)
    requires |v| == 11 && z.c.k <= 19 && z.j == 19 && z.d.start + LOOP_LEN < TWO64 && i < 4
    requires v[2] == CAt(z, i) && v[10] == -8 && (z.c == Field(18, 0) ==> v[9] == 0) && (z.c == Field(18, 1) ==> v[9] == -100 + 8 * i)
    ensures z.c.f < 2 ==> LoopNext(z, z.d.start, v) == EndOf(z, i)
  {
  }

  lemma Backward(z: Scene, i: nat, u: seq<int>, y: int)
    requires Begins(z, i, u) && i < 4 && Forward(z, i, u, y) && Lasting(z.c) && z.j == 19 && z.d.start + LOOP_LEN < TWO64
    requires z.c == Field(1, 0) ==> y == 0
    ensures var v := Second(z, First(z, u), y);
      Begins(z, i + 1, Third(z, v)) && Third(z, v)[9] == u[9] - Taking(z, i, y) && LoopNext(z, z.d.start, v) == EndOf(z, i)
  {
    hide First, Second, Third, LoopNext;
    var v := Second(z, First(z, u), y);
    ThirdIs(z, v);
    LoopNextIs(z, i, v);
  }

  // ------------------------------------------------------------ one round

  /** Which of the words of the page is loaded, if one of them is. */
  function Loaded(z: Scene, i: nat): nat {
    if z.c == Field(0, 0) then (if i == 0 then 0 else 2 * i - 1)
    else if z.c == Field(2, 0) then (if i == 0 then 0 else if i == 1 then 1 else if i == 2 then 3 else 6)
    else if z.c in {Field(3, 0), Field(4, 0)} || Stuck(z) == 0 then 0
    else i
  }

  predicate Elsewhere(z: Scene, i: nat) { z.c in {Field(3, 1), Field(4, 1)} || (z.c == Field(0, 0) && i == 0) }

  lemma LoadedAt(z: Scene, i: nat)
    requires i < 4 && !Elsewhere(z, i)
    ensures Loaded(z, i) < 8 && From(z, i) == Source(z, Loaded(z, i))
  {
  }

  /** The word loaded is in memory, and mostly one of those on the page. */
  lemma LoadIs(m: Mem, z: Scene, i: nat, w: seq<int>, xs: seq<word>, ts: seq<word>)
    requires PageOk(z) && i < 4 && |w| == 11 && Holds(m, z, xs, ts, i)
    ensures 0 <= From(z, i) && From(z, i) + 8 <= z.memSize <= 0x4000_0000_0000_0000
    ensures !Elsewhere(z, i) ==> Rd(WithPlaces(z, m, w), From(z, i)) == xs[Loaded(z, i)]
  {
    hide Rd, WithPlaces, Aside, From, Loaded, Elsewhere;
    if Elsewhere(z, i) {
      FromLow(z, i);
    } else {
      LoadedAt(z, i);
      PageWords(z, Loaded(z, i));
      AsideRead(m, z, w, From(z, i));
    }
  }

  lemma FromLow(z: Scene, i: nat)
    requires Elsewhere(z, i) && PageOk(z)
    ensures 0 <= From(z, i) && From(z, i) + 8 <= z.memSize <= 0x4000_0000_0000_0000
  {
  }

  lemma StartIn(z: Scene)
    requires PageOk(z)
    ensures SceneOk(z) && z.d.start + LOOP_LEN < TWO64
  {
  }

  lemma TargetSpare(z: Scene, i: nat)
    requires PageOk(z) && i < 4
    ensures Spare(z, DAt(z, i)) && DAt(z, i) % 8 == 0 && DAt(z, i) < z.g + 0x1000
  {
    hide Spare, SceneOk;
    DestOf(z, i);
    PageWords(z, i);
    PageWords(z, 0);
    Multiple8(z, 9);
    Multiple8(z, 9 + i);
  }

  lemma Multiple8(z: Scene, k: nat)
    requires PageOk(z)
    ensures (z.g + 8 * k) % 8 == 0
  {
    hide SceneOk;
  }

  /** The state before and after the stores of a round. */
  ghost predicate Stored(z: Scene, i: nat, m: Mem, v: seq<int>, m': Mem, xs: seq<word>, ts: seq<word>)
    requires PageOk(z) && |v| == 11
  {
    Goes(At(z, m, v, 14), 2, At(z, m', v, 16), z.memSize) && LoopWith(m', z, z.d.start) && Holds(m', z, xs, ts, i + 1)
  }

  /** Both stores to the word that is copied to. */
  lemma StoredBoth(m: Mem, z: Scene, i: nat, v: seq<int>, xs: seq<word>, ts: seq<word>) returns (m': Mem)
    requires PageOk(z) && i < 4 && z.j == 19 && |v| == 11 && LoopWith(m, z, z.d.start) && Holds(m, z, xs, ts, i)
    requires 0 <= v[6] && v[6] + 8 <= z.memSize && v[7] == v[8] && Spare(z, v[7]) && v[7] % 8 == 0
    requires v[7] == DAt(z, i) || v[7] >= z.g + 0x1000
    ensures Stored(z, i, m, v, m', xs, ts)
    ensures Rd(m', v[7]) == Sub(Sub(Rd(m, v[7]), Rd(WithPlaces(z, m, v), v[6])), Mod(v[PlaceA(z, 15)]))
  {
    hide Rd, Wr, WithPlaces, Aside, Goes, LoopWith, Holds, SceneOk, PlaceA, Mod;
    assert SceneOk(z);
    var y := StoresGo(m, z, z.d.start, v);
    m' := Wr(m, v[7], y);
    LoopStill(m, z, z.d.start, v[7], y);
    RdWrSame(m, v[7], y);
    DestOf(z, i);
    HoldsStill(m, z, xs, ts, i, i + 1, v[7], y);
  }

  lemma DestOf(z: Scene, i: nat)
    ensures DAt(z, i) == Dest(z, if Stuck(z) == 1 then 0 else i)
  {
  }

  /** The second store nothing, as 0 was loaded. */
  lemma StoredOnce(m: Mem, z: Scene, i: nat, v: seq<int>, xs: seq<word>, ts: seq<word>) returns (m': Mem)
    requires PageOk(z) && i < 4 && z.j == 19 && |v| == 11 && LoopWith(m, z, z.d.start) && Holds(m, z, xs, ts, i)
    requires v[6] == v[7] == DAt(z, i) && v[8] == 0 && v[4] == 0 && PlaceA(z, 15) == 4 && Stuck(z) != 1
    ensures Stored(z, i, m, v, m', xs, ts)
  {
    hide Rd, Wr, WithPlaces, Aside, Goes, LoopWith, Holds, PlaceA, SceneOk;
    StartIn(z);
    TargetSpare(z, i);
    var t := v[7];
    DestOf(z, i);
    ClearAside(m, z, z.d.start, v);
    var y := Sub(Rd(m, t), Rd(WithPlaces(z, m, v), t));
    m' := Wr(m, t, y);
    LoopStill(m, z, z.d.start, t, y);
    HoldsStill(m, z, xs, ts, i, i + 1, t, y);
    PutNothing(m', z, z.d.start, v);
    GoesOn(At(z, m, v, 14), 1, At(z, m', v, 15), 1, At(z, m', v, 16), z.memSize);
  }

  /** The first store nothing, as the word to copy to is 0. */
  lemma StoredLate(m: Mem, z: Scene, i: nat, v: seq<int>, xs: seq<word>, ts: seq<word>) returns (m': Mem)
    requires PageOk(z) && i < 4 && z.j == 19 && |v| == 11 && LoopWith(m, z, z.d.start) && Holds(m, z, xs, ts, i)
    requires v[6] == v[8] == DAt(z, i) && v[7] == 0 && ts[i] == 0 && Stuck(z) != 1
    ensures Stored(z, i, m, v, m', xs, ts)
  {
    hide Rd, Wr, WithPlaces, Aside, Goes, LoopWith, PlaceA, SceneOk;
    StartIn(z);
    TargetSpare(z, i);
    var t := v[8];
    DestOf(z, i);
    AsideRead(m, z, v, t);
    ClearNothing(m, z, z.d.start, v);
    PutAside(m, z, z.d.start, v);
    var y := Sub(Rd(m, t), Mod(v[PlaceA(z, 15)]));
    m' := Wr(m, t, y);
    LoopStill(m, z, z.d.start, t, y);
    HoldsStill(m, z, xs, ts, i, i + 1, t, y);
    GoesOn(At(z, m, v, 14), 1, At(z, m, v, 15), 1, At(z, m', v, 16), z.memSize);
  }

  /** Where the sum of the two pointers of a round is, for a pointer that is not
      cleared. */
  predicate SumSpare(z: Scene) { forall i: nat | i < 4 :: Spare(z, 2 * z.g + 80 + 16 * i) }

  /** The loop as its i-th round begins. */
  ghost predicate RoundAt(m: Mem, z: Scene, i: nat, u: seq<int>, xs: seq<word>, ts: seq<word>) {
    && PageOk(z) && z.j == 19 && Lasting(z.c) && xs == Words8(z) && ts == Targets8(z) && (z.c == Field(6, 1) ==> SumSpare(z))
    && |u| == 11 && LoopWith(m, z, z.d.start) && Holds(m, z, xs, ts, i) && Begins(z, i, u)
  }

  /** What the stores of a round put where it copies to. */
  ghost predicate Puts(z: Scene, i: nat, m: Mem, v: seq<int>, m': Mem) {
    PageOk(z) && i < 4 && |v| == 11 && z.c.f == 0 ==>
      var t, a := DAt(z, i), F3At(z, i);
      0 <= a <= z.memSize < TWO64 && Rd(m', t) == Sub(Sub(Rd(m, t), Rd(WithPlaces(z, m, v), a)), Mod(v[PlaceA(z, 15)]))
  }

  /** The stores of a round. */
  lemma StoresIn(m: Mem, z: Scene, i: nat, u: seq<int>, y: int, xs: seq<word>, ts: seq<word>) returns (m': Mem)
    requires RoundAt(m, z, i, u, xs, ts) && i < 4 && z.c != Field(10, 1) && Forward(z, i, u, y) && (z.c == Field(11, 1) ==> y == 0)
    ensures var v := Second(z, First(z, u), y); Stored(z, i, m, v, m', xs, ts) && Puts(z, i, m, v, m')
  {
    hide Rd, WithPlaces, Aside, Goes, LoopWith, Holds, First, Second, Mod, PlaceA, Stored, Lasting, Begins, Spare;
    var v := Second(z, First(z, u), y);
    TargetSpare(z, i);
    if z.c == Field(11, 1) {
      Put15(z);
      m' := StoredOnce(m, z, i, v, xs, ts);
    } else if z.c == Field(13, 1) {
      m' := StoredLate(m, z, i, v, xs, ts);
    } else {
      SourceSpare(z, i);
      if z.c == Field(6, 1) {
        SumAt(z, i);
      }
      m' := StoredBoth(m, z, i, v, xs, ts);
    }
  }

  lemma Put15(z: Scene)
    requires z.c.k != 15
    ensures PlaceA(z, 15) == 4
  {
  }

  lemma SumAt(z: Scene, i: nat)
    requires PageOk(z) && i < 4 && SumSpare(z) && z.c == Field(6, 1)
    ensures Spare(z, SAt(z, i) + DAt(z, i)) && (SAt(z, i) + DAt(z, i)) % 8 == 0 && SAt(z, i) + DAt(z, i) >= z.g + 0x1000
  {
    hide Spare, SceneOk;
    assert SAt(z, i) + DAt(z, i) == 2 * z.g + 80 + 16 * i;
    Multiple8(z, 1 + i);
    Multiple8(z, 9 + i);
  }

  lemma SourceSpare(z: Scene, i: nat)
    requires PageOk(z) && i < 4 && (z.c == Field(6, 1) ==> SumSpare(z))
    ensures 0 <= F3At(z, i) && F3At(z, i) + 8 <= z.memSize
  {
    hide Aside;
    TargetSpare(z, i);
    if z.c == Field(6, 1) {
      SumAt(z, i);
    }
  }

  /** What a round loads, and that the loop comes as far as its stores. */
  lemma TurnLoads(m: Mem, z: Scene, i: nat, u: seq<int>, xs: seq<word>, ts: seq<word>) returns (y: word)
    requires RoundAt(m, z, i, u, xs, ts) && i < 4
    ensures Forward(z, i, u, y) && (z.c == Field(1, 0) || z.c == Field(11, 1) ==> y == 0) && Loads(z, i, y, xs)
    ensures z.d.start + LOOP_LEN < TWO64 && Goes(At(z, m, u, 0), 14, At(z, m, Second(z, First(z, u), y), 14), z.memSize)
  {
    hide Rd, WithPlaces, Aside, Goes, LoopWith, Holds, First, Second, Lasting, SceneOk, At, Begins;
    StartIn(z);
    var w := First(z, u);
    Forwards(z, i, u, 0);
    LoadIs(m, z, i, w, xs, ts);
    y := Rd(WithPlaces(z, m, w), w[5]);
    if z.c == Field(1, 0) || z.c == Field(11, 1) {
      LoadsNone(z, i);
    }
    Forwards(z, i, u, y);
    FrontGoes(m, z, z.d.start, u);
  }

  /** Mostly what is loaded is one of the words of the page. */
  predicate Loads(z: Scene, i: nat, y: int, xs: seq<word>) { i < 4 && |xs| == 8 && !Elsewhere(z, i) ==> y == xs[Loaded(z, i)] }

  lemma ForwardGives(z: Scene, i: nat, u: seq<int>, y: int)
    requires |u| == 11 && Forward(z, i, u, y)
    ensures var v := Second(z, First(z, u), y);
      v[4] == T2At(z, i, y) && v[9] == u[9] - (if z.c.k < 16 then Taking(z, i, y) else 0)
  {
    hide First, Second;
  }

  // ------------------------------------------- pointers that come to be 0

  /** The stores of a round at 0, of the word that is there. */
  lemma StoredZero(m: Mem, z: Scene, i: nat, v: seq<int>, y: int, xs: seq<word>, ts: seq<word>) returns (m': Mem, w: seq<int>)
    requires PageOk(z) && i < 4 && z.j == 19 && |v| == 11 && LoopWith(m, z, z.d.start) && Holds(m, z, xs, ts, i)
    requires z.c == Field(10, 1) && v[6] == v[7] == v[8] == 0 && v[4] == -y && y == AtZero(z, i)
    requires v[0] == SAt(z, i) && v[1] == DAt(z, i) && v[2] == CAt(z, i) && v[10] == -8
    ensures |w| == 11 && w[0] == v[0] && w[1] == v[1] && w[2] == v[2] && w[9] == v[9] && w[10] == v[10]
    ensures Goes(At(z, m, v, 14), 2, At(z, m', w, 16), z.memSize) && LoopWith(m', z, z.d.start) && Holds(m', z, xs, ts, i + 1)
  {
    hide Rd, Wr, WithPlaces, Aside, Goes, LoopWith, SceneOk, At, AtZero, SAt, DAt, CAt, Holds;
    StartIn(z);
    m', w := m, v;
    HoldsLater(m, z, xs, ts, i);
    if z.d.start == 0 {
      ZeroInLoop(m, z, i, v, y);
    } else if Aside(z, 0) {
      m' := ZeroOff(m, z, i, v, xs, ts);
    } else {
      var p := ZeroPlace(z);
      w := ZeroAtPlace(m, z, i, v, y, p);
    }
  }

  lemma HoldsLater(m: Mem, z: Scene, xs: seq<word>, ts: seq<word>, i: nat)
    requires PageOk(z) && Holds(m, z, xs, ts, i)
    ensures Holds(m, z, xs, ts, i + 1)
  {
    hide Rd, SceneOk;
  }

  lemma ZeroOff(m: Mem, z: Scene, i: nat, v: seq<int>, xs: seq<word>, ts: seq<word>) returns (m': Mem)
    requires PageOk(z) && i < 4 && z.j == 19 && |v| == 11 && LoopWith(m, z, z.d.start) && Holds(m, z, xs, ts, i)
    requires v[6] == v[7] == v[8] == 0 && z.d.start != 0 && Aside(z, 0)
    ensures Goes(At(z, m, v, 14), 2, At(z, m', v, 16), z.memSize) && LoopWith(m', z, z.d.start) && Holds(m', z, xs, ts, i + 1)
  {
    hide Rd, Wr, WithPlaces, Aside, Goes, LoopWith, Holds, SceneOk, At, PlaceA;
    StartIn(z);
    ZeroSpare(z);
    var x := StoresGo(m, z, z.d.start, v);
    m' := Wr(m, 0, x);
    LoopStill(m, z, z.d.start, 0, x);
    HoldsStill(m, z, xs, ts, i, i + 1, 0, x);
  }

  lemma ZeroSpare(z: Scene)
    requires PageOk(z) && z.d.start != 0 && Aside(z, 0)
    ensures Spare(z, 0)
  {
    hide Aside;
  }

  /** At 0 there is a variable, or what is moved by. */
  lemma ZeroPlace(z: Scene) returns (p: nat)
    requires PageOk(z) && z.j == 19 && z.d.start != 0 && !Aside(z, 0)
    ensures p in {0, 1, 2, 3, 4, 10} && Places(z)[p] == 0
  {
    hide Aside, Places, CellsOf;
    forall l: nat | l < 11
      ensures Places(z)[l] == if l < 9 then CellsOf(z.d)[l] else if l == 9 then z.x else z.d.mv
      ensures l < 9 ==> CellsOf(z.d)[l] == match l
        case 0 => z.d.sv case 1 => z.d.dv case 2 => z.d.cv case 3 => z.d.t1 case 4 => z.d.t2
        case 5 => F1(z.d) case 6 => F3(z.d) case 7 => F4(z.d) case _ => F2(z.d)
    {
      PlaceAt(z, l);
      if l < 9 {
        CellAt(z.d, l);
      }
    }
    if 0 !in VarsOf(z.d) {
      AlignedAside(z, 0);
      assert false;
    }
    p := if z.d.sv == 0 then 0 else if z.d.dv == 0 then 1 else if z.d.cv == 0 then 2 else if z.d.t1 == 0 then 3
         else if z.d.t2 == 0 then 4 else 10;
  }

  lemma ZeroAtPlace(m: Mem, z: Scene, i: nat, v: seq<int>, y: int, p: nat) returns (w: seq<int>)
    requires PageOk(z) && i < 4 && z.j == 19 && |v| == 11 && LoopWith(m, z, z.d.start)
    requires z.c == Field(10, 1) && v[6] == v[7] == v[8] == 0 && v[4] == -y && y == AtZero(z, i) && z.d.start != 0
    requires v[0] == SAt(z, i) && v[1] == DAt(z, i) && v[2] == CAt(z, i) && v[10] == -8
    requires p in {0, 1, 2, 3, 4, 10} && Places(z)[p] == 0
    ensures |w| == 11 && w[0] == v[0] && w[1] == v[1] && w[2] == v[2] && w[9] == v[9] && w[10] == v[10]
    ensures Goes(At(z, m, v, 14), 2, At(z, m, w, 16), z.memSize)
  {
    hide Rd, Wr, WriteAll, Places, Goes, LoopWith, SceneOk, AtZero, SAt, DAt, CAt, Mod, Mods;
    StartIn(z);
    var w1 := v[p := 0];
    var w2 := w1[p := 0 - w1[4]];
    Put15(z);
    ClearGoes(m, z, z.d.start, v);
    PlaceRead(m, z, v, p);
    SubZero(Mod(v[p]));
    ModSmall(0);
    PlaceWrite(m, z, v, p, 0);
    PutGoes(m, z, z.d.start, w1);
    PlaceRead(m, z, w1, p);
    ModSub(0, w1[4]);
    PlaceWrite(m, z, w1, p, 0 - w1[4]);
    GoesOn(At(z, m, v, 14), 1, At(z, m, w1, 15), 1, At(z, m, w2, 16), z.memSize);
    if p in {3, 4} {
      w := w2;
    } else {
      w := v;
      SameMods(z, i, v, w2, y, p);
    }
  }

  lemma SameMods(z: Scene, i: nat, v: seq<int>, w: seq<int>, y: int, p: nat)
    requires PageOk(z) && |v| == 11 && p in {0, 1, 2, 10} && Places(z)[p] == 0 && z.d.start != 0
    requires v[0] == SAt(z, i) && v[1] == DAt(z, i) && v[2] == CAt(z, i) && v[10] == -8 && y == AtZero(z, i) && w == v[p := y]
    ensures Mods(w) == Mods(v)
  {
    hide Places, CellsOf, SAt, DAt, CAt;
    PlaceAt(z, p);
    if p < 9 {
      CellAt(z.d, p);
    }
    assert Mod(y) == Mod(v[p]);
  }

  /** At 0 there is the loop: its first field, which is T1's address. */
  lemma ZeroInLoop(m: Mem, z: Scene, i: nat, v: seq<int>, y: int)
    requires PageOk(z) && z.j == 19 && |v| == 11 && LoopWith(m, z, z.d.start) && z.d.start == 0
    requires z.c == Field(10, 1) && v[6] == v[7] == v[8] == 0 && v[4] == -y && y == AtZero(z, i)
    ensures Goes(At(z, m, v, 14), 2, At(z, m, v, 16), z.memSize)
  {
    hide Rd, Wr, WriteAll, Places, Goes, LoopWith, Mods, Taken, Step;
    var M, M1 := WithPlaces(z, m, v), Wr(WithPlaces(z, m, v), 0, 0);
    var q := Places(z)[4];
    ModSmall(0);
    Put15(z);
    ClearGoes(m, z, 0, v);
    SubZero(Rd(M, 0));
    FieldRead(m, z, 0, v, 0, 0);
    FieldRead(m, z, 0, v, 15, 2);
    OperandA(m, z, 0, v, 15);
    PlaceRead(m, z, v, 4);
    PlaceRead(m, z, v, 8);
    PlaceAt(z, 8);
    CellAt(z.d, 8);
    PlaceIn(z, 4);
    PlaceAt(z, 4);
    CellAt(z.d, 4);
    RdWrSame(M, 0, 0);
    RdWrOther(M, 0, 0, 360);
    RdWrOther(M, 0, 0, 368);
    RdWrOther(M, 0, 0, 376);
    RdWrOther(M, 0, 0, q);
    ModSub(0, v[4]);
    ModSmall(y);
    WrWrSame(M, 0, 0, y);
    WrRd(M, 0);
    assert Step(Cpu(M1, 360)) == Cpu(M, 384) by { PutStep(M1, q, y); }
    GoesStep(Cpu(M1, 360), z.memSize);
    GoesOn(At(z, m, v, 14), 1, Cpu(M1, 360), 1, At(z, m, v, 16), z.memSize);
  }

  lemma PutStep(M: Mem, q: word, y: int)
    requires Rd(M, 360) == q && Rd(M, 368) == 0 && Rd(M, 376) == 384 && Rd(M, 0) == 0 && Rd(M, q) == Mod(-y) && 0 <= y < TWO64
    ensures Step(Cpu(M, 360)) == Cpu(Wr(M, 0, y), 384)
  {
    hide Rd, Wr;
    ModSub(0, -y);
  }

  // --------------------------------------------------------- the round

  /** A round of the changed loop has led to its next, or out. */
  ghost predicate Turned(m: Mem, z: Scene, i: nat, u: seq<int>, m': Mem, y: int, v: seq<int>, xs: seq<word>, ts: seq<word>) {
    && |u| == 11 && |v| == 11 && z.d.start + LOOP_LEN < TWO64 && i < 4
    && Goes(At(z, m, u, 0), 19, Cpu(WithPlaces(z, m', Third(z, v)), EndOf(z, i)), z.memSize)
    && RoundAt(m', z, i + 1, Third(z, v), xs, ts)
    && Third(z, v)[9] == u[9] - Taking(z, i, y) && v[9] == u[9] - (if z.c.k < 16 then Taking(z, i, y) else 0)
    && (z.c.f == 0 ==> v[4] == T2At(z, i, y)) && Loads(z, i, y, xs)
  }

  lemma Turn(m: Mem, z: Scene, i: nat, u: seq<int>, xs: seq<word>, ts: seq<word>) returns (m': Mem, y: word, v: seq<int>)
    requires RoundAt(m, z, i, u, xs, ts) && i < 4
    ensures Turned(m, z, i, u, m', y, v, xs, ts) && Puts(z, i, m, v, m')
  {
    hide Rd, WithPlaces, Aside, Goes, LoopWith, Holds, First, Second, Third, Mod, PlaceA, Lasting, LoopNext, SceneOk, Begins;
    hide Forward, At, PageOk, Elsewhere, Taking, T2At, EndOf, DAt, F3At, Words8, Targets8, Puts, Loads, Stored, SumSpare;
    StartIn(z);
    y := TurnLoads(m, z, i, u, xs, ts);
    v := Second(z, First(z, u), y);
    ForwardGives(z, i, u, y);
    if z.c == Field(10, 1) {
      var w;
      m', w := StoresZero(m, z, i, u, y, v, xs, ts);
      RoundGoes(m, z, z.d.start, u, v, m', w);
      v := w;
      PutsNone(z, i, m, v, m');
    } else {
      m' := StoresIn(m, z, i, u, y, xs, ts);
      Backward(z, i, u, y);
      StoredGives(z, i, m, v, m', xs, ts);
      RoundGoes(m, z, z.d.start, u, v, m', v);
    }
  }

  lemma PutsNone(z: Scene, i: nat, m: Mem, v: seq<int>, m': Mem)
    requires z.c.f != 0
    ensures Puts(z, i, m, v, m')
  {
  }

  lemma StoresZero(m: Mem, z: Scene, i: nat, u: seq<int>, y: word, v: seq<int>, xs: seq<word>, ts: seq<word>) returns (m': Mem, w: seq<int>)
    requires RoundAt(m, z, i, u, xs, ts) && i < 4 && z.c == Field(10, 1) && Forward(z, i, u, y) && v == Second(z, First(z, u), y)
    requires Loads(z, i, y, xs)
    ensures |w| == 11 && Goes(At(z, m, v, 14), 2, At(z, m', w, 16), z.memSize) && LoopWith(m', z, z.d.start) && Holds(m', z, xs, ts, i + 1)
    ensures Begins(z, i + 1, Third(z, w)) && Third(z, w)[9] == w[9] == u[9] - Taking(z, i, y) && LoopNext(z, z.d.start, w) == EndOf(z, i)
  {
    hide Rd, Goes, LoopWith, Holds, First, Second, Third, LoopNext, SceneOk, At, AtZero;
    StartIn(z);
    m', w := StoredZero(m, z, i, v, y, xs, ts);
    ThirdIs(z, w);
    LoopNextIs(z, i, w);
  }


  lemma StoredGives(z: Scene, i: nat, m: Mem, v: seq<int>, m': Mem, xs: seq<word>, ts: seq<word>)
    requires PageOk(z) && |v| == 11 && Stored(z, i, m, v, m', xs, ts)
    ensures Goes(At(z, m, v, 14), 2, At(z, m', v, 16), z.memSize) && LoopWith(m', z, z.d.start) && Holds(m', z, xs, ts, i + 1)
  {
  }

  /** What is loaded for A of 1 and B of 11 is 0. */
  lemma LoadsNone(z: Scene, i: nat)
    requires i < 4 && (z.c == Field(1, 0) || z.c == Field(11, 1))
    ensures !Elsewhere(z, i) && Loaded(z, i) < 8 && Words8(z)[Loaded(z, i)] == 0
  {
  }

  // ------------------------------------------------------------ four rounds

  lemma NextRound(m: Mem, z: Scene, i: nat, u: seq<int>, m': Mem, y: int, v: seq<int>, xs: seq<word>, ts: seq<word>)
    requires Turned(m, z, i, u, m', y, v, xs, ts) && i < 3
    ensures Goes(At(z, m, u, 0), 19, At(z, m', Third(z, v), 0), z.memSize)
  {
    hide Third, Goes, RoundAt, Taking, T2At, Loads, WithPlaces;
    assert WithPlaces(z, m', Third(z, v)) == At(z, m', Third(z, v), 0).mem by { WithIs(z, m', Third(z, v)); }
  }

  lemma WithIs(z: Scene, m: Mem, u: seq<int>)
    requires z.d.start + LOOP_LEN < TWO64 && |u| == 11
    ensures At(z, m, u, 0) == Cpu(WithPlaces(z, m, u), z.d.start)
  {
  }

  /** What is different after four rounds, from what a bulk copy of them leaves. */
  ghost predicate Different(m: Mem, z: Scene, u: seq<int>, first: seq<int>) {
    && PageOk(z) && |u| == 11 && |first| == 11
    && (16 <= z.c.k < 19 ==> Stuck(z) < 3 && u[Stuck(z)] == first[Stuck(z)])
    && (z.c.k < 16 && z.c.f == 1 ==> Mod(u[9]) != Mod(first[9]))
    && (z.c.k < 16 && z.c.f == 0 ==> Rd(m, Dest(z, 3)) != Words8(z)[3])
  }

  lemma FourTurns(m: Mem, z: Scene, u: seq<int>, xs: seq<word>, ts: seq<word>) returns (m4: Mem, u4: seq<int>)
    requires RoundAt(m, z, 0, u, xs, ts)
    ensures z.d.start + LOOP_LEN < TWO64 && |u4| == 11 && |u| == 11
    ensures Goes(At(z, m, u, 0), 76, Cpu(WithPlaces(z, m4, u4), EndOf(z, 3)), z.memSize) && Different(m4, z, u4, u)
  {
    hide Goes, RoundAt, WithPlaces, At, Third, Taking, T2At, Loads, Puts, Different, Mod;
    var m1, y0, v0 := Turn(m, z, 0, u, xs, ts);
    NextRound(m, z, 0, u, m1, y0, v0, xs, ts);
    var u1 := Third(z, v0);
    var m2, y1, v1 := Turn(m1, z, 1, u1, xs, ts);
    NextRound(m1, z, 1, u1, m2, y1, v1, xs, ts);
    var u2 := Third(z, v1);
    var m3, y2, v2 := Turn(m2, z, 2, u2, xs, ts);
    NextRound(m2, z, 2, u2, m3, y2, v2, xs, ts);
    var u3 := Third(z, v2);
    var y3, v3;
    m4, y3, v3 := Turn(m3, z, 3, u3, xs, ts);
    u4 := Third(z, v3);
    GoesOn(At(z, m, u, 0), 19, At(z, m1, u1, 0), 19, At(z, m2, u2, 0), z.memSize);
    GoesOn(At(z, m, u, 0), 38, At(z, m2, u2, 0), 19, At(z, m3, u3, 0), z.memSize);
    GoesOn(At(z, m, u, 0), 57, At(z, m3, u3, 0), 19, Cpu(WithPlaces(z, m4, u4), EndOf(z, 3)), z.memSize);
    assert Different(m4, z, u4, u) by {
      SeenAfter(m, z, u, m3, u3, m4, u4, y0, y1, y2, y3, v3, xs, ts);
    }
  }

  lemma SeenAfter(m: Mem, z: Scene, u: seq<int>, m3: Mem, u3: seq<int>, m4: Mem, u4: seq<int>, y0: int, y1: int, y2: int, y3: int,
                  v3: seq<int>, xs: seq<word>, ts: seq<word>)
    requires RoundAt(m, z, 0, u, xs, ts) && RoundAt(m3, z, 3, u3, xs, ts) && RoundAt(m4, z, 4, u4, xs, ts) && |v3| == 11
    requires u4[9] == u[9] - Taking(z, 0, y0) - Taking(z, 1, y1) - Taking(z, 2, y2) - Taking(z, 3, y3)
    requires Loads(z, 0, y0, xs) && Loads(z, 1, y1, xs) && Loads(z, 2, y2, xs) && Loads(z, 3, y3, xs)
    requires Puts(z, 3, m3, v3, m4) && (z.c.f == 0 ==> v3[4] == T2At(z, 3, y3)) && v3[9] == u3[9] - (if z.c.k < 16 then Taking(z, 3, y3) else 0)
    ensures Different(m4, z, u4, u)
  {
    hide LoopWith, Holds, Puts, WithPlaces, SceneOk, Rd;
    if z.c.k < 16 && z.c.f == 0 {
      LastWord(z, m3, u3, m4, y3, v3, xs, ts);
    } else if z.c.k < 16 {
      XMoves(z, u, u4, y0, y1, y2, y3, xs);
    }
  }

  lemma XMoves(z: Scene, u: seq<int>, u4: seq<int>, y0: int, y1: int, y2: int, y3: int, xs: seq<word>)
    requires PageOk(z) && Lasting(z.c) && xs == Words8(z) && |u| == 11 && |u4| == 11 && z.c.k < 16 && z.c.f == 1
    requires u4[9] == u[9] - Taking(z, 0, y0) - Taking(z, 1, y1) - Taking(z, 2, y2) - Taking(z, 3, y3)
    requires Loads(z, 0, y0, xs) && Loads(z, 1, y1, xs) && Loads(z, 2, y2, xs) && Loads(z, 3, y3, xs)
    ensures Mod(u4[9]) != Mod(u[9])
  {
    var n := Taking(z, 0, y0) + Taking(z, 1, y1) + Taking(z, 2, y2) + Taking(z, 3, y3);
    assert -TWO64 < n < TWO64 && n != 0;
    ModMoves(u[9], n);
  }

  lemma ModMoves(x: int, n: int)
    requires -TWO64 < n < TWO64 && n != 0
    ensures Mod(x - n) != Mod(x)
  {
  }

  lemma LastWord(z: Scene, m3: Mem, u3: seq<int>, m4: Mem, y: int, v: seq<int>, xs: seq<word>, ts: seq<word>)
    requires RoundAt(m3, z, 3, u3, xs, ts) && |v| == 11 && Puts(z, 3, m3, v, m4) && z.c.k < 16 && z.c.f == 0
    requires v[4] == T2At(z, 3, y) && v[9] == u3[9] && Loads(z, 3, y, xs)
    ensures Rd(m4, Dest(z, 3)) != xs[3]
  {
    hide LoopWith, WithPlaces, SceneOk, Rd, Aside;
    StartIn(z);
    PageWords(z, 3);
    PageWords(z, 6);
    PageWords(z, 1);
    AsideRead(m3, z, v, F3At(z, 3));
    assert Rd(m3, Dest(z, 3)) == ts[3] && Rd(m3, Dest(z, 6)) == ts[6] && Rd(m3, Source(z, 1)) == xs[1];
    assert z.c.k == 15 || PlaceA(z, 15) == 4;
  }
}
