/** A run of two CPUs that ends with a stale block: both of its fields changed
    between being read and being marked, to values of the same hash. */
module Collision {
  import opened Options
  import opened Words
  import opened Hash
  import opened Smp

  const OLD: word := 8
  const NEW: word := 24
  const OTHER: word := 16

  /** What hides the change of the first field. */
  function Hiding(): word { Xor(Xor(Mix(SEED, OLD), OTHER), Mix(SEED, NEW)) }

  function Before(): map<int, word> { map[0 := OLD, 1 := OTHER] }
  function After(): map<int, word> { map[0 := NEW, 1 := Hiding()] }

  function Cpu(pc: Pc, quiet: Option<nat>, checked: set<int>, blocks: seq<Blk>, pending: seq<nat>, made: nat): CpuState {
    CpuState(pc, quiet, [], false, checked, blocks, pending, made, None, None)
  }

  function Block(stamp: Option<nat>, seen: set<nat>, reread: map<int, word>, retired: bool): Blk {
    Blk({0, 1}, [0, 1], Before(), true, stamp, seen, reread, retired)
  }

  function Start(): State { State(Before(), {}, {}, {}, 1, [Cpu(Out, None, {}, [], [], 0), Cpu(Out, None, {}, [], [], 0)]) }

  /** The first CPU translates, the second has checked both stores. */
  function Building(): State {
    State(Before(), {}, {}, {}, 1,
          [Cpu(Build({0, 1}, [], map[], map[], NoField), Some(1), {}, [], [], 0), Cpu(Running, Some(1), {0, 1}, [], [], 0)])
  }

  /** The first CPU has read both fields. */
  function Reading(): State {
    State(Before(), {}, {}, {}, 1,
          [Cpu(Build({0, 1}, [], map[], Before(), NoField), Some(1), {}, [], [], 0), Cpu(Running, Some(1), {0, 1}, [], [], 0)])
  }

  /** The block is there, with its words marked. */
  function Built(): State {
    State(Before(), {0, 1}, {0}, {}, 1,
          [Cpu(Wait(0), Some(1), {}, [Block(None, {}, map[], false)], [], 0), Cpu(Running, Some(1), {0, 1}, [], [], 0)])
  }

  /** Both stores were done. */
  function Stamped(): State {
    State(After(), {0, 1}, {0}, {}, 2,
          [Cpu(Running, Some(1), {}, [Block(Some(2), {}, map[], false)], [0], 1),
           Cpu(Running, Some(1), {0, 1}, [], [], 0)])
  }

  /** And both CPUs have come by their dispatchers. */
  function Written(): State {
    State(After(), {0, 1}, {0}, {}, 2,
          [Cpu(Running, Some(2), {}, [Block(Some(2), {}, map[], false)], [0], 0), Cpu(Running, Some(2), {}, [], [], 0)])
  }

  function Looked(): State {
    State(After(), {0, 1}, {0}, {}, 2,
          [Cpu(Running, Some(2), {}, [Block(Some(2), {0, 1}, map[], false)], [0], 0),
           Cpu(Running, Some(2), {}, [], [], 0)])
  }

  function Agreed(): State {
    State(After(), {0, 1}, {0}, {}, 2,
          [Cpu(Running, Some(2), {}, [Block(Some(2), {0, 1}, After(), false)], [0], 0),
           Cpu(Running, Some(2), {}, [], [], 0)])
  }

  function Finished(): State {
    State(After(), {0, 1}, {0}, {}, 2,
          [Cpu(Running, Some(2), {}, [Block(Some(2), {0, 1}, After(), true)], [], 0),
           Cpu(Running, Some(2), {}, [], [], 0)])
  }

  lemma {:induction false} Joined(s: State, xs: seq<Action>, t: State, ys: seq<Action>, u: State)
    requires Reaches(s, xs, t) && Reaches(t, ys, u)
    ensures Reaches(s, xs + ys, u)
    decreases |xs|
  {
    hide Enabled, Do;
    if xs == [] {
      assert xs + ys == ys;
    } else {
      Joined(Do(s, xs[0]), xs[1..], t, ys, u);
      assert (xs + ys)[0] == xs[0] && (xs + ys)[1..] == xs[1..] + ys;
    }
  }

  lemma Go(s: State, xs: seq<Action>, t: State, a: Action) returns (ys: seq<Action>, u: State)
    requires Reaches(s, xs, t) && Enabled(t, a)
    ensures ys == xs + [a] && u == Do(t, a) && Reaches(s, ys, u)
  {
    hide Enabled, Do;
    ys, u := xs + [a], Do(t, a);
    assert Reaches(t, [a], u);
    Joined(s, xs, t, [a], u);
  }

  lemma RunIn() returns (xs: seq<Action>)
    ensures Reaches(Start(), xs, Building())
  {
    var t := Start();
    xs := [];
    xs, t := Go(Start(), xs, t, LoadEpoch(0));
    xs, t := Go(Start(), xs, t, Publish(0));
    xs, t := Go(Start(), xs, t, DrainDone(0));
    xs, t := Go(Start(), xs, t, LoadEpoch(1));
    xs, t := Go(Start(), xs, t, Publish(1));
    xs, t := Go(Start(), xs, t, DrainDone(1));
    xs, t := Go(Start(), xs, t, StartBuild(0, {0, 1}));
    xs, t := Go(Start(), xs, t, Check(1, 0, None));
    xs, t := Go(Start(), xs, t, Check(1, 1, None));
    assert t.cpus[0] == Building().cpus[0] && t.cpus[1] == Building().cpus[1];
    assert t == Building();
  }

  lemma ReadsBoth() returns (xs: seq<Action>)
    ensures Reaches(Building(), xs, Reading())
  {
    var t := Building();
    xs := [];
    xs, t := Go(Building(), xs, t, ReadField(0, 0));
    xs, t := Go(Building(), xs, t, ReadField(0, 1));
    assert t.cpus[0].pc.read == Before();
    assert t.cpus[0] == Reading().cpus[0] && t.cpus[1] == Reading().cpus[1];
    assert t == Reading();
  }

  lemma Translated() returns (xs: seq<Action>)
    ensures Reaches(Reading(), xs, Built())
  {
    var t := Reading();
    xs := [];
    xs, t := Go(Reading(), xs, t, SetBit(0, 0));
    xs, t := Go(Reading(), xs, t, SetPages(0));
    xs, t := Go(Reading(), xs, t, SetBit(0, 1));
    xs, t := Go(Reading(), xs, t, SetPages(0));
    assert t.cpus[0].pc.read == map[];
    xs, t := Go(Reading(), xs, t, Install(0));
    assert t.cpus[0].blocks[0].fields == Before() && t.cpus[0].blocks[0].order == [0, 1];
    assert t.cpus[0].blocks == Built().cpus[0].blocks;
    assert t.cpus[0] == Built().cpus[0] && t.cpus[1] == Built().cpus[1];
    assert t == Built();
  }

  lemma Overtaken() returns (xs: seq<Action>)
    ensures Reaches(Built(), xs, Stamped())
  {
    hide Hiding;
    var t := Built();
    xs := [];
    xs, t := Go(Built(), xs, t, Write(1, 0, NEW));
    xs, t := Go(Built(), xs, t, Write(1, 1, Hiding()));
    xs, t := Go(Built(), xs, t, Stamp(0));
    assert t.mem == After();
    assert t.cpus[0].blocks == Stamped().cpus[0].blocks;
    assert t.cpus[0] == Stamped().cpus[0] && t.cpus[1] == Stamped().cpus[1];
    assert t == Stamped();
  }

  lemma ComeBy() returns (xs: seq<Action>)
    ensures Reaches(Stamped(), xs, Written())
  {
    hide Hiding;
    var t := Stamped();
    xs := [];
    xs, t := Go(Stamped(), xs, t, LoadEpoch(1));
    xs, t := Go(Stamped(), xs, t, Publish(1));
    xs, t := Go(Stamped(), xs, t, DrainDone(1));
    xs, t := Go(Stamped(), xs, t, LoadEpoch(0));
    xs, t := Go(Stamped(), xs, t, Publish(0));
    xs, t := Go(Stamped(), xs, t, DrainDone(0));
    assert t.cpus[0] == Written().cpus[0] && t.cpus[1] == Written().cpus[1];
    assert t == Written();
  }

  lemma Seen() returns (xs: seq<Action>)
    ensures Reaches(Written(), xs, Looked())
  {
    hide Hiding;
    var t := Written();
    xs := [];
    xs, t := Go(Written(), xs, t, See(0, 0, 0));
    xs, t := Go(Written(), xs, t, See(0, 0, 1));
    assert t.cpus[0].blocks[0].seen == {0, 1};
    assert t.cpus[0].blocks == Looked().cpus[0].blocks;
    assert t.cpus[0] == Looked().cpus[0] && t.cpus[1] == Looked().cpus[1];
    assert t == Looked();
  }

  lemma ReadAgain() returns (xs: seq<Action>)
    ensures Reaches(Looked(), xs, Agreed())
  {
    hide Hiding;
    var t := Looked();
    xs := [];
    xs, t := Go(Looked(), xs, t, Reread(0, 0));
    xs, t := Go(Looked(), xs, t, Reread(0, 1));
    assert t.cpus[0].blocks[0].reread == After();
    assert t.cpus[0].blocks == Agreed().cpus[0].blocks;
    assert t.cpus[0] == Agreed().cpus[0] && t.cpus[1] == Agreed().cpus[1];
    assert t == Agreed();
  }

  lemma HidingIs()
    ensures Hiding() == Xor(Xor(Mix(SEED, OLD), OTHER), Mix(SEED, NEW))
  {
  }

  lemma SameAfter(b: Blk)
    requires b.order == [0, 1] && b.fields == Before() && b.reread == After()
    ensures Settled(b)
  {
    hide Hiding, Fold, Mix, XorN;
    TwoChangesCollide(SEED, OLD, NEW, OTHER);
    HidingIs();
    assert Values(b.order, b.reread) == [NEW, Hiding()];
    assert Values(b.order, b.fields) == [OLD, OTHER];
  }

  lemma Checked() returns (xs: seq<Action>)
    ensures Reaches(Agreed(), xs, Finished())
  {
    hide Hiding, Settled;
    SameAfter(Agreed().cpus[0].blocks[0]);
    var t := Agreed();
    xs, t := Go(Agreed(), [], t, Retire(0));
    assert t.cpus[0].blocks == Finished().cpus[0].blocks;
    assert t.cpus[0] == Finished().cpus[0] && t.cpus[1] == Finished().cpus[1];
    assert t == Finished();
  }

  /** Every step was one the CPUs take; the block is valid, has been checked,
      nothing is on its way to it, and both of its words are stale. */
  lemma StaleForGood() returns (steps: seq<Action>)
    ensures Initial(Start()) && Reaches(Start(), steps, Finished())
    ensures var u := Finished().cpus[0];
      && u.blocks[0].valid && !Awaiting(u, 0)
      && forall w | w in {0, 1} :: u.blocks[0].fields[w] != Finished().mem[w] && !Coming(Finished(), 0, w)
  {
    hide Reaches, Start, Building, Reading, Built, Stamped, Written, Looked, Agreed, Finished;
    var a := RunIn();
    var b0 := ReadsBoth();
    var b1 := Translated();
    Joined(Building(), b0, Reading(), b1, Built());
    var b := b0 + b1;
    var c := Overtaken();
    var d := ComeBy();
    var e := Seen();
    var f := ReadAgain();
    var g := Checked();
    Joined(Start(), a, Building(), b, Built());
    Joined(Start(), a + b, Built(), c, Stamped());
    Joined(Start(), a + b + c, Stamped(), d, Written());
    Joined(Start(), a + b + c + d, Written(), e, Looked());
    Joined(Start(), a + b + c + d + e, Looked(), f, Agreed());
    Joined(Start(), a + b + c + d + e + f, Agreed(), g, Finished());
    steps := a + b + c + d + e + f + g;
    Stale();
  }

  lemma Stale()
    ensures Initial(Start())
    ensures var u := Finished().cpus[0];
      && u.blocks[0].valid && !Awaiting(u, 0)
      && forall w | w in {0, 1} :: u.blocks[0].fields[w] != Finished().mem[w] && !Coming(Finished(), 0, w)
  {
    hide Hiding, Coming, Initial;
    HidingOther();
    StartInitial();
    forall w | w in {0, 1}
      ensures !Coming(Finished(), 0, w)
    {
      NothingComing(w);
    }
  }

  lemma HidingOther()
    ensures Hiding() != OTHER && OLD != NEW
  {
    hide Fold, Mix, Xor;
    TwoChangesCollide(SEED, OLD, NEW, OTHER);
  }

  lemma StartInitial()
    ensures Initial(Start())
  {
  }

  lemma NothingComing(w: int)
    ensures !Coming(Finished(), 0, w)
  {
    hide Hiding;
  }
}
