/** Several CPUs with a code cache each: how a store to a word that any of them
    translated reaches them all, and when a new block can be trusted. Steps of
    different CPUs interleave; a store is checked first and written later. */
module Smp {
  import opened Options
  import opened Words
  import opened Hash

  const QUEUE_CAP: nat := 1023
  const PENDING_CAP: nat := 4095

  /** A block, the words it covers, its static fields as they were read, in the
      order they were hashed, the epoch it was stamped with, the CPUs seen in
      their dispatchers since, and the fields as read again after that. */
  datatype Blk = Blk(covers: set<int>, order: seq<int>, fields: map<int, word>, valid: bool, stamp: Option<nat>,
                     seen: set<nat>, reread: map<int, word>, retired: bool)

  /** A hit on word w: its bit is cleared, then each CPU in todo is told. */
  datatype Hit = Hit(w: int, cleared: bool, todo: set<nat>)

  /** A field being marked: its bit is set but not its pages. */
  datatype Cur = NoField | BitSet(w: int, v: word)

  /** Where a CPU is: outside, in its dispatcher with the epoch it loaded, going
      through its queue, about to empty its cache, running, translating (some
      fields are read before any of them is marked), or waiting for room among
      its pending blocks. */
  datatype Pc = Out | Loaded(e: nat) | Drain | Flushing | Running
              | Build(covers: set<int>, order: seq<int>, fields: map<int, word>, read: map<int, word>, cur: Cur) | Wait(i: nat)

  datatype CpuState = CpuState(
    pc: Pc, quiet: Option<nat>, queue: seq<int>, overflow: bool, checked: set<int>,
    blocks: seq<Blk>, pending: seq<nat>, made: nat, hit: Option<Hit>, condemned: Option<nat>)

  datatype State = State(mem: map<int, word>, marked: set<int>, pages: set<int>, dynMap: set<int>, epoch: nat, cpus: seq<CpuState>)

  // ------------------------------------------------------------- the steps

  datatype Action =
    | LoadEpoch(c: nat)
    | Publish(c: nat)
    | DrainOne(c: nat)
    | DrainDone(c: nat)
    | ClearOverflow(c: nat)
    | FlushAll(c: nat)
    | Leave(c: nat)
    | Check(c: nat, w: int, page: Option<int>)
    | Write(c: nat, w: int, v: word)
    | StartHit(c: nat, w: int)
    | ClearBit(c: nat)
    | Tell(c: nat, d: nat)
    | EndHit(c: nat)
    | StartBuild(c: nat, covers: set<int>)
    | ReadField(c: nat, w: int)
    | SkipDynamic(c: nat, w: int)
    | SetBit(c: nat, w: int)
    | SetPages(c: nat)
    | Install(c: nat)
    | Stamp(c: nat)
    | See(c: nat, i: nat, d: nat)
    | Reread(c: nat, w: int)
    | Retire(c: nat)
    | Condemn(c: nat)
    | EndCondemn(c: nat)

  predicate IsCpu(d: nat, n: nat) { d < n }

  function AllCpus(n: nat): set<nat> { set d: nat | d < n && IsCpu(d, n) }

  function PageOf(w: int): int { w / 512 }

  predicate Marked(s: State, w: int) {
    w in s.marked && PageOf(w) in s.pages && (PageOf(w) > 0 ==> PageOf(w) - 1 in s.pages)
  }

  /** d was in its dispatcher, or outside, after epoch t. */
  predicate QuietSince(u: CpuState, t: nat) { u.quiet.None? || u.quiet.value >= t }

  /** The oldest pending block. */
  predicate HasHead(u: CpuState) { u.pending != [] && u.pending[0] < |u.blocks| }

  function Head(u: CpuState): Blk
    requires HasHead(u)
  {
    u.blocks[u.pending[0]]
  }

  // ----------------------------------------------------------- the hashes

  /** The words of order, each once, are those m has values for. */
  predicate InOrder(order: seq<int>, m: map<int, word>) {
    (forall w | w in order :: w in m) && (forall w | w in m :: w in order) && forall i, j | 0 <= i < j < |order| :: order[i] != order[j]
  }

  function Values(order: seq<int>, m: map<int, word>): (xs: seq<word>)
    requires forall i | 0 <= i < |order| :: order[i] in m
    ensures |xs| == |order| && forall i | 0 <= i < |xs| :: xs[i] == m[order[i]]
  {
    seq(|order|, i requires 0 <= i < |order| => m[order[i]])
  }

  predicate AllReread(b: Blk) { forall i | 0 <= i < |b.order| :: b.order[i] in b.fields && b.order[i] in b.reread }

  /** The fields as read again hash as they did. */
  predicate SameHash(b: Blk)
    requires AllReread(b)
  {
    Fold(SEED, Values(b.order, b.reread)) == Fold(SEED, Values(b.order, b.fields))
  }

  predicate Settled(b: Blk) { AllReread(b) && SameHash(b) }

  /** Field w was another when read again, and so was some other field, with the
      hash the same. */
  predicate Collided(b: Blk, w: int) {
    && Settled(b)
    && (exists f | 0 <= f < |b.order| :: b.order[f] == w && b.reread[w] != b.fields[w])
    && exists g | 0 <= g < |b.order| :: b.order[g] != w && b.reread[b.order[g]] != b.fields[b.order[g]]
  }

  /** A hash that stayed the same stands for no change, or for two. */
  lemma SettledOr(b: Blk, w: int)
    requires Settled(b) && InOrder(b.order, b.fields) && w in b.order
    ensures w in b.reread && w in b.fields && (b.reread[w] == b.fields[w] <==> !Collided(b, w))
  {
    hide Fold;
    var xs, ys := Values(b.order, b.reread), Values(b.order, b.fields);
    var f: nat :| f < |b.order| && b.order[f] == w;
    if xs[f] != ys[f] && !Collided(b, w) {
      forall g: nat | g < |xs| && g != f
        ensures xs[g] == ys[g]
      {
        assert b.order[g] != w;
      }
      OneChangeTells(SEED, xs, ys, f);
    }
  }

  predicate Free(u: CpuState) { u.hit.None? && u.condemned.None? }

  /** Every CPU has been seen in its dispatcher since u's oldest pending block. */
  predicate Grace(u: CpuState, n: nat) { HasHead(u) && forall d: nat | d < n :: d in Head(u).seen }

  predicate Enabled(s: State, a: Action) {
    a.c < |s.cpus| &&
    var u := s.cpus[a.c];
    match a
    case LoadEpoch(_) => (u.pc.Out? || u.pc.Running?) && Free(u)
    case Publish(_) => u.pc.Loaded?
    case DrainOne(_) => u.pc.Drain? && u.queue != []
    case DrainDone(_) => u.pc.Drain? && u.queue == []
    case ClearOverflow(_) => u.pc.Drain? && u.overflow
    case FlushAll(_) => u.pc.Flushing? || (u.pc.Running? && Free(u))
    case Leave(_) => u.pc.Running? && Free(u)
    case Check(_, w, page) =>
      && u.pc.Running? && Free(u)
      && (if page.None? then w !in s.marked
          else (page.value == PageOf(w) || (page.value == PageOf(w) - 1 && page.value >= 0)) && page.value !in s.pages)
    case Write(_, w, _) => u.pc.Running? && Free(u) && w in u.checked && w in s.mem
    case StartHit(_, w) =>
      && u.hit.None? && (u.pc.Running? || u.pc.Wait?)
      && (if u.condemned.None? then u.pc.Running?
          else u.condemned.value < |u.blocks| && w in u.blocks[u.condemned.value].fields)
    case ClearBit(_) => u.hit.Some? && !u.hit.value.cleared
    case Tell(_, d) => u.hit.Some? && u.hit.value.cleared && d in u.hit.value.todo && d < |s.cpus|
    case EndHit(_) => u.hit.Some? && u.hit.value.cleared && u.hit.value.todo == {}
    case StartBuild(_, _) => u.pc.Running? && Free(u) && u.made < 2
    case ReadField(_, w) => u.pc.Build? && u.pc.cur.NoField? && w in u.pc.covers && w in s.mem && w !in u.pc.fields && w !in u.pc.read
    case SkipDynamic(_, w) => u.pc.Build? && u.pc.cur.NoField? && w in u.pc.read && w in s.dynMap
    case SetBit(_, w) => u.pc.Build? && u.pc.cur.NoField? && w in u.pc.read
    case SetPages(_) => u.pc.Build? && u.pc.cur.BitSet?
    case Install(_) => u.pc.Build? && u.pc.cur.NoField? && u.pc.read == map[]
    case Stamp(_) => u.pc.Wait? && Free(u) && u.pc.i < |u.blocks| && |u.pending| < PENDING_CAP
    case See(_, i, d) =>
      && (u.pc.Running? || u.pc.Wait?) && Free(u) && d < |s.cpus|
      && i in u.pending && i < |u.blocks| && u.blocks[i].stamp.Some? && QuietSince(s.cpus[d], u.blocks[i].stamp.value)
    case Reread(_, w) =>
      (u.pc.Running? || u.pc.Wait?) && Free(u) && Grace(u, |s.cpus|) && !Head(u).retired && w in Head(u).fields && w in s.mem
    case Retire(_) =>
      (u.pc.Running? || u.pc.Wait?) && Free(u) && Grace(u, |s.cpus|) && (Head(u).valid ==> Settled(Head(u)))
    case Condemn(_) =>
      && (u.pc.Running? || u.pc.Wait?) && Free(u) && Grace(u, |s.cpus|)
      && Head(u).valid && AllReread(Head(u)) && !SameHash(Head(u))
    case EndCondemn(_) =>
      && u.hit.None? && u.condemned.Some? && u.condemned.value < |u.blocks| && !u.blocks[u.condemned.value].valid
  }

  function Invalidate(b: Blk, w: int): Blk { if w in b.covers then b.(valid := false) else b }

  function InvalidateWord(u: CpuState, w: int): CpuState {
    u.(blocks := seq(|u.blocks|, i requires 0 <= i < |u.blocks| => Invalidate(u.blocks[i], w)))
  }

  /** Drops all blocks. */
  function Flush(u: CpuState): CpuState {
    u.(blocks := seq(|u.blocks|, i requires 0 <= i < |u.blocks| => u.blocks[i].(valid := false)), pending := [])
  }

  /** What a CPU hears of a hit on w: the others' queues may be full. */
  function Told(u: CpuState, w: int, own: bool): CpuState {
    if own then InvalidateWord(u, w)
    else if |u.queue| < QUEUE_CAP then u.(queue := u.queue + [w])
    else u.(overflow := true)
  }

  function With(s: State, c: nat, u: CpuState): State
    requires c < |s.cpus|
  {
    s.(cpus := s.cpus[c := u])
  }

  function WithHead(u: CpuState, b: Blk): CpuState
    requires HasHead(u)
  {
    u.(blocks := u.blocks[u.pending[0] := b])
  }

  function Do(s: State, a: Action): State
    requires Enabled(s, a)
  {
    var c := a.c;
    var u := s.cpus[c];
    match a
    case LoadEpoch(_) => With(s, c, u.(pc := Loaded(s.epoch), checked := {}))
    case Publish(_) => With(s, c, u.(pc := Drain, quiet := Some(u.pc.e), made := 0))
    case DrainOne(_) => With(s, c, InvalidateWord(u, u.queue[0]).(queue := u.queue[1..]))
    case DrainDone(_) => With(s, c, u.(pc := Running))
    case ClearOverflow(_) => With(s, c, u.(pc := Flushing, overflow := false, queue := []))
    case FlushAll(_) => With(s, c, Flush(u).(pc := Running))
    case Leave(_) => With(s, c, u.(pc := Out, quiet := None, checked := {}))
    case Check(_, w, _) => With(s, c, u.(checked := u.checked + {w}))
    case Write(_, w, v) => s.(mem := s.mem[w := v])
    case StartHit(_, w) =>
      With(s, c, u.(hit := Some(Hit(w, false, AllCpus(|s.cpus|))))).(dynMap := s.dynMap + {w})
    case ClearBit(_) =>
      With(s, c, u.(hit := Some(u.hit.value.(cleared := true)), checked := u.checked + {u.hit.value.w}))
      .(marked := s.marked - {u.hit.value.w})
    case Tell(_, d) =>
      var h := u.hit.value;
      var s1 := With(s, c, u.(hit := Some(h.(todo := h.todo - {d}))));
      With(s1, d, Told(s1.cpus[d], h.w, c == d))
    case EndHit(_) => With(s, c, u.(hit := None))
    case StartBuild(_, covers) => With(s, c, u.(pc := Build(covers, [], map[], map[], NoField)))
    case ReadField(_, w) => With(s, c, u.(pc := u.pc.(read := u.pc.read[w := s.mem[w]])))
    case SkipDynamic(_, w) => With(s, c, u.(pc := u.pc.(read := u.pc.read - {w})))
    case SetBit(_, w) =>
      With(s, c, u.(pc := u.pc.(read := u.pc.read - {w}, cur := BitSet(w, u.pc.read[w])))).(marked := s.marked + {w})
    case SetPages(_) =>
      var w := u.pc.cur.w;
      With(s, c, u.(pc := Build(u.pc.covers, u.pc.order + [w], u.pc.fields[w := u.pc.cur.v], u.pc.read, NoField)))
      .(pages := s.pages + {PageOf(w)} + (if PageOf(w) > 0 then {PageOf(w) - 1} else {}))
    case Install(_) =>
      With(s, c, u.(pc := Wait(|u.blocks|), blocks := u.blocks + [Blk(u.pc.covers, u.pc.order, u.pc.fields, true, None, {}, map[], false)]))
    case Stamp(_) =>
      With(s, c, u.(pc := Running, blocks := u.blocks[u.pc.i := u.blocks[u.pc.i].(stamp := Some(s.epoch + 1))],
                    pending := u.pending + [u.pc.i], made := u.made + 1))
      .(epoch := s.epoch + 1)
    case See(_, i, d) => With(s, c, u.(blocks := u.blocks[i := u.blocks[i].(seen := u.blocks[i].seen + {d})]))
    case Reread(_, w) => With(s, c, WithHead(u, Head(u).(reread := Head(u).reread[w := s.mem[w]])))
    case Retire(_) => With(s, c, WithHead(u, Head(u).(retired := true)).(pending := u.pending[1..]))
    case Condemn(_) => With(s, c, u.(condemned := Some(u.pending[0]), pending := u.pending[1..]))
    case EndCondemn(_) => With(s, c, u.(condemned := None))
  }

  // -------------------------------------------------------- the invariant

  /** CPU c is about to hear of a hit on w, or is emptying its cache. */
  ghost predicate Coming(s: State, c: nat, w: int)
    requires c < |s.cpus|
  {
    || w in s.cpus[c].queue || s.cpus[c].overflow || s.cpus[c].pc.Flushing?
    || exists e: nat :: Telling(s, e, c, w)
  }

  /** e is inside a hit on w, and has not told c yet. */
  predicate Telling(s: State, e: nat, c: nat, w: int) {
    e < |s.cpus| && var h := s.cpus[e].hit; h.Some? && h.value.cleared && h.value.w == w && c in h.value.todo
  }

  /** CPU d is past every store it checked before the block was stamped. */
  predicate Passed(s: State, b: Blk, d: nat) {
    d < |s.cpus| && (d in b.seen || (b.stamp.Some? && QuietSince(s.cpus[d], b.stamp.value)))
  }

  /** What holds of a valid block b of CPU c. */
  ghost predicate BlkOk(s: State, c: nat, b: Blk)
    requires c < |s.cpus|
  {
    && (forall w | w in b.fields :: w in b.covers && w in s.mem && (Marked(s, w) || Coming(s, c, w)))
    && (forall w, d: nat | w in b.fields && Passed(s, b, d) && w in s.cpus[d].checked :: Coming(s, c, w))
    && (forall w | w in b.reread :: w in b.fields && w in s.mem && (s.mem[w] == b.reread[w] || Coming(s, c, w)))
    && (b.reread != map[] ==> forall d: nat | d < |s.cpus| :: d in b.seen)
    && (b.retired ==> Settled(b)) && InOrder(b.order, b.fields)
    && (b.stamp.Some? ==> b.stamp.value <= s.epoch) && (b.stamp.None? ==> b.seen == {} && !b.retired)
  }

  /** The fields translated so far. */
  ghost predicate BuildOk(s: State, c: nat)
    requires c < |s.cpus|
  {
    var pc := s.cpus[c].pc;
    pc.Build? ==>
      && (forall w | w in pc.fields :: w in pc.covers && w in s.mem && (Marked(s, w) || Coming(s, c, w)))
      && (forall w | w in pc.read :: w in pc.covers && w in s.mem && w !in pc.fields)
      && (pc.cur.BitSet? ==> pc.cur.w in pc.covers && pc.cur.w in s.mem && pc.cur.w !in pc.fields && pc.cur.w !in pc.read)
      && InOrder(pc.order, pc.fields)
      && (pc.cur.BitSet? ==> pc.cur.w in s.marked || Coming(s, c, pc.cur.w))
  }

  predicate CpuOk(s: State, c: nat)
    requires c < |s.cpus|
  {
    var u := s.cpus[c];
    && (u.quiet.Some? ==> u.quiet.value <= s.epoch) && (u.pc.Loaded? ==> u.pc.e <= s.epoch)
    && (u.pc.Out? || u.pc.Loaded? || u.quiet.None? ==> u.checked == {} && u.hit.None?)
    && (u.quiet.None? ==> u.pc.Out? || u.pc.Loaded?)
    && (u.pc.Build? || u.pc.Drain? || u.pc.Flushing? ==> u.hit.None?)
    && (u.hit.Some? ==> forall d | d in u.hit.value.todo :: d < |s.cpus|)
    && (u.hit.Some? && !u.hit.value.cleared ==> u.hit.value.todo == AllCpus(|s.cpus|))
  }

  ghost predicate Inv(s: State) {
    forall c: nat | c < |s.cpus| ::
      && CpuOk(s, c) && BuildOk(s, c)
      && forall i | 0 <= i < |s.cpus[c].blocks| && s.cpus[c].blocks[i].valid :: BlkOk(s, c, s.cpus[c].blocks[i])
  }

  // ---------------------------------------- steps that only move things on

  /** For c's blocks nothing got worse: no news on the way is lost, no mark
      cleared, no store checked or written. */
  ghost predicate CalmFor(s: State, t: State, c: nat)
    requires c < |s.cpus|
  {
    && |t.cpus| == |s.cpus| && t.mem == s.mem && s.marked <= t.marked && s.pages <= t.pages && s.epoch <= t.epoch
    && (forall w | Coming(s, c, w) :: Coming(t, c, w))
    && forall d: nat | d < |s.cpus| ::
         && t.cpus[d].checked <= s.cpus[d].checked
         && (t.cpus[d].checked == {} || t.cpus[d].quiet == s.cpus[d].quiet)
  }

  lemma CalmBlk(s: State, t: State, c: nat, b: Blk)
    requires c < |s.cpus| && CalmFor(s, t, c) && BlkOk(s, c, b)
    ensures BlkOk(t, c, b)
  {
    hide Coming;
    forall w, d: nat | w in b.fields && Passed(t, b, d) && w in t.cpus[d].checked
      ensures Coming(t, c, w)
    {
      assert Passed(s, b, d);
    }
  }

  lemma CalmBuild(s: State, t: State, c: nat)
    requires c < |s.cpus| && CalmFor(s, t, c) && BuildOk(s, c) && t.cpus[c].pc == s.cpus[c].pc
    ensures BuildOk(t, c)
  {
    hide Coming;
  }

  /** News on the way to c stays when queues and hits do. */
  lemma ComingStays(s: State, t: State, c: nat)
    requires c < |s.cpus| == |t.cpus|
    requires t.cpus[c].pc.Flushing? ||
      (!s.cpus[c].pc.Flushing? && (s.cpus[c].overflow ==> t.cpus[c].overflow)
       && forall w | w in s.cpus[c].queue :: w in t.cpus[c].queue)
    requires forall e: nat | e < |s.cpus| && s.cpus[e].hit.Some? && s.cpus[e].hit.value.cleared && c in s.cpus[e].hit.value.todo ::
      t.cpus[e].hit == s.cpus[e].hit
    ensures forall w | Coming(s, c, w) :: Coming(t, c, w)
  {
    forall w | Coming(s, c, w)
      ensures Coming(t, c, w)
    {
      if e: nat :| Telling(s, e, c, w) {
        assert Telling(t, e, c, w);
      }
    }
  }

  predicate Moves(a: Action) {
    a.LoadEpoch? || a.Publish? || a.DrainDone? || a.Leave? || a.StartHit? || a.EndHit? || a.StartBuild? || a.ReadField?
    || a.SkipDynamic? || a.SetBit? || a.SetPages? || a.Condemn? || a.EndCondemn?
  }

  lemma MovesCalm(s: State, a: Action, c: nat)
    requires Inv(s) && Enabled(s, a) && Moves(a) && c < |s.cpus|
    ensures CalmFor(s, Do(s, a), c) && Do(s, a).cpus[c].blocks == s.cpus[c].blocks
  {
    hide Coming, BuildOk, BlkOk, Marked;
    assert CpuOk(s, a.c);
    ComingStays(s, Do(s, a), c);
  }

  lemma MovesBuild(s: State, a: Action)
    requires Inv(s) && Enabled(s, a) && Moves(a)
    ensures BuildOk(Do(s, a), a.c)
  {
    hide Coming, BlkOk, CpuOk, Marked;
    var t := Do(s, a);
    MovesCalm(s, a, a.c);
    assert BuildOk(s, a.c);
    CalmMarked(s, t);
    if a.SetPages? && s.cpus[a.c].pc.cur.w in s.marked {
      NowMarked(s, t, s.cpus[a.c].pc.cur.w);
    }
  }

  lemma CalmMarked(s: State, t: State)
    requires s.marked <= t.marked && s.pages <= t.pages
    ensures forall w | Marked(s, w) :: Marked(t, w)
  {
  }

  lemma NowMarked(s: State, t: State, w: int)
    requires w in s.marked && s.marked <= t.marked
    requires t.pages == s.pages + {PageOf(w)} + (if PageOf(w) > 0 then {PageOf(w) - 1} else {})
    ensures Marked(t, w)
  {
  }

  lemma CpuKept(s: State, a: Action, c: nat)
    requires Inv(s) && Enabled(s, a) && c < |s.cpus|
    ensures |Do(s, a).cpus| == |s.cpus| && CpuOk(Do(s, a), c)
  {
    hide Coming, BuildOk, BlkOk, Marked, CpuOk, Enabled, Do, AllCpus;
    assert CpuOk(s, c);
    if a.Tell? {
      CpuTold(s, a, c);
    } else if Moves(a) {
      CpuMoves(s, a, c);
    } else if OwnBlocks(a) {
      CpuOwn(s, a, c);
    } else {
      CpuStores(s, a, c);
    }
  }

  lemma CpuTold(s: State, a: Action, c: nat)
    requires Enabled(s, a) && c < |s.cpus| && CpuOk(s, c) && a.Tell?
    ensures |Do(s, a).cpus| == |s.cpus| && CpuOk(Do(s, a), c)
  {
    hide Marked, InvalidateWord, Flush, AllCpus;
    InvalidateFrame(s.cpus[a.c].(hit := Some(s.cpus[a.c].hit.value.(todo := s.cpus[a.c].hit.value.todo - {a.d}))), s.cpus[a.c].hit.value.w);
  }

  lemma CpuMoves(s: State, a: Action, c: nat)
    requires Enabled(s, a) && c < |s.cpus| && CpuOk(s, c) && Moves(a)
    ensures |Do(s, a).cpus| == |s.cpus| && CpuOk(Do(s, a), c)
  {
    hide Marked, InvalidateWord, Flush, Grace;
    if c == a.c && a.StartHit? {
      assert forall d | d in AllCpus(|s.cpus|) :: d < |s.cpus|;
    }
  }

  lemma CpuOwn(s: State, a: Action, c: nat)
    requires Enabled(s, a) && c < |s.cpus| && CpuOk(s, c) && OwnBlocks(a)
    ensures |Do(s, a).cpus| == |s.cpus| && CpuOk(Do(s, a), c)
  {
    hide Marked, InvalidateWord, Flush, AllCpus, Grace, CpuOk, Enabled, Do;
    if a.DrainOne? || a.FlushAll? {
      CpuDrops(s, a, c);
    } else if a.Install? || a.Stamp? || a.ClearOverflow? {
      CpuAdds(s, a, c);
    } else {
      CpuLooks(s, a, c);
    }
  }

  lemma CpuDrops(s: State, a: Action, c: nat)
    requires Enabled(s, a) && c < |s.cpus| && CpuOk(s, c) && (a.DrainOne? || a.FlushAll?)
    ensures |Do(s, a).cpus| == |s.cpus| && CpuOk(Do(s, a), c)
  {
    hide Marked, InvalidateWord, Flush, AllCpus, Grace;
    if a.DrainOne? {
      InvalidateFrame(s.cpus[a.c], s.cpus[a.c].queue[0]);
    } else {
      FlushFrame(s.cpus[a.c]);
    }
  }

  lemma CpuAdds(s: State, a: Action, c: nat)
    requires Enabled(s, a) && c < |s.cpus| && CpuOk(s, c) && (a.Install? || a.Stamp? || a.ClearOverflow?)
    ensures |Do(s, a).cpus| == |s.cpus| && CpuOk(Do(s, a), c)
  {
    hide Marked, InvalidateWord, Flush, AllCpus, Grace;
  }

  lemma CpuLooks(s: State, a: Action, c: nat)
    requires Enabled(s, a) && c < |s.cpus| && CpuOk(s, c) && (a.See? || a.Reread? || a.Retire?)
    ensures |Do(s, a).cpus| == |s.cpus| && CpuOk(Do(s, a), c)
  {
    hide Marked, InvalidateWord, Flush, AllCpus, Grace;
  }

  lemma CpuStores(s: State, a: Action, c: nat)
    requires Enabled(s, a) && c < |s.cpus| && CpuOk(s, c) && (a.Check? || a.Write? || a.ClearBit?)
    ensures |Do(s, a).cpus| == |s.cpus| && CpuOk(Do(s, a), c)
  {
    hide Marked, InvalidateWord, Flush, AllCpus, Grace;
  }

  lemma InvalidateFrame(u: CpuState, w: int)
    ensures InvalidateWord(u, w) == u.(blocks := InvalidateWord(u, w).blocks)
    ensures |InvalidateWord(u, w).blocks| == |u.blocks|
    ensures forall i | 0 <= i < |u.blocks| :: InvalidateWord(u, w).blocks[i] == Invalidate(u.blocks[i], w)
  {
  }

  lemma FlushFrame(u: CpuState)
    ensures Flush(u) == u.(blocks := Flush(u).blocks, pending := [])
    ensures forall i | 0 <= i < |Flush(u).blocks| :: !Flush(u).blocks[i].valid
  {
  }

  // -------------------------------------------------- the other CPUs' blocks

  /** All that is asked of CPU c's blocks. */
  ghost predicate CpuBlocks(s: State, c: nat)
    requires c < |s.cpus|
  {
    BuildOk(s, c) && forall i | 0 <= i < |s.cpus[c].blocks| && s.cpus[c].blocks[i].valid :: BlkOk(s, c, s.cpus[c].blocks[i])
  }

  lemma CalmBlocks(s: State, t: State, c: nat)
    requires c < |s.cpus| && CpuBlocks(s, c) && CalmFor(s, t, c) && t.cpus[c].pc == s.cpus[c].pc && t.cpus[c].blocks == s.cpus[c].blocks
    ensures CpuBlocks(t, c)
  {
    hide BlkOk, Coming, BuildOk;
    CalmBuild(s, t, c);
    forall i | 0 <= i < |t.cpus[c].blocks| && t.cpus[c].blocks[i].valid
      ensures BlkOk(t, c, t.cpus[c].blocks[i])
    {
      CalmBlk(s, t, c, s.cpus[c].blocks[i]);
    }
  }

  lemma InvBlocks(s: State, c: nat)
    requires Inv(s) && c < |s.cpus|
    ensures CpuBlocks(s, c) && CpuOk(s, c)
  {
    hide BlkOk, BuildOk, CpuOk;
  }

  lemma MovesOk(s: State, a: Action, c: nat)
    requires Inv(s) && Enabled(s, a) && Moves(a) && c < |s.cpus|
    ensures CpuBlocks(Do(s, a), c)
  {
    hide Coming, BlkOk, BuildOk, CalmFor, Marked;
    var t := Do(s, a);
    MovesCalm(s, a, c);
    InvBlocks(s, c);
    if c == a.c {
      MovesBuild(s, a);
      forall i | 0 <= i < |t.cpus[c].blocks| && t.cpus[c].blocks[i].valid
        ensures BlkOk(t, c, t.cpus[c].blocks[i])
      {
        CalmBlk(s, t, c, s.cpus[c].blocks[i]);
      }
    } else {
      CalmBlocks(s, t, c);
    }
  }

  predicate OwnBlocks(a: Action) {
    a.DrainOne? || a.ClearOverflow? || a.FlushAll? || a.Install? || a.Stamp? || a.See? || a.Reread? || a.Retire?
  }

  /** Only the CPU's own part changes, and not its stores, nor what it tells. */
  predicate OwnChange(s: State, t: State, c: nat)
    requires c < |s.cpus|
  {
    && |t.cpus| == |s.cpus| && t == s.(cpus := s.cpus[c := t.cpus[c]], epoch := t.epoch) && s.epoch <= t.epoch
    && t.cpus[c].checked == s.cpus[c].checked && t.cpus[c].quiet == s.cpus[c].quiet && t.cpus[c].hit == s.cpus[c].hit
  }

  lemma OwnIs(s: State, a: Action)
    requires Enabled(s, a) && OwnBlocks(a)
    ensures OwnChange(s, Do(s, a), a.c)
  {
    hide Marked, InvalidateWord, Flush;
    match a
    case DrainOne(_) => InvalidateFrame(s.cpus[a.c], s.cpus[a.c].queue[0]);
    case FlushAll(_) => FlushFrame(s.cpus[a.c]);
    case ClearOverflow(_) =>
    case Install(_) =>
    case Stamp(_) =>
    case See(_, _, _) =>
    case Reread(_, _) =>
    case Retire(_) =>
  }

  lemma ChangeCalm(s: State, t: State, c: nat, o: nat)
    requires c < |s.cpus| && o < |s.cpus| && OwnChange(s, t, c)
    requires o != c || t.cpus[c].pc.Flushing? ||
      (!s.cpus[c].pc.Flushing? && t.cpus[c].queue == s.cpus[c].queue && t.cpus[c].overflow == s.cpus[c].overflow)
    ensures CalmFor(s, t, o)
  {
    hide Coming;
    ComingStays(s, t, o);
  }

  /** What a CPU does to its own blocks leaves the others' as they are. */
  lemma OwnCalm(s: State, a: Action, c: nat)
    requires Enabled(s, a) && OwnBlocks(a) && c < |s.cpus| && (c != a.c || (!a.DrainOne? && !a.FlushAll?))
    ensures CalmFor(s, Do(s, a), c)
  {
    hide OwnChange, CalmFor, Marked, InvalidateWord, Flush;
    OwnIs(s, a);
    ChangeCalm(s, Do(s, a), a.c, c);
  }

  lemma OthersOk(s: State, a: Action, c: nat)
    requires Inv(s) && Enabled(s, a) && OwnBlocks(a) && c < |s.cpus| && c != a.c
    ensures CpuBlocks(Do(s, a), c)
  {
    hide Coming, BlkOk, BuildOk, CalmFor, Marked, InvalidateWord, Flush;
    OwnCalm(s, a, c);
    InvBlocks(s, c);
    CalmBlocks(s, Do(s, a), c);
  }

  // -------------------------------------------------------- the own blocks

  /** A block stays right when only its stamp, the CPUs seen, and the fields
      agreed change, each for a reason. */
  lemma Restated(s: State, t: State, c: nat, b: Blk, b': Blk)
    requires c < |s.cpus| && CalmFor(s, t, c) && BlkOk(s, c, b)
    requires b' == b.(stamp := b'.stamp, seen := b'.seen, reread := b'.reread, retired := b'.retired)
    requires forall d: nat | d < |s.cpus| && Passed(t, b', d) && t.cpus[d].checked != {} :: Passed(s, b, d)
    requires forall w | w in b'.reread ::
      (w in b.reread && b'.reread[w] == b.reread[w]) || (w in b.fields && w in s.mem && s.mem[w] == b'.reread[w])
    requires b'.reread != map[] ==> forall d: nat | d < |s.cpus| :: d in b'.seen
    requires b'.retired ==> Settled(b')
    requires (b'.stamp.Some? ==> b'.stamp.value <= t.epoch) && (b'.stamp.None? ==> b'.seen == {} && !b'.retired)
    ensures BlkOk(t, c, b')
  {
    hide Coming, Passed;
    CalmMarked(s, t);
    PassedIn(t, b');
    forall w, d: nat | w in b'.fields && d < |s.cpus| && Passed(t, b', d) && w in t.cpus[d].checked
      ensures Coming(t, c, w)
    {
      assert Passed(s, b, d);
    }
  }

  lemma PassedIn(s: State, b: Blk)
    ensures forall d: nat :: Passed(s, b, d) ==> d < |s.cpus|
  {
  }

  lemma HeadIn(s: State, c: nat)
    requires Inv(s) && c < |s.cpus| && HasHead(s.cpus[c]) && Head(s.cpus[c]).valid
    ensures BlkOk(s, c, Head(s.cpus[c]))
  {
    hide BlkOk, BuildOk, CpuOk;
  }

  /** The one block whose state changes. */
  lemma OneBlock(s: State, a: Action) returns (k: nat, b: Blk)
    requires Inv(s) && Enabled(s, a) && (a.Stamp? || a.See? || a.Reread? || a.Retire?)
    ensures var u := s.cpus[a.c];
      && k < |u.blocks| && Do(s, a).cpus[a.c].blocks == u.blocks[k := b] && b.valid == u.blocks[k].valid
      && (b.valid ==> BlkOk(Do(s, a), a.c, b)) && !Do(s, a).cpus[a.c].pc.Build?
  {
    hide Coming, BuildOk, Marked, BlkOk, CalmFor, Settled;
    var u := s.cpus[a.c];
    k := if a.Stamp? then u.pc.i else if a.See? then a.i else u.pending[0];
    b := Do(s, a).cpus[a.c].blocks[k];
    OwnCalm(s, a, a.c);
    InvBlocks(s, a.c);
    if b.valid {
      if a.Stamp? {
        NotSince(s);
      }
      BlkFacts(s, a.c, u.blocks[k]);
      if !a.Reread? {
        SettledSame(u.blocks[k], b);
      }
      assert a.Reread? || a.Retire? ==> a.c in u.blocks[k].seen;
      Restated(s, Do(s, a), a.c, u.blocks[k], b);
    }
  }

  lemma SettledSame(b: Blk, b': Blk)
    requires b'.order == b.order && b'.fields == b.fields && b'.reread == b.reread
    ensures Settled(b') == Settled(b)
  {
    hide Fold;
  }

  lemma BlkFacts(s: State, c: nat, b: Blk)
    requires c < |s.cpus| && BlkOk(s, c, b)
    ensures b.reread != map[] ==> forall d: nat | d < |s.cpus| :: d in b.seen
    ensures b.retired ==> Settled(b)
    ensures (b.stamp.Some? ==> b.stamp.value <= s.epoch) && (b.stamp.None? ==> b.seen == {} && !b.retired)
  {
    hide Coming, Marked, Passed;
  }

  /** No CPU has come by since the epoch now made. */
  lemma NotSince(s: State)
    requires Inv(s)
    ensures forall d: nat | d < |s.cpus| && QuietSince(s.cpus[d], s.epoch + 1) :: s.cpus[d].checked == {}
  {
    hide Coming, BuildOk, BlkOk;
    forall d: nat | d < |s.cpus| && QuietSince(s.cpus[d], s.epoch + 1)
      ensures s.cpus[d].checked == {}
    {
      assert CpuOk(s, d);
    }
  }

  lemma StateChangeOk(s: State, a: Action)
    requires Inv(s) && Enabled(s, a) && (a.Stamp? || a.See? || a.Reread? || a.Retire?)
    ensures CpuBlocks(Do(s, a), a.c)
  {
    hide Coming, BuildOk, Marked, BlkOk, CalmFor, Settled;
    var k, b := OneBlock(s, a);
    OwnCalm(s, a, a.c);
    InvBlocks(s, a.c);
    var t := Do(s, a);
    NoBuild(t, a.c) by { assert !t.cpus[a.c].pc.Build?; }
    forall i | 0 <= i < |t.cpus[a.c].blocks| && t.cpus[a.c].blocks[i].valid
      ensures BlkOk(t, a.c, t.cpus[a.c].blocks[i])
    {
      if i != k {
        CalmBlk(s, t, a.c, s.cpus[a.c].blocks[i]);
      }
    }
  }

  lemma NoBuild(s: State, c: nat)
    requires c < |s.cpus| && !s.cpus[c].pc.Build?
    ensures BuildOk(s, c)
  {
  }

  lemma InstallOk(s: State, a: Action)
    requires Inv(s) && Enabled(s, a) && a.Install?
    ensures CpuBlocks(Do(s, a), a.c)
  {
    hide Coming, Marked, CalmFor;
    OwnCalm(s, a, a.c);
    InvBlocks(s, a.c);
    var t, u := Do(s, a), s.cpus[a.c];
    forall i | 0 <= i < |t.cpus[a.c].blocks| && t.cpus[a.c].blocks[i].valid
      ensures BlkOk(t, a.c, t.cpus[a.c].blocks[i])
    {
      if i < |u.blocks| {
        CalmBlk(s, t, a.c, u.blocks[i]);
      } else {
        NewBlk(s, t, a.c, u.pc.covers, u.pc.order, u.pc.fields);
      }
    }
  }

  lemma NewBlk(s: State, t: State, c: nat, covers: set<int>, order: seq<int>, fields: map<int, word>)
    requires c < |s.cpus| && CalmFor(s, t, c) && InOrder(order, fields)
    requires forall w | w in fields :: w in covers && w in s.mem && (Marked(s, w) || Coming(s, c, w))
    ensures BlkOk(t, c, Blk(covers, order, fields, true, None, {}, map[], false))
  {
    hide Coming;
  }

  // ------------------------------------------- blocks told of a hit are gone

  /** As CalmFor, but news of w is no longer on its way. */
  ghost predicate CalmBut(s: State, t: State, c: nat, w: int)
    requires c < |s.cpus|
  {
    && |t.cpus| == |s.cpus| && t.mem == s.mem && s.marked <= t.marked && s.pages <= t.pages && s.epoch <= t.epoch
    && (forall v | Coming(s, c, v) && v != w :: Coming(t, c, v))
    && forall d: nat | d < |s.cpus| :: t.cpus[d].checked == s.cpus[d].checked && t.cpus[d].quiet == s.cpus[d].quiet
  }

  lemma ToldBlk(s: State, t: State, c: nat, b: Blk, w: int)
    requires c < |s.cpus| && CalmBut(s, t, c, w) && BlkOk(s, c, b) && w !in b.covers
    ensures BlkOk(t, c, b)
  {
    hide Coming;
    forall v, d: nat | v in b.fields && Passed(t, b, d) && v in t.cpus[d].checked
      ensures Coming(t, c, v)
    {
      assert Passed(s, b, d);
    }
  }

  lemma ToldOk(s: State, t: State, c: nat, w: int)
    requires c < |s.cpus| && CpuBlocks(s, c) && CalmBut(s, t, c, w) && !t.cpus[c].pc.Build?
    requires t.cpus[c].blocks == InvalidateWord(s.cpus[c], w).blocks
    ensures CpuBlocks(t, c)
  {
    hide Coming, Marked, BlkOk, CalmBut, InvalidateWord;
    InvalidateFrame(s.cpus[c], w);
    assert |t.cpus| == |s.cpus| by { CalmButSame(s, t, c, w); }
    NoBuild(t, c);
    forall i | 0 <= i < |t.cpus[c].blocks| && t.cpus[c].blocks[i].valid
      ensures BlkOk(t, c, t.cpus[c].blocks[i])
    {
      ToldBlk(s, t, c, s.cpus[c].blocks[i], w);
    }
  }

  lemma CalmButSame(s: State, t: State, c: nat, w: int)
    requires c < |s.cpus| && CalmBut(s, t, c, w)
    ensures |t.cpus| == |s.cpus|
  {
    hide Coming;
  }

  lemma DrainOk(s: State, a: Action)
    requires Inv(s) && Enabled(s, a) && a.DrainOne?
    ensures CpuBlocks(Do(s, a), a.c)
  {
    hide BuildOk, BlkOk, Marked, InvalidateWord;
    var t, u, c := Do(s, a), s.cpus[a.c], a.c;
    var w := u.queue[0];
    InvalidateFrame(u, w);
    InvBlocks(s, c);
    forall v | Coming(s, c, v) && v != w
      ensures Coming(t, c, v)
    {
      if e: nat :| Telling(s, e, c, v) {
        assert Telling(t, e, c, v);
      }
    }
    ToldOk(s, t, c, w);
  }

  lemma FlushOk(s: State, a: Action)
    requires Inv(s) && Enabled(s, a) && a.FlushAll?
    ensures CpuBlocks(Do(s, a), a.c)
  {
    hide BlkOk, Marked, Flush, Coming;
    FlushFrame(s.cpus[a.c]);
  }

  lemma ClearOverflowOk(s: State, a: Action)
    requires Inv(s) && Enabled(s, a) && a.ClearOverflow?
    ensures CpuBlocks(Do(s, a), a.c)
  {
    hide BlkOk, BuildOk, Marked, Coming, CalmFor;
    var t, c := Do(s, a), a.c;
    OwnCalm(s, a, c);
    InvBlocks(s, c);
    NoBuild(t, c);
    forall i | 0 <= i < |t.cpus[c].blocks| && t.cpus[c].blocks[i].valid
      ensures BlkOk(t, c, t.cpus[c].blocks[i])
    {
      CalmBlk(s, t, c, s.cpus[c].blocks[i]);
    }
  }

  lemma TellOk(s: State, a: Action, c: nat)
    requires Inv(s) && Enabled(s, a) && a.Tell? && c < |s.cpus|
    ensures CpuBlocks(Do(s, a), c)
  {
    hide BlkOk, BuildOk, Marked, InvalidateWord;
    var t, h := Do(s, a), s.cpus[a.c].hit.value;
    var u1 := s.cpus[a.c].(hit := Some(h.(todo := h.todo - {a.d})));
    InvalidateFrame(u1, h.w);
    InvBlocks(s, c);
    InvBlocks(s, a.c);
    if c == a.d == a.c {
      forall v | Coming(s, c, v) && v != h.w
        ensures Coming(t, c, v)
      {
        if e: nat :| Telling(s, e, c, v) {
          assert Telling(t, e, c, v);
        }
      }
      SameInvalid(s.cpus[c], u1, h.w);
      ToldOk(s, t, c, h.w);
    } else {
      forall v | Coming(s, c, v)
        ensures Coming(t, c, v)
      {
        if e: nat :| Telling(s, e, c, v) {
          assert c != a.d || e != a.c ==> Telling(t, e, c, v);
        }
      }
      CalmBlocks(s, t, c);
    }
  }

  lemma SameInvalid(u: CpuState, v: CpuState, w: int)
    requires u.blocks == v.blocks
    ensures InvalidateWord(u, w).blocks == InvalidateWord(v, w).blocks
  {
  }

  // --------------------------------------------------- stores and their hits

  lemma CheckOk(s: State, a: Action, c: nat)
    requires Inv(s) && Enabled(s, a) && a.Check? && c < |s.cpus|
    ensures CpuBlocks(Do(s, a), c)
  {
    hide Coming, BuildOk;
    var t := Do(s, a);
    InvBlocks(s, c);
    ComingStays(s, t, c);
    BuildSame(s, t, c);
    assert !Marked(s, a.w);
    forall i | 0 <= i < |t.cpus[c].blocks| && t.cpus[c].blocks[i].valid
      ensures BlkOk(t, c, t.cpus[c].blocks[i])
    {
      CheckedBlk(s, t, c, s.cpus[c].blocks[i], a.c, a.w);
    }
  }

  /** A store to a word a block depends on only passes its check when news of
      a hit is on its way to it. */
  lemma CheckedBlk(s: State, t: State, c: nat, b: Blk, d: nat, w: int)
    requires c < |s.cpus| == |t.cpus| && d < |s.cpus| && BlkOk(s, c, b) && !Marked(s, w)
    requires t == s.(cpus := s.cpus[d := s.cpus[d].(checked := s.cpus[d].checked + {w})])
    requires forall v | Coming(s, c, v) :: Coming(t, c, v)
    ensures BlkOk(t, c, b)
  {
    hide Coming, Marked;
    forall v | Marked(s, v)
      ensures Marked(t, v)
    {
      CalmMarked(s, t);
    }
    forall v, e: nat | v in b.fields && Passed(t, b, e) && v in t.cpus[e].checked
      ensures Coming(t, c, v)
    {
      assert Passed(s, b, e);
    }
  }

  lemma BuildSame(s: State, t: State, c: nat)
    requires c < |s.cpus| == |t.cpus| && BuildOk(s, c) && t.cpus[c].pc == s.cpus[c].pc && t.mem.Keys == s.mem.Keys
    requires forall v | Coming(s, c, v) :: Coming(t, c, v)
    requires s.pages == t.pages && forall v | v in s.marked :: v in t.marked || Coming(t, c, v)
    ensures BuildOk(t, c)
  {
    hide Coming;
  }

  lemma WriteOk(s: State, a: Action, c: nat)
    requires Inv(s) && Enabled(s, a) && a.Write? && c < |s.cpus|
    ensures CpuBlocks(Do(s, a), c)
  {
    hide Coming, BuildOk;
    var t := Do(s, a);
    InvBlocks(s, c);
    ComingStays(s, t, c);
    BuildSame(s, t, c);
    forall i | 0 <= i < |t.cpus[c].blocks| && t.cpus[c].blocks[i].valid
      ensures BlkOk(t, c, t.cpus[c].blocks[i])
    {
      WrittenBlk(s, t, c, s.cpus[c].blocks[i], a.c, a.w, a.v);
    }
  }

  lemma WrittenBlk(s: State, t: State, c: nat, b: Blk, d: nat, w: int, x: word)
    requires c < |s.cpus| && d < |s.cpus| && BlkOk(s, c, b) && w in s.cpus[d].checked && t == s.(mem := s.mem[w := x])
    requires forall v | Coming(s, c, v) :: Coming(t, c, v)
    ensures BlkOk(t, c, b)
  {
    hide Coming;
    CalmMarked(s, t);
    if w in b.reread {
      assert Passed(s, b, d);
    }
    forall v, e: nat | v in b.fields && Passed(t, b, e) && v in t.cpus[e].checked
      ensures Coming(t, c, v)
    {
      assert Passed(s, b, e);
    }
  }

  lemma ClearBitOk(s: State, a: Action, c: nat)
    requires Inv(s) && Enabled(s, a) && a.ClearBit? && c < |s.cpus|
    ensures CpuBlocks(Do(s, a), c)
  {
    hide Coming, BuildOk;
    var t, w := Do(s, a), s.cpus[a.c].hit.value.w;
    InvBlocks(s, c);
    InvBlocks(s, a.c);
    ComingStays(s, t, c);
    assert IsCpu(c, |s.cpus|);
    assert Telling(t, a.c, c, w);
    NowComing(t, a.c, c, w);
    BuildCleared(s, t, c, w);
    forall i | 0 <= i < |t.cpus[c].blocks| && t.cpus[c].blocks[i].valid
      ensures BlkOk(t, c, t.cpus[c].blocks[i])
    {
      ClearedBlk(s, t, c, s.cpus[c].blocks[i], a.c, w);
    }
  }

  lemma NowComing(s: State, e: nat, c: nat, w: int)
    requires c < |s.cpus| && Telling(s, e, c, w)
    ensures Coming(s, c, w)
  {
  }

  lemma BuildCleared(s: State, t: State, c: nat, w: int)
    requires c < |s.cpus| == |t.cpus| && BuildOk(s, c) && t.cpus[c].pc == s.cpus[c].pc && t.mem == s.mem
    requires (forall v | Coming(s, c, v) :: Coming(t, c, v)) && Coming(t, c, w)
    requires s.pages == t.pages && t.marked == s.marked - {w}
    ensures BuildOk(t, c)
  {
    hide Coming;
  }

  lemma ClearedBlk(s: State, t: State, c: nat, b: Blk, d: nat, w: int)
    requires c < |s.cpus| == |t.cpus| && d < |s.cpus| && BlkOk(s, c, b) && Coming(t, c, w)
    requires t.mem == s.mem && t.marked == s.marked - {w} && t.pages == s.pages && t.epoch == s.epoch
    requires forall e: nat | e < |s.cpus| :: t.cpus[e].quiet == s.cpus[e].quiet && t.cpus[e].checked <= s.cpus[e].checked + {w}
    requires forall v | Coming(s, c, v) :: Coming(t, c, v)
    ensures BlkOk(t, c, b)
  {
    hide Coming;
    forall v, e: nat | v in b.fields && Passed(t, b, e) && v in t.cpus[e].checked
      ensures Coming(t, c, v)
    {
      assert Passed(s, b, e);
    }
  }

  lemma StepKeepsAt(s: State, a: Action, c: nat)
    requires Inv(s) && Enabled(s, a) && c < |s.cpus|
    ensures |Do(s, a).cpus| == |s.cpus| && CpuOk(Do(s, a), c) && CpuBlocks(Do(s, a), c)
  {
    hide BlkOk, BuildOk, CpuOk, Do, Enabled, CpuBlocks;
    CpuKept(s, a, c);
    if Moves(a) {
      MovesOk(s, a, c);
    } else if OwnBlocks(a) && c != a.c {
      OthersOk(s, a, c);
    } else {
      match a
      case DrainOne(_) => DrainOk(s, a);
      case ClearOverflow(_) => ClearOverflowOk(s, a);
      case FlushAll(_) => FlushOk(s, a);
      case Install(_) => InstallOk(s, a);
      case Stamp(_) => StateChangeOk(s, a);
      case See(_, _, _) => StateChangeOk(s, a);
      case Reread(_, _) => StateChangeOk(s, a);
      case Retire(_) => StateChangeOk(s, a);
      case Tell(_, _) => TellOk(s, a, c);
      case Check(_, _, _) => CheckOk(s, a, c);
      case Write(_, _, _) => WriteOk(s, a, c);
      case ClearBit(_) => ClearBitOk(s, a, c);
      case _ => assert false;
    }
  }

  /** Every step keeps the invariant. */
  lemma StepKeeps(s: State, a: Action)
    requires Inv(s) && Enabled(s, a)
    ensures Inv(Do(s, a))
  {
    hide BlkOk, BuildOk, CpuOk, Do;
    var t := Do(s, a);
    StepKeepsAt(s, a, a.c);
    forall c: nat | c < |t.cpus|
      ensures CpuOk(t, c) && CpuBlocks(t, c)
    {
      StepKeepsAt(s, a, c);
    }
  }

  // --------------------------------------------------------------- all runs

  /** Every CPU outside, with no blocks. */
  predicate Initial(s: State) {
    && s.epoch == 1 && s.marked == {} && s.pages == {} && s.dynMap == {}
    && forall c: nat | c < |s.cpus| :: s.cpus[c] == CpuState(Out, None, [], false, {}, [], [], 0, None, None)
  }

  /** The given steps can be taken one after another from s to t. */
  predicate Reaches(s: State, steps: seq<Action>, t: State)
    decreases |steps|
  {
    if steps == [] then s == t
    else Enabled(s, steps[0]) && Reaches(Do(s, steps[0]), steps[1..], t)
  }

  lemma {:induction false} InvReaches(s: State, steps: seq<Action>, t: State)
    requires Inv(s) && Reaches(s, steps, t)
    ensures Inv(t)
    decreases |steps|
  {
    hide Inv, Do, Enabled;
    if steps != [] {
      StepKeeps(s, steps[0]);
      InvReaches(Do(s, steps[0]), steps[1..], t);
    }
  }

  lemma InitialInv(s: State)
    requires Initial(s)
    ensures Inv(s)
  {
  }

  // ------------------------------------------------------- what it comes to

  /** Block i of a CPU has not been checked against memory since it was made. */
  predicate Awaiting(u: CpuState, i: nat) {
    i in u.pending || u.condemned == Some(i) || u.pc == Wait(i)
  }

  /** Blocks not checked yet are awaiting it. */
  predicate AwaitOk(u: CpuState) {
    && (forall k | k in u.pending :: k < |u.blocks|)
    && (u.pc.Wait? ==> u.pc.i < |u.blocks| && u.pc.i !in u.pending)
    && forall i: nat | i < |u.blocks| && u.blocks[i].valid && !u.blocks[i].retired :: Awaiting(u, i)
  }

  lemma AwaitKept(s: State, a: Action, c: nat)
    requires Enabled(s, a) && c < |s.cpus| && AwaitOk(s.cpus[c]) && |Do(s, a).cpus| == |s.cpus|
    ensures AwaitOk(Do(s, a).cpus[c])
  {
    hide Enabled, Do, AwaitOk;
    if a.Tell? {
      AwaitTell(s, a, c);
    } else {
      NotOther(s, a, c);
      if c == a.c {
        if Moves(a) {
          AwaitMoves(s, a);
        } else if a.DrainOne? || a.FlushAll? || a.ClearOverflow? || a.Check? || a.Write? || a.ClearBit? {
          AwaitDrops(s, a);
        } else {
          AwaitOwn(s, a);
        }
      }
    }
  }

  lemma NotOther(s: State, a: Action, c: nat)
    requires Enabled(s, a) && c < |s.cpus| && !a.Tell?
    ensures |Do(s, a).cpus| == |s.cpus| && (c != a.c ==> Do(s, a).cpus[c] == s.cpus[c])
  {
    hide Marked, InvalidateWord, Flush, Grace;
  }

  lemma AwaitTold(u: CpuState, w: int, own: bool, h: Option<Hit>)
    requires AwaitOk(u)
    ensures AwaitOk(Told(u, w, own)) && AwaitOk(Told(u.(hit := h), w, own)) && AwaitOk(u.(hit := h))
  {
    hide InvalidateWord;
    InvalidateFrame(u, w);
    InvalidateFrame(u.(hit := h), w);
  }

  lemma AwaitTell(s: State, a: Action, c: nat)
    requires Enabled(s, a) && c < |s.cpus| && AwaitOk(s.cpus[c]) && a.Tell?
    ensures |Do(s, a).cpus| == |s.cpus| && AwaitOk(Do(s, a).cpus[c])
  {
    hide AwaitOk, Told;
    var h := s.cpus[a.c].hit.value;
    AwaitTold(s.cpus[c], h.w, a.c == a.d, Some(h.(todo := h.todo - {a.d})));
  }

  lemma Popped(q: seq<nat>)
    requires q != []
    ensures forall k :: k in q <==> k == q[0] || k in q[1..]
  {
    assert q == [q[0]] + q[1..];
  }

  lemma AwaitMoves(s: State, a: Action)
    requires Enabled(s, a) && AwaitOk(s.cpus[a.c]) && Moves(a) && |Do(s, a).cpus| == |s.cpus|
    ensures AwaitOk(Do(s, a).cpus[a.c])
  {
    hide Marked, Grace;
    if a.Condemn? {
      assert HasHead(s.cpus[a.c]) by { GraceHead(s.cpus[a.c], |s.cpus|); }
      Popped(s.cpus[a.c].pending);
    }
  }

  lemma GraceHead(u: CpuState, n: nat)
    requires Grace(u, n)
    ensures HasHead(u)
  {
  }

  lemma AwaitDrops(s: State, a: Action)
    requires Enabled(s, a) && AwaitOk(s.cpus[a.c]) && |Do(s, a).cpus| == |s.cpus|
    requires a.DrainOne? || a.FlushAll? || a.ClearOverflow? || a.Check? || a.Write? || a.ClearBit?
    ensures AwaitOk(Do(s, a).cpus[a.c])
  {
    hide InvalidateWord, Flush, Marked;
    if a.DrainOne? {
      InvalidateFrame(s.cpus[a.c], s.cpus[a.c].queue[0]);
    } else if a.FlushAll? {
      FlushFrame(s.cpus[a.c]);
    }
  }

  lemma AwaitOwn(s: State, a: Action)
    requires Enabled(s, a) && AwaitOk(s.cpus[a.c]) && |Do(s, a).cpus| == |s.cpus|
    requires a.Install? || a.Stamp? || a.See? || a.Reread? || a.Retire?
    ensures AwaitOk(Do(s, a).cpus[a.c])
  {
    hide Grace;
    var u := s.cpus[a.c];
    match a
    case Install(_) =>
    case Stamp(_) =>
    case See(_, _, _) =>
    case Reread(_, _) => GraceHead(u, |s.cpus|);
    case Retire(_) =>
      GraceHead(u, |s.cpus|);
      Popped(u.pending);
  }

  lemma {:induction false} AwaitReaches(s: State, steps: seq<Action>, t: State, c: nat)
    requires Inv(s) && Reaches(s, steps, t) && c < |s.cpus| && AwaitOk(s.cpus[c])
    ensures |t.cpus| == |s.cpus| && AwaitOk(t.cpus[c])
    decreases |steps|
  {
    hide Inv, Do, Enabled, AwaitOk;
    if steps != [] {
      StepKeeps(s, steps[0]);
      StepKeepsAt(s, steps[0], c);
      AwaitKept(s, steps[0], c);
      AwaitReaches(Do(s, steps[0]), steps[1..], t, c);
    }
  }

  /** In every state the CPUs can reach, a word that some CPU's valid block was
      translated from still has the value it had then, unless the CPU has yet to
      hear of a hit on it (it is in its queue, the queue overflowed, or some
      CPU is still telling the others), the block has yet to be checked, or the
      word and another one changed before the check to values of the same hash. */
  lemma Staleness(s: State, steps: seq<Action>, t: State, c: nat, i: nat, w: int)
    requires Initial(s) && Reaches(s, steps, t) && c < |t.cpus| && i < |t.cpus[c].blocks|
    requires t.cpus[c].blocks[i].valid && w in t.cpus[c].blocks[i].fields
    ensures
      || (w in t.mem && t.mem[w] == t.cpus[c].blocks[i].fields[w])
      || w in t.cpus[c].queue || t.cpus[c].overflow || t.cpus[c].pc.Flushing?
      || (exists e: nat :: Telling(t, e, c, w))
      || Awaiting(t.cpus[c], i)
      || Collided(t.cpus[c].blocks[i], w)
  {
    hide Initial, Reaches, Marked, Passed, Settled, Collided;
    var b := CheckedBefore(s, steps, t, c, i);
    if b.retired {
      SettledOr(b, w);
    }
  }

  /** When nothing else is left to happen, it has its value exactly if there was
      no such collision. */
  lemma StaleExactly(s: State, steps: seq<Action>, t: State, c: nat, i: nat, w: int)
    requires Initial(s) && Reaches(s, steps, t) && c < |t.cpus| && i < |t.cpus[c].blocks|
    requires t.cpus[c].blocks[i].valid && w in t.cpus[c].blocks[i].fields
    requires !Coming(t, c, w) && !Awaiting(t.cpus[c], i)
    ensures (w in t.mem && t.mem[w] == t.cpus[c].blocks[i].fields[w]) <==> !Collided(t.cpus[c].blocks[i], w)
  {
    hide Initial, Reaches, Marked, Passed, SameHash, Coming;
    var b := CheckedBefore(s, steps, t, c, i);
    SettledOr(b, w);
  }

  lemma CheckedBefore(s: State, steps: seq<Action>, t: State, c: nat, i: nat) returns (b: Blk)
    requires Initial(s) && Reaches(s, steps, t) && c < |t.cpus| && i < |t.cpus[c].blocks| && t.cpus[c].blocks[i].valid
    ensures b == t.cpus[c].blocks[i] && BlkOk(t, c, b) && (b.retired || Awaiting(t.cpus[c], i))
  {
    hide Initial, Reaches, BlkOk, Awaiting;
    InitialInv(s);
    InvReaches(s, steps, t);
    SameCpus(s, steps, t);
    AwaitFirst(s, c);
    AwaitReaches(s, steps, t, c);
    b := t.cpus[c].blocks[i];
  }

  lemma {:induction false} SameCpus(s: State, steps: seq<Action>, t: State)
    requires Inv(s) && Reaches(s, steps, t)
    ensures |t.cpus| == |s.cpus|
    decreases |steps|
  {
    hide Inv, Do, Enabled;
    if steps != [] {
      StepKeeps(s, steps[0]);
      StepKeepsAt(s, steps[0], steps[0].c) by { EnabledCpu(s, steps[0]); }
      SameCpus(Do(s, steps[0]), steps[1..], t);
    }
  }

  lemma EnabledCpu(s: State, a: Action)
    requires Enabled(s, a)
    ensures a.c < |s.cpus|
  {
  }

  lemma AwaitFirst(s: State, c: nat)
    requires Initial(s) && c < |s.cpus|
    ensures AwaitOk(s.cpus[c])
  {
  }

  /** Once every CPU has come by its dispatcher after a block was stamped, none
      can write a word the block depends on, checked before or since, without
      the block's CPU having yet to hear of a hit on it. */
  lemma GracePeriod(s: State, steps: seq<Action>, t: State, c: nat, i: nat, w: int, d: nat)
    requires Initial(s) && Reaches(s, steps, t) && c < |t.cpus| && i < |t.cpus[c].blocks| && d < |t.cpus|
    requires t.cpus[c].blocks[i].valid && w in t.cpus[c].blocks[i].fields && t.cpus[c].blocks[i].stamp.Some?
    requires QuietSince(t.cpus[d], t.cpus[c].blocks[i].stamp.value) && w in t.cpus[d].checked
    ensures Coming(t, c, w)
  {
    hide Initial, Reaches, Marked, Coming;
    InitialInv(s);
    InvReaches(s, steps, t);
    var b := t.cpus[c].blocks[i];
    assert BlkOk(t, c, b);
    assert Passed(t, b, d);
  }
}
