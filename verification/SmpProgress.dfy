/** Several CPUs never wait for each other in a circle: when the rings of new
    blocks are full, the CPU whose dispatcher came by first goes on. */
module SmpProgress {
  import opened Options
  import opened Words
  import opened Hash
  import opened Smp

  /** The new blocks waiting, but for the last n, were stamped by epoch e. */
  predicate StampedBy(u: CpuState, n: nat, e: nat) {
    forall k | 0 <= k < |u.pending| - n ::
      u.pending[k] < |u.blocks| && u.blocks[u.pending[k]].stamp.Some? && u.blocks[u.pending[k]].stamp.value <= e
  }

  predicate HasField(b: Blk) { exists w :: w in b.fields }

  /** The new blocks wait in order; those made before the CPU last came by its
      dispatcher are no newer than the epoch it said. */
  predicate RingOk(u: CpuState, epoch: nat) {
    && |u.pending| <= PENDING_CAP && u.made <= 2 && (u.pc.Build? || u.pc.Wait? ==> u.made <= 1)
    && (u.pc.Wait? ==> u.pc.i < |u.blocks| && u.pc.i !in u.pending)
    && StampedBy(u, 0, epoch)
    && (u.pc.Loaded? ==> u.pc.e <= epoch && StampedBy(u, 0, u.pc.e))
    && (!u.pc.Loaded? && u.quiet.Some? ==> u.quiet.value <= epoch && StampedBy(u, u.made, u.quiet.value))
    && (u.quiet.None? ==> u.pc.Out? || u.pc.Loaded?)
    && (u.hit.Some? ==> u.pc.Running? || u.pc.Wait?)
    && (u.hit.Some? && u.pc.Wait? ==> u.condemned.Some?)
    && (u.condemned.Some? ==>
          && (u.pc.Running? || u.pc.Wait?) && u.condemned.value < |u.blocks| && HasField(u.blocks[u.condemned.value])
          && |u.pending| < PENDING_CAP)
  }

  /** Blocks only ever change in ways that do not matter to the ring. */
  lemma SameRing(u: CpuState, v: CpuState, epoch: nat, epoch': nat)
    requires RingOk(u, epoch) && epoch <= epoch'
    requires v == u.(blocks := v.blocks, queue := v.queue, overflow := v.overflow, checked := v.checked)
    requires |v.blocks| == |u.blocks|
    requires forall i | 0 <= i < |u.blocks| :: v.blocks[i].stamp == u.blocks[i].stamp && v.blocks[i].fields == u.blocks[i].fields
    ensures RingOk(v, epoch')
  {
  }

  lemma ToldRing(u: CpuState, epoch: nat, epoch': nat, w: int, own: bool)
    requires RingOk(u, epoch) && epoch <= epoch'
    ensures RingOk(Told(u, w, own), epoch') && RingOk(InvalidateWord(u, w), epoch') && RingOk(u, epoch')
  {
    hide RingOk, InvalidateWord;
    InvalidateFrame(u, w);
    SameRing(u, InvalidateWord(u, w), epoch, epoch');
    SameRing(u, u, epoch, epoch');
    SameRing(u, u.(queue := u.queue + [w]), epoch, epoch');
    SameRing(u, u.(overflow := true), epoch, epoch');
  }

  lemma BlockRing(u: CpuState, i: nat, b: Blk, epoch: nat)
    requires RingOk(u, epoch) && i < |u.blocks| && b.stamp == u.blocks[i].stamp && b.fields == u.blocks[i].fields
    ensures RingOk(u.(blocks := u.blocks[i := b]), epoch)
  {
    hide RingOk;
    SameRing(u, u.(blocks := u.blocks[i := b]), epoch, epoch);
  }

  lemma PopRing(u: CpuState, epoch: nat)
    requires RingOk(u, epoch) && u.pending != []
    ensures RingOk(u.(pending := u.pending[1..]), epoch)
  {
    var v := u.(pending := u.pending[1..]);
    assert forall k | 0 <= k < |v.pending| :: v.pending[k] == u.pending[k + 1];
  }

  lemma InstallRing(u: CpuState, b: Blk, epoch: nat)
    requires RingOk(u, epoch) && u.pc.Build?
    ensures RingOk(u.(pc := Wait(|u.blocks|), blocks := u.blocks + [b]), epoch)
  {
    var v := u.(pc := Wait(|u.blocks|), blocks := u.blocks + [b]);
    assert forall k | 0 <= k < |u.pending| :: v.blocks[u.pending[k]] == u.blocks[u.pending[k]];
  }

  lemma StampRing(u: CpuState, epoch: nat)
    requires RingOk(u, epoch) && u.pc.Wait? && u.pc.i < |u.blocks| && |u.pending| < PENDING_CAP && Free(u)
    ensures RingOk(u.(pc := Running, blocks := u.blocks[u.pc.i := u.blocks[u.pc.i].(stamp := Some(epoch + 1))],
                      pending := u.pending + [u.pc.i], made := u.made + 1), epoch + 1)
  {
  }

  lemma FlushRing(u: CpuState, epoch: nat)
    requires RingOk(u, epoch) && (u.pc.Flushing? || u.pc.Running?) && (u.condemned.None?)
    ensures RingOk(Flush(u).(pc := Running), epoch)
  {
  }

  lemma PublishRing(s: State, a: Action)
    requires Enabled(s, a) && RingOk(s.cpus[a.c], s.epoch) && (a.LoadEpoch? || a.Publish?)
    ensures RingOk(Do(s, a).cpus[a.c], s.epoch)
  {
    hide Marked, InvalidateWord, Flush;
    var u := Do(s, a).cpus[a.c];
    assert a.Publish? ==> StampedBy(u, 0, u.quiet.value);
  }

  lemma DispatchRing(s: State, a: Action)
    requires Enabled(s, a) && RingOk(s.cpus[a.c], s.epoch)
    requires a.DrainDone? || a.ClearOverflow?
    ensures RingOk(Do(s, a).cpus[a.c], s.epoch)
  {
    hide Marked, InvalidateWord, Flush;
  }

  lemma HitStepRing(s: State, a: Action)
    requires Enabled(s, a) && RingOk(s.cpus[a.c], s.epoch)
    requires a.Leave? || a.EndHit? || a.ClearBit? || a.StartHit?
    ensures RingOk(Do(s, a).cpus[a.c], s.epoch)
  {
    hide Marked, InvalidateWord, Flush;
  }

  lemma BuildRing(s: State, a: Action)
    requires Enabled(s, a) && RingOk(s.cpus[a.c], s.epoch)
    requires a.Check? || a.Write? || a.StartBuild? || a.ReadField? || a.SkipDynamic? || a.SetBit? || a.SetPages? || a.EndCondemn?
    ensures RingOk(Do(s, a).cpus[a.c], s.epoch)
  {
    hide Marked, InvalidateWord, Flush;
  }

  lemma CondemnedRing(u: CpuState, epoch: nat, i: nat)
    requires RingOk(u, epoch) && (u.pc.Running? || u.pc.Wait?) && i < |u.blocks| && HasField(u.blocks[i])
    requires |u.pending| < PENDING_CAP
    ensures RingOk(u.(condemned := Some(i)), epoch)
  {
  }

  lemma RingRoom(u: CpuState, epoch: nat)
    requires RingOk(u, epoch)
    ensures |u.pending| <= PENDING_CAP && (Stuck(u) ==> Free(u))
  {
  }

  /** A hash that is not the same is of some field. */
  lemma ChangedField(b: Blk)
    requires AllReread(b) && !SameHash(b)
    ensures HasField(b)
  {
    hide Fold;
    if b.order != [] {
      var w := b.order[0];
      assert w in b.fields;
      assert HasField(b);
    }
  }

  lemma CondemnRing(s: State, a: Action)
    requires Enabled(s, a) && RingOk(s.cpus[a.c], s.epoch) && a.Condemn?
    ensures RingOk(Do(s, a).cpus[a.c], s.epoch)
  {
    hide Marked, InvalidateWord, Flush, RingOk;
    var u := s.cpus[a.c];
    PopRing(u, s.epoch);
    assert |u.pending| <= PENDING_CAP by { RingRoom(u, s.epoch); }
    ChangedField(Head(u));
    CondemnedRing(u.(pending := u.pending[1..]), s.epoch, u.pending[0]);
  }

  lemma BlocksRing(s: State, a: Action)
    requires Enabled(s, a) && RingOk(s.cpus[a.c], s.epoch) && (a.Install? || a.Stamp? || a.DrainOne? || a.FlushAll?)
    ensures RingOk(Do(s, a).cpus[a.c], Do(s, a).epoch)
  {
    hide RingOk, Marked, InvalidateWord, Flush;
    var u := s.cpus[a.c];
    match a
    case DrainOne(_) =>
      ToldRing(u, s.epoch, s.epoch, u.queue[0], true);
      InvalidateFrame(u, u.queue[0]);
      QueueRing(InvalidateWord(u, u.queue[0]), s.epoch, u.queue[1..]);
    case FlushAll(_) =>
      NotCondemned(s, a);
      FlushRing(u, s.epoch);
    case Install(_) => InstallRing(u, Blk(u.pc.covers, u.pc.order, u.pc.fields, true, None, {}, map[], false), s.epoch);
    case Stamp(_) => StampRing(u, s.epoch);
  }

  lemma PendingRing(s: State, a: Action)
    requires Enabled(s, a) && RingOk(s.cpus[a.c], s.epoch) && (a.See? || a.Reread? || a.Retire?)
    ensures RingOk(Do(s, a).cpus[a.c], Do(s, a).epoch)
  {
    hide RingOk, Marked, InvalidateWord, Flush;
    var u := s.cpus[a.c];
    match a
    case See(_, i, d) => BlockRing(u, i, u.blocks[i].(seen := u.blocks[i].seen + {d}), s.epoch);
    case Reread(_, w) => BlockRing(u, u.pending[0], Head(u).(reread := Head(u).reread[w := s.mem[w]]), s.epoch);
    case Retire(_) =>
      BlockRing(u, u.pending[0], Head(u).(retired := true), s.epoch);
      PopRing(WithHead(u, Head(u).(retired := true)), s.epoch);
  }

  lemma RingOwn(s: State, a: Action)
    requires Enabled(s, a) && RingOk(s.cpus[a.c], s.epoch) && !a.Tell?
    ensures RingOk(Do(s, a).cpus[a.c], Do(s, a).epoch)
  {
    hide *;
    if a.Install? || a.Stamp? || a.DrainOne? || a.FlushAll? {
      BlocksRing(s, a);
    } else if a.See? || a.Reread? || a.Retire? {
      PendingRing(s, a);
    } else {
      SameEpoch(s, a);
      if a.Condemn? {
        CondemnRing(s, a);
      } else if a.LoadEpoch? || a.Publish? {
        PublishRing(s, a);
      } else if a.DrainDone? || a.ClearOverflow? {
        DispatchRing(s, a);
      } else if a.Leave? || a.EndHit? || a.ClearBit? || a.StartHit? {
        HitStepRing(s, a);
      } else {
        BuildRing(s, a);
      }
    }
  }

  lemma SameEpoch(s: State, a: Action)
    requires Enabled(s, a) && !a.Stamp?
    ensures Do(s, a).epoch == s.epoch
  {
    hide Marked, InvalidateWord, Flush;
  }

  lemma QueueRing(u: CpuState, epoch: nat, q: seq<int>)
    requires RingOk(u, epoch)
    ensures RingOk(u.(queue := q), epoch)
  {
  }

  lemma HitRing(u: CpuState, epoch: nat, h: Option<Hit>)
    requires RingOk(u, epoch) && u.hit.Some?
    ensures RingOk(u.(hit := h), epoch)
  {
  }

  lemma RingKept(s: State, a: Action, c: nat)
    requires Enabled(s, a) && c < |s.cpus| && RingOk(s.cpus[c], s.epoch) && RingOk(s.cpus[a.c], s.epoch)
    ensures |Do(s, a).cpus| == |s.cpus| && RingOk(Do(s, a).cpus[c], Do(s, a).epoch)
  {
    hide RingOk, Marked, InvalidateWord, Flush;
    var u := s.cpus[c];
    SameRing(u, u, s.epoch, Do(s, a).epoch);
    if a.Tell? {
      var h := s.cpus[a.c].hit.value;
      var u1 := s.cpus[a.c].(hit := Some(h.(todo := h.todo - {a.d})));
      HitRing(s.cpus[a.c], s.epoch, u1.hit);
      ToldRing(u, s.epoch, s.epoch, h.w, c == a.c);
      ToldRing(u1, s.epoch, s.epoch, h.w, a.c == a.d);
    } else if c == a.c {
      RingOwn(s, a);
    }
  }

  lemma NotCondemned(s: State, a: Action)
    requires Enabled(s, a) && a.FlushAll? && RingOk(s.cpus[a.c], s.epoch)
    ensures s.cpus[a.c].condemned.None?
  {
  }

  // -------------------------------------------------------------- all states

  ghost predicate RingsOk(s: State) { forall c: nat | c < |s.cpus| :: RingOk(s.cpus[c], s.epoch) }

  lemma {:induction false} RingsReach(s: State, steps: seq<Action>, t: State)
    requires Reaches(s, steps, t) && RingsOk(s)
    ensures RingsOk(t)
    decreases |steps|
  {
    hide Do, Enabled, RingOk;
    if steps != [] {
      var a := steps[0];
      EnabledCpu(s, a);
      RingKept(s, a, a.c);
      forall c: nat | c < |s.cpus|
        ensures RingOk(Do(s, a).cpus[c], Do(s, a).epoch)
      {
        RingKept(s, a, c);
      }
      RingsReach(Do(s, a), steps[1..], t);
    }
  }

  /** A CPU waits for room among its new blocks. */
  predicate Stuck(u: CpuState) { u.pc.Wait? && |u.pending| == PENDING_CAP }

  /** c is inside, and came by its dispatcher no later than any other. */
  predicate Least(s: State, c: nat) {
    c < |s.cpus| && s.cpus[c].quiet.Some? && forall d: nat | d < |s.cpus| :: QuietSince(s.cpus[d], s.cpus[c].quiet.value)
  }

  lemma {:induction false} SomeLeast(s: State, n: nat, c: nat) returns (m: nat)
    requires c < n <= |s.cpus| && s.cpus[c].quiet.Some?
    ensures m < n && s.cpus[m].quiet.Some? && forall d: nat | d < n :: QuietSince(s.cpus[d], s.cpus[m].quiet.value)
    decreases n
  {
    var rest := n - 1;
    if forall d: nat | d < rest :: s.cpus[d].quiet.None? {
      m := c;
    } else {
      var d: nat :| d < rest && s.cpus[d].quiet.Some?;
      m := SomeLeast(s, rest, d);
      if s.cpus[rest].quiet.Some? && s.cpus[rest].quiet.value < s.cpus[m].quiet.value {
        m := rest;
      }
    }
  }

  /** Waiting for room, with nothing to tell and no block to drop, and the least
      to have come by: every CPU has come by since the oldest block was made. */
  lemma OldestPassed(s: State, steps: seq<Action>, t: State, c: nat)
    requires Initial(s) && Reaches(s, steps, t) && Least(t, c) && Stuck(t.cpus[c])
    ensures HasHead(t.cpus[c]) && Head(t.cpus[c]).stamp.Some?
    ensures forall d: nat | d < |t.cpus| :: QuietSince(t.cpus[d], Head(t.cpus[c]).stamp.value)
  {
    hide Initial, Reaches;
    InitialRings(s);
    RingsReach(s, steps, t);
    assert RingOk(t.cpus[c], t.epoch);
  }

  lemma InitialRings(s: State)
    requires Initial(s)
    ensures RingsOk(s)
  {
  }

  /** Something CPU c can do that changes its state. */
  ghost predicate CanMove(s: State, c: nat) { exists a: Action :: a.c == c && Enabled(s, a) && Do(s, a) != s }

  lemma Moved(s: State, a: Action)
    requires Enabled(s, a) && Do(s, a) != s
    ensures CanMove(s, a.c)
  {
    hide Enabled, Do;
  }

  /** How far a CPU is from being done with its oldest pending block: the CPUs
      it has not seen and the fields it has not read again. */
  ghost function ToCheck(u: CpuState, n: nat): nat
    requires HasHead(u)
  {
    |AllCpus(n) - Head(u).seen| + |Head(u).fields.Keys - Head(u).reread.Keys|
  }

  /** c waits for room, and every CPU has come by since its oldest block. */
  ghost predicate Waits(s: State, c: nat) {
    && c < |s.cpus| && Stuck(s.cpus[c]) && HasHead(s.cpus[c]) && Head(s.cpus[c]).stamp.Some?
    && forall d: nat | d < |s.cpus| :: QuietSince(s.cpus[d], Head(s.cpus[c]).stamp.value)
  }

  /** Such a CPU is rid of the block, or closer to it, with its next step. */
  ghost predicate Closer(s: State, c: nat, t: State) {
    && c < |s.cpus| == |t.cpus| && HasHead(s.cpus[c])
    && ((t.cpus[c].pc.Wait? && |t.cpus[c].pending| == |s.cpus[c].pending| - 1)
        || (Waits(t, c) && ToCheck(t.cpus[c], |t.cpus|) < ToCheck(s.cpus[c], |s.cpus|)))
  }

  lemma StuckStep(s: State, c: nat) returns (a: Action)
    requires Inv(s) && RingsOk(s) && Waits(s, c)
    ensures a.c == c && Enabled(s, a) && Closer(s, c, Do(s, a))
  {
    hide BuildOk, CpuOk, Marked, Coming, Passed, RingOk, Settled, BlkOk, ToCheck, SameHash;
    var u := s.cpus[c];
    var b := Head(u);
    assert Free(u) by { assert RingOk(u, s.epoch); RingRoom(u, s.epoch); }
    if d: nat :| d < |s.cpus| && d !in b.seen {
      a := See(c, u.pending[0], d);
      SeeLess(u, |s.cpus|, d);
    } else if !b.valid {
      a := Retire(c);
    } else {
      HeadIn(s, c);
      HeadFields(s, c, b);
      if b.retired || Settled(b) {
        a := Retire(c);
      } else if w :| w in b.fields && w !in b.reread {
        a := Reread(c, w);
        RereadLess(u, |s.cpus|, w, s.mem[w]);
      } else {
        a := Condemn(c);
        assert AllReread(b) && !SameHash(b) by { NotSettled(b); }
      }
    }
  }

  lemma HeadFields(s: State, c: nat, b: Blk)
    requires c < |s.cpus| && BlkOk(s, c, b)
    ensures (forall w | w in b.fields :: w in s.mem) && InOrder(b.order, b.fields) && (b.retired ==> Settled(b))
  {
    hide Coming, Marked, Passed, Settled;
  }

  lemma NotSettled(b: Blk)
    requires InOrder(b.order, b.fields) && !Settled(b) && forall w | w in b.fields :: w in b.reread
    ensures AllReread(b) && !SameHash(b)
  {
    hide SameHash;
    forall i | 0 <= i < |b.order|
      ensures b.order[i] in b.fields && b.order[i] in b.reread
    {
      assert b.order[i] in b.order;
    }
  }

  lemma SeeLess(u: CpuState, n: nat, d: nat)
    requires HasHead(u) && d < n && d !in Head(u).seen
    ensures ToCheck(WithHead(u, Head(u).(seen := Head(u).seen + {d})), n) < ToCheck(u, n)
  {
    var v := WithHead(u, Head(u).(seen := Head(u).seen + {d}));
    assert IsCpu(d, n);
    assert AllCpus(n) - Head(v).seen == AllCpus(n) - Head(u).seen - {d};
  }

  lemma RereadLess(u: CpuState, n: nat, w: int, x: word)
    requires HasHead(u) && w in Head(u).fields && w !in Head(u).reread
    ensures ToCheck(WithHead(u, Head(u).(reread := Head(u).reread[w := x])), n) < ToCheck(u, n)
  {
    var v := WithHead(u, Head(u).(reread := Head(u).reread[w := x]));
    assert Head(v).fields.Keys - Head(v).reread.Keys == Head(u).fields.Keys - Head(u).reread.Keys - {w};
  }

  /** So it gets room by that many of its own steps. */
  lemma {:induction false} RoomByItself(s: State, c: nat) returns (more: seq<Action>, t: State)
    requires Inv(s) && RingsOk(s) && Waits(s, c)
    ensures Reaches(s, more, t) && (forall k | 0 <= k < |more| :: more[k].c == c)
    ensures 0 < |more| <= ToCheck(s.cpus[c], |s.cpus|) + 1
    ensures c < |t.cpus| && t.cpus[c].pc.Wait? && |t.cpus[c].pending| == PENDING_CAP - 1
    decreases ToCheck(s.cpus[c], |s.cpus|)
  {
    hide Inv, RingsOk, ToCheck, Enabled, Do;
    var a := StuckStep(s, c);
    var s1 := Do(s, a);
    more, t := [a], s1;
    if Waits(s1, c) {
      StepKeeps(s, a);
      assert Reaches(s, [a], s1);
      RingsReach(s, [a], s1);
      var rest;
      rest, t := RoomByItself(s1, c);
      more := [a] + rest;
    }
    assert more[1..] == if Waits(s1, c) then more[1..] else [];
  }

  /** The others' steps do not set it back. */
  lemma OthersDoNot(s: State, a: Action, c: nat)
    requires Enabled(s, a) && c < |s.cpus| && a.c != c && HasHead(s.cpus[c])
    ensures var u := Do(s, a).cpus[c];
      u.pc == s.cpus[c].pc && u.pending == s.cpus[c].pending && HasHead(u) && ToCheck(u, |Do(s, a).cpus|) == ToCheck(s.cpus[c], |s.cpus|)
  {
    hide ToCheck, InvalidateWord, Marked, Flush;
    if a.Tell? {
      var h := s.cpus[a.c].hit.value;
      SameToCheck(s.cpus[c], Do(s, a).cpus[c], |s.cpus|);
    } else {
      NotOther(s, a, c);
    }
  }

  lemma SameToCheck(u: CpuState, v: CpuState, n: nat)
    requires HasHead(u) && v.pending == u.pending && v.blocks == u.blocks
    ensures HasHead(v) && ToCheck(v, n) == ToCheck(u, n)
  {
  }

  lemma StuckMoves(s: State, c: nat)
    requires Inv(s) && RingsOk(s) && Waits(s, c)
    ensures CanMove(s, c)
  {
    hide Inv, RingsOk, Enabled, Do;
    var a := StuckStep(s, c);
    Moved(s, a);
  }

  lemma HitMoves(s: State, c: nat)
    requires Inv(s) && RingsOk(s) && c < |s.cpus| && s.cpus[c].hit.Some?
    ensures CanMove(s, c)
  {
    hide BuildOk, BlkOk, Marked, RingOk, InvalidateWord;
    assert CpuOk(s, c);
    var h := s.cpus[c].hit.value;
    if !h.cleared {
      assert Do(s, ClearBit(c)).cpus[c].hit.value.cleared;
      Moved(s, ClearBit(c));
    } else if h.todo == {} {
      assert Do(s, EndHit(c)).cpus[c].hit.None?;
      Moved(s, EndHit(c));
    } else {
      var d :| d in h.todo;
      TellMoves(s, c, d);
    }
  }

  lemma TellMoves(s: State, c: nat, d: nat)
    requires Enabled(s, Tell(c, d))
    ensures CanMove(s, c)
  {
    hide InvalidateWord;
    var h := s.cpus[c].hit.value;
    var u1 := s.cpus[c].(hit := Some(h.(todo := h.todo - {d})));
    InvalidateFrame(u1, h.w);
    assert d !in Do(s, Tell(c, d)).cpus[c].hit.value.todo;
    Moved(s, Tell(c, d));
  }

  lemma CondemnedMoves(s: State, c: nat)
    requires Inv(s) && RingsOk(s) && c < |s.cpus| && s.cpus[c].hit.None? && s.cpus[c].condemned.Some?
    ensures CanMove(s, c)
  {
    hide BuildOk, BlkOk, CpuOk, Marked, StampedBy;
    assert RingOk(s.cpus[c], s.epoch);
    var u := s.cpus[c];
    var i := u.condemned.value;
    if u.blocks[i].valid {
      var w :| w in u.blocks[i].fields;
      assert Do(s, StartHit(c, w)).cpus[c].hit.Some?;
      Moved(s, StartHit(c, w));
    } else {
      assert Do(s, EndCondemn(c)).cpus[c].condemned.None?;
      Moved(s, EndCondemn(c));
    }
  }

  lemma OtherMoves(s: State, c: nat)
    requires Inv(s) && RingsOk(s) && c < |s.cpus| && Free(s.cpus[c]) && !Stuck(s.cpus[c])
    ensures CanMove(s, c)
  {
    hide BuildOk, BlkOk, CpuOk, Marked, InvalidateWord, Flush, StampedBy;
    assert RingOk(s.cpus[c], s.epoch);
    var u := s.cpus[c];
    match u.pc
    case Out =>
      assert Do(s, LoadEpoch(c)).cpus[c].pc.Loaded?;
      Moved(s, LoadEpoch(c));
    case Running =>
      assert Do(s, LoadEpoch(c)).cpus[c].pc.Loaded?;
      Moved(s, LoadEpoch(c));
    case Loaded(_) =>
      assert Do(s, Publish(c)).cpus[c].pc.Drain?;
      Moved(s, Publish(c));
    case Drain =>
      if u.queue == [] {
        assert Do(s, DrainDone(c)).cpus[c].pc.Running?;
        Moved(s, DrainDone(c));
      } else {
        assert |Do(s, DrainOne(c)).cpus[c].queue| == |u.queue| - 1;
        Moved(s, DrainOne(c));
      }
    case Flushing =>
      assert Do(s, FlushAll(c)).cpus[c].pc.Running?;
      Moved(s, FlushAll(c));
    case Build(_, _, _, _, _) => BuildMoves(s, c);
    case Wait(_) =>
      assert |u.pending| < PENDING_CAP;
      assert Do(s, Stamp(c)).epoch == s.epoch + 1;
      Moved(s, Stamp(c));
  }

  lemma BuildMoves(s: State, c: nat)
    requires c < |s.cpus| && s.cpus[c].pc.Build?
    ensures CanMove(s, c)
  {
    hide Marked;
    match s.cpus[c].pc.cur
    case NoField =>
      var read := s.cpus[c].pc.read;
      if exists w :: w in read.Keys {
        var w :| w in read.Keys;
        assert Do(s, SetBit(c, w)).cpus[c].pc.cur.BitSet?;
        Moved(s, SetBit(c, w));
      } else {
        assert read.Keys == {};
        assert read == map[];
        assert Do(s, Install(c)).cpus[c].pc.Wait?;
        Moved(s, Install(c));
      }
    case BitSet(_, _) =>
      assert Do(s, SetPages(c)).cpus[c].pc.cur.NoField?;
      Moved(s, SetPages(c));
  }

  /** In every state the CPUs can reach, the CPU inside that came by its
      dispatcher first can go on by itself, even if the ring of its new blocks
      is full: no CPUs wait for each other. */
  lemma NoDeadlock(s: State, steps: seq<Action>, t: State, c: nat)
    requires Initial(s) && Reaches(s, steps, t) && Least(t, c)
    ensures CanMove(t, c)
  {
    hide Initial, Reaches, CanMove, Inv, RingsOk, Least, Stuck;
    InitialInv(s);
    InvReaches(s, steps, t);
    InitialRings(s);
    RingsReach(s, steps, t);
    assert c < |t.cpus| by { LeastIn(t, c); }
    if t.cpus[c].hit.Some? {
      HitMoves(t, c);
    } else if t.cpus[c].condemned.Some? {
      CondemnedMoves(t, c);
    } else if Stuck(t.cpus[c]) {
      OldestPassed(s, steps, t, c);
      StuckMoves(t, c);
    } else {
      OtherMoves(t, c);
    }
  }

  /** When it waits for room, it gets some, with no more steps than there are
      CPUs and fields of the oldest block, and one. */
  lemma GetsRoom(s: State, steps: seq<Action>, t: State, c: nat) returns (more: seq<Action>, t': State)
    requires Initial(s) && Reaches(s, steps, t) && Least(t, c) && Stuck(t.cpus[c])
    ensures Reaches(t, more, t') && (forall k | 0 <= k < |more| :: more[k].c == c)
    ensures HasHead(t.cpus[c]) && |more| <= ToCheck(t.cpus[c], |t.cpus|) + 1
    ensures c < |t'.cpus| && t'.cpus[c].pc.Wait? && |t'.cpus[c].pending| < PENDING_CAP
  {
    hide Initial, Reaches, Inv, RingsOk, Least, Stuck, ToCheck;
    InitialInv(s);
    InvReaches(s, steps, t);
    InitialRings(s);
    RingsReach(s, steps, t);
    OldestPassed(s, steps, t, c);
    LeastIn(t, c);
    more, t' := RoomByItself(t, c);
  }

  lemma LeastIn(s: State, c: nat)
    requires Least(s, c)
    ensures c < |s.cpus|
  {
  }
}
