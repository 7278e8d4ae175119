/** The stores a block performs: the interpreter's, in program order, but for
    some that nothing can tell from memory are missing. */
module StoreOrder {
  import opened Options
  import opened Words
  import opened Memory
  import opened Subleq
  import opened X86
  import opened RegCache
  import opened Insn
  import opened InsnProofs
  import opened InsnCorrect
  import opened Blocks
  import opened BlockProofs
  import opened RunProofs

  // ------------------------------------------------- what thinned out means

  /** P is left of T when some are dropped. */
  predicate Subsequence(P: seq<(word, word)>, T: seq<Entry>)
    decreases |T|
  {
    if T == [] then P == []
    else
      var t, rest := T[|T| - 1], T[..|T| - 1];
      Subsequence(P, rest) || (P != [] && P[|P| - 1] == (t.addr, t.now) && Subsequence(P[..|P| - 1], rest))
  }

  lemma {:induction false} FewerStill(P: seq<(word, word)>, T: seq<Entry>)
    requires P != [] && Subsequence(P, T)
    ensures Subsequence(P[..|P| - 1], T)
    decreases |T|
  {
    var t, rest := T[|T| - 1], T[..|T| - 1];
    if Subsequence(P, rest) {
      FewerStill(P, rest);
    }
  }

  lemma {:induction false} ThinIsSubsequence(T: seq<Entry>, L: seq<(word, word)>)
    requires Thin(T, L)
    ensures Subsequence(L, T)
    decreases |T|
  {
    if T != [] {
      var t, rest := T[|T| - 1], T[..|T| - 1];
      if t.now == t.was && Thin(rest, L) {
        ThinIsSubsequence(rest, L);
      } else {
        var P := L[..|L| - 1];
        if Thin(rest, P) {
          ThinIsSubsequence(rest, P);
        } else {
          var v: word :| Thin(rest, P + [(t.addr, v)]);
          ThinIsSubsequence(rest, P + [(t.addr, v)]);
          FewerStill(P + [(t.addr, v)], rest);
          assert (P + [(t.addr, v)])[..|P|] == P;
        }
      }
    }
  }

  /** Memory after the stores of L. */
  function Replay(m: Mem, L: seq<(word, word)>): Mem {
    if L == [] then m else Wr(Replay(m, L[..|L| - 1]), L[|L| - 1].0, L[|L| - 1].1)
  }

  /** What is left makes the same memory. */
  lemma {:induction false} ThinReplays(s: Cpu, n: nat, L: seq<(word, word)>)
    requires Thin(Trace(s, n), L)
    ensures Replay(s.mem, L) == Steps(s, n).mem
    decreases n
  {
    hide Rd, Wr;
    if n > 0 {
      var q, t := Steps(s, n - 1), EntryOf(Steps(s, n - 1));
      assert Trace(s, n)[..n - 1] == Trace(s, n - 1) && Trace(s, n)[n - 1] == t by { TraceLength(s, n - 1); }
      TraceLength(s, n);
      assert Steps(s, n).mem == Wr(q.mem, t.addr, t.now);
      if t.now == t.was && Thin(Trace(s, n - 1), L) {
        ThinReplays(s, n - 1, L);
        WrRd(q.mem, t.addr);
      } else {
        var P := L[..|L| - 1];
        if Thin(Trace(s, n - 1), P) {
          ThinReplays(s, n - 1, P);
        } else {
          var v: word :| Thin(Trace(s, n - 1), P + [(t.addr, v)]);
          ThinReplays(s, n - 1, P + [(t.addr, v)]);
          assert (P + [(t.addr, v)])[..|P|] == P;
          WrWrSame(Replay(s.mem, P), t.addr, v, t.now);
        }
      }
    }
  }

  lemma {:induction false} TraceLength(s: Cpu, n: nat)
    ensures |Trace(s, n)| == n
  {
    hide EntryOf, Steps;
    if n > 0 {
      TraceLength(s, n - 1);
    }
  }

  // ------------------------------------------------------------- of a block

  /** The stores of a block's body run from m0, those on its way out included. */
  function BodyLog(b: Block, m0: Machine): seq<(word, word)> {
    match Run(b.code, m0)
    case Go(m) => m.log
    case Left(Smc(k), m) =>
      if k < |b.smcs| then MemAfter(StubStore(b.smcs[k].pend, -1, b.movbe), m).log else m.log
    case Left(Stub(k), m) =>
      if k < |b.stubs| then
        MemAfter(StubStore(b.stubs[k].pend, if b.stubs[k].dyn then b.stubs[k].creg else -1, b.movbe), m).log
      else m.log
  }

  /** A block's body performs the stores of as many steps as it takes from the
      budget, in their order: those missing change nothing, or come right before
      another one performed to the same word. */
  lemma StoresInOrder(b: Block, w: World, mem: Mem, x: Context)
    requires Made(b, w) && b.start + 24 * b.n < TWO64 && BakedHold(b, mem, x.marks) && MarksIn(x.marks, w.memSize)
    requires !HoistMarked(b, x.marks) && SafeFor(Cpu(mem, b.start), b.n, w.memSize)
    ensures var left := RunBody(b, mem, 0, x).budget;
      0 <= left <= b.n && Thin(Trace(Cpu(mem, b.start), b.n - left), BodyLog(b, Machine(x.regs, x.fl, mem, x.marks, [])))
  {
    hide Rd, Wr, Run, Steps, MarksKept, Stored, Unmarked, StubStore, Translated, Harmless, BakedHold, MarksIn, SafeFor;
    hide HoistMarked, Thin, Trace, LoggedAt;
    var m0 := Machine(x.regs, x.fl, mem, x.marks, []);
    BodyLeaves(b, w, m0);
    match Run(b.code, m0)
    case Left(Smc(k), m) =>
      StubStoreOk(b.smcs[k].pend, -1, b.movbe, m, Steps(Cpu(mem, b.start), b.smcs[k].idx).mem);
    case Left(Stub(k), m) =>
      var r := b.stubs[k];
      StubStoreOk(r.pend, if r.dyn then r.creg else -1, b.movbe, m, Steps(Cpu(mem, b.start), r.idx + 1).mem);
  }
}
