/** Translating a run of instructions into a block, and running the block. */
module Blocks {
  import opened Options
  import opened Words
  import opened Memory
  import opened X86
  import opened RegCache
  import opened Operands
  import opened Insn
  import opened CopyLoop

  const MAX_BLOCK: nat := 64

  /** What a translation starts from: memory, the words caught being written,
      where other blocks start, the size of memory, and the cache's counters,
      which go on from block to block. */
  datatype World = World(mem: Mem, dynMap: set<int>, starts: set<word>, memSize: int, movbe: bool, turns: Turns)

  /** A block: the n instructions from start. The words it stores to through
      static addresses are checked on entry; its code leaves by checks (smcs)
      or branches (stubs). Static fields hold the values baked. */
  datatype Block = Block(
    start: word, n: nat, hoist: seq<int>, code: seq<Op>, stubs: seq<StubRec>, smcs: seq<SmcRec>,
    baked: map<word, word>, copy: Option<Desc>, movbe: bool)

  // ------------------------------------------------------------ the extent

  /** The words of the block's range that a store to b touches; at the end of
      the address space there are none. */
  function TouchedIn(b: word, start: word): set<int> {
    set w | w in {b / 8, Add(b, 7) / 8} && b + 8 < TWO64 && start <= 8 * w < start + 24 * MAX_BLOCK
  }

  /** Where a block that has reached its i-th instruction ends, and the words of its
      own range that static store addresses touch; nothing is added to a copy loop.
      */
  function Extent(w: World, start: word, copy: bool, i: nat): (r: (nat, set<int>))
    requires i <= Limit(copy) && w.memSize <= 0x4000_0000_0000_0000
    ensures i <= r.0 <= Limit(copy) && (r.0 > i ==> start + 24 * r.0 <= w.memSize)
    ensures start + 24 * (i + 1) <= w.memSize && i == 0 ==> r.0 > 0
    decreases Limit(copy) - i
  {
    if i == Limit(copy) || start + 24 * (i + 1) > w.memSize || (i > 0 && !copy && start + 24 * i in w.starts) then (i, {})
    else
      var p := start + 24 * i;
      var a, b, c := Rd(w.mem, p), Rd(w.mem, p + 8), Rd(w.mem, p + 16);
      var mine := if (p + 8) / 8 in w.dynMap then {} else TouchedIn(b, start);
      var dyn := p / 8 in w.dynMap || (p + 8) / 8 in w.dynMap || (p + 16) / 8 in w.dynMap;
      if !dyn && a == b && c != p + 24 then (i + 1, mine)
      else
        var (n, more) := Extent(w, start, copy, i + 1);
        (n, mine + more)
  }

  function Limit(copy: bool): nat { if copy then 19 else MAX_BLOCK }

  /** The i-th instruction as the translator reads it. */
  function SourceAt(w: World, dyn: set<int>, start: word, i: nat): Source
    requires start + 24 * (i + 1) < TWO64
  {
    var p := start + 24 * i;
    Source(p, i, Rd(w.mem, p), Rd(w.mem, p + 8), Rd(w.mem, p + 16), p / 8 in dyn, (p + 8) / 8 in dyn, (p + 16) / 8 in dyn)
  }

  /** The words the first n instructions store to through static addresses, once
      each. */
  function Hoisted(w: World, dyn: set<int>, start: word, n: nat): seq<int>
    requires start + 24 * n < TWO64
  {
    if n == 0 then []
    else
      var s := SourceAt(w, dyn, start, n - 1);
      var h := Hoisted(w, dyn, start, n - 1);
      if s.db then h else HoistBoth(h, s.fb, w.memSize / 8)
  }

  function HoistWord(h: seq<int>, w: int, memWords: int): seq<int> {
    if w >= memWords || w in h then h else h + [w]
  }

  function HoistBoth(h: seq<int>, b: word, memWords: int): seq<int> {
    var h1 := HoistWord(h, b / 8, memWords);
    if Add(b, 7) / 8 <= b / 8 then h1 else HoistWord(h1, Add(b, 7) / 8, memWords)
  }

  // ------------------------------------------------------------- the code

  /** Translates from the i-th instruction until the block ends; how many it
      has then, and whether an unconditional jump ended it. */
  function TranslateFrom(b: Build, w: World, dyn: set<int>, k: Checks, start: word, i: nat, n: nat): (o: Option<(nat, bool, Build)>)
    requires i <= n && start + 24 * n < TWO64
    ensures o.Some? ==> i <= o.value.0 <= n && Extends(b, o.value.2)
    ensures o.Some? && i < n ==> i < o.value.0
    ensures o.Some? && !o.value.1 ==> o.value.0 == n
    decreases n - i
  {
    if i == n then Some((i, false, b))
    else
      var (ended, d) :- TranslateInsn(b, SourceAt(w, dyn, start, i), k);
      if ended then Some((i + 1, true, d))
      else
        var (m, e, r) :- TranslateFrom(d, w, dyn, k, start, i + 1, n);
        assert Extends(b, r) by { ExtendsTrans(b, d, r); }
        Some((m, e, r))
  }

  lemma ExtendsTrans(a: Build, b: Build, c: Build)
    requires Extends(a, b) && Extends(b, c)
    ensures Extends(a, c)
  {
  }

  /** The jump to the instruction after the block, if nothing else ended it. */
  function FallOut(b: Build, start: word, n: nat): (d: Build)
    requires 0 < n && start + 24 * n < TWO64
    ensures Extends(b, d)
  {
    var (p, c1) := SnapPending(b.c);
    Build(Emit(c1, Jmp(Stub(|b.stubs|))), b.stubs + [StubRec(false, start + 24 * n, n - 1, 0, p)], b.smcs)
  }

  /** The fields of the first n instructions that are static, and their values. */
  function Baked(w: World, dyn: set<int>, start: word, n: nat): map<word, word>
    requires start + 24 * n < TWO64
  {
    map a: word | start <= a < start + 24 * n && a % 8 == 0 && a / 8 !in dyn :: Rd(w.mem, a)
  }

  /** The words the translator takes as dynamic: those caught being written,
      and those the block itself writes. */
  function DynWords(w: World, start: word): set<int>
    requires w.memSize <= 0x4000_0000_0000_0000
  {
    w.dynMap + Extent(w, start, FindCopy(w.mem, w.dynMap, start, w.memSize).Some?, 0).1
  }

  function Translate(w: World, start: word): (o: Option<Block>)
    requires start % 8 == 0 && start + 24 <= w.memSize <= 0x4000_0000_0000_0000
    ensures o.Some? ==> 0 < o.value.n <= MAX_BLOCK && start + 24 * o.value.n <= w.memSize && o.value.start == start
  {
    var found := FindCopy(w.mem, w.dynMap, start, w.memSize);
    var (n, written) := Extent(w, start, found.Some?, 0);
    var copy := if n == 19 then found else None;
    var dyn := w.dynMap + written;
    var k := Checks(Hoisted(w, dyn, start, n), w.memSize / 8);
    var (m, ended, b) :- TranslateFrom(EmptyBuild(w, start, copy), w, dyn, k, start, 0, n);
    var d := if ended then b else FallOut(b, start, m);
    Some(Block(start, m, k.hoist, d.c.code, d.stubs, d.smcs, Baked(w, dyn, start, m), copy, w.movbe))
  }

  /** Nothing translated yet; the copy loop's way out is the first stub. */
  function EmptyBuild(w: World, start: word, copy: Option<Desc>): Build
    requires copy.Some? ==> start + LOOP_LEN < TWO64
  {
    Build(EmptyCache(w.movbe, w.turns), if copy.Some? then [StubRec(false, start + LOOP_LEN, 18, 0, NotHeld)] else [], [])
  }

  // ------------------------------------------------------------- the stubs

  /** The first register from t on that is neither of two. */
  function NotThese(t: nat, r: int, s: int): (u: nat)
    requires t <= 3
    ensures t <= u <= t + 2 && u != r && u != s
  {
    if t != r && t != s then t else if t + 1 != r && t + 1 != s then t + 1 else t + 2
  }

  function HeldReg(p: Pending): int {
    if p.HeldBack? && (p.v.InReg? || p.v.NegReg?) then p.v.r else -1
  }

  /** Stores what is held back from a stub, clobbering any register but its own
      and keep. */
  function StubStore(p: Pending, keep: int, movbe: bool): seq<Op> {
    if p.NotHeld? || p.v.NoVal? then []
    else
      var t := NotThese(0, HeldReg(p), keep);
      var base := NotThese(t + 1, HeldReg(p), keep);
      var dst := if FitsDisp(p.addr) then Abs(p.addr) else Ind(base);
      (if FitsDisp(p.addr) then [] else [MovImm(base, p.addr)]) +
      match p.v
      case Const(x) => [MovImm(t, Bswap(x)), Store(dst, t)]
      case InReg(r) =>
        if movbe then [StoreBE(dst, r)] else [MovRR(t, r), BswapR(t), Store(dst, t)]
      case NegReg(r) =>
        [MovRR(t, r), NegR(t)] + if movbe then [StoreBE(dst, t)] else [BswapR(t), Store(dst, t)]
  }

  // --------------------------------------------------------------- running

  /** Why a block was left: to the dispatcher (0), before a store to translated
      code (1), its static stores hit translated code (2), the watched word
      changed (3), or by a branch: through a register, where the dispatcher
      goes on as for 0, or one that can be linked (its site). */
  datatype Cause = Slow | SmcStore | HoistHit | Watched | ByReg(k: nat) | ByStub(k: nat)

  datatype Leave = Leave(mem: Mem, eip: word, budget: int, cause: Cause)

  /** What a CPU brings to a block: the marks, the memory size, the watched word
      and its value, and whatever is in its registers and flags. */
  datatype Context = Context(marks: Marks, memSize: int, watch: Option<(word, word)>, regs: RegFile, fl: Flags)

  function MemAfter(ops: seq<Op>, m: Machine): Machine {
    match Run(ops, m)
    case Go(m1) => m1
    case Left(_, m1) => m1
  }

  /** Out of the body by a check or a stub, whose unused budget is given back. */
  function LeaveBody(b: Block, x: Exit, m: Machine, budget: int): Leave
    requires b.start + 24 * b.n < TWO64
  {
    match x
    case Smc(k) =>
      if k >= |b.smcs| || b.smcs[k].idx >= b.n then Leave(m.mem, b.start, budget, Slow)
      else
        Leave(MemAfter(StubStore(b.smcs[k].pend, -1, b.movbe), m).mem, b.start + 24 * b.smcs[k].idx,
              budget + b.n - b.smcs[k].idx, SmcStore)
    case Stub(k) =>
      if k >= |b.stubs| then Leave(m.mem, b.start, budget, Slow)
      else
        var s := b.stubs[k];
        var m1 := MemAfter(StubStore(s.pend, if s.dyn then s.creg else -1, b.movbe), m);
        Leave(m1.mem, if s.dyn then m1.regs[s.creg] else s.target, budget + b.n - s.idx - 1,
              if s.dyn then ByReg(k) else ByStub(k))
  }

  function RunBody(b: Block, mem: Mem, budget: int, x: Context): Leave
    requires b.start + 24 * b.n < TWO64
  {
    match Run(b.code, Machine(x.regs, x.fl, mem, x.marks, []))
    case Go(m) => Leave(m.mem, b.start, budget, Slow)
    case Left(e, m) => LeaveBody(b, e, m, budget)
  }

  predicate HoistMarked(b: Block, marks: Marks) { exists w | w in b.hoist :: w in marks.words }

  /** Running a block from its entry: the budget, the watched word, the words it
      stores to, and for the copy loop many iterations at once, then its body. */
  function RunBlock(b: Block, mem: Mem, budget: nat, x: Context): Leave
    requires 0 < b.n && b.start + 24 * b.n < TWO64 && (b.copy.Some? ==> VarsOk(b.copy.value, x.memSize))
    decreases budget
  {
    if budget < b.n then Leave(mem, b.start, budget, Slow)
    else if x.watch.Some? && Rd(mem, x.watch.value.0) != x.watch.value.1 then Leave(mem, b.start, budget, Watched)
    else if HoistMarked(b, x.marks) then Leave(mem, b.start, budget, HoistHit)
    else if b.copy.None? then RunBody(b, mem, budget - b.n, x)
    else
      var r := JitCopy(b.copy.value, mem, budget - b.n, x.memSize, x.marks.pages);
      var left := budget - b.n - (19 * r.n - 19);
      if r.n == 0 then RunBody(b, mem, budget - b.n, x)
      else if r.done then LeaveBody(b, Stub(0), Machine(x.regs, x.fl, r.mem, x.marks, []), left)
      else RunBlock(b, r.mem, left, x)
  }
}
