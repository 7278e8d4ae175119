/** The dispatcher of one CPU: what it runs from its code cache, what it
    interprets, and how stores to translated code drop it. */
module Dispatcher {
  import opened Options
  import opened Words
  import opened Memory
  import opened Subleq
  import opened X86
  import opened RegCache
  import opened Insn
  import opened InsnProofs
  import opened OwnC
  import opened OwnExact
  import opened CopyLoop
  import opened Blocks
  import Compiler
  import opened BlockProofs
  import opened RunProofs
  import opened Enough

  /** A jump out of a block: its start, and which of its stubs. */
  type Site = (word, nat)

  predicate Covers(b: Block, w: int) { b.start <= 8 * w < b.start + 24 * b.n }

  // -------------------------------------------------- what a run must be like

  /** The copy loop about to be run, if there is one, does not point into itself. */
  ghost predicate LoopClear(s: Cpu, memSize: int) {
    forall d: Desc, sd: bool | d.start == s.eip && d.start + LOOP_LEN <= memSize <= 0x4000_0000_0000_0000 && LoopIn(s.mem, d, sd) ::
      PointersClear(s.mem, d.start)
  }

  lemma FoundClear(m: Mem, dyn: set<int>, start: word, memSize: int)
    requires memSize <= 0x4000_0000_0000_0000 && LoopClear(Cpu(m, start), memSize) && FindCopy(m, dyn, start, memSize).Some?
    ensures start + LOOP_LEN < TWO64 && PointersClear(m, start)
  {
    hide PointersClear, Rd, LoopIn;
    FoundLoop(m, dyn, start, memSize);
  }

  /** Whatever is translated as a copy loop here is harmless. */
  ghost predicate LoopsHarmless(s: Cpu, memSize: int) {
    forall b: Block, w: World | Translated(b, w) && w.mem == s.mem && w.memSize == memSize && b.start == s.eip && b.copy.Some? :: Made(b, w)
  }

  /** As it is if the loop does not point into itself. */
  lemma ClearHarmless(s: Cpu, memSize: int)
    requires LoopClear(s, memSize)
    ensures LoopsHarmless(s, memSize)
  {
    hide Rd, LoopClear, Translated, FindCopy, Hoisted, PointersClear, TemplateStatic, Harmless, TranslateFrom;
    forall b: Block, w: World | Translated(b, w) && w.mem == s.mem && w.memSize == memSize && b.start == s.eip && b.copy.Some?
      ensures Made(b, w)
    {
      MadeAligned(b, w);
      var copy, n, dyn, k, d, ended := MadeParts(b, w);
      FoundClear(w.mem, w.dynMap, b.start, w.memSize);
      TemplateStays(w, b.start);
      StaticMade(b, w);
    }
  }

  /** The next n steps from s stay in memory, and none is the first of a copy
      loop whose block would be wrong. */
  ghost predicate Tame(s: Cpu, n: nat, memSize: int) {
    SafeFor(s, n, memSize) && forall j: nat | j <= n :: LoopsHarmless(Steps(s, j), memSize)
  }

  lemma TameTail(s: Cpu, n: nat, k: nat, memSize: int)
    requires Tame(s, n, memSize) && k <= n
    ensures Tame(Steps(s, k), n - k, memSize)
  {
    hide Steps, SafeFor, LoopsHarmless;
    SafeTail(s, n, k, memSize);
    forall j: nat | j <= n - k
      ensures LoopsHarmless(Steps(Steps(s, k), j), memSize)
    {
      StepsAdd(s, k, j);
    }
  }

  // ---------------------------------------------------------- the code cache

  /** A block in the cache is one translated, and its static fields hold. */
  ghost predicate BlockValid(b: Block, mem: Mem, marks: Marks, memSize: int) {
    (exists w: World :: Made(b, w) && w.memSize == memSize) && BakedHold(b, mem, marks)
  }

  ghost predicate BlocksValid(blocks: map<word, Block>, mem: Mem, marks: Marks, memSize: int) {
    forall s | s in blocks :: blocks[s].start == s && BlockValid(blocks[s], mem, marks, memSize)
  }

  /** A linked jump goes to the block its stub names. */
  ghost predicate LinksValid(blocks: map<word, Block>, links: map<Site, word>) {
    forall k | k in links ::
      && k.0 in blocks && links[k] in blocks && k.1 < |blocks[k.0].stubs|
      && !blocks[k.0].stubs[k.1].dyn && blocks[k.0].stubs[k.1].target == links[k]
  }

  lemma CoversBack(b: Block, w: World, v: int)
    requires Made(b, w) && Covers(b, v)
    ensures 8 * v - 24 * MAX_BLOCK + 8 <= b.start <= 8 * v && b.start % 8 == 0
  {
    hide Translate, TemplateStatic;
    MadeBounds(b, w);
  }

  /** A block none of whose words is w does not depend on w's mark. */
  lemma UncoveredHolds(b: Block, w: World, mem: Mem, marks: Marks, v: int)
    requires Made(b, w) && BakedHold(b, mem, marks) && !Covers(b, v)
    ensures BakedHold(b, mem, marks.(words := marks.words - {v}))
  {
    hide Translated, Harmless, Rd;
    BakedAligned(b, w);
  }

  lemma StillValid(b: Block, mem: Mem, marks: Marks, mem': Mem, marks': Marks, memSize: int)
    requires BlockValid(b, mem, marks, memSize) && MarksKept(mem, mem', marks.words) && marks.words <= marks'.words
    ensures BlockValid(b, mem', marks', memSize)
  {
    hide Translated, Harmless, MarksKept, Rd;
    var w :| Made(b, w) && w.memSize == memSize;
    BakedAligned(b, w);
    BakedKept(b, mem, mem', marks);
  }

  lemma AllStillValid(blocks: map<word, Block>, mem: Mem, marks: Marks, mem': Mem, marks': Marks, memSize: int)
    requires BlocksValid(blocks, mem, marks, memSize) && MarksKept(mem, mem', marks.words) && marks.words <= marks'.words
    ensures BlocksValid(blocks, mem', marks', memSize)
  {
    hide BlockValid, MarksKept;
    forall s | s in blocks
      ensures BlockValid(blocks[s], mem', marks', memSize)
    {
      StillValid(blocks[s], mem, marks, mem', marks', memSize);
    }
  }

  /** The blocks but those covering w. */
  function Uncovered(blocks: map<word, Block>, w: int): map<word, Block> {
    map s | s in blocks && !Covers(blocks[s], w) :: blocks[s]
  }

  function DropRange(blocks: map<word, Block>, lo: int, hi: int, w: int): map<word, Block> {
    map s | s in blocks && !(lo <= s < hi && Covers(blocks[s], w)) :: blocks[s]
  }

  lemma DropNone(blocks: map<word, Block>, lo: int, w: int)
    ensures DropRange(blocks, lo, lo, w) == blocks
  {
  }

  lemma DropNext(blocks: map<word, Block>, lo: int, s: int, w: int)
    requires lo <= s && s % 8 == 0 && (forall t | t in blocks :: t % 8 == 0 && blocks[t].start == t) && s <= 8 * w
    ensures DropRange(blocks, lo, s + 8, w) ==
            if s in blocks && 8 * w < s + 24 * blocks[s].n then DropRange(blocks, lo, s, w) - {s} else DropRange(blocks, lo, s, w)
    ensures s in DropRange(blocks, lo, s, w) <==> s in blocks
    ensures s in blocks ==> DropRange(blocks, lo, s, w)[s] == blocks[s]
  {
    assert forall t | t in blocks && s <= t < s + 8 :: t == s;
  }

  lemma Next8(s: int)
    requires s % 8 == 0
    ensures (s + 8) % 8 == 0
  {
  }

  /** No block starting before the window reaches w. */
  lemma DropAll(blocks: map<word, Block>, mem: Mem, marks: Marks, memSize: int, lo: int, hi: int, w: int)
    requires BlocksValid(blocks, mem, marks, memSize) && 0 <= w && hi > 8 * w
    requires lo == if 8 * w >= 24 * MAX_BLOCK then 8 * w - 24 * MAX_BLOCK + 8 else 0
    ensures DropRange(blocks, lo, hi, w) == Uncovered(blocks, w)
  {
    hide Translated, Harmless, BakedHold;
    forall t | t in blocks && Covers(blocks[t], w)
      ensures lo <= t < hi
    {
      assert BlockValid(blocks[t], mem, marks, memSize);
      var v: World :| Made(blocks[t], v) && v.memSize == memSize;
      CoversBack(blocks[t], v, w);
    }
  }

  lemma StartsAligned(blocks: map<word, Block>, mem: Mem, marks: Marks, memSize: int)
    requires BlocksValid(blocks, mem, marks, memSize)
    ensures forall t | t in blocks :: t % 8 == 0 && blocks[t].start == t
  {
    hide Translated, Harmless, BakedHold;
    forall t | t in blocks
      ensures t % 8 == 0
    {
      assert BlockValid(blocks[t], mem, marks, memSize);
      var v: World :| Made(blocks[t], v) && v.memSize == memSize;
      MadeAligned(blocks[t], v);
    }
  }

  lemma UncoveredValid(blocks: map<word, Block>, mem: Mem, marks: Marks, memSize: int, v: int)
    requires BlocksValid(blocks, mem, marks, memSize)
    ensures BlocksValid(Uncovered(blocks, v), mem, marks.(words := marks.words - {v}), memSize)
  {
    hide Translated, Harmless, BakedHold, Covers;
    forall s | s in Uncovered(blocks, v)
      ensures BlockValid(blocks[s], mem, marks.(words := marks.words - {v}), memSize)
    {
      assert BlockValid(blocks[s], mem, marks, memSize);
      var w: World :| Made(blocks[s], w) && w.memSize == memSize;
      UncoveredHolds(blocks[s], w, mem, marks, v);
    }
  }

  lemma FewerMarks(marks: Marks, memSize: int, v: int)
    requires MarksIn(marks, memSize)
    ensures MarksIn(marks.(words := marks.words - {v}), memSize)
  {
  }

  predicate IsWord(w: int, memSize: int) { 0 <= w < memSize / 8 }

  /** The words of b's static fields. */
  function BakedWords(b: Block): set<int> { set a | a in b.baked :: a / 8 }

  /** Marks words, and the pages of theirs and before. */
  function MarkStatic(marks: Marks, words: set<int>): Marks {
    Marks(marks.words + words,
          marks.pages + (set w | w in words :: w * 8 / 0x1000) + (set w | w in words && w * 8 / 0x1000 > 0 :: w * 8 / 0x1000 - 1))
  }

  lemma MarkedIn(marks: Marks, words: set<int>, memSize: int)
    requires MarksIn(marks, memSize) && forall w | w in words :: 0 <= w < memSize / 8
    ensures MarksIn(MarkStatic(marks, words), memSize)
  {
  }

  lemma WordsIn(b: Block, w: World)
    requires Translated(b, w)
    ensures forall v | v in BakedWords(b) :: 0 <= v < w.memSize / 8 && v !in w.dynMap
  {
    hide Rd, Translated, Harmless, Hoisted, TranslateFrom, FindCopy, Extent;
    MadeBounds(b, w);
    MadeAligned(b, w);
    var copy, n, dyn, k, d, ended := MadeParts(b, w);
  }

  /** A block just translated is valid once its fields are marked. */
  lemma NewBlock(b: Block, w: World, mem: Mem, marks: Marks)
    requires Made(b, w) && w.mem == mem && BakedWords(b) <= marks.words
    ensures BlockValid(b, mem, marks, w.memSize)
  {
    hide Rd, Translated, Harmless, Hoisted, TranslateFrom, FindCopy, Extent;
    MadeBounds(b, w);
    MadeAligned(b, w);
    var copy, n, dyn, k, d, ended := MadeParts(b, w);
    forall a | a in b.baked
      ensures Rd(mem, a) == b.baked[a] && a / 8 in marks.words
    {
      assert a / 8 in BakedWords(b);
    }
  }

  lemma NewMade(w: World, start: word)
    requires start % 8 == 0 && start + 24 <= w.memSize <= 0x4000_0000_0000_0000 && Translate(w, start).Some?
    requires LoopsHarmless(Cpu(w.mem, start), w.memSize)
    ensures Made(Translate(w, start).value, w) && Translate(w, start).value.start == start
  {
    hide Translate, Harmless;
  }

  /** Translating from start, the code finds no register to take: it goes on
      with an index of -1 into its table. */
  ghost predicate RunsOut(mem: Mem, dynMap: set<int>, memSize: int, movbe: bool, start: word) {
    && start % 8 == 0 && start + 24 <= memSize <= 0x4000_0000_0000_0000
    && exists starts: set<word>, turns: Turns :: Short(World(mem, dynMap, starts, memSize, movbe, turns), start)
  }

  lemma RanOut(w: World, start: word)
    requires start % 8 == 0 && start + 24 <= w.memSize <= 0x4000_0000_0000_0000 && Translate(w, start).None?
    ensures RunsOut(w.mem, w.dynMap, w.memSize, w.movbe, start)
  {
    hide Translate, Short;
    BlockEnough(w, start);
    assert Short(World(w.mem, w.dynMap, w.starts, w.memSize, w.movbe, w.turns), start);
  }

  lemma NewValid(blocks: map<word, Block>, mem: Mem, marks: Marks, memSize: int, b: Block)
    requires BlocksValid(blocks, mem, marks, memSize) && BlockValid(b, mem, marks, memSize)
    ensures BlocksValid(blocks[b.start := b], mem, marks, memSize)
  {
    hide BlockValid;
  }

  lemma MoreLinks(blocks: map<word, Block>, links: map<Site, word>, start: word, b: Block)
    requires LinksValid(blocks, links) && start !in blocks
    ensures LinksValid(blocks[start := b], links)
  {
  }

  lemma LinkOne(blocks: map<word, Block>, links: map<Site, word>, k: Site, t: word)
    requires LinksValid(blocks, links) && k.0 in blocks && t in blocks && k.1 < |blocks[k.0].stubs|
    requires !blocks[k.0].stubs[k.1].dyn && blocks[k.0].stubs[k.1].target == t
    ensures LinksValid(blocks, links[k := t])
  {
  }

  lemma RunnableHere(blocks: map<word, Block>, mem: Mem, marks: Marks, memSize: int, s: word, n: nat, x: Context) returns (w: World)
    requires BlocksValid(blocks, mem, marks, memSize) && s in blocks && MarksIn(marks, memSize) && Tame(Cpu(mem, s), n, memSize)
    requires x.memSize == memSize && x.marks == marks
    ensures Runnable(blocks[s], w, mem, n, x)
  {
    hide Translated, Harmless, BakedHold, MarksIn, SafeFor, LoopsHarmless;
    assert BlockValid(blocks[s], mem, marks, memSize);
    w :| Made(blocks[s], w) && w.memSize == memSize;
  }

  class JitCpu {
    const memSize: int
    const movbe: bool
    const exact: bool
    const watch: Option<(word, word)>

    var mem: Mem
    var eip: word
    var budget: nat

    // static_map and page_map, and dyn_map
    var marks: Marks
    var dynMap: set<int>

    // the code cache: blocks by start, and the jumps linked
    var blocks: map<word, Block>
    var links: map<Site, word>

    ghost predicate Valid()
      reads this
    {
      && 0 <= memSize <= 0x4000_0000_0000_0000
      && MarksIn(marks, memSize) && marks.words !! dynMap
      && BlocksValid(blocks, mem, marks, memSize) && LinksValid(blocks, links)
    }

    /** Nothing translated yet. */
    constructor (m: Mem, size: int, be: bool, ex: bool, w: Option<(word, word)>)
      requires 0 <= size <= 0x4000_0000_0000_0000
      ensures Valid() && mem == m && memSize == size && exact == ex && watch == w && blocks == map[] && dynMap == {}
    {
      memSize, movbe, exact, watch := size, be, ex, w;
      mem, eip, budget := m, 0, 0;
      marks, dynMap, blocks, links := Marks({}, {}), {}, map[], map[];
    }

    /** Drops the block at s, and sends the jumps linked to it back to their
        slow paths. */
    method Invalidate(s: word)
      requires s in blocks && LinksValid(blocks, links)
      modifies this`blocks, this`links
      ensures blocks == old(blocks) - {s} && LinksValid(blocks, links)
      ensures forall k :: k in links <==> k in old(links) && k.0 != s && old(links)[k] != s
      ensures forall k | k in links :: links[k] == old(links)[k]
    {
      blocks := blocks - {s};
      links := map k | k in links && k.0 != s && links[k] != s :: links[k];
    }

    /** Drops every block covering word w, by looking up each place where one
        could start. */
    method InvalidateWord(w: int)
      requires 0 <= w && 8 * w < TWO64 && BlocksValid(blocks, mem, marks, memSize) && LinksValid(blocks, links)
      modifies this`blocks, this`links
      ensures blocks == Uncovered(old(blocks), w) && LinksValid(blocks, links)
      ensures forall k | k in links :: k in old(links) && links[k] == old(links)[k]
    {
      hide *;
      ghost var was := blocks;
      var a := 8 * w;
      var s := if a >= 24 * MAX_BLOCK then a - 24 * MAX_BLOCK + 8 else 0;
      ghost var lo := s;
      DropNone(blocks, lo, w);
      StartsAligned(blocks, mem, marks, memSize);
      while s <= a
        invariant s % 8 == 0 && lo <= s <= a + 8 && LinksValid(blocks, links)
        invariant blocks == DropRange(was, lo, s, w)
        invariant forall k | k in links :: k in old(links) && links[k] == old(links)[k]
        decreases a + 8 - s
      {
        DropNext(was, lo, s, w);
        Next8(s);
        if s in blocks && a < s + 24 * blocks[s].n {
          Invalidate(s);
        }
        s := s + 8;
      }
      DropAll(was, mem, marks, memSize, lo, s, w);
    }

    /** Makes word w dynamic for good, so that no block here still bakes it. */
    method SmcHit(w: int)
      requires 0 <= w < memSize / 8 && Valid()
      modifies this`blocks, this`links, this`marks, this`dynMap
      ensures Valid() && dynMap == old(dynMap) + {w} && marks == old(marks).(words := old(marks).words - {w})
      ensures blocks == Uncovered(old(blocks), w)
    {
      hide LinksValid, BlocksValid, MarksIn, Uncovered;
      UncoveredValid(blocks, mem, marks, memSize, w);
      FewerMarks(marks, memSize, w);
      InvalidateWord(w);
      dynMap := dynMap + {w};
      marks := marks.(words := marks.words - {w});
    }

    /** Before a store to b: the words it touches are no longer static. */
    method StoreCheck(b: word)
      requires Valid() && b + 8 <= memSize
      modifies this`blocks, this`links, this`marks, this`dynMap
      ensures Valid() && Unmarked(b, marks) && old(dynMap) <= dynMap
    {
      hide LinksValid, BlocksValid, PagesCover, Uncovered;
      var w0, w1 := b / 8, Add(b, 7) / 8;
      if w0 < memSize / 8 && w0 in marks.words {
        SmcHit(w0);
      }
      if w1 != w0 && w1 < memSize / 8 && w1 in marks.words {
        SmcHit(w1);
      }
    }

    /** Interprets one instruction, dropping the code it stores to. */
    method InterpStep()
      requires Valid() && budget > 0 && InBounds(Cpu(mem, eip), memSize)
      modifies this
      ensures Valid() && Cpu(mem, eip) == Step(old(Cpu(mem, eip))) && budget == old(budget) - 1 && old(dynMap) <= dynMap
    {
      hide LinksValid, BlocksValid, MarksIn, Unmarked, Rd, Wr, Taken, MarksKept;
      var a, b, c := Rd(mem, eip), Rd(mem, Add(eip, 8)), Rd(mem, Add(eip, 16));
      var va, vb := Rd(mem, a), Rd(mem, b);
      StoreCheck(b);
      UnmarkedKeeps(mem, b, Sub(vb, va), marks);
      AllStillValid(blocks, mem, marks, Wr(mem, b, Sub(vb, va)), marks, memSize);
      mem := Wr(mem, b, Sub(vb, va));
      eip := if Taken(vb, va) then c else Add(eip, 24);
      budget := budget - 1;
    }

    /** Empties the code cache; the maps stay. */
    method Flush()
      requires Valid()
      modifies this`blocks, this`links
      ensures Valid() && blocks == map[] && links == map[]
    {
      hide MarksIn, BlockValid;
      blocks, links := map[], map[];
    }

    ghost predicate NoRegisterAt(start: word)
      reads this
    {
      RunsOut(mem, dynMap, memSize, movbe, start)
    }

    /** Translates the block at start, if there can be one, flushing first when
        the cache is full; lost when that runs out of registers. */
    method TranslateAt(start: word) returns (ok: bool, flushed: bool, lost: bool)
      requires Valid() && start !in blocks && LoopsHarmless(Cpu(mem, start), memSize)
      modifies this`blocks, this`links, this`marks
      ensures Valid() && (ok ==> start in blocks) && (!ok ==> start !in blocks)
      ensures lost ==> !ok && NoRegisterAt(start)
      ensures !lost && !ok ==> start % 8 != 0 || start + 24 > memSize
      ensures flushed || (links == old(links) && forall s | s in old(blocks) :: s in blocks && blocks[s] == old(blocks)[s])
    {
      hide LinksValid, BlocksValid, MarksIn, Translate, Translated, Harmless, LoopsHarmless, MarkStatic, BakedWords;
      ok, flushed, lost := false, false, false;
      if start % 8 == 0 && start + 24 <= memSize {
        var full: bool := *;
        if full {
          Flush();
          flushed := true;
        }
        var turns: Turns := *;
        var w := World(mem, dynMap, blocks.Keys, memSize, movbe, turns);
        if Translate(w, start).Some? {
          var blk := Compiler.Translate(w, start);
          NewMade(w, start);
          Install(w, blk);
          ok := true;
        } else {
          RanOut(w, start);
          lost := true;
        }
      }
    }

    method Install(w: World, b: Block)
      requires Valid() && w.mem == mem && w.dynMap == dynMap && w.memSize == memSize && b.start !in blocks
      requires Made(b, w)
      modifies this`blocks, this`marks
      ensures Valid() && blocks == old(blocks)[b.start := b] && marks == MarkStatic(old(marks), BakedWords(b))
    {
      hide LinksValid, BlocksValid, MarksIn, Translated, Harmless, BlockValid, BakedWords, MarksKept;
      var now := MarkStatic(marks, BakedWords(b));
      WordsIn(b, w);
      MarkedIn(marks, BakedWords(b), memSize);
      NewBlock(b, w, mem, now);
      KeptSelf(mem, marks.words);
      AllStillValid(blocks, mem, marks, mem, now, memSize);
      NewValid(blocks, mem, now, memSize, b);
      MoreLinks(blocks, links, b.start, b);
      marks := now;
      blocks := blocks[b.start := b];
    }

    /** Sends the jump that left by k to the block at t, if there is room for
        another link. */
    method LinkTo(k: Site, t: word) returns (linked: bool)
      requires Valid() && k.0 in blocks && t in blocks && k.1 < |blocks[k.0].stubs|
      requires !blocks[k.0].stubs[k.1].dyn && blocks[k.0].stubs[k.1].target == t && k !in links
      modifies this`links
      ensures Valid() && (linked ==> links == old(links)[k := t]) && (!linked ==> links == old(links))
    {
      hide BlocksValid, MarksIn, LinksValid;
      linked := *;
      if linked {
        LinkOne(blocks, links, k, t);
        links := links[k := t];
      }
    }

    /** What the dispatcher relies on when translated code has come back. */
    ghost predicate CameBack(cause: Cause, site: word, was: nat)
      reads this
    {
      match cause
      case Slow => budget < was
      case ByReg(_) => budget < was
      case Watched => watch.Some? && Rd(mem, watch.value.0) != watch.value.1
      case HoistHit => eip in blocks && HoistMarked(blocks[eip], marks)
      case SmcStore => budget > 0
      case ByStub(k) =>
        && budget < was && site in blocks && k < |blocks[site].stubs| && !blocks[site].stubs[k].dyn
        && blocks[site].stubs[k].target == eip && (site, k) !in links
    }

    /** n steps from s lead here; or, at own, they stray in the last of them: a
        jump of a block by a stub that has C in the register with the result. */
    ghost predicate Here(s: Cpu, n: nat, own: Option<Site>)
      reads this
    {
      match own
      case None => Steps(s, n) == Cpu(mem, eip)
      case Some(k) =>
        && Strayed(s, n, Cpu(mem, eip)) && k.0 in blocks && k.1 < |blocks[k.0].stubs|
        && var r, p := blocks[k.0].stubs[k.1], Steps(s, n - 1).eip;
           p == k.0 + 24 * r.idx && Through(r, Add(p, 16))
    }

    /** Runs translated code from the block at eip through linked jumps, until
        it comes back: as many of the interpreter's steps as it takes from the
        budget, unless the last one strays. */
    method Enter() returns (cause: Cause, site: word, own: Option<Site>)
      requires Valid() && eip in blocks && blocks[eip].n <= budget && Tame(Cpu(mem, eip), budget, memSize)
      modifies this`mem, this`eip, this`budget
      ensures Valid() && budget <= old(budget)
      ensures Here(old(Cpu(mem, eip)), old(budget) - budget, own)
      ensures CameBack(cause, site, old(budget))
    {
      hide LinksValid, BlocksValid, MarksIn, Tame, Steps, HoistMarked, Rd, RunBlock, MarksKept, Runnable, Unmarked, ByOwn;
      hide OwnJump, Arrives, Strayed;
      ghost var s0, n0 := Cpu(mem, eip), budget;
      NoStep(s0);
      while true
        invariant Valid() && eip in blocks && budget <= n0 && (budget == n0 ==> blocks[eip].n <= budget)
        invariant Steps(s0, n0 - budget) == Cpu(mem, eip) && Tame(s0, n0, memSize)
        decreases budget
      {
        site := eip;
        var was, s1 := budget, Cpu(mem, eip);
        var regs: RegFile := *;
        var fl: Flags := *;
        var x := Context(marks, memSize, watch, regs, fl);
        TameTail(s0, n0, n0 - budget, memSize);
        ghost var w := RunnableHere(blocks, mem, marks, memSize, eip, budget, x);
        BlockStart(blocks, mem, marks, memSize, eip);
        RunBlockOk(blocks[eip], w, mem, budget, x);
        var L := RunBlock(blocks[eip], mem, budget, x);
        AllStillValid(blocks, mem, marks, L.mem, marks, memSize);
        StepsAdd(s0, n0 - budget, budget - L.budget);
        mem, eip, budget, cause := L.mem, L.eip, L.budget, L.cause;
        own := None;
        if budget < was && ByOwn(blocks[site], cause) && OwnJump(Steps(s1, was - budget - 1)) {
          StrayedHere(s0, n0 - was, s1, was, L, blocks[site]);
          own := Some((site, cause.k));
          break;
        }
        assert Steps(s1, was - budget) == Cpu(mem, eip) by { NoStray(blocks[site], s1, was, L); }
        if cause.ByStub? && (site, cause.k) in links {
          LinkTarget(blocks, links, (site, cause.k));
        } else {
          break;
        }
      }
    }

    ghost function Undyn(): set<int>
      reads this`dynMap
    {
      (set w | 0 <= w < memSize / 8 && IsWord(w, memSize)) - dynMap
    }

    /** Drops the code that the block at eip stores to through static
        addresses. */
    method DropHoisted()
      requires Valid() && eip in blocks && HoistMarked(blocks[eip], marks)
      modifies this`blocks, this`links, this`marks, this`dynMap
      ensures Valid() && Undyn() < old(Undyn())
    {
      hide LinksValid, BlocksValid, Uncovered;
      var hoist := blocks[eip].hoist;
      ghost var h :| h in hoist && h in marks.words;
      ghost var at :| 0 <= at < |hoist| && hoist[at] == h;
      assert h in Undyn();
      var k := 0;
      while k < |hoist|
        invariant 0 <= k <= |hoist| && Valid() && old(dynMap) <= dynMap
        invariant if k <= at then h in marks.words || h in dynMap else h in dynMap
      {
        if hoist[k] in marks.words {
          SmcHit(hoist[k]);
        }
        k := k + 1;
      }
    }

    /** What follows translated code coming back, unless for the watched word:
        the instruction it stopped before, the code its stores would hit, or
        the link of the jump that left. */
    method Follow(cause: Cause, site: word, ghost was: nat) returns (lost: bool)
      requires Valid() && CameBack(cause, site, was) && cause != Watched && budget <= was
      requires Tame(Cpu(mem, eip), budget, memSize)
      modifies this
      ensures Valid() && budget <= old(budget)
      ensures Steps(old(Cpu(mem, eip)), old(budget) - budget) == Cpu(mem, eip)
      ensures budget < was || (budget == was && Undyn() < old(Undyn()))
      ensures lost ==> NoRegisterAt(eip)
    {
      hide LinksValid, BlocksValid, MarksIn, Tame, Steps, HoistMarked, Rd, MarksKept, InBounds, LoopsHarmless, NoRegisterAt;
      lost := false;
      TameNow(Cpu(mem, eip), budget, memSize);
      NoStep(Cpu(mem, eip));
      match cause
      case Slow =>
      case ByReg(_) =>
      case SmcStore =>
        StepsNext(Cpu(mem, eip), 0);
        InterpStep();
      case HoistHit => DropHoisted();
      case ByStub(k) =>
        var flushed := false;
        if eip !in blocks {
          var ok;
          ok, flushed, lost := TranslateAt(eip);
        }
        if eip in blocks && !flushed {
          var linked := LinkTo((site, k), eip);
        }
    }

    /** Translated code, and what follows its coming back, if it has not strayed. */
    method RunTranslated() returns (watched: bool, lost: bool, own: Option<Site>)
      requires Valid() && eip in blocks && blocks[eip].n <= budget && Tame(Cpu(mem, eip), budget, memSize)
      modifies this
      ensures Valid() && budget <= old(budget)
      ensures Here(old(Cpu(mem, eip)), old(budget) - budget, own)
      ensures watched ==> watch.Some? && Rd(mem, watch.value.0) != watch.value.1
      ensures watched || budget < old(budget) || (budget == old(budget) && Undyn() < old(Undyn()))
      ensures lost ==> NoRegisterAt(eip)
    {
      hide LinksValid, BlocksValid, MarksIn, Tame, Steps, HoistMarked, Rd, MarksKept, InBounds, LoopsHarmless, CameBack;
      hide Undyn, NoRegisterAt, Strayed;
      ghost var s0, was := Cpu(mem, eip), budget;
      var cause, site;
      cause, site, own := Enter();
      watched, lost := cause == Watched, false;
      if own.Some? {
        watched := false;
        assert budget < was by { StrayedSteps(s0, was - budget, Cpu(mem, eip)); }
      } else if watched {
        assert watch.Some? && Rd(mem, watch.value.0) != watch.value.1 by { WatchChanged(cause, site, was); }
      } else {
        TameTail(s0, was, was - budget, memSize);
        ghost var now := budget;
        lost := Follow(cause, site, was);
        StepsAdd(s0, was - now, now - budget);
      }
    }

    /** Runs from eip0 for at most budget0 instructions, by interpreting,
        translating, and running translated code in whatever way: memory and
        the next instruction are the interpreter's after as many steps as were
        taken from the budget. Only a changed watched word ends an exact run
        early, and an inexact one also a block longer than what is left, unless
        a translation ran out of registers, or translated code strayed: it is
        followed up to there. */
    method Run(eip0: word, budget0: nat) returns (lost: bool, own: Option<Site>)
      requires Valid() && Tame(Cpu(mem, eip0), budget0, memSize)
      modifies this
      ensures Valid() && budget <= budget0
      ensures Here(Cpu(old(mem), eip0), budget0 - budget, own)
      ensures budget == 0 || (watch.Some? && Rd(mem, watch.value.0) != watch.value.1)
        || (!exact && eip in blocks && blocks[eip].n > budget) || lost || own.Some?
      ensures lost ==> NoRegisterAt(eip)
    {
      hide LinksValid, BlocksValid, MarksIn, Tame, Steps, HoistMarked, Rd, MarksKept, InBounds, LoopsHarmless, CameBack;
      hide Undyn, NoRegisterAt, Here;
      lost, own := false, None;
      eip, budget := eip0, budget0;
      ghost var s0 := Cpu(mem, eip);
      NoStep(s0);
      while true
        invariant Valid() && budget <= budget0 && Steps(s0, budget0 - budget) == Cpu(mem, eip) && Tame(s0, budget0, memSize)
        invariant !lost && own.None?
        decreases budget, Undyn()
      {
        TameTail(s0, budget0, budget0 - budget, memSize);
        TameNow(Cpu(mem, eip), budget, memSize);
        if eip !in blocks {
          var strong: bool := *;
          if strong {
            var ok, flushed;
            ok, flushed, lost := TranslateAt(eip);
            if lost {
              break;
            }
          }
        }
        if eip !in blocks || (exact && blocks[eip].n > budget) {
          if budget == 0 {
            break;
          }
          StepsNext(s0, budget0 - budget);
          InterpStep();
        } else if blocks[eip].n > budget {
          break;
        } else {
          ghost var was, s1 := budget, Cpu(mem, eip);
          var watched;
          watched, lost, own := RunTranslated();
          HereAfter(s0, budget0 - was, s1, was - budget, own);
          if own.Some? || watched || lost {
            break;
          }
        }
      }
      if own.None? {
        HereNone(s0, budget0 - budget);
      }
    }

    lemma HereNone(s: Cpu, n: nat)
      requires Steps(s, n) == Cpu(mem, eip)
      ensures Here(s, n, None)
    {
      hide Steps;
    }

    lemma HereAfter(s0: Cpu, k: nat, s1: Cpu, n: nat, own: Option<Site>)
      requires Steps(s0, k) == s1 && Here(s1, n, own)
      ensures Here(s0, k + n, own) && (own.None? ==> Steps(s0, k + n) == Cpu(mem, eip))
    {
      hide Steps, Strayed;
      if own.Some? {
        StrayedSteps(s1, n, Cpu(mem, eip));
        StrayedAfter(s0, k, s1, n, Cpu(mem, eip));
      } else {
        StepsAdd(s0, k, n);
      }
    }

    lemma StrayedHere(s0: Cpu, k: nat, s1: Cpu, was: nat, L: Leave, b: Block)
      requires Steps(s0, k) == s1 && s1.eip in blocks && b == blocks[s1.eip] && b.start == s1.eip
      requires 0 <= L.budget < was && ByOwn(b, L.cause) && OwnJump(Steps(s1, was - L.budget - 1))
      requires Arrives(b, s1.mem, was - L.budget, L) && L.mem == mem && L.eip == eip
      ensures L.cause.ByReg? && Here(s0, k + (was - L.budget), Some((s1.eip, L.cause.k)))
    {
      hide Step, Steps, Rd, OwnJump;
      StrayedAfter(s0, k, s1, was - L.budget, Cpu(mem, eip));
    }

    lemma WatchChanged(cause: Cause, site: word, was: nat)
      requires CameBack(cause, site, was) && cause == Watched
      ensures watch.Some? && Rd(mem, watch.value.0) != watch.value.1
    {
      hide Rd;
    }
  }

  lemma StrayedAfter(s0: Cpu, k: nat, s1: Cpu, n: nat, t: Cpu)
    requires Steps(s0, k) == s1 && Strayed(s1, n, t)
    ensures Strayed(s0, k + n, t) && Steps(s0, k + n - 1) == Steps(s1, n - 1)
  {
    hide Step, Steps, Rd, OwnJump;
    StepsAdd(s0, k, n - 1);
  }

  lemma StrayedSteps(s: Cpu, n: nat, t: Cpu)
    requires Strayed(s, n, t)
    ensures n > 0
  {
    hide Step, Steps, Rd;
  }

  lemma NoStray(b: Block, s: Cpu, was: nat, L: Leave)
    requires b.start == s.eip && 0 <= L.budget <= was && Arrives(b, s.mem, was - L.budget, L)
    requires !(L.budget < was && ByOwn(b, L.cause) && OwnJump(Steps(s, was - L.budget - 1)))
    ensures Steps(s, was - L.budget) == Cpu(L.mem, L.eip)
  {
    hide Steps, Rd, OwnJump, ByOwn;
  }

  lemma TameNow(s: Cpu, n: nat, memSize: int)
    requires Tame(s, n, memSize)
    ensures LoopsHarmless(s, memSize) && (n > 0 ==> InBounds(s, memSize))
  {
    hide LoopsHarmless, InBounds;
    NoStep(s);
    assert LoopsHarmless(Steps(s, 0), memSize);
  }

  lemma BlockStart(blocks: map<word, Block>, mem: Mem, marks: Marks, memSize: int, s: word)
    requires BlocksValid(blocks, mem, marks, memSize) && s in blocks
    ensures blocks[s].start == s
  {
  }

  lemma LinkTarget(blocks: map<word, Block>, links: map<Site, word>, k: Site)
    requires LinksValid(blocks, links) && k in links
    ensures k.0 in blocks && links[k] in blocks && k.1 < |blocks[k.0].stubs| && blocks[k.0].stubs[k.1].target == links[k]
  {
  }
}
