/** A program whose block cannot be translated: its fifth instruction finds all
    registers pinned. */
module ShortBlock {
  import opened Options
  import opened Words
  import opened Memory
  import opened X86
  import opened RegCache
  import opened CacheProofs
  import opened Operands
  import opened Insn
  import opened CopyLoop
  import opened Blocks
  import opened Ledger
  import opened LedgerInsn
  import opened Enough
  import opened NoRegister

  // ------------------------------------------------------------ its memory

  const START: word := 4000

  /** Two words are made negations of others, then an instruction has operands
      over each of the two: from 1004 and from 1012. */
  function Fields5(): seq<word> {
    [1000, 1000, 4024, 3000, 1000, 4048, 1008, 1008, 4072, 3008, 1008, 4096, 1004, 1012, 0]
  }

  ghost function Put(m: Mem, a: word, s: seq<word>): Mem
    requires a + 8 * |s| < TWO64
    decreases |s|
  {
    if s == [] then m else Wr(Put(m, a + 8, s[1..]), a, s[0])
  }

  lemma {:induction false} PutIs(m: Mem, a: word, s: seq<word>, i: nat)
    requires a + 8 * |s| < TWO64 && i < |s|
    ensures Rd(Put(m, a, s), a + 8 * i) == s[i]
    decreases |s|
  {
    hide Rd, Wr;
    var t := Put(m, a + 8, s[1..]);
    if i == 0 {
      RdWrSame(t, a, s[0]);
    } else {
      PutIs(m, a + 8, s[1..], i - 1);
      RdWrOther(t, a, s[0], a + 8 * i);
      assert a + 8 * i == a + 8 + 8 * (i - 1);
    }
  }

  ghost function Zeros(): Mem { seq(SIZE, i => 0 as byte) }

  /** Memory ends after the five instructions. */
  ghost function TheWorld(): World { World(Put(Zeros(), START, Fields5()), {}, {}, 4120, false, Turns(0, 0, 0)) }

  function Insn5(i: nat): Source
    requires i < 5
  {
    var f := Fields5();
    Source(START + 24 * i, i, f[3 * i], f[3 * i + 1], f[3 * i + 2], false, false, false)
  }

  lemma SourceIs(i: nat)
    requires i < 5
    ensures SourceAt(TheWorld(), {}, START, i) == Insn5(i)
  {
    hide Rd, Put, Fields5;
    var f := Fields5();
    assert |f| == 15 by { FieldsSize(); }
    PutIs(Zeros(), START, f, 3 * i);
    PutIs(Zeros(), START, f, 3 * i + 1);
    PutIs(Zeros(), START, f, 3 * i + 2);
  }

  lemma FieldsSize()
    ensures |Fields5()| == 15
  {
  }

  lemma TheExtent()
    ensures FindCopy(TheWorld().mem, {}, START, 4120) == None && Extent(TheWorld(), START, false, 0) == (5, {})
  {
    hide Rd, TheWorld;
    assert TheWorld() == World(TheWorld().mem, {}, {}, 4120, false, Turns(0, 0, 0)) by { WorldIs(); }
    ExtentFrom(5);
    ExtentFrom(4);
    ExtentFrom(3);
    ExtentFrom(2);
    ExtentFrom(1);
    ExtentFrom(0);
  }

  lemma WorldIs()
    ensures TheWorld() == World(TheWorld().mem, {}, {}, 4120, false, Turns(0, 0, 0))
  {
  }

  lemma ExtentFrom(i: nat)
    requires i <= 5 && (i < 5 ==> Extent(TheWorld(), START, false, i + 1) == (5, {}))
    ensures Extent(TheWorld(), START, false, i) == (5, {})
  {
    hide Rd, TheWorld, TouchedIn;
    assert TheWorld() == World(TheWorld().mem, {}, {}, 4120, false, Turns(0, 0, 0)) by { WorldIs(); }
    if i < 5 {
      SourceIs(i);
      var s := Insn5(i);
      assert START + 24 * i == s.p;
      NotTouched(s.fb);
      var none: set<int> := {};
      assert none + none == none;
      assert !(s.fa == s.fb && s.fc != s.p + 24);
    } else {
      assert START + 24 * (i + 1) > 4120;
    }
  }

  lemma NotTouched(b: word)
    requires b < 3992
    ensures TouchedIn(b, START) == {}
  {
  }

  lemma TheChecks()
    ensures Hoisted(TheWorld(), {}, START, 5) == CHECKS.hoist
  {
    hide Rd, TheWorld;
    assert TheWorld() == World(TheWorld().mem, {}, {}, 4120, false, Turns(0, 0, 0)) by { WorldIs(); }
    SourceIs(0);
    SourceIs(1);
    SourceIs(2);
    SourceIs(3);
    SourceIs(4);
    var w := TheWorld();
    assert Hoisted(w, {}, START, 0) == [];
    assert Hoisted(w, {}, START, 1) == [125];
    assert Hoisted(w, {}, START, 2) == [125];
    assert Hoisted(w, {}, START, 3) == [125, 126];
    assert Hoisted(w, {}, START, 4) == [125, 126];
  }

  // ------------------------------------------------- the first instructions

  function Word1(i: nat): word
    requires i < 2
  {
    1000 + 8 * i
  }

  /** The first n registers have the words at 3000 and 3008 and their negations
      those at 1000 and 1008; zero is a word known to be zero. */
  ghost predicate St(c: Jit, n: nat, zero: Option<word>, held: Option<word>) {
    && n <= 2 && !c.movbe && !c.flagsLive && c.pend == held.Some? && (held.Some? ==> c.pendAddr == held.value)
    && (forall i | 0 <= i < 16 :: c.consts[i].used <==> i == 0 && zero.Some?) && (zero.Some? ==> c.consts[0] == CConst(true, zero.value, 0))
    && (forall i | 0 <= i < 16 :: c.aliases[i].used <==> i < n) && (forall i | 0 <= i < n :: c.aliases[i] == CAlias(true, Word1(i), i, true))
    && (forall i | 0 <= i < 11 :: c.regs[i].used <==> i < n) && (forall i | 0 <= i < n :: c.regs[i].addr == 3000 + 8 * i)
  }

  ghost predicate Pins(c: Jit, s: set<Reg>) { forall r: Reg :: c.regs[r].pinned <==> r in s }

  lemma Finds(c: Jit, n: nat, zero: Option<word>, held: Option<word>)
    requires St(c, n, zero, held) && (zero.Some? ==> Cacheable(zero.value) && forall i | 0 <= i < n :: Word1(i) != zero.value)
    ensures forall i | 0 <= i < n :: Lookup(c, Word1(i)) == NegReg(i)
    ensures zero.Some? ==> Lookup(c, zero.value) == Const(0)
    ensures forall a: word | (forall i | 0 <= i < n :: a != Word1(i) && a != 3000 + 8 * i) && zero != Some(a) :: Lookup(c, a) == NoVal
  {
  }

  /** The scan stops at the first register with nothing in it. */
  lemma {:induction false} ScanTo(c: Jit, r: Reg, i: nat, best: int)
    requires i <= r && -1 <= best < 11 && (best >= 0 ==> !c.regs[best].pinned) && Empty(c, r) && !c.regs[r].pinned
    requires forall j: Reg | j < r :: c.regs[j].pinned || !Empty(c, j)
    ensures ScratchScan(c, i, best) == r
    decreases r - i
  {
    hide Aliased;
    if i < r {
      if c.regs[i].pinned {
        ScanTo(c, r, i + 1, best);
      } else {
        ScanTo(c, r, i + 1, if best < 0 || c.regs[i].lru < c.regs[best].lru then i else best);
      }
    }
  }

  lemma Takes(c: Jit, n: nat, zero: Option<word>, held: Option<word>, p: set<Reg>, r: Reg)
    requires St(c, n, zero, held) && Pins(c, p) && n <= r && r !in p && (forall j: Reg | n <= j < r :: j in p)
    requires held.Some? ==> zero == held && Cacheable(held.value)
    ensures Scratch(c).Some? && Scratch(c).value.0 == r
    ensures St(Scratch(c).value.1, n, zero, held) && Pins(Scratch(c).value.1, p + {r})
  {
    hide ScratchScan, FlushPending;
    forall j: Reg
      ensures Empty(c, j) <==> j >= n
    {
      if j < n {
        assert c.aliases[j].used && c.aliases[j].reg == j;
      }
    }
    ScanTo(c, r, 0, -1);
    var d := Pin(c, r);
    assert St(d, n, zero, held) && Pins(d, p + {r});
    if held.Some? {
      assert FindConst(d.consts, held.value, 0) == 0;
      assert Lookup(d, held.value) == Const(0);
    }
    var e := DropReg(d, r);
    assert Scratch(c) == Some((r, e));
  }

  lemma Unpins(c: Jit, n: nat, zero: Option<word>, held: Option<word>)
    requires St(c, n, zero, held)
    ensures St(UnpinAll(c), n, zero, held) && Pins(UnpinAll(c), {})
  {
  }

  /** Only the code differs. */
  lemma Emits(c: Jit, d: Jit, n: nat, zero: Option<word>, held: Option<word>, p: set<Reg>)
    requires St(c, n, zero, held) && Pins(c, p) && d == c.(code := d.code)
    ensures St(d, n, zero, held) && Pins(d, p)
  {
  }

  /** The negation at 1000 is stored through two more registers. */
  lemma Flushes(c: Jit)
    requires St(c, 1, None, Some(1000)) && Pins(c, {})
    ensures FlushPending(c).Some? && St(FlushPending(c).value, 1, None, None)
  {
    hide Lookup, Scratch;
    var c0 := c.(pend := false);
    assert St(c0, 1, None, None);
    Finds(c0, 1, None, None);
    assert Lookup(c0, 1000) == NegReg(0) by { assert Word1(0) == 1000; }
    var c1 := Pin(Touch(c0, NegReg(0)), 0);
    assert St(c1, 1, None, None) && Pins(c1, {0});
    assert Pin(c1, 0) == c1;
    Takes(c1, 1, None, None, {0}, 1);
    var c2 := Scratch(c1).value.1;
    var c3 := Emit(Emit(c2, MovRR(1, 0)), NegR(1));
    Emits(c2, c3, 1, None, None, {0} + {1});
    assert ToReg(c1, NegReg(0)) == Some((1, c3));
    Takes(c3, 1, None, None, {0} + {1}, 2);
    var c4 := Scratch(c3).value.1;
    var c5 := Emit(Emit(Emit(c4, MovRR(2, 1)), BswapR(2)), Store(Abs(1000), 2));
    Emits(c4, c5, 1, None, None, {0} + {1} + {2});
    assert StoreReg(c3, 1, Abs(1000)) == Some(c5);
    assert FlushPending(c) == Some(Unpin(Unpin(c5, 1), 0));
  }

  lemma ReadsAll(c: Jit, i: nat, n: nat, zero: Option<word>, held: Option<word>)
    requires i < 5 && St(c, n, zero, held)
    ensures var (f, d) := ReadFields(c, Insn5(i));
      f == Fields(Known(Insn5(i).fa), Known(Insn5(i).fb), Known(Insn5(i).fc)) && St(d, n, zero, held) && Pins(d, {})
  {
    Unpins(c, n, zero, held);
  }

  lemma Hoists(b: Build, i: nat)
    requires i < 4
    ensures CheckStore(b, Insn5(i), Known(Insn5(i).fb), CHECKS) == Some((0, b))
  {
  }

  /** A word is cleared, after what was held back is stored. */
  lemma Clears(b: Build, n: nat)
    requires n < 2 && St(b.c, n, None, if n == 0 then None else Some(1000))
    ensures TranslateInsn(b, Insn5(2 * n), CHECKS).Some?
    ensures var (ended, d) := TranslateInsn(b, Insn5(2 * n), CHECKS).value; !ended && St(d.c, n, Some(Word1(n)), Some(Word1(n)))
  {
    hide ReadFields, FlushPending, SetConst, CheckStore;
    var s, held := Insn5(2 * n), if n == 0 then None else Some(1000);
    ReadsAll(b.c, 2 * n, n, None, held);
    var (f, c0) := ReadFields(b.c, s);
    Hoists(b.(c := c0), 2 * n);
    assert s.fa == s.fb == Word1(n) && s.fc == s.p + 24;
    var x := Result(Const(0), Some(true), false);
    assert Arithmetic(c0, s, f, 0) == Some((x, 0, c0));
    assert c0.(flagsLive := false) == c0;
    if n == 1 {
      Flushes(c0);
    } else {
      assert FlushPending(c0) == Some(c0) by { NothingHeld(c0); }
    }
    var c1 := FlushPending(c0).value;
    assert St(c1, n, None, None);
    SetsZero(c1, n);
    var c2 := SetConst(c1, Word1(n), 0);
    assert Pendable(f.b) && !Spans(Word1(n)) && !Branches(s, f);
  }

  lemma NothingHeld(c: Jit)
    requires !c.pend
    ensures FlushPending(c) == Some(c)
  {
  }

  lemma SetsZero(c: Jit, n: nat)
    requires n < 2 && St(c, n, None, None)
    ensures St(SetConst(c, Word1(n), 0), n, Some(Word1(n)), None)
  {
    var d := CacheDrop(c, Word1(n));
    assert FreeConst(d.consts, 0) == 0;
  }

  /** A loaded word is subtracted from it: it is known as the negation. */
  lemma Subtracts(b: Build, n: nat)
    requires n < 2 && St(b.c, n, Some(Word1(n)), Some(Word1(n)))
    ensures TranslateInsn(b, Insn5(2 * n + 1), CHECKS).Some?
    ensures var (ended, d) := TranslateInsn(b, Insn5(2 * n + 1), CHECKS).value; !ended && St(d.c, n + 1, None, Some(Word1(n)))
  {
    hide ReadFields, CheckStore, GetStatic, SetAlias, Lookup;
    var s, a := Insn5(2 * n + 1), Word1(n);
    ReadsAll(b.c, 2 * n + 1, n, Some(a), Some(a));
    var (f, c0) := ReadFields(b.c, s);
    Hoists(b.(c := c0), 2 * n + 1);
    assert s.fa == 3000 + 8 * n && s.fb == a && s.fc == s.p + 24;
    Loads(c0, n);
    var c1 := GetStatic(c0, 3000 + 8 * n).value.1;
    assert GetStatic(c1, a) == Some((CVal.Const(0), c1)) by { ZeroIs(c1, n); }
    var x := Result(NegReg(n), None, false);
    assert Arithmetic(c0, s, f, 0) == Some((x, 0, c1));
    assert c1.(flagsLive := false) == c1 by { LoadedFlags(c1, n); }
    Negates(c1, n);
    assert Pendable(f.b) && !Spans(a) && !Branches(s, f);
  }

  /** Register n has been loaded, and is not yet the negation of anything. */
  ghost predicate Half(c: Jit, n: nat) {
    && n < 2 && !c.movbe && !c.flagsLive && c.pend && c.pendAddr == Word1(n)
    && (forall i | 0 <= i < 16 :: c.consts[i].used <==> i == 0) && c.consts[0] == CConst(true, Word1(n), 0)
    && (forall i | 0 <= i < 16 :: c.aliases[i].used <==> i < n) && (forall i | 0 <= i < n :: c.aliases[i] == CAlias(true, Word1(i), i, true))
    && (forall i | 0 <= i < 11 :: c.regs[i].used <==> i < n + 1) && (forall i | 0 <= i < n + 1 :: c.regs[i].addr == 3000 + 8 * i)
  }

  lemma LoadedFlags(c: Jit, n: nat)
    requires Half(c, n)
    ensures c.(flagsLive := false) == c && c.pend && c.pendAddr == Word1(n)
  {
  }

  lemma Loads(c: Jit, n: nat)
    requires n < 2 && St(c, n, Some(Word1(n)), Some(Word1(n))) && Pins(c, {})
    ensures var a: word := 3000 + 8 * n;
      GetStatic(c, a).Some? && GetStatic(c, a).value.0 == InReg(n) && Half(GetStatic(c, a).value.1, n)
  {
    hide Lookup, Scratch, Bind;
    var a: word := 3000 + 8 * n;
    Finds(c, n, Some(Word1(n)), Some(Word1(n)));
    Takes(c, n, Some(Word1(n)), Some(Word1(n)), {}, n);
    var c1 := Scratch(c).value.1;
    var c2 := LoadStatic(c1, n, a);
    Emits(c1, c2, n, Some(Word1(n)), Some(Word1(n)), {} + {n});
    BindsHalf(c2, n);
  }

  lemma BindsHalf(c: Jit, n: nat)
    requires n < 2 && St(c, n, Some(Word1(n)), Some(Word1(n)))
    ensures Half(Bind(c, n, 3000 + 8 * n), n)
  {
  }

  lemma ZeroIs(c: Jit, n: nat)
    requires Half(c, n)
    ensures GetStatic(c, Word1(n)) == Some((CVal.Const(0), c))
  {
    assert FindConst(c.consts, Word1(n), 0) == 0;
  }

  lemma Negates(c: Jit, n: nat)
    requires Half(c, n)
    ensures SetAlias(c, Word1(n), n, true).Some? && St(SetAlias(c, Word1(n), n, true).value, n + 1, None, Some(Word1(n)))
  {
    var d := CacheDrop(c, Word1(n));
    assert FreeAlias(d.aliases, 0) == n;
  }

  // --------------------------------------------------------------- the block

  lemma LastFails(b: Build)
    requires St(b.c, 2, None, Some(1008))
    ensures !Suffices(b.c, Insn5(4), CHECKS)
  {
    hide Suffices, Lookup;
    Finds(b.c, 2, None, Some(1008));
    assert Lookup(b.c, 1000) == NegReg(0) by { assert Word1(0) == 1000; }
    assert Lookup(b.c, 1008) == NegReg(1) by { assert Word1(1) == 1008; }
    forall r: Reg
      ensures Empty(b.c, r) <==> r >= 2
    {
      if r < 2 {
        assert b.c.aliases[r].used && b.c.aliases[r].reg == r;
      }
    }
    LastShort(b.c);
  }

  /** Four instructions are translated. */
  lemma FourDone(b: Build) returns (d: Build)
    requires St(b.c, 0, None, None)
    ensures TranslateFrom(b, TheWorld(), {}, CHECKS, START, 0, 4) == Some((4, false, d)) && St(d.c, 2, None, Some(1008))
  {
    hide TranslateInsn, St, TheWorld, SourceAt;
    SourceIs(0);
    SourceIs(1);
    SourceIs(2);
    SourceIs(3);
    var w := TheWorld();
    Clears(b, 0);
    var b1 := TranslateInsn(b, Insn5(0), CHECKS).value.1;
    Subtracts(b1, 0);
    var b2 := TranslateInsn(b1, Insn5(1), CHECKS).value.1;
    Clears(b2, 1);
    var b3 := TranslateInsn(b2, Insn5(2), CHECKS).value.1;
    Subtracts(b3, 1);
    d := TranslateInsn(b3, Insn5(3), CHECKS).value.1;
    assert TranslateFrom(b3, w, {}, CHECKS, START, 3, 4) == Some((4, false, d));
    assert TranslateFrom(b2, w, {}, CHECKS, START, 2, 4) == Some((4, false, d));
    assert TranslateFrom(b1, w, {}, CHECKS, START, 1, 4) == Some((4, false, d));
  }

  /** There is no translation of the block at START. */
  lemma NoBlock()
    ensures Translate(TheWorld(), START) == None
  {
    hide TranslateFrom, Suffices, TheWorld, FindCopy, Extent, Hoisted, SourceAt, Put;
    assert TheWorld() == World(TheWorld().mem, {}, {}, 4120, false, Turns(0, 0, 0)) by { WorldIs(); }
    TheExtent();
    TheChecks();
    var w, b := TheWorld(), EmptyBuild(TheWorld(), START, None);
    var d := FourDone(b);
    LastFails(d);
    SourceIs(4);
    assert FailsAt(b, w, {}, CHECKS, START, 0, 4);
    assert FailsBefore(b, w, {}, CHECKS, START, 0, 5);
    var none: set<int> := {};
    assert none + none == none;
    assert Checks(Hoisted(w, {}, START, 5), 515) == CHECKS;
    BlockEnough(w, START);
  }
}
