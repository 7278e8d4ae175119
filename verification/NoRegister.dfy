/** Instructions for which no register is left: a program whose block cannot be
    translated, and how one unaligned operand is enough. */
module NoRegister {
  import opened Options
  import opened Words
  import opened Bits
  import opened Memory
  import opened X86
  import opened RegCache
  import opened CacheProofs
  import opened Operands
  import opened Insn
  import opened CopyLoop
  import opened Blocks
  import opened Ledger
  import opened LedgerProofs
  import opened LedgerInsn
  import opened LedgerFinish
  import opened Enough

  // ------------------------------------------------------------ the ledgers

  /** The registers that hold something are s. */
  lemma OpeningIs(z: Jit, s: set<Reg>)
    requires forall r: Reg :: r in s <==> !Empty(z, r)
    ensures var L := Opening(z);
      L.free == 11 - |s| && L.held == z.pend && L.gone == {} && L.got == {} && forall r: Reg :: r in L.line <==> r in s
  {
    hide Line, Empty;
    LineIs(z, 11);
    Eleven(s, EmptyBelow(z, 11));
  }

  lemma Eleven(s: set<Reg>, t: set<Reg>)
    requires s !! t && forall r: Reg :: r in s || r in t
    ensures |s| + |t| == 11
  {
    var e := EmptyCache(false, Turns(0, 0, 0));
    LineIs(e, 11);
    SomeOf(Line(e, 11));
    assert s + t == EmptyBelow(e, 11);
  }

  lemma SomeOf(t: seq<Reg>)
    ensures t == [] || exists r: Reg :: r in t
  {
    if t != [] {
      assert t[0] in t;
    }
  }

  lemma NoneLeft(l: seq<Reg>, r: Reg, s: Reg)
    requires forall x | x in l :: x == r || x == s
    ensures Without(Without(l, r), s) == []
  {
    WithoutIs(l, r);
    WithoutIs(Without(l, r), s);
    SomeOf(Without(Without(l, r), s));
  }

  const LAST: Source := Source(4096, 4, 1004, 1012, 0, false, false, false)
  const CHECKS: Checks := Checks([125, 126, 127], 515)

  /** 1000 and 1008 are known as negations, the latter to be stored yet; 1016 is
      not cached. */
  lemma LastShort(z: Jit)
    requires !z.movbe && z.pend && z.pendAddr == 1008
    requires Lookup(z, 1000) == NegReg(0) && Lookup(z, 1008) == NegReg(1) && Lookup(z, 1016) == NoVal
    requires forall r: Reg :: Empty(z, r) <==> r >= 2
    ensures !Suffices(z, LAST, CHECKS)
  {
    hide Lookup, Line, Opening, Empty, Shl, Shr, Or, Without;
    OpeningIs(z, {0, 1});
    var L0 := Opening(z);
    var f := ReadFields(z, LAST).0;
    assert f == Fields(Known(1004), Known(1012), Known(0));
    assert KeepFields(L0, f) == L0;
    assert Checked(z, L0, LAST, f.b, CHECKS) == Some(L0);
    NoneLeft(L0.line, 0, 1);
    LastA(z, L0);
  }

  /** A takes six registers, B four; for the held-back store there is one. */
  lemma LastA(z: Jit, L: Ledger)
    requires !z.movbe && z.pend && z.pendAddr == 1008
    requires Lookup(z, 1000) == NegReg(0) && Lookup(z, 1008) == NegReg(1) && Lookup(z, 1016) == NoVal
    requires L.free == 9 && L.held && L.gone == {} && L.got == {} && Without(Without(L.line, 0), 1) == []
    ensures Middle(z, L, LAST, Fields(Known(1004), Known(1012), Known(0))) == None
  {
    hide Lookup, Shl, Shr, Or;
    var M := L.(line := []);
    LookLine(z, L, [], 1000);
    LookLine(z, L, [], 1008);
    Spanned(z, M, 9, 1004, Minus(0), Minus(1));
    assert Keep(Keep(L, Minus(0)), Minus(1)) == M;
    assert Static(z, L, 1004) == Some((Where.Taken, M.(free := 5)));
    var N := M.(free := 5);
    assert Look(z, N, 1008) == Minus(1) && Look(z, N, 1016) == Nowhere && Keep(N, Minus(1)) == N;
    assert N.got + {1016} == {1016} && Cacheable(1016);
    assert Word(z, N, 1016) == Some((Where.Taken, N.(free := 4, got := {1016}))) by { NoTouch(z, N.(free := 4)); }
    var P := N.(free := 4, got := {1016});
    assert Look(z, P, 1008) == Minus(1);
    Spanned(z, P, 4, 1012, Minus(1), Where.Taken);
    assert Static(z, N, 1012) == Some((Where.Taken, P.(free := 1)));
    var Q := P.(free := 1);
    assert Look(z, Q, 1008) == Minus(1) && Keep(Q.(held := false), Minus(1)) == Q.(held := false);
    assert Flushed(z, Q) == None;
  }

  lemma NoTouch(z: Jit, L: Ledger)
    requires L.line == []
    ensures Touched(z, L) == L
  {
    hide Lookup;
  }

  /** With no register but empty ones, two words in registers are put together
      in two more, and two more for each that is a negation. */
  lemma Spanned(z: Jit, L: Ledger, n: nat, a: word, lo: Where, hi: Where)
    requires L.free == n && L.line == [] && (lo.Minus? || lo.Taken?) && (hi.Minus? || hi.Taken?)
    requires n >= 2 + (if lo.Minus? then 1 else 0) + (if hi.Minus? then 1 else 0)
    ensures Combined(z, L, lo, hi, Offset(a)) ==
      Some((Where.Taken, L.(free := n - 2 - (if lo.Minus? then 1 else 0) - (if hi.Minus? then 1 else 0))))
  {
    hide Lookup, Shl, Shr, Or, Touched;
    NoTouch(z, L.(free := n - 1));
    NoTouch(z, L.(free := n - 2));
    if n >= 3 {
      NoTouch(z, L.(free := n - 3));
    }
    if n >= 4 {
      NoTouch(z, L.(free := n - 4));
    }
  }

  // ---------------------------------------------------- one operand is enough

  /** Four registers, each negated one of the words named. */
  predicate Negations(z: Jit, p: word) {
    && Lookup(z, 1000) == NegReg(0) && Lookup(z, 1008) == NegReg(1)
    && Lookup(z, Add(p, 8)) == NegReg(2) && Lookup(z, Add(p, 16)) == NegReg(3)
    && forall r: Reg :: Empty(z, r) <==> r >= 4
  }

  function Fields4(): Fields { Fields(Known(1004), Dynamic(NegReg(2)), Dynamic(NegReg(3))) }

  /** Without MOVBE, an instruction whose A spans two negations and whose B and
      C are read at run time, negations too, takes all registers and one more. */
  lemma OneSpans(z: Jit, p: word, i: nat, k: Checks)
    requires !z.movbe && !z.pend && Negations(z, p)
    ensures !Suffices(z, Source(p, i, 1004, 0, 0, false, true, true), k)
  {
    hide Lookup, Line, Opening, Empty, Shl, Shr, Or, Without, Middle, Checked;
    var s := Source(p, i, 1004, 0, 0, false, true, true);
    OpeningIs(z, {0, 1, 2, 3});
    var L0 := Opening(z);
    var f := ReadFields(z, s).0;
    assert f == Fields4() by { FourFields(z, p, i); }
    var L1 := L0.(line := Without(Without(L0.line, 2), 3));
    assert KeepFields(L0, f) == L1;
    OthersLeft(L0.line);
    BTakes(z, L1, s, k);
    MiddleTakes(z, L1.(free := 6), s);
  }

  lemma FourFields(z: Jit, p: word, i: nat)
    requires Negations(z, p)
    ensures ReadFields(z, Source(p, i, 1004, 0, 0, false, true, true)).0 == Fields4()
  {
    hide Lookup, Empty;
    var c := UnpinAll(z);
    var d := PinVal(Touch(c, NegReg(2)), NegReg(2));
    SameEntries2(z, c, Add(p, 8));
    SameEntries2(z, d, Add(p, 16));
  }

  lemma OthersLeft(l: seq<Reg>)
    requires forall r: Reg :: r in l <==> r < 4
    ensures var m := Without(Without(l, 2), 3); Without(Without(m, 0), 1) == [] && 2 !in m && 3 !in m
  {
    WithoutIs(l, 2);
    WithoutIs(Without(l, 2), 3);
    NoneLeft(Without(Without(l, 2), 3), 0, 1);
  }

  lemma FreeTake(z: Jit, L: Ledger)
    requires L.free > 0 && !L.held
    ensures Take(z, L) == Some(L.(free := L.free - 1))
  {
    hide Lookup;
  }

  lemma BTakes(z: Jit, L: Ledger, s: Source, k: Checks)
    requires L.free == 7 && !L.held && 2 !in L.line
    ensures Checked(z, L, s, Dynamic(NegReg(2)), k) == Some(L.(free := 6))
  {
    hide Lookup, Take, Look;
    WithoutIs(L.line, 2);
    assert Keep(L, Minus(2)) == L;
    FreeTake(z, L);
    FreeTake(z, L.(free := 6));
    FreeTake(z, L.(free := 5));
  }

  lemma MiddleTakes(z: Jit, L: Ledger, s: Source)
    requires Lookup(z, 1000) == NegReg(0) && Lookup(z, 1008) == NegReg(1) && !z.movbe
    requires L.free == 6 && !L.held && L.gone == {} && L.got == {} && Without(Without(L.line, 0), 1) == [] && 3 !in L.line
    ensures Middle(z, L, s, Fields4()).Some? &&
      var (w, kept, M) := Middle(z, L, s, Fields4()).value; Finished(z, M, w, kept, Dynamic(NegReg(2))) == None
  {
    hide Lookup, Shl, Shr, Or, Take, Without;
    var M := L.(line := []);
    LookLine(z, L, [], 1000);
    LookLine(z, L, [], 1008);
    Spanned(z, M, 6, 1004, Minus(0), Minus(1));
    assert Keep(Keep(L, Minus(0)), Minus(1)) == M;
    assert Static(z, L, 1004) == Some((Where.Taken, M.(free := 2)));
    FreeTake(z, M.(free := 2));
    assert Through(z, M.(free := 2)) == Some((Where.Taken, M.(free := 1)));
    assert Keep(M.(free := 1), Minus(3)) == M.(free := 1) by { NoneThere(3); }
    FreeTake(z, M.(free := 1));
    assert ForC(z, M.(free := 1), s, Dynamic(NegReg(3))) == Some(M.(free := 0));
    assert Finished(z, M.(free := 0), Where.Taken, false, Dynamic(NegReg(2))) == None;
  }

  lemma NoneThere(r: Reg)
    ensures Without([], r) == []
  {
  }
}
