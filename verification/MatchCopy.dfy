/** Finding the word copy loop, field by field against its template, each
    variable bound where it is met first. */
module MatchCopy {
  import opened Options
  import opened Words
  import opened Memory
  import opened CopyLoop

  datatype Sym = ANY | T1 | T2 | SV | DV | CV | MV | PF1 | PF2 | PF3 | PF4 | SD

  /** What field f of the k-th instruction has to be: a variable, a field of the
      loop, or anything. */
  function Tmpl(k: nat, f: nat): Sym
    requires k < 19 && f < 2
  {
    match (k, f)
    case (0, 0) => T1    case (0, _) => T1
    case (1, 0) => T2    case (1, _) => T2
    case (2, 0) => PF1   case (2, _) => PF1
    case (3, 0) => SV    case (3, _) => T1
    case (4, 0) => T1    case (4, _) => PF1
    case (5, 0) => ANY   case (5, _) => T2
    case (6, 0) => T1    case (6, _) => T1
    case (7, 0) => PF2   case (7, _) => PF2
    case (8, 0) => PF3   case (8, _) => PF3
    case (9, 0) => PF4   case (9, _) => PF4
    case (10, 0) => DV   case (10, _) => T1
    case (11, 0) => T1   case (11, _) => PF2
    case (12, 0) => T1   case (12, _) => PF3
    case (13, 0) => T1   case (13, _) => PF4
    case (14, 0) => ANY  case (14, _) => ANY
    case (15, 0) => T2   case (15, _) => ANY
    case (16, 0) => MV   case (16, _) => SD
    case (17, 0) => MV   case (17, _) => SD
    case (_, 0) => MV    case (_, _) => CV
  }

  /** Where each variable is met first, counting A and B fields. */
  function FirstMet(x: Sym): nat {
    match x
    case T1 => 0 case T2 => 2 case SV => 6 case DV => 20 case MV => 32 case CV => 37 case _ => 0
  }

  predicate IsVar(x: Sym) { x in {T1, T2, SV, DV, CV, MV} }

  function Value(d: Desc, x: Sym): int {
    match x
    case T1 => d.t1 case T2 => d.t2 case SV => d.sv case DV => d.dv case CV => d.cv case MV => d.mv
    case PF1 => F1(d) case PF2 => F2(d) case PF3 => F3(d) case PF4 => F4(d) case _ => 0
  }

  /** The variables as read where they are met first. */
  function Guess(m: Mem, start: word): Desc
    requires start + LOOP_LEN < TWO64
  {
    Desc(start, Rd(m, start), Rd(m, start + 24), Rd(m, start + 72), Rd(m, start + 240), Rd(m, start + 440), Rd(m, start + 384))
  }

  function At(m: Mem, start: word, k: nat, f: nat): word
    requires start + LOOP_LEN < TWO64 && k < 19 && f < 3
  {
    Rd(m, start + 24 * k + 8 * f)
  }

  /** One field as the template has it, and static. */
  predicate FieldFits(m: Mem, dyn: set<int>, d: Desc, k: nat, f: nat)
    requires d.start + LOOP_LEN < TWO64 && k < 19 && f < 3
  {
    if f == 2 then At(m, d.start, k, 2) == TmplC(d, k) && (d.start + 24 * k + 16) / 8 !in dyn
    else
      Tmpl(k, f) == ANY ||
      ((d.start + 24 * k + 8 * f) / 8 !in dyn &&
       if Tmpl(k, f) != SD then At(m, d.start, k, f) == Value(d, Tmpl(k, f))
       else
         && (At(m, d.start, k, f) == d.sv || At(m, d.start, k, f) == d.dv)
         && (k == 17 ==> At(m, d.start, k, f) != At(m, d.start, 16, 1)))
  }

  predicate AllFit(m: Mem, dyn: set<int>, d: Desc)
    requires d.start + LOOP_LEN < TWO64
  {
    forall k: nat, f: nat | k < 19 && f < 3 :: FieldFits(m, dyn, d, k, f)
  }

  lemma TmplIs(d: Desc, sd: bool, k: nat)
    requires k < 19
    ensures TmplA(d, k) == if Tmpl(k, 0) == ANY then None else Some(Value(d, Tmpl(k, 0)))
    ensures TmplB(d, sd, k) ==
      if Tmpl(k, 1) == ANY then None
      else if Tmpl(k, 1) != SD then Some(Value(d, Tmpl(k, 1)))
      else Some(if (k == 16) == sd then d.sv else d.dv)
    ensures Tmpl(k, 0) != SD && (Tmpl(k, 1) == SD <==> k in {16, 17})
    ensures Patched(k, 0) <==> Tmpl(k, 0) == ANY
    ensures Patched(k, 1) <==> Tmpl(k, 1) == ANY
  {
  }

  /** Fitting the template is being the loop, in one order of S and D. */
  lemma FitsIsLoop(m: Mem, dyn: set<int>, d: Desc)
    requires d.start + LOOP_LEN < TWO64 && d.sv != d.dv
    ensures AllFit(m, dyn, d) <==> (LoopIn(m, d, true) || LoopIn(m, d, false)) && TemplateStatic(d.start, dyn)
  {
    hide Rd, Tmpl, TmplA, TmplB, Value, TmplC;
    if AllFit(m, dyn, d) {
      FitsLoop(m, dyn, d);
    }
    if (LoopIn(m, d, true) || LoopIn(m, d, false)) && TemplateStatic(d.start, dyn) {
      var sd := LoopIn(m, d, true);
      forall k: nat, f: nat | k < 19 && f < 3
        ensures FieldFits(m, dyn, d, k, f)
      {
        LoopFits(m, dyn, d, sd, k, f);
      }
    }
  }

  lemma LoopFits(m: Mem, dyn: set<int>, d: Desc, sd: bool, k: nat, f: nat)
    requires d.start + LOOP_LEN < TWO64 && d.sv != d.dv && LoopIn(m, d, sd) && TemplateStatic(d.start, dyn) && k < 19 && f < 3
    ensures FieldFits(m, dyn, d, k, f)
  {
    hide Rd, Tmpl, TmplA, TmplB, Value, TmplC;
    TmplIs(d, sd, k);
    TmplIs(d, sd, 16);
    assert d.start + 24 * k + 8 * 0 == d.start + 24 * k;
    assert d.start + 24 * k + 8 * 1 == d.start + 24 * k + 8;
    assert d.start + 24 * k + 8 * 2 == d.start + 24 * k + 16;
    assert d.start + 24 * 16 + 8 * 1 == d.start + 24 * 16 + 8;
    assert !Patched(k, 2);
    if f < 2 && Tmpl(k, f) != ANY {
      assert !Patched(k, f);
    }
  }

  lemma FitsLoop(m: Mem, dyn: set<int>, d: Desc)
    requires d.start + LOOP_LEN < TWO64 && d.sv != d.dv && AllFit(m, dyn, d)
    ensures LoopIn(m, d, At(m, d.start, 16, 1) == d.sv) && TemplateStatic(d.start, dyn)
  {
    hide Rd, Tmpl, TmplA, TmplB, Value, TmplC;
    var sd := At(m, d.start, 16, 1) == d.sv;
    forall k: nat | k < 19
      ensures TmplA(d, k).Some? ==> Rd(m, d.start + 24 * k) == TmplA(d, k).value
      ensures TmplB(d, sd, k).Some? ==> Rd(m, d.start + 24 * k + 8) == TmplB(d, sd, k).value
      ensures Rd(m, d.start + 24 * k + 16) == TmplC(d, k)
    {
      TmplIs(d, sd, k);
      TmplIs(d, sd, 16);
      assert FieldFits(m, dyn, d, k, 0) && FieldFits(m, dyn, d, k, 1) && FieldFits(m, dyn, d, k, 2);
      assert FieldFits(m, dyn, d, 16, 1);
      assert d.start + 24 * k + 8 * 0 == d.start + 24 * k;
      assert d.start + 24 * k + 8 * 1 == d.start + 24 * k + 8;
      assert d.start + 24 * k + 8 * 2 == d.start + 24 * k + 16;
    }
    forall k: nat, f: nat | k < 19 && f < 3 && !Patched(k, f)
      ensures (d.start + 24 * k + 8 * f) / 8 !in dyn
    {
      TmplIs(d, sd, k);
      assert FieldFits(m, dyn, d, k, f);
    }
  }

  // -------------------------------------------------------------- the method

  /** What is known when k instructions and f fields of the next fit. */
  predicate FitSoFar(m: Mem, dyn: set<int>, d: Desc, k: nat, f: nat)
    requires d.start + LOOP_LEN < TWO64 && k <= 19
  {
    && (forall j: nat, g: nat | j < k && g < 3 :: FieldFits(m, dyn, d, j, g))
    && (f > 0 ==> k < 19 && FieldFits(m, dyn, d, k, 2) && FieldFits(m, dyn, d, k, 0))
    && (f > 1 ==> k < 19 && FieldFits(m, dyn, d, k, 1))
  }

  /** Variables met are bound to what was read there. */
  predicate Bound(sym: map<Sym, word>, d: Desc, n: nat) {
    && (forall x: Sym | IsVar(x) :: x in sym <==> FirstMet(x) < n)
    && (forall x: Sym | x in sym :: sym[x] == Value(d, x))
    && PF1 in sym && PF2 in sym && PF3 in sym && PF4 in sym
  }

  /** The value at a variable's first place is the one guessed. */
  lemma MetFirst(m: Mem, start: word, k: nat, f: nat)
    requires start + LOOP_LEN < TWO64 && k < 19 && f < 2 && IsVar(Tmpl(k, f))
    ensures FirstMet(Tmpl(k, f)) <= 2 * k + f
    ensures FirstMet(Tmpl(k, f)) == 2 * k + f ==> At(m, start, k, f) == Value(Guess(m, start), Tmpl(k, f))
  {
    hide Rd;
  }

  /** Only the variable met there is new. */
  lemma NextBound(k: nat, f: nat, x: Sym)
    requires k < 19 && f < 2 && IsVar(x) && FirstMet(x) == 2 * k + f
    ensures Tmpl(k, f) == x
  {
  }

  /** Checks one operand field against the template, binding its variable if it
      is new. */
  method MatchField(m: Mem, dyn: set<int>, start: word, k: nat, f: nat, sym0: map<Sym, word>, sd0: word)
    returns (ok: bool, sym: map<Sym, word>, sd: word)
    requires start + LOOP_LEN < TWO64 && k < 19 && f < 2 && Bound(sym0, Guess(m, start), 2 * k + f)
    requires k == 17 && f == 1 ==> sd0 == At(m, start, 16, 1)
    ensures ok == FieldFits(m, dyn, Guess(m, start), k, f)
    ensures ok ==> Bound(sym, Guess(m, start), 2 * k + f + 1)
    ensures k == 16 && f == 1 && ok ==> sd == At(m, start, 16, 1)
    ensures !(k == 16 && f == 1) ==> sd == sd0
  {
    hide Rd, Tmpl;
    ghost var d := Guess(m, start);
    var x := Tmpl(k, f);
    var v := Rd(m, start + 24 * k + 8 * f);
    sym, sd := sym0, sd0;
    forall y: Sym | IsVar(y) && FirstMet(y) == 2 * k + f
      ensures y == x
    {
      NextBound(k, f, y);
    }
    TmplIs(d, true, k);
    if x == ANY {
      return true, sym, sd;
    }
    if (start + 24 * k + 8 * f) / 8 in dyn {
      return false, sym, sd;
    }
    if x == SD {
      if k == 16 {
        if v != sym[SV] && v != sym[DV] {
          return false, sym, sd;
        }
        sd := v;
      } else if v == sd || (v != sym[SV] && v != sym[DV]) {
        return false, sym, sd;
      }
      return true, sym, sd;
    }
    if IsVar(x) {
      MetFirst(m, start, k, f);
    }
    if x !in sym {
      sym := sym[x := v];
    } else if sym[x] != v {
      return false, sym, sd;
    }
    ok := true;
  }

  /** Binds each symbol at its first field and compares at the others. */
  method Match(m: Mem, dyn: set<int>, start: word, memSize: int) returns (o: Option<Desc>)
    requires start % 8 == 0 && memSize <= 0x4000_0000_0000_0000
    ensures o == FindCopy(m, dyn, start, memSize)
  {
    hide Rd, FieldFits, Bound, VarsOk, LoopIn, TemplateStatic;
    if start + LOOP_LEN > memSize {
      return None;
    }
    ghost var d := Guess(m, start);
    var sym: map<Sym, word> := map[PF1 := start + 120, PF2 := start + 368, PF3 := start + 336, PF4 := start + 344];
    StartBound(sym, d);
    var sd: word := 0;
    var k := 0;
    while k < 19
      invariant 0 <= k <= 19 && FitSoFar(m, dyn, d, k, 0) && Bound(sym, d, 2 * k)
      invariant k >= 17 ==> sd == At(m, start, 16, 1)
    {
      var p := start + 24 * k;
      if Rd(m, p + 16) != (if k == 18 then start else p + 24) || (p + 16) / 8 in dyn {
        Misfit(m, dyn, d, k, 2) by { LastField(m, dyn, d, k); }
        NoLoop(m, dyn, start, memSize);
        return None;
      }
      LastField(m, dyn, d, k);
      var ok;
      ok, sym, sd := MatchField(m, dyn, start, k, 0, sym, sd);
      if !ok {
        Misfit(m, dyn, d, k, 0);
        NoLoop(m, dyn, start, memSize);
        return None;
      }
      ok, sym, sd := MatchField(m, dyn, start, k, 1, sym, sd);
      if !ok {
        Misfit(m, dyn, d, k, 1);
        NoLoop(m, dyn, start, memSize);
        return None;
      }
      RowFits(m, dyn, d, k);
      k := k + 1;
    }
    AllBound(sym, d);
    var vars := [sym[T1], sym[T2], sym[SV], sym[DV], sym[CV], sym[MV]];
    var good := VarsFit(vars, start, memSize, d);
    if good {
      o := Some(Desc(start, vars[0], vars[1], vars[2], vars[3], vars[4], vars[5]));
      FoundIt(m, dyn, d, memSize);
    } else {
      o := None;
    }
  }

  /** VarsOk, by loops over the six. */
  method VarsFit(vars: seq<word>, start: word, memSize: int, ghost d: Desc) returns (ok: bool)
    requires |vars| == 6 && start % 8 == 0 && start + LOOP_LEN <= memSize <= 0x4000_0000_0000_0000
    requires d == Desc(start, vars[0], vars[1], vars[2], vars[3], vars[4], vars[5])
    ensures ok == VarsOk(d, memSize)
  {
    var k := 0;
    while k < 6
      invariant 0 <= k <= 6
      invariant forall i | 0 <= i < k :: VarOk(d, memSize, vars[i])
      invariant forall i, j | 0 <= j < i < k :: vars[i] != vars[j]
    {
      var v := vars[k];
      if v % 8 != 0 || v + 8 > memSize || (v + 8 > start && v < start + LOOP_LEN) {
        return false;
      }
      var j := 0;
      while j < k
        invariant 0 <= j <= k && forall i | 0 <= i < j :: vars[i] != v
      {
        if vars[j] == v {
          return false;
        }
        j := j + 1;
      }
      k := k + 1;
    }
    ok := true;
  }

  lemma StartBound(sym: map<Sym, word>, d: Desc)
    requires d.start + LOOP_LEN < TWO64
    requires sym == map[PF1 := d.start + 120, PF2 := d.start + 368, PF3 := d.start + 336, PF4 := d.start + 344]
    ensures Bound(sym, d, 0)
  {
  }

  lemma AllBound(sym: map<Sym, word>, d: Desc)
    requires Bound(sym, d, 38)
    ensures T1 in sym && T2 in sym && SV in sym && DV in sym && CV in sym && MV in sym
    ensures sym[T1] == d.t1 && sym[T2] == d.t2 && sym[SV] == d.sv && sym[DV] == d.dv && sym[CV] == d.cv && sym[MV] == d.mv
  {
    assert IsVar(T1) && IsVar(T2) && IsVar(SV) && IsVar(DV) && IsVar(CV) && IsVar(MV);
  }

  lemma LastField(m: Mem, dyn: set<int>, d: Desc, k: nat)
    requires d.start + LOOP_LEN < TWO64 && k < 19
    ensures FieldFits(m, dyn, d, k, 2) <==>
      Rd(m, d.start + 24 * k + 16) == (if k == 18 then d.start else d.start + 24 * k + 24) && (d.start + 24 * k + 16) / 8 !in dyn
  {
    hide Rd;
  }

  lemma RowFits(m: Mem, dyn: set<int>, d: Desc, k: nat)
    requires d.start + LOOP_LEN < TWO64 && k < 19 && FitSoFar(m, dyn, d, k, 0)
    requires FieldFits(m, dyn, d, k, 0) && FieldFits(m, dyn, d, k, 1) && FieldFits(m, dyn, d, k, 2)
    ensures FitSoFar(m, dyn, d, k + 1, 0)
  {
    hide FieldFits;
    forall j: nat, g: nat | j < k + 1 && g < 3
      ensures FieldFits(m, dyn, d, j, g)
    {
      if j == k {
        assert g == 0 || g == 1 || g == 2;
      }
    }
  }

  lemma Misfit(m: Mem, dyn: set<int>, d: Desc, k: nat, f: nat)
    requires d.start + LOOP_LEN < TWO64 && k < 19 && f < 3 && !FieldFits(m, dyn, d, k, f)
    ensures !AllFit(m, dyn, d)
  {
    hide FieldFits;
  }

  lemma NoLoop(m: Mem, dyn: set<int>, start: word, memSize: int)
    requires memSize <= 0x4000_0000_0000_0000 && start + LOOP_LEN <= memSize && !AllFit(m, dyn, Guess(m, start))
    ensures FindCopy(m, dyn, start, memSize) == None
  {
    hide Rd, AllFit, LoopIn, TemplateStatic;
    var d := Guess(m, start);
    if VarsOk(d, memSize) {
      FitsIsLoop(m, dyn, d);
    }
  }

  lemma FoundIt(m: Mem, dyn: set<int>, d: Desc, memSize: int)
    requires memSize <= 0x4000_0000_0000_0000 && d.start + LOOP_LEN <= memSize && d == Guess(m, d.start)
    requires FitSoFar(m, dyn, d, 19, 0) && VarsOk(d, memSize)
    ensures FindCopy(m, dyn, d.start, memSize) == Some(d)
  {
    hide Rd, FieldFits, LoopIn, TemplateStatic;
    assert AllFit(m, dyn, d);
    FitsIsLoop(m, dyn, d);
  }
}
