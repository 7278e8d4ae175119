/** How an operand's value is found or loaded, and the cache after a store that does
    not line up with its words. */
module Operands {
  import opened Options
  import opened Words
  import opened Bits
  import opened Memory
  import opened X86
  import opened RegCache

  function Low(a: word): word { a - a % 8 }
  function High(a: word): word { Add(Low(a), 8) }
  function Offset(a: word): nat { 8 * (a % 8) }

  /** Unaligned, over two words that may be cached. */
  predicate Spans(a: word) { a % 8 != 0 && Cacheable(Low(a)) && Cacheable(High(a)) }

  function LoadMem(c: Jit, r: Reg, src: Opnd): (d: Jit)
    ensures c.code <= d.code
  {
    if c.movbe then Emit(c, LoadBE(r, src)) else Emit(Emit(c, Load(r, src)), BswapR(r))
  }

  function LoadStatic(c: Jit, r: Reg, a: word): (d: Jit)
    ensures c.code <= d.code
  {
    if FitsDisp(a) then LoadMem(c, r, Abs(a)) else LoadMem(Emit(c, MovImm(r, a)), r, Ind(r))
  }

  /** Shl or Shr of v: folded for a constant, else computed in a register that was
      free. */
  function Shifted(c: Jit, v: CVal, left: bool, n: nat): (o: Option<(CVal, Jit)>)
    requires v != NoVal
    ensures o.Some? ==> c.code <= o.value.1.code && (o.value.1.pend ==> c.pend) && o.value.0 != NoVal
    ensures o.Some? ==> if v.Const? then o.value.0.Const? else o.value.0.InReg?
  {
    if v.Const? then Some((Const(if left then Shl(v.v, n) else Shr(v.v, n)), c))
    else
      var (s, c1) :- ToReg(c, v);
      var (r, c2) :- Scratch(c1);
      Some((InReg(r), Emit(Emit(c2, MovRR(r, s)), if left then ShlRI(r, n) else ShrRI(r, n))))
  }

  /** r |= v. */
  function OrVal(c: Jit, r: Reg, v: CVal): (o: Option<Jit>)
    requires v != NoVal
    ensures o.Some? ==> c.code <= o.value.code && (o.value.pend ==> c.pend)
  {
    if v == Const(0) then Some(c)
    else
      var (t, c1) :- ToReg(c, v);
      var c2 := Emit(c1, OrRR(r, t));
      Some(if v.InReg? then c2 else Unpin(c2, t))
  }

  /** r &= mask. */
  function AndImm64(c: Jit, r: Reg, mask: word): (o: Option<Jit>)
    ensures o.Some? ==> c.code <= o.value.code && (o.value.pend ==> c.pend)
  {
    if Imm32(mask) then Some(Emit(c, AndImm(r, mask)))
    else if mask == 0xffff_ffff then Some(Emit(c, Mov32(r)))
    else
      var (t, c1) :- Scratch(c);
      Some(Unpin(Emit(Emit(c1, MovImm(t, mask)), AndRR(r, t)), t))
  }

  /** The operand at address a; when the result is in a register, that is pinned. */
  function GetStatic(c: Jit, a: word): (o: Option<(CVal, Jit)>)
    ensures o.Some? ==> c.code <= o.value.1.code && (o.value.1.pend ==> c.pend) && o.value.0 != NoVal
    decreases a % 8 != 0
  {
    if Spans(a) then
      var (vl, c1) := CacheFind(c, Low(a));
      var (vh, c2) := CacheFind(c1, High(a));
      if vl == NoVal && vh == NoVal then LoadUncached(c2, a)
      else
        var c3 := PinVal(PinVal(c2, vl), vh);
        var (lo, c4) :- if vl == NoVal then GetStatic(c3, Low(a)) else Some((vl, c3));
        var (hi, c5) :- if vh == NoVal then GetStatic(c4, High(a)) else Some((vh, c4));
        Combine(c5, lo, hi, Offset(a))
    else GetWord(c, a)
  }

  /** (lo << k) | (hi >> (64 - k)). */
  function Combine(c: Jit, lo: CVal, hi: CVal, k: nat): (o: Option<(CVal, Jit)>)
    requires lo != NoVal && hi != NoVal && k <= 64
    ensures o.Some? ==> c.code <= o.value.1.code && (o.value.1.pend ==> c.pend) && o.value.0 != NoVal
  {
    var (v, c1) :- Shifted(c, lo, true, k);
    var (h, c2) :- Shifted(c1, hi, false, 64 - k);
    if v.Const? && h.Const? then Some((Const(Or(v.v, h.v)), c2))
    else
      var (x, y) := if v.Const? then (h, v) else (v, h);
      var c3 :- OrVal(c2, x.r, y);
      Some((x, c3))
  }

  function GetWord(c: Jit, a: word): (o: Option<(CVal, Jit)>)
    ensures o.Some? ==> c.code <= o.value.1.code && (o.value.1.pend ==> c.pend) && o.value.0 != NoVal
  {
    var (v, c1) := CacheFind(c, a);
    if v != NoVal then Some((v, PinVal(c1, v))) else LoadUncached(c1, a)
  }

  /** Loads a word that is not cached, after storing what is held back of it. */
  function LoadUncached(c: Jit, a: word): (o: Option<(CVal, Jit)>)
    ensures o.Some? ==> c.code <= o.value.1.code && (o.value.1.pend ==> c.pend) && o.value.0 != NoVal
  {
    var c1 :-
      if c.pend && a % 8 != 0 && (c.pendAddr == Low(a) || c.pendAddr == High(a)) then FlushPending(c) else Some(c);
    var (r, c2) :- Scratch(c1);
    Some((InReg(r), Bind(LoadStatic(c2, r, a), r, a)))
  }

  /** The bits of w that keep selects, or-ed with part; part is taken over, w is not
      changed. */
  function MaskedOr(c: Jit, w: CVal, keep: word, part: CVal): (o: Option<(CVal, Jit)>)
    requires w != NoVal && (part.Const? || part.InReg?)
    ensures o.Some? ==> c.code <= o.value.1.code && (o.value.1.pend ==> c.pend)
    ensures o.Some? ==> o.value.0.Const? || o.value.0.InReg?
  {
    if w.Const? && part.Const? then Some((Const(Or(And(w.v, keep), part.v)), c))
    else if w.Const? && And(w.v, keep) == 0 then Some((part, c))
    else
      var (s, c1) :- if w.Const? then Some((0, c)) else ToReg(c, w);
      var (r, c2) :- Scratch(c1);
      var c3 :-
        if w.Const? then Some(Emit(c2, MovImm(r, And(w.v, keep))))
        else AndImm64(Emit(c2, MovRR(r, s)), r, keep);
      var c4 :- OrVal(c3, r, part);
      Some((InReg(r), c4))
  }

  /** Makes v the cached value of the word at a. */
  function Recache(c: Jit, a: word, v: CVal): Jit
    requires v.Const? || v.InReg?
  {
    if v.Const? then SetConst(c, a, v.v) else Bind(c, v.r, a)
  }

  /** One of the words an unaligned store of v spans, as the store left it. */
  function UpdateWord(c: Jit, a: word, w: CVal, keep: word, v: CVal, left: bool, n: nat): (o: Option<Jit>)
    requires v != NoVal
    ensures o.Some? ==> c.code <= o.value.code && (o.value.pend ==> c.pend)
  {
    if w == NoVal then Some(c)
    else
      var (part, c1) :- Shifted(c, v, left, n);
      var (x, c2) :- MaskedOr(c1, w, keep, part);
      Some(Recache(c2, a, x))
  }

  /** Renews the cache entries of Low(a) and High(a), where they have one, for
      memory in which v was written at a. */
  function UpdateSpanned(c: Jit, a: word, v: CVal): (o: Option<Jit>)
    requires v != NoVal
    ensures o.Some? ==> c.code <= o.value.code && (o.value.pend ==> c.pend)
  {
    var c1 := PinVal(UnpinAll(c), v);
    var (lv, c2) := CacheFind(c1, Low(a));
    var (hv, c3) := CacheFind(c2, High(a));
    var c4 := PinVal(PinVal(c3, lv), hv);
    assert c4.code == c1.code == c.code && c4.pend == c1.pend == c.pend;
    UpdateBoth(c4, a, lv, hv, v, Offset(a))
  }

  function UpdateBoth(c: Jit, a: word, lv: CVal, hv: CVal, v: CVal, k: nat): (o: Option<Jit>)
    requires v != NoVal && k <= 64
    ensures o.Some? ==> c.code <= o.value.code && (o.value.pend ==> c.pend)
  {
    hide UpdateWord;
    var c1 :- UpdateWord(c, Low(a), lv, Not(Shr(TWO64 - 1, k)), v, false, k);
    UpdateWord(c1, High(a), hv, Shr(TWO64 - 1, k), v, true, 64 - k)
  }
}
