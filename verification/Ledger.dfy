/** How many registers the translation of an instruction takes, told from the
    cache it starts with: counts, and the order in which cached words give way. */
module Ledger {
  import opened Options
  import opened Words
  import opened Bits
  import opened Memory
  import opened X86
  import opened RegCache
  import opened Operands
  import opened Insn

  /** Where a value is: known, in a register or the negation of one that had it
      when the instruction began, or in a register taken for it since. */
  datatype Where = Nowhere | Value(v: word) | At(r: Reg) | Minus(r: Reg) | Taken | Negated

  /** How many unpinned registers hold nothing; those that hold something, in the
      order they would be taken; whether a store is held back; the registers
      whose words gave way; and the words loaded since. What is in neither count
      is pinned. */
  datatype Ledger = Ledger(free: nat, line: seq<Reg>, held: bool, gone: set<Reg>, got: set<word>)

  function Without(s: seq<Reg>, r: Reg): seq<Reg> {
    if s == [] then [] else if s[0] == r then Without(s[1..], r) else [s[0]] + Without(s[1..], r)
  }

  // -------------------------------------------------------- at the beginning

  predicate Empty(c: Jit, r: Reg) { !c.regs[r].used && !Aliased(c, r) }

  /** r is taken before s. */
  predicate Before(c: Jit, r: Reg, s: Reg) {
    c.regs[r].lru < c.regs[s].lru || (c.regs[r].lru == c.regs[s].lru && r < s)
  }

  function Insert(c: Jit, s: seq<Reg>, r: Reg): seq<Reg> {
    if s == [] || Before(c, r, s[0]) then [r] + s else [s[0]] + Insert(c, s[1..], r)
  }

  /** The registers below n that hold something, in order. */
  function Line(c: Jit, n: nat): seq<Reg>
    requires n <= 11
  {
    if n == 0 then [] else if Empty(c, n - 1) then Line(c, n - 1) else Insert(c, Line(c, n - 1), n - 1)
  }

  /** All registers are free to be taken. */
  function Opening(z: Jit): Ledger {
    var l := Line(z, 11);
    Ledger(if |l| <= 11 then 11 - |l| else 0, l, z.pend, {}, {})
  }

  function Seen(v: CVal): Where {
    match v
    case NoVal => Nowhere
    case Const(x) => Value(x)
    case InReg(r) => At(r)
    case NegReg(r) => Minus(r)
  }

  /** Where the word at a is by now; z is the cache as the instruction began. */
  function Look(z: Jit, L: Ledger, a: word): Where {
    if a in L.got then Taken
    else
      var w := Seen(Lookup(z, a));
      if (w.At? || w.Minus?) && w.r in L.gone then Nowhere else w
  }

  // ------------------------------------------------------ pinning and taking

  function Keep(L: Ledger, w: Where): Ledger {
    if w.At? || w.Minus? then L.(line := Without(L.line, w.r)) else L
  }

  /** The held word's register was looked at: it is the last to be taken. */
  function Touched(z: Jit, L: Ledger): Ledger {
    var w := Look(z, L, z.pendAddr);
    if L.held && (w.At? || w.Minus?) && w.r in L.line then L.(line := Without(L.line, w.r) + [w.r]) else L
  }

  /** A register with nothing held back. */
  function TakeFree(L: Ledger): Option<Ledger> {
    if L.free > 0 then Some(L.(free := L.free - 1))
    else if L.line == [] then None
    else Some(L.(line := L.line[1..], gone := L.gone + {L.line[0]}))
  }

  function TakeIf(L: Ledger, b: bool): Option<Ledger> { if b then TakeFree(L) else Some(L) }

  /** What the store of a register to a static address takes. */
  function Stores(z: Jit, L: Ledger, far: bool): Option<Ledger> {
    var L1 :- TakeIf(L, far);
    TakeIf(L1, !z.movbe)
  }

  /** And that of a constant. */
  function StoresValue(L: Ledger, x: word, far: bool, near: bool): Option<Ledger> {
    if near && !far && Imm32(Bswap(x)) then Some(L)
    else
      var L1 :- TakeFree(L);
      TakeIf(L1, far)
  }

  /** The held-back store. */
  function Flushed(z: Jit, L: Ledger): Option<Ledger> {
    if !L.held then Some(L)
    else
      var far := !FitsDisp(z.pendAddr);
      var L0 := L.(held := false);
      match Look(z, L, z.pendAddr)
      case Value(x) => StoresValue(L0, x, far, true)
      case Taken => Stores(z, L0, far)
      case At(r) =>
        var L1 :- Stores(z, Keep(L0, At(r)), far);
        Some(Back(L1, r, r in L.line))
      case Minus(r) =>
        var L1 :- TakeFree(Keep(L0, Minus(r)));
        var L2 :- Stores(z, L1, far);
        Some(Back(L2.(free := L2.free + 1), r, r in L.line))
      case _ => None
  }

  function Back(L: Ledger, r: Reg, was: bool): Ledger { if was then L.(line := L.line + [r]) else L }

  /** A register, storing what is held back when it is in that one. */
  function Take(z: Jit, L: Ledger): Option<Ledger> {
    if L.free > 0 then Some(Touched(z, L.(free := L.free - 1)))
    else if L.line == [] then None
    else
      var h, L1 := L.line[0], L.(line := L.line[1..]);
      var w := Look(z, L, z.pendAddr);
      if L.held && (w == At(h) || w == Minus(h)) then
        var L2 :- Flushed(z, L1);
        Some(L2.(gone := L2.gone + {h}))
      else Some(Touched(z, L1).(gone := L.gone + {h}))
  }

  function Give(L: Ledger, n: nat): Ledger { L.(free := L.free + n) }

  // ------------------------------------------------------------ the operands

  /** A register with a value: the one it is in, or one taken. */
  function InOne(z: Jit, L: Ledger, w: Where): Option<(Where, Ledger)> {
    if w.At? || w.Taken? then Some((w, L))
    else
      var L1 :- Take(z, Keep(L, w));
      Some((Taken, L1))
  }

  function Shift(z: Jit, L: Ledger, w: Where, left: bool, n: nat): Option<(Where, Ledger)> {
    if w.Value? then Some((Value(if left then Shl(w.v, n) else Shr(w.v, n)), L))
    else
      var (_, L1) :- InOne(z, L, w);
      var L2 :- Take(z, L1);
      Some((Taken, L2))
  }

  /** Or-ing y in: a constant needs a register for the moment. */
  function Ors(z: Jit, L: Ledger, y: Where): Option<Ledger> {
    if !y.Value? || y.v == 0 then Some(L)
    else
      var L1 :- Take(z, L);
      Some(Give(L1, 1))
  }

  function Combined(z: Jit, L: Ledger, lo: Where, hi: Where, k: nat): Option<(Where, Ledger)>
    requires k <= 64
  {
    var (v, L1) :- Shift(z, L, lo, true, k);
    var (h, L2) :- Shift(z, L1, hi, false, 64 - k);
    if v.Value? && h.Value? then Some((Value(Or(v.v, h.v)), L2))
    else
      var L3 :- Ors(z, L2, if v.Value? then v else h);
      Some((Taken, L3))
  }

  function Loaded(z: Jit, L: Ledger, a: word): Option<Ledger> {
    var L1 :- if L.held && a % 8 != 0 && (z.pendAddr == Low(a) || z.pendAddr == High(a)) then Flushed(z, L) else Some(L);
    var L2 :- Take(z, L1);
    Some(if Cacheable(a) then L2.(got := L2.got + {a}) else L2)
  }

  function Word(z: Jit, L: Ledger, a: word): Option<(Where, Ledger)> {
    var w := Look(z, L, a);
    if w != Nowhere then Some((w, Keep(L, w)))
    else
      var L1 :- Loaded(z, L, a);
      Some((Taken, L1))
  }

  function Static(z: Jit, L: Ledger, a: word): Option<(Where, Ledger)> {
    if Spans(a) then
      var lo, hi := Look(z, L, Low(a)), Look(z, L, High(a));
      if lo == Nowhere && hi == Nowhere then
        var L1 :- Loaded(z, L, a);
        Some((Taken, L1))
      else
        var L1 := Keep(Keep(L, lo), hi);
        var (lo1, L2) :- if lo == Nowhere then Word(z, L1, Low(a)) else Some((lo, L1));
        var (hi1, L3) :- if hi == Nowhere then Word(z, L2, High(a)) else Some((hi, L2));
        Combined(z, L3, lo1, hi1, Offset(a))
    else Word(z, L, a)
  }

  /** A dynamic field's value in a register. */
  function FieldIn(z: Jit, L: Ledger, v: CVal, a: word, bind: bool): Option<(Where, Ledger)> {
    if v != NoVal then InOne(z, L, Seen(v))
    else
      var L1 :- Take(z, L);
      Some((Taken, if bind && Cacheable(a) then L1.(got := L1.got + {a}) else L1))
  }

  function Through(z: Jit, L: Ledger): Option<(Where, Ledger)> {
    var L1 :- Flushed(z, L);
    var L2 :- Take(z, L1);
    Some((Taken, L2))
  }

  // ------------------------------------------------------------- the phases

  function KeepField(L: Ledger, f: Field): Ledger { if f.Dynamic? then Keep(L, Seen(f.v)) else L }

  function KeepFields(L: Ledger, f: Fields): Ledger { KeepField(KeepField(KeepField(L, f.a), f.b), f.c) }

  function CheckedWord(z: Jit, L: Ledger, w: int, k: Checks): Ledger {
    if w >= k.memWords || w in k.hoist then L else Touched(z, L)
  }

  function Checked(z: Jit, L: Ledger, s: Source, f: Field, k: Checks): Option<Ledger> {
    if f.Known? then
      var w0, w1 := f.val / 8, Add(f.val, 7) / 8;
      var L1 := CheckedWord(z, L, w0, k);
      Some(if w1 <= w0 then L1 else CheckedWord(z, L1, w1, k))
    else
      var (_, L1) :- FieldIn(z, L, f.v, Add(s.p, 8), true);
      var L2 :- Take(z, L1);
      var L3 :- Take(z, L2);
      Some(Give(Touched(z, L3), 2))
  }

  function ForA(z: Jit, L: Ledger, s: Source, f: Field): Option<(Where, Ledger)> {
    if f.Known? then Static(z, L, f.val)
    else
      var (_, L1) :- FieldIn(z, L, f.v, s.p, true);
      Through(z, L1)
  }

  function ForB(z: Jit, L: Ledger, f: Field): Option<(Where, Ledger)> {
    if f.Known? then Static(z, L, f.val) else Through(z, L)
  }

  function ForC(z: Jit, L: Ledger, s: Source, f: Field): Option<Ledger> {
    if f.Known? then Some(L)
    else
      var (_, L1) :- FieldIn(z, L, f.v, Add(s.p, 16), false);
      Some(L1)
  }

  /** B's register holds nothing but B. */
  predicate Alone(z: Jit, w: Where, f: Field) { w.Taken? || (w.At? && InPlace(z, CVal.InReg(w.r), f)) }

  function ForResult(z: Jit, L: Ledger, vb: Where, f: Field): Option<Ledger> {
    if Alone(z, vb, f) then Some(L)
    else if vb.At? then Take(z, L)
    else
      var (_, L1) :- InOne(z, L, vb);
      Some(L1)
  }

  /** The result, and whether B stays as it is. */
  function Computed(z: Jit, L: Ledger, va: Where, vb: Where, f: Field, branch: bool): Option<(Where, bool, Ledger)> {
    if va.Value? && vb.Value? then Some((Value(Sub(vb.v, va.v)), false, L))
    else if va == Value(0) then
      if branch then
        var (_, L1) :- InOne(z, L, vb);
        Some((vb, true, L1))
      else Some((vb, true, L))
    else if vb == Value(0) && !branch then
      Some((match va case At(r) => Minus(r) case Minus(r) => At(r) case _ => Negated, false, L))
    else if va.Minus? && !vb.Minus? && !branch then
      var L1 :- if f.Dynamic? && !vb.Value? then Take(z, L) else ForResult(z, L, vb, f);
      Some((Taken, false, L1))
    else if vb == Value(0) then
      var (_, L1) :- InOne(z, L, va);
      var L2 :- if va.At? || va.Taken? then Take(z, L1) else Some(L1);
      Some((Taken, false, L2))
    else
      var L1 :- ForResult(z, L, vb, f);
      var (_, L2) :- InOne(z, L1, va);
      Some((Taken, false, L2))
  }

  /** The store of a result that cannot be held back. */
  function StoredNow(z: Jit, L: Ledger, res: Where, f: Field): Option<Ledger> {
    var far := f.Known? && !FitsDisp(f.val);
    var L1 :- Flushed(z, L);
    if res.Value? then StoresValue(L1, res.v, far, f.Known?)
    else
      var (_, L2) :- InOne(z, L1, res);
      Stores(z, L2, far)
  }

  function Finished(z: Jit, L: Ledger, res: Where, kept: bool, f: Field): Option<Ledger> {
    if Pendable(f) then
      if !kept && L.held && z.pendAddr != f.val then Flushed(z, L) else Some(L)
    else if kept then Some(L)
    else StoredNow(z, L, res, f)
  }

  /** From the checked store to the result. */
  function Middle(z: Jit, L: Ledger, s: Source, f: Fields): Option<(Where, bool, Ledger)> {
    if SameWord(f) then
      var L1 :- ForC(z, L, s, f.c);
      Some((Value(0), false, L1))
    else
      var (va, L1) :- ForA(z, L, s, f.a);
      var (vb, L2) :- ForB(z, L1, f.b);
      var L3 :- ForC(z, L2, s, f.c);
      var first := !(va == Value(0) && !vb.Value?) && (!Pendable(f.b) || z.pendAddr != f.b.val);
      var L4 :- if first then Flushed(z, L3) else Some(L3);
      Computed(z, L4, va, vb, f.b, Branches(s, f))
  }

  /** All phases of an instruction, from the cache it starts with. */
  function Needs(c: Jit, s: Source, k: Checks): Option<Ledger> {
    var f := ReadFields(c, s).0;
    var L1 :- Checked(c, KeepFields(Opening(c), f), s, f.b, k);
    var (res, kept, L2) :- Middle(c, L1, s, f);
    Finished(c, L2, res, kept, f.b)
  }

  /** There is a register each time one is taken. */
  predicate Suffices(c: Jit, s: Source, k: Checks) { Needs(c, s, k).Some? }
}
