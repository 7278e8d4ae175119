/** The register cache: which words of Dawn memory the code being emitted has
    in registers, as constants, or as the value or negation of a register, and
    the one store it holds back. */
module RegCache {
  import opened Options
  import opened Words
  import opened Bits
  import opened Memory
  import opened X86

  const HW_LO: int := 0x13e0_0000
  const HW_HI: int := 0x1400_0000
  const NCONST: nat := 16
  const NALIAS: nat := 16

  /** What is known about a value: a register's, its negation, or a constant. */
  datatype CVal = NoVal | InReg(r: Reg) | NegReg(r: Reg) | Const(v: word)

  datatype CReg = CReg(used: bool, addr: word, pinned: bool, lru: nat)
  datatype CConst = CConst(used: bool, addr: word, val: word)
  datatype CAlias = CAlias(used: bool, addr: word, reg: Reg, neg: bool)

  type RegTab = s: seq<CReg> | |s| == 11 witness seq(11, i => CReg(false, 0, false, 0))
  type ConstTab = s: seq<CConst> | |s| == 16 witness seq(16, i => CConst(false, 0, 0))
  type AliasTab = s: seq<CAlias> | |s| == 16 witness seq(16, i => CAlias(false, 0, 0, false))

  /** The translator's state while it emits a block. */
  datatype Jit = Jit(
    regs: RegTab, consts: ConstTab, aliases: AliasTab,
    constNext: nat, aliasNext: nat, clock: nat,
    pend: bool, pendAddr: word, flagsLive: bool, movbe: bool,
    code: seq<Op>)

  /** Which constant and alias to replace next, and the clock of last use. */
  datatype Turns = Turns(constNext: nat, aliasNext: nat, clock: nat)

  /** The cache as a block starts. */
  function EmptyCache(movbe: bool, t: Turns): Jit {
    Jit(seq(11, i => CReg(false, 0, false, 0)), seq(16, i => CConst(false, 0, 0)), seq(16, i => CAlias(false, 0, 0, false)),
        t.constNext, t.aliasNext, t.clock, false, 0, false, movbe, [])
  }

  /** A held-back store as it stands where the code leaves. */
  datatype Pending = NotHeld | HeldBack(v: CVal, addr: word)

  predicate Cacheable(a: word) { a % 8 == 0 && (a < HW_LO || a >= HW_HI) }

  predicate FitsDisp(a: word) { a < 0x1_0000_0000 }

  /** Fits a sign-extended 32-bit immediate. */
  predicate Imm32(v: word) { v < 0x8000_0000 || v >= TWO64 - 0x8000_0000 }

  function Emit(c: Jit, op: Op): Jit { c.(code := c.code + [op]) }

  // ------------------------------------------------------------ lookups

  function FindConst(s: seq<CConst>, a: word, i: nat): (k: nat)
    requires i <= |s|
    ensures i <= k <= |s|
    ensures k < |s| ==> s[k].used && s[k].addr == a
    ensures forall j :: i <= j < k ==> !(s[j].used && s[j].addr == a)
    decreases |s| - i
  {
    if i == |s| || (s[i].used && s[i].addr == a) then i else FindConst(s, a, i + 1)
  }

  function FindReg(s: seq<CReg>, a: word, i: nat): (k: nat)
    requires i <= |s|
    ensures i <= k <= |s|
    ensures k < |s| ==> s[k].used && s[k].addr == a
    ensures forall j :: i <= j < k ==> !(s[j].used && s[j].addr == a)
    decreases |s| - i
  {
    if i == |s| || (s[i].used && s[i].addr == a) then i else FindReg(s, a, i + 1)
  }

  function FindAlias(s: seq<CAlias>, a: word, i: nat): (k: nat)
    requires i <= |s|
    ensures i <= k <= |s|
    ensures k < |s| ==> s[k].used && s[k].addr == a
    ensures forall j :: i <= j < k ==> !(s[j].used && s[j].addr == a)
    decreases |s| - i
  {
    if i == |s| || (s[i].used && s[i].addr == a) then i else FindAlias(s, a, i + 1)
  }

  /** The value cached for address a: constants first, then registers. */
  function Lookup(c: Jit, a: word): CVal {
    if !Cacheable(a) then NoVal
    else
      var k := FindConst(c.consts, a, 0);
      if k < 16 then Const(c.consts[k].val)
      else
        var r := FindReg(c.regs, a, 0);
        if r < 11 then InReg(r)
        else
          var l := FindAlias(c.aliases, a, 0);
          if l == 16 then NoVal
          else if c.aliases[l].neg then NegReg(c.aliases[l].reg) else InReg(c.aliases[l].reg)
  }

  /** Marks the register a lookup went through as used last. */
  function Touch(c: Jit, v: CVal): Jit {
    if v.InReg? || v.NegReg? then
      c.(regs := c.regs[v.r := c.regs[v.r].(lru := c.clock + 1)], clock := c.clock + 1)
    else c
  }

  function CacheFind(c: Jit, a: word): (CVal, Jit) {
    var v := Lookup(c, a);
    (v, Touch(c, v))
  }

  predicate Aliased(c: Jit, r: Reg) {
    exists i | 0 <= i < 16 :: c.aliases[i].used && c.aliases[i].reg == r
  }

  predicate Uses(v: CVal, r: Reg) { (v.InReg? || v.NegReg?) && v.r == r }

  // ------------------------------------------------------------ updates

  function CacheDrop(c: Jit, a: word): Jit {
    c.(regs := seq(11, i requires 0 <= i < 11 =>
                     if c.regs[i].used && c.regs[i].addr == a then c.regs[i].(used := false) else c.regs[i]),
       consts := seq(16, i requires 0 <= i < 16 =>
                       if c.consts[i].used && c.consts[i].addr == a then c.consts[i].(used := false) else c.consts[i]),
       aliases := seq(16, i requires 0 <= i < 16 =>
                        if c.aliases[i].used && c.aliases[i].addr == a then c.aliases[i].(used := false) else c.aliases[i]))
  }

  function CacheDropAll(c: Jit): Jit {
    c.(regs := seq(11, i requires 0 <= i < 11 => c.regs[i].(used := false)),
       consts := seq(16, i requires 0 <= i < 16 => c.consts[i].(used := false)),
       aliases := seq(16, i requires 0 <= i < 16 => c.aliases[i].(used := false)))
  }

  function Pin(c: Jit, r: Reg): Jit { c.(regs := c.regs[r := c.regs[r].(pinned := true)]) }
  function Unpin(c: Jit, r: Reg): Jit { c.(regs := c.regs[r := c.regs[r].(pinned := false)]) }

  function PinVal(c: Jit, v: CVal): Jit {
    if v.InReg? || v.NegReg? then Pin(c, v.r) else c
  }

  function UnpinAll(c: Jit): Jit {
    c.(regs := seq(11, i requires 0 <= i < 11 => c.regs[i].(pinned := false)))
  }

  /** Forgets the words that stand for register r. */
  function DropReg(c: Jit, r: Reg): Jit {
    c.(regs := c.regs[r := c.regs[r].(used := false)],
       aliases := seq(16, i requires 0 <= i < 16 =>
                        if c.aliases[i].used && c.aliases[i].reg == r then c.aliases[i].(used := false) else c.aliases[i]))
  }

  function FreeConst(s: seq<CConst>, i: nat): (k: nat)
    requires i <= |s|
    ensures i <= k <= |s|
    ensures k < |s| ==> !s[k].used
    ensures forall j :: i <= j < k ==> s[j].used
    decreases |s| - i
  {
    if i == |s| || !s[i].used then i else FreeConst(s, i + 1)
  }

  function FreeAlias(s: seq<CAlias>, i: nat): (k: nat)
    requires i <= |s|
    ensures i <= k <= |s|
    ensures k < |s| ==> !s[k].used
    ensures forall j :: i <= j < k ==> s[j].used
    decreases |s| - i
  {
    if i == |s| || !s[i].used then i else FreeAlias(s, i + 1)
  }

  function SetConst(c: Jit, a: word, val: word): Jit {
    var d := CacheDrop(c, a);
    if !Cacheable(a) then d
    else
      var k := FreeConst(d.consts, 0);
      if k < 16 then d.(consts := d.consts[k := CConst(true, a, val)])
      else d.(consts := d.consts[d.constNext % 16 := CConst(true, a, val)], constNext := d.constNext + 1)
  }

  /** Makes register r cache the word at a. */
  function Bind(c: Jit, r: Reg, a: word): Jit {
    if !Cacheable(a) then c
    else
      var d := CacheDrop(c, a);
      d.(regs := d.regs[r := CReg(true, a, d.regs[r].pinned, d.clock + 1)], clock := d.clock + 1)
  }

  // --------------------------------------- registers and the held-back store

  function Held(c: Jit): nat { if c.pend then 1 else 0 }

  /** The register to take: a free unpinned one, or the one used longest ago. */
  function ScratchScan(c: Jit, i: nat, best: int): (r: int)
    requires i <= 11 && -1 <= best < 11 && (best >= 0 ==> !c.regs[best].pinned)
    ensures -1 <= r < 11 && (r >= 0 ==> !c.regs[r].pinned)
    ensures r == -1 ==> best == -1 && forall j :: i <= j < 11 ==> c.regs[j].pinned
    decreases 11 - i
  {
    if i == 11 then best
    else if c.regs[i].pinned then ScratchScan(c, i + 1, best)
    else if !c.regs[i].used && !Aliased(c, i) then i
    else ScratchScan(c, i + 1, if best < 0 || c.regs[i].lru < c.regs[best].lru then i else best)
  }

  /** A register to use, pinned; none if all are pinned. */
  function Scratch(c: Jit): (o: Option<(Reg, Jit)>)
    ensures o.Some? ==> c.code <= o.value.1.code && (o.value.1.pend ==> c.pend)
    decreases Held(c), 3
  {
    var best := ScratchScan(c, 0, -1);
    if best < 0 then None
    else
      var c1 :- Release(Pin(c, best), best);
      Some((best, c1))
  }

  /** Makes sure no entry and no held-back store refers to register r. */
  function Release(c: Jit, r: Reg): (o: Option<Jit>)
    ensures o.Some? ==> c.code <= o.value.code && (o.value.pend ==> c.pend)
    decreases Held(c), 2
  {
    var c1 :-
      if c.pend then
        var (v, c2) := CacheFind(c, c.pendAddr);
        if Uses(v, r) then FlushPending(c2) else Some(c2)
      else Some(c);
    Some(DropReg(c1, r))
  }

  /** r := -r; the second form is for when flagsLive is set. */
  function Negate(c: Jit, r: Reg): Jit {
    if c.flagsLive then Emit(Emit(c, NotR(r)), Lea1(r)) else Emit(c, NegR(r))
  }

  /** Some register that equals v; for InReg the one it is in already. */
  function ToReg(c: Jit, v: CVal): (o: Option<(Reg, Jit)>)
    requires v != NoVal
    ensures o.Some? ==> c.code <= o.value.1.code && (o.value.1.pend ==> c.pend)
    decreases Held(c), 4
  {
    match v
    case InReg(r) => Some((r, c))
    case NegReg(s) =>
      var (r, c1) :- Scratch(Pin(c, s));
      Some((r, Negate(Emit(c1, MovRR(r, s)), r)))
    case Const(n) =>
      var (r, c1) :- Scratch(c);
      Some((r, Emit(c1, MovImm(r, n))))
  }

  /** Emits the big-endian store of register r to dst. */
  function StoreTo(c: Jit, dst: Opnd, r: Reg): (o: Option<Jit>)
    ensures o.Some? ==> c.code <= o.value.code && (o.value.pend ==> c.pend)
    decreases Held(c), 4
  {
    if c.movbe then Some(Emit(c, StoreBE(dst, r)))
    else
      var (t, c1) :- Scratch(c);
      Some(Emit(Emit(Emit(c1, MovRR(t, r)), BswapR(t)), Store(dst, t)))
  }

  /** The store of r to dst, through a second register if dst is too far for a
      displacement. */
  function StoreReg(c: Jit, r: Reg, dst: Opnd): (o: Option<Jit>)
    ensures o.Some? ==> c.code <= o.value.code && (o.value.pend ==> c.pend)
    decreases Held(c), 5
  {
    if dst.Abs? && !FitsDisp(dst.a) then
      var (b, c1) :- Scratch(c);
      StoreTo(Emit(c1, MovImm(b, dst.a)), Ind(b), r)
    else StoreTo(c, dst, r)
  }

  function StoreConst(c: Jit, v: word, dst: Opnd): (o: Option<Jit>)
    ensures o.Some? ==> c.code <= o.value.code && (o.value.pend ==> c.pend)
    decreases Held(c), 5
  {
    var be := Bswap(v);
    if dst.Abs? && FitsDisp(dst.a) && Imm32(be) then Some(Emit(c, StoreImm(dst.a, be)))
    else
      var (t, c1) :- Scratch(c);
      var c2 := Emit(c1, MovImm(t, be));
      if dst.Abs? && !FitsDisp(dst.a) then
        var (b, c3) :- Scratch(c2);
        Some(Emit(Emit(c3, MovImm(b, dst.a)), Store(Ind(b), t)))
      else Some(Emit(c2, Store(dst, t)))
  }

  /** After this, memory alone has the value of every word. */
  function FlushPending(c: Jit): (o: Option<Jit>)
    ensures o.Some? ==> c.code <= o.value.code && !o.value.pend
    decreases Held(c), 1
  {
    if !c.pend then Some(c)
    else
      var (v, c1) := CacheFind(c.(pend := false), c.pendAddr);
      if v.NoVal? then None
      else if v.Const? then StoreConst(c1, v.v, Abs(c.pendAddr))
      else
        var was := c1.regs[v.r].pinned;
        var (r, c2) :- ToReg(Pin(c1, v.r), v);
        var c3 :- StoreReg(c2, r, Abs(c.pendAddr));
        var c4 := if r != v.r then Unpin(c3, r) else c3;
        Some(if was then Pin(c4, v.r) else Unpin(c4, v.r))
  }

  /** Adds the entry of a as r or -r, in a free place or in the next one in turn. */
  function SetAlias(c: Jit, a: word, r: Reg, neg: bool): (o: Option<Jit>)
    ensures o.Some? ==> c.code <= o.value.code && (o.value.pend ==> c.pend)
  {
    var d := CacheDrop(c, a);
    if !Cacheable(a) then Some(d)
    else
      var k := FreeAlias(d.aliases, 0);
      if k < 16 then Some(d.(aliases := d.aliases[k := CAlias(true, a, r, neg)])) else EvictAlias(d, a, r, neg)
  }

  function EvictAlias(c: Jit, a: word, r: Reg, neg: bool): (o: Option<Jit>)
    ensures o.Some? ==> c.code <= o.value.code && (o.value.pend ==> c.pend)
  {
    var i := c.aliasNext % 16;
    var d := c.(aliasNext := c.aliasNext + 1);
    var f :- if d.pend && d.pendAddr == d.aliases[i].addr then FlushPending(d) else Some(d);
    Some(f.(aliases := f.aliases[i := CAlias(true, a, r, neg)]))
  }

  function SnapPending(c: Jit): (Pending, Jit) {
    if c.pend then
      var (v, c1) := CacheFind(c, c.pendAddr);
      (HeldBack(v, c.pendAddr), c1)
    else (NotHeld, c)
  }
}
