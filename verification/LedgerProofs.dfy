/** The ledger tells exactly when the translator has a register. */
module LedgerProofs {
  import opened Options
  import opened Words
  import opened Bits
  import opened Memory
  import opened X86
  import opened RegCache
  import opened CacheProofs
  import opened Operands
  import opened Insn
  import opened OneEntry
  import opened Ledger

  // ----------------------------------------------------------- the lookups

  /** What an entry makes of its word. */
  lemma ConstEntry(c: Jit, i: nat)
    requires Single(c) && i < 16 && c.consts[i].used && Cacheable(c.consts[i].addr)
    ensures Lookup(c, c.consts[i].addr) == CVal.Const(c.consts[i].val)
  {
    hide FindReg, FindAlias;
  }

  lemma RegEntry(c: Jit, r: Reg)
    requires Single(c) && c.regs[r].used && Cacheable(c.regs[r].addr)
    ensures Lookup(c, c.regs[r].addr) == CVal.InReg(r)
  {
    hide FindAlias;
  }

  lemma AliasEntry(c: Jit, i: nat)
    requires Single(c) && i < 16 && c.aliases[i].used && Cacheable(c.aliases[i].addr)
    ensures var e := c.aliases[i]; Lookup(c, e.addr) == if e.neg then CVal.NegReg(e.reg) else CVal.InReg(e.reg)
  {
  }

  /** A word found has an entry. */
  lemma Found(c: Jit, a: word)
    ensures match Lookup(c, a)
      case NoVal => Cacheable(a) ==> NoEntry(c, a) && forall i | 0 <= i < 16 :: !(c.aliases[i].used && c.aliases[i].addr == a)
      case Const(x) => Cacheable(a) && exists i | 0 <= i < 16 :: c.consts[i] == CConst(true, a, x)
      case InReg(r) =>
        Cacheable(a) && ((c.regs[r].used && c.regs[r].addr == a) || exists i | 0 <= i < 16 :: c.aliases[i] == CAlias(true, a, r, false))
      case NegReg(r) => Cacheable(a) && exists i | 0 <= i < 16 :: c.aliases[i] == CAlias(true, a, r, true)
  {
  }

  /** Dropping a register's words changes the lookups of those only. */
  lemma DropLookup(c: Jit, r: Reg, a: word)
    requires Single(c)
    ensures Single(DropReg(c, r))
    ensures Lookup(DropReg(c, r), a) == if Uses(Lookup(c, a), r) then NoVal else Lookup(c, a)
  {
    hide FindReg, FindConst, FindAlias, Lookup, Fewer;
    var d := DropReg(c, r);
    DropFewer(c, a, r);
    FewerSingle(c, d);
    Found(c, a);
    Found(d, a);
    match Lookup(d, a)
    case Const(x) =>
      var i :| 0 <= i < 16 && d.consts[i] == CConst(true, a, x);
      ConstEntry(c, i);
    case InReg(s) =>
      if d.regs[s].used && d.regs[s].addr == a {
        RegEntry(c, s);
      } else {
        var i :| 0 <= i < 16 && d.aliases[i] == CAlias(true, a, s, false);
        AliasEntry(c, i);
      }
    case NegReg(s) =>
      var i :| 0 <= i < 16 && d.aliases[i] == CAlias(true, a, s, true);
      AliasEntry(c, i);
    case NoVal =>
  }

  // --------------------------------------------------------------- the line

  function Empties(c: Jit): set<Reg> { set r: Reg | 0 <= r < 11 && Empty(c, r) && !c.regs[r].pinned }

  ghost predicate IsLine(c: Jit, l: seq<Reg>) {
    && (forall i, j | 0 <= i < j < |l| :: Before(c, l[i], l[j]))
    && (forall r: Reg :: r in l <==> !c.regs[r].pinned && !Empty(c, r))
  }

  /** What the scan for a register comes to. */
  lemma {:induction false} ScanIs(c: Jit, i: nat, best: int)
    requires i <= 11 && -1 <= best < 11 && (best >= 0 ==> !c.regs[best].pinned && best < i)
    requires forall r: Reg | r < i :: c.regs[r].pinned || (!Empty(c, r) && best >= 0 && (r == best || Before(c, best, r)))
    ensures var b := ScratchScan(c, i, best);
      && (b < 0 ==> forall r: Reg :: c.regs[r].pinned)
      && (b >= 0 ==> !c.regs[b].pinned)
      && (b >= 0 ==> if Empties(c) != {} then b in Empties(c) else forall r: Reg | !c.regs[r].pinned :: r == b || Before(c, b, r))
    decreases 11 - i
  {
    hide Aliased;
    if i == 11 {
      assert Empties(c) == {};
    } else if c.regs[i].pinned {
      ScanIs(c, i + 1, best);
    } else if Empty(c, i) {
      assert i in Empties(c);
    } else {
      ScanIs(c, i + 1, if best < 0 || c.regs[i].lru < c.regs[best].lru then i else best);
    }
  }

  lemma LineHead(c: Jit, l: seq<Reg>)
    requires IsLine(c, l)
    ensures var b := ScratchScan(c, 0, -1);
      && (b < 0 <==> Empties(c) == {} && l == [])
      && (b >= 0 ==> !c.regs[b].pinned && if Empties(c) != {} then b in Empties(c) else l != [] && b == l[0])
  {
    hide Aliased, ScratchScan;
    ScanIs(c, 0, -1);
    var b := ScratchScan(c, 0, -1);
    assert b >= 0 && Empty(c, b) && !c.regs[b].pinned ==> b in Empties(c);
    assert l != [] ==> l[0] in l;
    assert forall r: Reg | r in Empties(c) :: !c.regs[r].pinned;
    if b >= 0 && Empties(c) == {} {
      assert b in l;
    }
  }

  // --------------------------------------------------- the ledger is right

  ghost predicate LruOk(c: Jit) { forall r: Reg :: c.regs[r].lru <= c.clock }

  ghost predicate Rel(c: Jit, a: word, v: CVal, w: Where) {
    match w
    case Nowhere => v == NoVal
    case Value(x) => v == CVal.Const(x)
    case At(r) => v == CVal.InReg(r)
    case Minus(r) => v == CVal.NegReg(r)
    case Taken => v.InReg? && c.regs[v.r].pinned && c.regs[v.r].used && c.regs[v.r].addr == a && !Aliased(c, v.r)
    case Negated => false
  }

  ghost predicate Looks(z: Jit, L: Ledger, c: Jit) { forall a: word :: Rel(c, a, Lookup(c, a), Look(z, L, a)) }

  /** Registers whose words did not give way have what they had. */
  ghost predicate Stay(z: Jit, L: Ledger, c: Jit) {
    forall r: Reg | r !in L.gone && !Empty(z, r) ::
      c.regs[r].used == z.regs[r].used && c.regs[r].addr == z.regs[r].addr && Aliased(c, r) == Aliased(z, r)
  }

  ghost predicate Rep(z: Jit, L: Ledger, c: Jit) {
    && c.movbe == z.movbe && c.pend == L.held && c.pendAddr == z.pendAddr
    && LruOk(c) && |Empties(c)| == L.free && IsLine(c, L.line) && Looks(z, L, c) && Stay(z, L, c) && Single(c)
    && (L.held ==> Look(z, L, z.pendAddr) != Nowhere) && forall a | a in L.got :: Cacheable(a)
  }

  /** Nothing but the code and the flags' being live differs. */
  predicate SameTables(c: Jit, d: Jit) {
    d == c.(code := d.code, flagsLive := d.flagsLive, constNext := d.constNext, aliasNext := d.aliasNext)
  }

  /** Pinned registers keep what they have. */
  ghost predicate PinSame(c: Jit, d: Jit) {
    forall r: Reg | c.regs[r].pinned ::
      d.regs[r].pinned && d.regs[r].used == c.regs[r].used && d.regs[r].addr == c.regs[r].addr && Aliased(d, r) == Aliased(c, r)
  }

  lemma PinSameTrans(c: Jit, d: Jit, e: Jit)
    requires PinSame(c, d) && PinSame(d, e)
    ensures PinSame(c, e)
  {
    hide Aliased;
  }

  ghost predicate LruSame(c: Jit, d: Jit) { forall r: Reg :: d.regs[r].lru == c.regs[r].lru }

  lemma RepSame(z: Jit, L: Ledger, c: Jit, d: Jit)
    requires Rep(z, L, c) && SameTables(c, d)
    ensures Rep(z, L, d) && PinSame(c, d) && LruSame(c, d)
  {
    hide Lookup, Look;
    assert Empties(d) == Empties(c);
    assert IsLine(d, L.line);
    forall a: word
      ensures Rel(d, a, Lookup(d, a), Look(z, L, a))
    {
      SameEntries2(c, d, a);
      assert Rel(c, a, Lookup(c, a), Look(z, L, a));
    }
    AliasedSame(c, d);
  }

  lemma LookAt(z: Jit, L: Ledger, c: Jit, a: word)
    requires Rep(z, L, c)
    ensures Rel(c, a, Lookup(c, a), Look(z, L, a))
  {
    hide Lookup, Look, Rel, IsLine, Stay, Single;
  }

  lemma {:induction false} WithoutIs(s: seq<Reg>, r: Reg)
    ensures forall x: Reg :: x in Without(s, r) <==> x in s && x != r
    ensures r !in s ==> Without(s, r) == s
  {
    if s != [] {
      WithoutIs(s[1..], r);
      assert s == [s[0]] + s[1..];
    }
  }

  lemma {:induction false} WithoutOrder(c: Jit, s: seq<Reg>, r: Reg)
    requires forall i, j | 0 <= i < j < |s| :: Before(c, s[i], s[j])
    ensures forall i, j | 0 <= i < j < |Without(s, r)| :: Before(c, Without(s, r)[i], Without(s, r)[j])
  {
    hide Before;
    if s != [] {
      WithoutOrder(c, s[1..], r);
      var t := Without(s[1..], r);
      WithoutIs(s[1..], r);
      if s[0] != r {
        forall j | 0 <= j < |t|
          ensures Before(c, s[0], t[j])
        {
          assert t[j] in s[1..];
          var k :| 0 <= k < |s[1..]| && s[1..][k] == t[j];
          assert Before(c, s[0], s[k + 1]);
        }
      }
    }
  }

  lemma OrderSame(c: Jit, d: Jit, l: seq<Reg>)
    requires forall i, j | 0 <= i < j < |l| :: Before(c, l[i], l[j])
    requires forall r: Reg | r in l :: d.regs[r].lru == c.regs[r].lru
    ensures forall i, j | 0 <= i < j < |l| :: Before(d, l[i], l[j])
  {
    forall i, j | 0 <= i < j < |l|
      ensures Before(d, l[i], l[j])
    {
      assert l[i] in l && l[j] in l && Before(c, l[i], l[j]);
    }
  }

  /** Pinning takes a register out of the line. */
  lemma PinRep(z: Jit, L: Ledger, c: Jit, r: Reg)
    requires Rep(z, L, c) && (c.regs[r].pinned || !Empty(c, r))
    ensures Rep(z, L.(line := Without(L.line, r)), Pin(c, r)) && PinSame(c, Pin(c, r)) && LruSame(c, Pin(c, r))
  {
    hide Lookup, Look, Before, Aliased;
    var d, l := Pin(c, r), Without(L.line, r);
    assert d.aliases == c.aliases && forall s: Reg :: Aliased(d, s) == Aliased(c, s) by { AliasedSame(c, d); }
    assert Empties(d) == Empties(c);
    WithoutIs(L.line, r);
    WithoutOrder(c, L.line, r);
    OrderSame(c, d, l);
    assert IsLine(d, l);
    forall a: word
      ensures Rel(d, a, Lookup(d, a), Look(z, L.(line := l), a))
    {
      LookLine(z, L, l, a);
      SameEntries2(c, d, a);
      assert Rel(c, a, Lookup(c, a), Look(z, L, a));
    }
    SameFewer(c, d);
    FewerSingle(c, d);
    LookLine(z, L, l, z.pendAddr);
  }

  lemma AliasedSame(c: Jit, d: Jit)
    requires d.aliases == c.aliases
    ensures forall s: Reg :: Aliased(d, s) == Aliased(c, s)
  {
  }

  lemma LookLine(z: Jit, L: Ledger, l: seq<Reg>, a: word)
    ensures Look(z, L.(line := l), a) == Look(z, L, a)
  {
    hide Lookup;
  }

  lemma SameEntries2(c: Jit, d: Jit, a: word)
    requires d.consts == c.consts && d.aliases == c.aliases
    requires forall j | 0 <= j < 11 :: d.regs[j].used == c.regs[j].used && d.regs[j].addr == c.regs[j].addr
    ensures Lookup(d, a) == Lookup(c, a)
  {
    hide FindReg, FindConst, FindAlias;
    FindRegSame(c.regs, d.regs, a, 0);
  }

  /** The register the scan finds. */
  function Picked(L: Ledger): Ledger
    requires L.free > 0 || L.line != []
  {
    if L.free > 0 then L.(free := L.free - 1) else L.(line := L.line[1..])
  }

  lemma PickRep(z: Jit, L: Ledger, c: Jit) returns (b: int)
    requires Rep(z, L, c)
    ensures b == ScratchScan(c, 0, -1) && (b < 0 <==> L.free == 0 && L.line == [])
    ensures b >= 0 ==> b < 11 && !c.regs[b].pinned && Rep(z, Picked(L), Pin(c, b)) && PinSame(c, Pin(c, b)) && LruSame(c, Pin(c, b))
    ensures b >= 0 ==> if L.free > 0 then Empty(c, b) else b == L.line[0] && !Empty(c, b)
  {
    hide Lookup, Look, Before, Aliased, ScratchScan;
    LineHead(c, L.line);
    b := ScratchScan(c, 0, -1);
    if b >= 0 {
      if L.free > 0 {
        PickEmpty(z, L, c, b);
      } else {
        PinRep(z, L, c, b);
        FirstWithout(c, L.line);
      }
    }
  }

  lemma FirstWithout(c: Jit, l: seq<Reg>)
    requires IsLine(c, l) && l != []
    ensures Without(l, l[0]) == l[1..]
  {
    WithoutIs(l[1..], l[0]);
    forall j | 0 <= j < |l[1..]|
      ensures l[1..][j] != l[0]
    {
      assert Before(c, l[0], l[j + 1]);
    }
  }

  lemma PickEmpty(z: Jit, L: Ledger, c: Jit, b: Reg)
    requires Rep(z, L, c) && b in Empties(c)
    ensures L.free > 0 && Rep(z, L.(free := L.free - 1), Pin(c, b)) && PinSame(c, Pin(c, b)) && LruSame(c, Pin(c, b))
  {
    hide Lookup, Look, Before, Aliased;
    var d := Pin(c, b);
    AliasedSame(c, d);
    assert Empties(d) == Empties(c) - {b};
    OrderSame(c, d, L.line);
    assert IsLine(d, L.line);
    forall a: word
      ensures Rel(d, a, Lookup(d, a), Look(z, L.(free := L.free - 1), a))
    {
      SameEntries2(c, d, a);
      LookFree(z, L, L.free - 1, a);
      assert Rel(c, a, Lookup(c, a), Look(z, L, a));
    }
    SameFewer(c, d);
    FewerSingle(c, d);
    LookFree(z, L, L.free - 1, z.pendAddr);
  }

  lemma LookFree(z: Jit, L: Ledger, n: nat, a: word)
    ensures Look(z, L.(free := n), a) == Look(z, L, a)
  {
    hide Lookup;
  }

  // ---------------------------------------------------------------- taking

  /** A register that is pinned and stands for nothing. */
  ghost predicate Fresh(c: Jit, r: Reg) { c.regs[r].pinned && Empty(c, r) }

  lemma DropKeeps(c0: Jit, c: Jit, b: Reg)
    requires PinSame(c0, c) && !c0.regs[b].pinned && c.regs[b].pinned
    ensures PinSame(c0, DropReg(c, b)) && LruSame(c, DropReg(c, b)) && Fresh(DropReg(c, b), b)
  {
    var d := DropReg(c, b);
    forall r: Reg | r != b
      ensures Aliased(d, r) == Aliased(c, r)
    {
      if Aliased(c, r) {
        var i :| 0 <= i < 16 && c.aliases[i].used && c.aliases[i].reg == r;
        assert d.aliases[i] == c.aliases[i];
      }
    }
  }

  lemma DropNothing(c: Jit, b: Reg)
    requires Empty(c, b)
    ensures DropReg(c, b) == c
  {
    assert forall i | 0 <= i < 16 :: !(c.aliases[i].used && c.aliases[i].reg == b);
    assert DropReg(c, b).aliases == c.aliases;
    assert DropReg(c, b).regs == c.regs;
  }

  ghost predicate NotGot(L: Ledger, c: Jit, b: Reg) { forall a | a in L.got :: Lookup(c, a) != CVal.InReg(b) }

  /** The words of register b give way. */
  lemma DropRep(z: Jit, L: Ledger, c: Jit, b: Reg)
    requires Rep(z, L, c) && c.regs[b].pinned && NotGot(L, c, b)
    requires L.held ==> !Uses(Lookup(c, c.pendAddr), b)
    ensures Rep(z, L.(gone := L.gone + {b}), DropReg(c, b))
  {
    hide Lookup, Before, DropReg, Aliased, Single;
    var d, G := DropReg(c, b), L.(gone := L.gone + {b});
    DropTables(c, b);
    DropLookup(c, b, c.pendAddr);
    assert Empties(d) == Empties(c);
    OrderSame(c, d, L.line);
    assert IsLine(d, L.line);
    forall a: word
      ensures Rel(d, a, Lookup(d, a), Look(z, G, a))
    {
      DropLookup(c, b, a);
      assert Rel(c, a, Lookup(c, a), Look(z, L, a));
    }
    assert Rel(c, z.pendAddr, Lookup(c, z.pendAddr), Look(z, L, z.pendAddr));
  }

  lemma DropTables(c: Jit, b: Reg)
    ensures var d := DropReg(c, b);
      && d == c.(regs := d.regs, aliases := d.aliases) && !Aliased(d, b) && !d.regs[b].used
      && (forall r: Reg :: d.regs[r] == c.regs[r].(used := d.regs[r].used) && (r != b ==> d.regs[r] == c.regs[r] && Aliased(d, r) == Aliased(c, r)))
  {
    var d := DropReg(c, b);
    forall r: Reg | r != b
      ensures Aliased(d, r) == Aliased(c, r)
    {
      if Aliased(c, r) {
        var i :| 0 <= i < 16 && c.aliases[i].used && c.aliases[i].reg == r;
        assert d.aliases[i] == c.aliases[i];
      }
    }
  }

  /** Words loaded since are in pinned registers, so not in one just taken. */
  lemma GotPinned(z: Jit, L: Ledger, c: Jit, c': Jit, b: Reg)
    requires Rep(z, L, c) && !c.regs[b].pinned && PinSame(c, c') && Single(c')
    ensures NotGot(L, c', b)
  {
    hide Lookup, Aliased, Single;
    forall a | a in L.got
      ensures Lookup(c', a) != CVal.InReg(b)
    {
      assert Rel(c, a, Lookup(c, a), Look(z, L, a));
      var r := Lookup(c, a).r;
      RegEntry(c', r);
    }
  }

  /** What a register taken comes with. */
  ghost predicate Taking(z: Jit, L: Ledger, c: Jit, r: Reg, d: Jit) {
    Rep(z, L, d) && Fresh(d, r) && !c.regs[r].pinned && PinSame(c, d)
  }

  lemma TakeFreeSim(z: Jit, L: Ledger, c: Jit)
    requires Rep(z, L, c) && !L.held
    ensures TakeFree(L).Some? <==> Scratch(c).Some?
    ensures TakeFree(L).Some? ==>
      var (r, d) := Scratch(c).value; Taking(z, TakeFree(L).value, c, r, d) && LruSame(c, d)
  {
    hide Lookup, Look, DropReg, Aliased, ScratchScan, Rep, Fresh, PinSame;
    assert !c.pend by { RepPend(z, L, c); }
    var b := PickRep(z, L, c);
    if b >= 0 {
      var p := Pin(c, b);
      assert Scratch(c) == Some((b, DropReg(p, b)));
      DropKeeps(c, p, b);
      if L.free > 0 {
        AliasedSame(c, p);
        DropNothing(p, b);
      } else {
        GotPinned(z, L, c, p, b) by { RepSingle(z, Picked(L), p); }
        DropFreeRep(z, Picked(L), p, b);
      }
    }
  }

  lemma RepPend(z: Jit, L: Ledger, c: Jit)
    requires Rep(z, L, c)
    ensures c.pend == L.held && c.pendAddr == z.pendAddr && c.movbe == z.movbe && (L.held ==> Look(z, L, z.pendAddr) != Nowhere)
  {
  }

  lemma RepSingle(z: Jit, L: Ledger, c: Jit)
    requires Rep(z, L, c)
    ensures Single(c)
  {
  }

  lemma DropFreeRep(z: Jit, L: Ledger, c: Jit, b: Reg)
    requires Rep(z, L, c) && c.regs[b].pinned && NotGot(L, c, b) && !L.held
    ensures Rep(z, L.(gone := L.gone + {b}), DropReg(c, b))
  {
    hide Lookup, Rep, DropReg;
    DropRep(z, L, c, b);
  }

  lemma TakeIsFree(z: Jit, L: Ledger)
    requires !L.held
    ensures Take(z, L) == TakeFree(L)
  {
  }

  lemma TakeKeepsHeld(L: Ledger)
    ensures TakeFree(L).Some? ==> TakeFree(L).value.held == L.held && TakeFree(L).value.got == L.got && L.gone <= TakeFree(L).value.gone
  {
  }

  // ---------------------------------------------------------------- lookups

  function Moved(L: Ledger, v: CVal): Ledger {
    if (v.InReg? || v.NegReg?) && v.r in L.line then L.(line := Without(L.line, v.r) + [v.r]) else L
  }

  /** A register looked at goes to the end of the line. */
  lemma TouchRep(z: Jit, L: Ledger, c: Jit, a: word)
    requires Rep(z, L, c)
    ensures var v := Lookup(c, a); Rep(z, Moved(L, v), Touch(c, v)) && PinSame(c, Touch(c, v))
  {
    hide Lookup, Look, Before, Aliased, Rel;
    var v := Lookup(c, a);
    if v.InReg? || v.NegReg? {
      FoundHeld(c, a, v.r);
      TouchReg(z, L, c, v);
    } else {
      assert Touch(c, v) == c;
    }
  }

  /** A register a word is found in holds something. */
  lemma FoundHeld(c: Jit, a: word, r: Reg)
    requires Uses(Lookup(c, a), r)
    ensures !Empty(c, r)
  {
    hide FindReg, FindConst, FindAlias, Lookup;
    Found(c, a);
  }

  lemma TouchReg(z: Jit, L: Ledger, c: Jit, v: CVal)
    requires Rep(z, L, c) && (v.InReg? || v.NegReg?) && !Empty(c, v.r)
    ensures Rep(z, Moved(L, v), Touch(c, v)) && PinSame(c, Touch(c, v))
  {
    hide Lookup, Look, Aliased, IsLine, Rel, Before;
    var d := Touch(c, v);
    AliasedSame(c, d);
    assert Empties(d) == Empties(c);
    forall b: word
      ensures Rel(d, b, Lookup(d, b), Look(z, Moved(L, v), b))
    {
      TouchLook(z, L, c, v, b);
    }
    LookLine(z, L, Moved(L, v).line, z.pendAddr);
    SameFewer(c, d);
    FewerSingle(c, d);
    TouchLine(c, L, v);
  }

  lemma TouchLook(z: Jit, L: Ledger, c: Jit, v: CVal, b: word)
    requires Rep(z, L, c) && (v.InReg? || v.NegReg?)
    ensures Rel(Touch(c, v), b, Lookup(Touch(c, v), b), Look(z, Moved(L, v), b))
  {
    hide Lookup, Look, IsLine, Stay, Single;
    SameEntries2(c, Touch(c, v), b);
    LookLine(z, L, Moved(L, v).line, b);
    assert Rel(c, b, Lookup(c, b), Look(z, L, b));
  }

  lemma TouchLine(c: Jit, L: Ledger, v: CVal)
    requires IsLine(c, L.line) && (v.InReg? || v.NegReg?) && !Empty(c, v.r) && LruOk(c)
    ensures IsLine(Touch(c, v), Moved(L, v).line)
  {
    hide Aliased;
    var d := Touch(c, v);
    AliasedSame(c, d);
    WithoutIs(L.line, v.r);
    WithoutOrder(c, L.line, v.r);
    assert v.r in L.line <==> !c.regs[v.r].pinned;
    OrderSame(c, d, Without(L.line, v.r));
    LastOrder(c, d, Without(L.line, v.r), v.r);
  }

  lemma LastOrder(c: Jit, d: Jit, l: seq<Reg>, r: Reg)
    requires (forall i, j | 0 <= i < j < |l| :: Before(d, l[i], l[j])) && r !in l && LruOk(c)
    requires forall s: Reg | s != r :: d.regs[s].lru == c.regs[s].lru
    requires d.regs[r].lru == c.clock + 1
    ensures forall i, j | 0 <= i < j < |l + [r]| :: Before(d, (l + [r])[i], (l + [r])[j])
  {
    forall i, j | 0 <= i < j < |l + [r]|
      ensures Before(d, (l + [r])[i], (l + [r])[j])
    {
      if j == |l| {
        assert l[i] in l;
      }
    }
  }

  lemma TouchedSim(z: Jit, L: Ledger, c: Jit)
    requires Rep(z, L, c) && L.held
    ensures Moved(L, Lookup(c, c.pendAddr)) == Touched(z, L)
  {
    hide Lookup, Look;
    RepPend(z, L, c);
    LookAt(z, L, c, z.pendAddr);
    assert forall r: Reg | c.regs[r].pinned :: r !in L.line;
  }

  lemma HeldTouched(z: Jit, L: Ledger, c: Jit)
    requires Rep(z, L, c) && L.held
    ensures var v := Lookup(c, c.pendAddr); Rep(z, Touched(z, L), Touch(c, v)) && PinSame(c, Touch(c, v))
  {
    hide Lookup, Look, Rep, PinSame, Touched;
    TouchRep(z, L, c, c.pendAddr);
    TouchedSim(z, L, c);
  }

  // ---------------------------------------------- the held-back store goes

  /** The store of a register with nothing held back. */
  lemma StoresSim(z: Jit, L: Ledger, c: Jit, r: Reg, dst: Opnd)
    requires Rep(z, L, c) && !L.held && (dst.Ind? || dst.Abs?)
    ensures var far := dst.Abs? && !FitsDisp(dst.a);
      && (Stores(z, L, far).Some? <==> StoreReg(c, r, dst).Some?)
      && (Stores(z, L, far).Some? ==>
            var d := StoreReg(c, r, dst).value;
            Rep(z, Stores(z, L, far).value, d) && PinSame(c, d) && LruSame(c, d) && !Stores(z, L, far).value.held)
  {
    hide Rep, PinSame, Scratch, Look, Fresh, LruSame;
    RepPend(z, L, c);
    var far := dst.Abs? && !FitsDisp(dst.a);
    if far {
      TakeFreeSim(z, L, c);
      TakeKeepsHeld(L);
      if TakeFree(L).Some? {
        var (b, c1) := Scratch(c).value;
        var c2 := Emit(c1, MovImm(b, dst.a));
        RepSame(z, TakeFree(L).value, c1, c2);
        LruSameTrans(c, c1, c2);
        PinSameTrans(c, c1, c2);
        StoreToSim(z, TakeFree(L).value, c2, Ind(b), r);
        if TakeIf(TakeFree(L).value, !z.movbe).Some? {
          LruSameTrans(c, c2, StoreTo(c2, Ind(b), r).value);
          PinSameTrans(c, c2, StoreTo(c2, Ind(b), r).value);
        }
      }
    } else {
      StoreToSim(z, L, c, dst, r);
    }
  }

  lemma LruSameTrans(c: Jit, d: Jit, e: Jit)
    requires LruSame(c, d) && LruSame(d, e)
    ensures LruSame(c, e)
  {
  }

  lemma StoreToSim(z: Jit, L: Ledger, c: Jit, dst: Opnd, r: Reg)
    requires Rep(z, L, c) && !L.held
    ensures TakeIf(L, !z.movbe).Some? <==> StoreTo(c, dst, r).Some?
    ensures TakeIf(L, !z.movbe).Some? ==>
      var L1, d := TakeIf(L, !z.movbe).value, StoreTo(c, dst, r).value;
      Rep(z, L1, d) && PinSame(c, d) && LruSame(c, d) && !L1.held
  {
    hide Rep, PinSame, Scratch, Look, Fresh, LruSame;
    RepPend(z, L, c);
    if c.movbe {
      RepSame(z, L, c, Emit(c, StoreBE(dst, r)));
    } else {
      TakeFreeSim(z, L, c);
      TakeKeepsHeld(L);
      if TakeFree(L).Some? {
        var (t, c1) := Scratch(c).value;
        var d := Emit(Emit(Emit(c1, MovRR(t, r)), BswapR(t)), Store(dst, t));
        RepSame(z, TakeFree(L).value, c1, d);
        LruSameTrans(c, c1, d);
        PinSameTrans(c, c1, d);
      }
    }
  }

  /** And that of a constant. */
  lemma StoresValueSim(z: Jit, L: Ledger, c: Jit, x: word, dst: Opnd)
    requires Rep(z, L, c) && !L.held
    ensures var o := StoresValue(L, x, dst.Abs? && !FitsDisp(dst.a), dst.Abs?);
      && (o.Some? <==> StoreConst(c, x, dst).Some?)
      && (o.Some? ==> var d := StoreConst(c, x, dst).value; Rep(z, o.value, d) && PinSame(c, d) && !o.value.held)
  {
    hide Rep, PinSame, Scratch, Look, Fresh, LruSame, Bswap;
    RepPend(z, L, c);
    var be := Bswap(x);
    if dst.Abs? && FitsDisp(dst.a) && Imm32(be) {
      RepSame(z, L, c, Emit(c, StoreImm(dst.a, be)));
    } else {
      TakeFreeSim(z, L, c);
      TakeKeepsHeld(L);
      if TakeFree(L).Some? {
        var (t, c1) := Scratch(c).value;
        var L1 := TakeFree(L).value;
        var c2 := Emit(c1, MovImm(t, be));
        RepSame(z, L1, c1, c2);
        PinSameTrans(c, c1, c2);
        if dst.Abs? && !FitsDisp(dst.a) {
          TakeFreeSim(z, L1, c2);
          TakeKeepsHeld(L1);
          if TakeFree(L1).Some? {
            var (b, c3) := Scratch(c2).value;
            var d := Emit(Emit(c3, MovImm(b, dst.a)), Store(Ind(b), t));
            RepSame(z, TakeFree(L1).value, c3, d);
            PinSameTrans(c, c2, c3);
            PinSameTrans(c, c3, d);
          }
        } else {
          RepSame(z, L1, c2, Emit(c2, Store(dst, t)));
          PinSameTrans(c, c2, Emit(c2, Store(dst, t)));
        }
      }
    }
  }

  lemma HoldNothing(z: Jit, L: Ledger, c: Jit)
    requires Rep(z, L, c)
    ensures Rep(z, L.(held := false), c.(pend := false))
    ensures Lookup(c.(pend := false), c.pendAddr) == Lookup(c, c.pendAddr) && PinSame(c, c.(pend := false))
  {
    hide Lookup, Look, Aliased, Before;
    var d, M := c.(pend := false), L.(held := false);
    AliasedSame(c, d);
    assert Empties(d) == Empties(c);
    OrderSame(c, d, L.line);
    assert IsLine(d, L.line);
    forall a: word
      ensures Rel(d, a, Lookup(d, a), Look(z, M, a))
    {
      SameEntries2(c, d, a);
      LookHeld(z, L, a);
      assert Rel(c, a, Lookup(c, a), Look(z, L, a));
    }
    SameEntries2(c, d, c.pendAddr);
    SameFewer(c, d);
    FewerSingle(c, d);
  }

  lemma LookHeld(z: Jit, L: Ledger, a: word)
    ensures Look(z, L.(held := false), a) == Look(z, L, a)
  {
    hide Lookup;
  }

  /** A register with nothing in it can be taken again. */
  lemma GiveRep(z: Jit, L: Ledger, c: Jit, t: Reg)
    requires Rep(z, L, c) && Fresh(c, t)
    ensures Rep(z, Give(L, 1), Unpin(c, t)) && LruSame(c, Unpin(c, t))
  {
    hide Lookup, Look, Aliased, Before;
    var d := Unpin(c, t);
    AliasedSame(c, d);
    assert Empties(d) == Empties(c) + {t} && t !in Empties(c);
    OrderSame(c, d, L.line);
    assert IsLine(d, L.line);
    forall a: word
      ensures Rel(d, a, Lookup(d, a), Look(z, Give(L, 1), a))
    {
      SameEntries2(c, d, a);
      LookFree(z, L, L.free + 1, a);
      assert Rel(c, a, Lookup(c, a), Look(z, L, a));
    }
    LookFree(z, L, L.free + 1, z.pendAddr);
    SameFewer(c, d);
    FewerSingle(c, d);
  }

  /** One with something in it, looked at last, goes to the end of the line. */
  lemma BackRep(z: Jit, L: Ledger, c: Jit, r: Reg)
    requires Rep(z, L, c) && c.regs[r].pinned && !Empty(c, r) && NotGot(L, c, r)
    requires forall s: Reg | s != r && !c.regs[s].pinned :: c.regs[s].lru < c.regs[r].lru
    ensures Rep(z, L.(line := L.line + [r]), Unpin(c, r))
  {
    hide Lookup, Look, Aliased, Single;
    var d, l := Unpin(c, r), L.line + [r];
    AliasedSame(c, d);
    assert Empties(d) == Empties(c);
    assert r !in L.line;
    forall i, j | 0 <= i < j < |l|
      ensures Before(d, l[i], l[j])
    {
      assert l[i] == L.line[i] && l[i] in L.line;
    }
    forall s: Reg
      ensures s in l <==> !d.regs[s].pinned && !Empty(d, s)
    {
      assert s in l <==> s in L.line || s == r;
    }
    forall a: word
      ensures Rel(d, a, Lookup(d, a), Look(z, L.(line := l), a))
    {
      SameEntries2(c, d, a);
      LookLine(z, L, l, a);
      LookTaken(z, L, a);
      assert Rel(c, a, Lookup(c, a), Look(z, L, a));
    }
    LookLine(z, L, l, z.pendAddr);
    SameFewer(c, d);
    FewerSingle(c, d);
  }

  lemma LookTaken(z: Jit, L: Ledger, a: word)
    ensures Look(z, L, a) == Taken ==> a in L.got
  {
    hide Lookup;
  }

  lemma {:induction false} WithoutMoved(s: seq<Reg>, r: Reg)
    ensures Without(s + [r], r) == Without(s, r) && Without(Without(s, r) + [r], r) == Without(s, r)
  {
    WithoutAppend(s, r);
    WithoutAppend(Without(s, r), r);
    WithoutIs(s, r);
    WithoutIs(Without(s, r), r);
  }

  lemma {:induction false} WithoutAppend(s: seq<Reg>, r: Reg)
    ensures Without(s + [r], r) == Without(s, r)
  {
    if s == [] {
      assert [] + [r] == [r];
    } else {
      WithoutAppend(s[1..], r);
      assert (s + [r])[1..] == s[1..] + [r];
    }
  }

  /** Looking a register up, and pinning it. */
  lemma FindPin(z: Jit, L: Ledger, c: Jit, a: word)
    requires Rep(z, L, c)
    ensures var v := Lookup(c, a); var d := PinVal(Touch(c, v), v); Rep(z, Keep(L, Look(z, L, a)), d) && PinSame(c, d)
    ensures var v := Lookup(c, a); var d := PinVal(Touch(c, v), v);
      v.InReg? || v.NegReg? ==> forall s: Reg | s != v.r :: d.regs[s].lru <= c.clock < d.regs[v.r].lru
  {
    hide Lookup, Look, Aliased, Before, Rep, PinSame;
    var v := Lookup(c, a);
    TouchRep(z, L, c, a);
    LookAt(z, L, c, a);
    RepLru(z, L, c);
    if v.InReg? || v.NegReg? {
      FoundHeld(c, a, v.r);
      var c1 := Touch(c, v);
      assert !Empty(c1, v.r) by { AliasedSame(c, c1); }
      PinRep(z, Moved(L, v), c1, v.r);
      PinSameTrans(c, c1, Pin(c1, v.r));
      WithoutMoved(L.line, v.r);
      WithoutIs(L.line, v.r);
      RepLine(z, L, c, v.r);
    }
  }

  lemma RepLru(z: Jit, L: Ledger, c: Jit)
    requires Rep(z, L, c)
    ensures LruOk(c)
  {
  }

  lemma RepLine(z: Jit, L: Ledger, c: Jit, r: Reg)
    requires Rep(z, L, c)
    ensures r in L.line ==> !c.regs[r].pinned && !Empty(c, r)
    ensures !c.regs[r].pinned && !Empty(c, r) ==> r in L.line
  {
    hide Lookup, Look;
  }

  lemma FlushSim(z: Jit, L: Ledger, c: Jit)
    requires Rep(z, L, c)
    ensures Flushed(z, L).Some? <==> FlushPending(c).Some?
    ensures Flushed(z, L).Some? ==>
      var L1, d := Flushed(z, L).value, FlushPending(c).value; Rep(z, L1, d) && PinSame(c, d) && !L1.held && L1.got == L.got
  {
    hide Lookup, Look, Rep, PinSame, Stores, StoresValue, StoreReg, StoreConst;
    RepPend(z, L, c);
    PinSelf(c);
    if L.held {
      var L0, c0 := L.(held := false), c.(pend := false);
      HoldNothing(z, L, c);
      LookHeld(z, L, z.pendAddr);
      LookAt(z, L, c, z.pendAddr);
      var v := Lookup(c, c.pendAddr);
      if v.Const? {
        assert Touch(c0, v) == c0;
        StoresValueSim(z, L0, c0, v.v, Abs(z.pendAddr));
        StoresGot(z, L0, v.v, !FitsDisp(z.pendAddr), true);
        assert Flushed(z, L) == StoresValue(L0, v.v, !FitsDisp(z.pendAddr), true);
        if StoresValue(L0, v.v, !FitsDisp(z.pendAddr), true).Some? {
          PinSameTrans(c, c0, StoreConst(c0, v.v, Abs(z.pendAddr)).value);
        }
      } else {
        FlushRegSim(z, L, c, v);
      }
    }
  }

  lemma PinSelf(c: Jit)
    ensures PinSame(c, c) && LruSame(c, c)
  {
  }

  lemma StoresGot(z: Jit, L: Ledger, x: word, far: bool, near: bool)
    ensures StoresValue(L, x, far, near).Some? ==> StoresValue(L, x, far, near).value.got == L.got
    ensures Stores(z, L, far).Some? ==> Stores(z, L, far).value.got == L.got
  {
    hide Bswap;
  }

  /** The register with the held-back value, pinned for the time being. */
  lemma FlushRegSim(z: Jit, L: Ledger, c: Jit, v: CVal)
    requires Rep(z, L, c) && L.held && v == Lookup(c, c.pendAddr) && (v.InReg? || v.NegReg?)
    requires Rep(z, L.(held := false), c.(pend := false)) && PinSame(c, c.(pend := false))
    requires Lookup(c.(pend := false), c.pendAddr) == v && c.pendAddr == z.pendAddr
    ensures Flushed(z, L).Some? <==> FlushPending(c).Some?
    ensures Flushed(z, L).Some? ==>
      var L1, d := Flushed(z, L).value, FlushPending(c).value; Rep(z, L1, d) && PinSame(c, d) && !L1.held && L1.got == L.got
  {
    hide Lookup, Look, Rep, PinSame, Stores, StoreReg, ToReg;
    var L0, c0, w := L.(held := false), c.(pend := false), Look(z, L, z.pendAddr);
    LookHeld(z, L, z.pendAddr);
    LookAt(z, L, c, z.pendAddr);
    FindPin(z, L0, c0, z.pendAddr);
    var c1 := Touch(c0, v);
    var c2 := Pin(c1, v.r);
    var M := Keep(L0, w);
    PinSameTrans(c, c0, c2);
    RepPend(z, L, c);
    FoundHeld(c, c.pendAddr, v.r);
    assert forall s: Reg :: c2.regs[s].lru == c1.regs[s].lru;
    assert FlushPending(c) == FlushTail(c1, v, z.pendAddr);
    FlushTailSim(z, L, c, M, c1, v);
  }

  /** The store, and unpinning again. */
  function FlushTail(c1: Jit, v: CVal, a: word): Option<Jit>
    requires v.InReg? || v.NegReg?
  {
    var was := c1.regs[v.r].pinned;
    var (r, c2) :- ToReg(Pin(c1, v.r), v);
    var c3 :- StoreReg(c2, r, Abs(a));
    var c4 := if r != v.r then Unpin(c3, r) else c3;
    Some(if was then Pin(c4, v.r) else Unpin(c4, v.r))
  }

  /** The register is as it was before, with the held-back store gone. */
  lemma UnpinSim(z: Jit, L: Ledger, c: Jit, M: Ledger, d: Jit, r: Reg)
    requires Rep(z, L, c) && Rep(z, M, d) && PinSame(c, d) && M.got == L.got && !Empty(c, r)
    requires d.regs[r].pinned && !Empty(d, r)
    requires forall s: Reg | s != r && !d.regs[s].pinned :: d.regs[s].lru < d.regs[r].lru
    ensures var e := if c.regs[r].pinned then Pin(d, r) else Unpin(d, r);
      Rep(z, Back(M, r, r in L.line), e) && PinSame(c, e)
  {
    hide Lookup, Look, Rep, Aliased;
    RepLine(z, L, c, r);
    if c.regs[r].pinned {
      assert Pin(d, r) == d;
    } else {
      RepSingle(z, M, d);
      GotPinned(z, L, c, d, r);
      BackRep(z, M, d, r);
      AliasedSame(d, Unpin(d, r));
    }
  }

  lemma FlushTailSim(z: Jit, L: Ledger, c: Jit, M: Ledger, c1: Jit, v: CVal)
    requires v.InReg? || v.NegReg?
    requires Rep(z, L, c) && L.held && v == Lookup(c, z.pendAddr)
    requires c1.regs[v.r].pinned == c.regs[v.r].pinned && !Empty(c, v.r)
    requires M == Keep(L.(held := false), Look(z, L, z.pendAddr)) && Rep(z, M, Pin(c1, v.r)) && PinSame(c, Pin(c1, v.r)) && !Empty(Pin(c1, v.r), v.r)
    requires forall s: Reg | s != v.r :: c1.regs[s].lru < c1.regs[v.r].lru
    ensures var o := FlushTail(c1, v, z.pendAddr);
      && (Flushed(z, L).Some? <==> o.Some?)
      && (o.Some? ==> Rep(z, Flushed(z, L).value, o.value) && PinSame(c, o.value) && !Flushed(z, L).value.held && Flushed(z, L).value.got == L.got)
  {
    hide Lookup, Look, Rep, Aliased, FlushTail, Flushed, PinSame;
    if v.InReg? {
      FlushPlain(z, L, c, M, c1, v);
    } else {
      FlushNegated(z, L, c, M, c1, v);
    }
  }

  lemma FlushPlain(z: Jit, L: Ledger, c: Jit, M: Ledger, c1: Jit, v: CVal)
    requires v.InReg?
    requires Rep(z, L, c) && L.held && v == Lookup(c, z.pendAddr)
    requires c1.regs[v.r].pinned == c.regs[v.r].pinned && !Empty(c, v.r)
    requires M == Keep(L.(held := false), Look(z, L, z.pendAddr)) && Rep(z, M, Pin(c1, v.r)) && PinSame(c, Pin(c1, v.r)) && !Empty(Pin(c1, v.r), v.r)
    requires forall s: Reg | s != v.r :: c1.regs[s].lru < c1.regs[v.r].lru
    ensures var o := FlushTail(c1, v, z.pendAddr);
      && (Flushed(z, L).Some? <==> o.Some?)
      && (o.Some? ==> Rep(z, Flushed(z, L).value, o.value) && PinSame(c, o.value) && !Flushed(z, L).value.held && Flushed(z, L).value.got == L.got)
  {
    hide Lookup, Look, Rep, Aliased, Stores, StoreReg, Scratch, Fresh, PinSame;
    var far, r, c2 := !FitsDisp(z.pendAddr), v.r, Pin(c1, v.r);
    LookAt(z, L, c, z.pendAddr);
    RepLine(z, L, c, r);
    StoresSim(z, M, c2, r, Abs(z.pendAddr));
    StoresGot(z, M, 0, far, true);
    if Stores(z, M, far).Some? {
      var L1, c3 := Stores(z, M, far).value, StoreReg(c2, r, Abs(z.pendAddr)).value;
      Kept(c2, c3, r);
      PinSameTrans(c, c2, c3);
      UnpinSim(z, L, c, L1, c3, r);
    }
  }

  lemma FlushNegated(z: Jit, L: Ledger, c: Jit, M: Ledger, c1: Jit, v: CVal)
    requires v.NegReg?
    requires Rep(z, L, c) && L.held && v == Lookup(c, z.pendAddr)
    requires c1.regs[v.r].pinned == c.regs[v.r].pinned && !Empty(c, v.r)
    requires M == Keep(L.(held := false), Look(z, L, z.pendAddr)) && Rep(z, M, Pin(c1, v.r)) && PinSame(c, Pin(c1, v.r)) && !Empty(Pin(c1, v.r), v.r)
    requires forall s: Reg | s != v.r :: c1.regs[s].lru < c1.regs[v.r].lru
    ensures var o := FlushTail(c1, v, z.pendAddr);
      && (Flushed(z, L).Some? <==> o.Some?)
      && (o.Some? ==> Rep(z, Flushed(z, L).value, o.value) && PinSame(c, o.value) && !Flushed(z, L).value.held && Flushed(z, L).value.got == L.got)
  {
    hide Lookup, Look, Rep, Aliased, Stores, StoreReg, Scratch, Negate, Fresh, PinSame;
    var far, r, c2 := !FitsDisp(z.pendAddr), v.r, Pin(c1, v.r);
    LookAt(z, L, c, z.pendAddr);
    assert Pin(c2, r) == c2;
    TakeFreeSim(z, M, c2);
    TakeKeepsHeld(M);
    if TakeFree(M).Some? {
      var (t, c3) := Scratch(c2).value;
      var M1 := TakeFree(M).value;
      var c4 := Negate(Emit(c3, MovRR(t, r)), t);
      NegateTables(Emit(c3, MovRR(t, r)), t);
      RepSame(z, M1, c3, c4);
      StoresSim(z, M1, c4, t, Abs(z.pendAddr));
      StoresGot(z, M1, 0, far, true);
      assert t != r by { assert c2.regs[r].pinned; }
      if Stores(z, M1, far).Some? {
        StoredNegated(z, L, c, M1, c2, c3, c4, r, t);
      }
    }
  }

  lemma StoredNegated(z: Jit, L: Ledger, c: Jit, M1: Ledger, c2: Jit, c3: Jit, c4: Jit, r: Reg, t: Reg)
    requires Rep(z, L, c) && PinSame(c, c2) && PinSame(c2, c3) && PinSame(c3, c4) && LruSame(c2, c3) && LruSame(c3, c4)
    requires !Empty(c, r) && c2.regs[r].pinned && !Empty(c2, r) && !c2.regs[t].pinned && Fresh(c3, t) && t != r
    requires forall s: Reg | s != r :: c2.regs[s].lru < c2.regs[r].lru
    requires StoreReg(c4, t, Abs(z.pendAddr)).Some? && Stores(z, M1, !FitsDisp(z.pendAddr)).Some?
    requires var L2, c5 := Stores(z, M1, !FitsDisp(z.pendAddr)).value, StoreReg(c4, t, Abs(z.pendAddr)).value;
      Rep(z, L2, c5) && PinSame(c4, c5) && LruSame(c4, c5) && L2.got == L.got
    ensures var L2, c5 := Stores(z, M1, !FitsDisp(z.pendAddr)).value, StoreReg(c4, t, Abs(z.pendAddr)).value;
      var e := if c.regs[r].pinned then Pin(Unpin(c5, t), r) else Unpin(Unpin(c5, t), r);
      Rep(z, Back(Give(L2, 1), r, r in L.line), e) && PinSame(c, e)
  {
    hide Rep, Aliased, Stores, StoreReg, Fresh, PinSame;
    var L2, c5 := Stores(z, M1, !FitsDisp(z.pendAddr)).value, StoreReg(c4, t, Abs(z.pendAddr)).value;
    PinSameTrans(c2, c3, c4);
    PinSameTrans(c2, c4, c5);
    PinSameTrans(c3, c4, c5);
    Kept(c2, c5, r);
    PinSameTrans(c, c2, c5);
    FreshKept(c3, c5, t);
    GiveRep(z, L2, c5, t);
    Unpinned(c, c2, t);
    GiveTail(z, L, c, L2, c5, r, t);
  }

  lemma NegateTables(c: Jit, r: Reg)
    ensures SameTables(c, Negate(c, r))
  {
  }

  lemma Kept(c: Jit, d: Jit, r: Reg)
    requires PinSame(c, d) && c.regs[r].pinned && !Empty(c, r)
    ensures d.regs[r].pinned && !Empty(d, r)
  {
    hide Aliased;
  }

  lemma Unpinned(c: Jit, d: Jit, r: Reg)
    requires PinSame(c, d) && !d.regs[r].pinned
    ensures !c.regs[r].pinned
  {
  }

  lemma FreshKept(c: Jit, d: Jit, r: Reg)
    requires PinSame(c, d) && Fresh(c, r)
    ensures Fresh(d, r)
  {
    hide Aliased;
  }

  lemma GiveTail(z: Jit, L: Ledger, c: Jit, L2: Ledger, d: Jit, r: Reg, t: Reg)
    requires Rep(z, L, c) && Rep(z, Give(L2, 1), Unpin(d, t)) && PinSame(c, d) && L2.got == L.got && !Empty(c, r) && t != r
    requires d.regs[r].pinned && !Empty(d, r) && !c.regs[t].pinned
    requires forall s: Reg | s != r && !d.regs[s].pinned :: d.regs[s].lru < d.regs[r].lru
    requires d.regs[t].lru < d.regs[r].lru
    ensures var e := Unpin(d, t); var e1 := if c.regs[r].pinned then Pin(e, r) else Unpin(e, r);
      Rep(z, Back(Give(L2, 1), r, r in L.line), e1) && PinSame(c, e1)
  {
    hide Lookup, Look, Rep, Aliased;
    AliasedSame(d, Unpin(d, t));
    UnpinSim(z, L, c, Give(L2, 1), Unpin(d, t), r);
  }

  // ------------------------------------------------------------- any take

  /** A register is taken, and what is held back goes if it is in that one. */
  lemma TakeSim(z: Jit, L: Ledger, c: Jit)
    requires Rep(z, L, c)
    ensures Take(z, L).Some? <==> Scratch(c).Some?
    ensures Take(z, L).Some? ==>
      var (r, d) := Scratch(c).value; Taking(z, Take(z, L).value, c, r, d) && Take(z, L).value.got == L.got
  {
    hide Lookup, Look, DropReg, Aliased, ScratchScan, Rep, Fresh, PinSame, FlushPending, Flushed, Touched, Release, TakeFree;
    RepPend(z, L, c);
    if !L.held {
      TakeIsFree(z, L);
      TakeFreeSim(z, L, c);
      TakeKeepsHeld(L);
    } else {
      var b := PickRep(z, L, c);
      if b >= 0 {
        var p := Pin(c, b);
        if L.free > 0 {
          TakeEmpty(z, L, c, b);
        } else {
          TakeHead(z, L, c, b);
        }
      }
    }
  }

  /** An empty register has nothing to give way. */
  lemma TakeEmpty(z: Jit, L: Ledger, c: Jit, b: Reg)
    requires Rep(z, L, c) && L.held && L.free > 0 && Empty(c, b) && !c.regs[b].pinned
    requires Rep(z, L.(free := L.free - 1), Pin(c, b)) && PinSame(c, Pin(c, b))
    ensures Release(Pin(c, b), b).Some? && Taking(z, Touched(z, L.(free := L.free - 1)), c, b, Release(Pin(c, b), b).value)
    ensures Touched(z, L.(free := L.free - 1)).got == L.got
  {
    hide Lookup, Look, DropReg, Aliased, Rep, Fresh, PinSame, FlushPending, FlushPending;
    var p := Pin(c, b);
    AliasedSame(c, p);
    RepPend(z, L, c);
    HeldTouched(z, L.(free := L.free - 1), p);
    var v := Lookup(p, p.pendAddr);
    var q := Touch(p, v);
    if Uses(v, b) {
      FoundHeld(p, p.pendAddr, b);
    }
    AliasedSame(p, q);
    PinSameTrans(c, p, q);
    DropNothing(q, b);
    DropKeeps(c, q, b);
  }

  /** The first in line gives way. */
  lemma TakeHead(z: Jit, L: Ledger, c: Jit, b: Reg)
    requires Rep(z, L, c) && L.held && L.free == 0 && L.line != [] && b == L.line[0] && !Empty(c, b) && !c.regs[b].pinned
    requires Rep(z, L.(line := L.line[1..]), Pin(c, b)) && PinSame(c, Pin(c, b))
    ensures Take(z, L).Some? <==> Release(Pin(c, b), b).Some?
    ensures Take(z, L).Some? ==> Taking(z, Take(z, L).value, c, b, Release(Pin(c, b), b).value) && Take(z, L).value.got == L.got
  {
    hide Lookup, Look, DropReg, Aliased, Rep, Fresh, PinSame, FlushPending, Flushed, Touched;
    var p, L1 := Pin(c, b), L.(line := L.line[1..]);
    RepPend(z, L, c);
    LookLine(z, L, L.line[1..], z.pendAddr);
    HeldTouched(z, L1, p);
    LookAt(z, L1, p, z.pendAddr);
    var v := Lookup(p, p.pendAddr);
    var q := Touch(p, v);
    PinSameTrans(c, p, q);
    HeadUses(z, L, c, b);
    var w := Look(z, L, z.pendAddr);
    if w == At(b) || w == Minus(b) {
      TouchedPinned(z, L1, p, b);
      FlushSim(z, L1, q);
      if Flushed(z, L1).Some? {
        var L2, d := Flushed(z, L1).value, FlushPending(q).value;
        PinSameTrans(c, q, d);
        RepSingle(z, L2, d);
        GotPinned(z, L, c, d, b);
        PinnedIn(p, q, b);
        PinnedIn(q, d, b);
        DropFreeRep(z, L2, d, b);
        DropKeeps(c, d, b);
      }
    } else {
      var L2 := Touched(z, L1);
      TouchedGot(z, L1);
      RepSingle(z, L2, q);
      GotPinned(z, L, c, q, b);
      PinnedIn(p, q, b);
      SameEntries2(p, q, p.pendAddr);
      DropHeldRep(z, L2, q, b);
      DropKeeps(c, q, b);
    }
  }

  lemma PinnedIn(c: Jit, d: Jit, r: Reg)
    requires PinSame(c, d) && c.regs[r].pinned
    ensures d.regs[r].pinned
  {
  }

  lemma TouchedGot(z: Jit, L: Ledger)
    ensures Touched(z, L).got == L.got && Touched(z, L).gone == L.gone && Touched(z, L).held == L.held && Touched(z, L).free == L.free
  {
    hide Look;
  }

  lemma DropHeldRep(z: Jit, L: Ledger, c: Jit, b: Reg)
    requires Rep(z, L, c) && c.regs[b].pinned && NotGot(L, c, b) && !Uses(Lookup(c, c.pendAddr), b)
    ensures Rep(z, L.(gone := L.gone + {b}), DropReg(c, b))
  {
    hide Lookup, Rep, DropReg;
    DropRep(z, L, c, b);
  }

  /** The held-back value is in the first in line just when the ledger says so. */
  lemma HeadUses(z: Jit, L: Ledger, c: Jit, b: Reg)
    requires Rep(z, L, c) && L.held && !c.regs[b].pinned
    ensures var w := Look(z, L, z.pendAddr);
      Uses(Lookup(Pin(c, b), c.pendAddr), b) <==> w == At(b) || w == Minus(b)
  {
    hide Lookup, Look;
    LookAt(z, L, c, z.pendAddr);
    SameEntries2(c, Pin(c, b), c.pendAddr);
  }

  /** Looking at a pinned register leaves the line as it is. */
  lemma TouchedPinned(z: Jit, L: Ledger, c: Jit, b: Reg)
    requires Rep(z, L, c) && c.regs[b].pinned && (Look(z, L, z.pendAddr) == At(b) || Look(z, L, z.pendAddr) == Minus(b))
    ensures Touched(z, L) == L
  {
    hide Lookup, Look;
    RepLine(z, L, c, b);
  }
}
