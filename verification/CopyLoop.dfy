/** A loop of 19 instructions that moves one word a round by patching its own
    pointers, and the function that does many rounds in one go. */
module CopyLoop {
  import opened Options
  import opened Words
  import opened Memory
  import opened Subleq
  import opened X86
  import opened RegCache
  import opened Cells

  const LOOP_LEN: int := 456     // 19 instructions of 24 bytes
  const COPY_MIN: nat := 4
  const MINUS8: word := 0xffff_ffff_ffff_fff8

  datatype Desc = Desc(start: word, t1: word, t2: word, sv: word, dv: word, cv: word, mv: word)

  /** The fields the loop patches: A of 5, B of 15, A and B of 14. */
  function F1(d: Desc): int { d.start + 120 }
  function F2(d: Desc): int { d.start + 368 }
  function F3(d: Desc): int { d.start + 336 }
  function F4(d: Desc): int { d.start + 344 }

  /** The operands of the template, by instruction and field: those not patched.
      sd tells whether instruction 16 moves S, and 17 D, or the other way. */
  function TmplA(d: Desc, k: nat): Option<int>
    requires k < 19
  {
    match k
    case 0 => Some(d.t1)  case 1 => Some(d.t2)  case 2 => Some(F1(d)) case 3 => Some(d.sv)
    case 4 => Some(d.t1)  case 5 => None        case 6 => Some(d.t1)  case 7 => Some(F2(d))
    case 8 => Some(F3(d)) case 9 => Some(F4(d)) case 10 => Some(d.dv) case 11 => Some(d.t1)
    case 12 => Some(d.t1) case 13 => Some(d.t1) case 14 => None       case 15 => Some(d.t2)
    case _ => Some(d.mv)
  }

  function TmplB(d: Desc, sd: bool, k: nat): Option<int>
    requires k < 19
  {
    match k
    case 0 => Some(d.t1)  case 1 => Some(d.t2)  case 2 => Some(F1(d)) case 3 => Some(d.t1)
    case 4 => Some(F1(d)) case 5 => Some(d.t2)  case 6 => Some(d.t1)  case 7 => Some(F2(d))
    case 8 => Some(F3(d)) case 9 => Some(F4(d)) case 10 => Some(d.t1) case 11 => Some(F2(d))
    case 12 => Some(F3(d)) case 13 => Some(F4(d)) case 14 => None     case 15 => None
    case 16 => Some(if sd then d.sv else d.dv)
    case 17 => Some(if sd then d.dv else d.sv)
    case _ => Some(d.cv)
  }

  /** The next instruction, but for the last, which goes back to the first. */
  function TmplC(d: Desc, k: nat): int { if k == 18 then d.start else d.start + 24 * k + 24 }

  /** The loop is at d.start in m. */
  predicate LoopIn(m: Mem, d: Desc, sd: bool)
    requires d.start + LOOP_LEN < TWO64
  {
    forall k: nat | k < 19 ::
      && (TmplA(d, k).Some? ==> Rd(m, d.start + 24 * k) == TmplA(d, k).value)
      && (TmplB(d, sd, k).Some? ==> Rd(m, d.start + 24 * k + 8) == TmplB(d, sd, k).value)
      && Rd(m, d.start + 24 * k + 16) == TmplC(d, k)
  }

  /** Six aligned addresses below the end of memory, no two the same, none in the
      loop's code. */
  predicate VarsOk(d: Desc, memSize: int) {
    && d.start % 8 == 0 && d.start + LOOP_LEN <= memSize <= 0x4000_0000_0000_0000
    && VarOk(d, memSize, d.t1) && VarOk(d, memSize, d.t2) && VarOk(d, memSize, d.sv)
    && VarOk(d, memSize, d.dv) && VarOk(d, memSize, d.cv) && VarOk(d, memSize, d.mv)
    && d.t1 !in [d.t2, d.sv, d.dv, d.cv, d.mv] && d.t2 !in [d.sv, d.dv, d.cv, d.mv]
    && d.sv !in [d.dv, d.cv, d.mv] && d.dv !in [d.cv, d.mv] && d.cv != d.mv
  }

  predicate VarOk(d: Desc, memSize: int, v: word) {
    v % 8 == 0 && v + 8 <= memSize && (v + 8 <= d.start || v >= d.start + LOOP_LEN)
  }

  /** Whether a field of the template is one the loop patches. */
  predicate Patched(k: nat, f: nat) { (f == 0 && k in {5, 14}) || (f == 1 && k in {14, 15}) }

  /** None of the template's fields is read at run time. */
  predicate TemplateStatic(start: word, dyn: set<int>)
    requires start + LOOP_LEN < TWO64
  {
    forall k: nat, f: nat | k < 19 && f < 3 && !Patched(k, f) :: (start + 24 * k + 8 * f) / 8 !in dyn
  }

  /** The loop at start, if it is there, none of its fields dynamic. */
  function FindCopy(m: Mem, dyn: set<int>, start: word, memSize: int): (o: Option<Desc>)
    requires memSize <= 0x4000_0000_0000_0000
    ensures o.Some? ==> VarsOk(o.value, memSize) && o.value.start == start && TemplateStatic(start, dyn)
    ensures o.Some? ==> LoopIn(m, o.value, true) || LoopIn(m, o.value, false)
  {
    if start + LOOP_LEN > memSize then None
    else
      var d := Desc(start, Rd(m, start), Rd(m, start + 24), Rd(m, start + 72), Rd(m, start + 240),
                    Rd(m, start + 440), Rd(m, start + 384));
      if VarsOk(d, memSize) && (LoopIn(m, d, true) || LoopIn(m, d, false)) && TemplateStatic(start, dyn) then Some(d)
      else None
  }

  /** The words an iteration changes, besides the one it copies. */
  function CellsOf(d: Desc): (s: seq<word>)
    requires d.start + LOOP_LEN < TWO64
    ensures |s| == 9
  {
    [d.sv, d.dv, d.cv, d.t1, d.t2, F1(d), F3(d), F4(d), F2(d)]
  }

  lemma CellsApart(d: Desc, memSize: int)
    requires VarsOk(d, memSize)
    ensures Apart(CellsOf(d))
  {
    hide CellsOf;
    forall i, j | 0 <= i < j < 9
      ensures Disjoint(CellsOf(d)[i], CellsOf(d)[j])
    {
      CellPlace(d, memSize, i);
      CellPlace(d, memSize, j);
      if j < 5 {
        VarCells(d, memSize, i, j);
      } else if 5 <= i {
        FieldCells(d, i, j);
      }
    }
  }

  /** The variables are outside the loop, the fields in it, all aligned. */
  lemma CellPlace(d: Desc, memSize: int, i: nat)
    requires VarsOk(d, memSize) && i < 9
    ensures CellsOf(d)[i] % 8 == 0
    ensures i < 5 ==> CellsOf(d)[i] + 8 <= d.start || CellsOf(d)[i] >= d.start + LOOP_LEN
    ensures i >= 5 ==> d.start <= CellsOf(d)[i] && CellsOf(d)[i] + 8 <= d.start + LOOP_LEN
  {
    hide CellsOf;
    CellAt(d, i);
  }

  lemma VarCells(d: Desc, memSize: int, i: nat, j: nat)
    requires VarsOk(d, memSize) && i < j < 5
    ensures CellsOf(d)[i] != CellsOf(d)[j]
  {
    hide CellsOf;
    VarsApart(d, memSize);
    CellAt(d, i);
    CellAt(d, j);
  }

  lemma FieldCells(d: Desc, i: nat, j: nat)
    requires d.start + LOOP_LEN < TWO64 && d.start % 8 == 0 && 5 <= i < j < 9
    ensures Disjoint(CellsOf(d)[i], CellsOf(d)[j])
  {
    hide CellsOf;
    CellAt(d, i);
    CellAt(d, j);
  }

  lemma CellAt(d: Desc, i: nat)
    requires d.start + LOOP_LEN < TWO64 && i < 9
    ensures CellsOf(d)[i] == match i
      case 0 => d.sv case 1 => d.dv case 2 => d.cv case 3 => d.t1 case 4 => d.t2
      case 5 => F1(d) case 6 => F3(d) case 7 => F4(d) case _ => F2(d)
  {
  }

  lemma VarsApart(d: Desc, memSize: int)
    requires VarsOk(d, memSize)
    ensures d.t1 != d.t2 && d.t1 != d.sv && d.t1 != d.dv && d.t1 != d.cv && d.t1 != d.mv
    ensures d.t2 != d.sv && d.t2 != d.dv && d.t2 != d.cv && d.t2 != d.mv
    ensures d.sv != d.dv && d.sv != d.cv && d.sv != d.mv && d.dv != d.cv && d.dv != d.mv && d.cv != d.mv
  {
  }

  lemma MvOutside(d: Desc, memSize: int)
    requires VarsOk(d, memSize)
    ensures Outside(d.mv, CellsOf(d))
  {
    hide CellsOf, Disjoint;
    forall i | 0 <= i < 9
      ensures Disjoint(d.mv, CellsOf(d)[i])
    {
      MvApart(d, memSize, i);
    }
  }

  lemma MvApart(d: Desc, memSize: int, i: nat)
    requires VarsOk(d, memSize) && i < 9
    ensures Disjoint(d.mv, CellsOf(d)[i])
  {
    hide CellsOf;
    VarsApart(d, memSize);
    CellPlace(d, memSize, i);
    CellAt(d, i);
  }

  lemma AlignedOutside(a: word, d: Desc, memSize: int)
    requires VarsOk(d, memSize) && a % 8 == 0 && d.start <= a < d.start + LOOP_LEN
    requires a != F1(d) && a != F2(d) && a != F3(d) && a != F4(d)
    ensures Outside(a, CellsOf(d))
  {
    forall i | 0 <= i < 9
      ensures Disjoint(a, CellsOf(d)[i])
    {
      CellAt(d, i);
    }
  }

  // -------------------------------------------------------- the bulk copy

  /** n bytes of m at s put at d, all at once. */
  function BulkCopy(m: Mem, d: int, s: int, n: nat): Mem
    requires 0 <= d && 0 <= s && d + n <= SIZE && s + n <= SIZE
  {
    m[..d] + m[s..s + n] + m[d + n..]
  }

  predicate Overlaps(a: int, alen: int, b: int, blen: int) { a < b + blen && b < a + alen }

  datatype CopyResult = CopyResult(n: nat, done: bool, mem: Mem)

  /** How many iterations the loop makes from counter c on. */
  function Total(c: word): nat {
    if Signed(c) <= -8 then (-8 - Signed(c)) / 8 + 2 else 1
  }

  predicate PagesClear(pages: set<int>, lo: int, hi: int) {
    forall pg | pg in pages :: !(lo / 0x1000 <= pg <= hi / 0x1000)
  }

  /** Whether n iterations from s to d can be run at once. */
  predicate CopyAllowed(d: Desc, m: Mem, n: nat, memSize: int, pages: set<int>)
    requires memSize <= 0x4000_0000_0000_0000
  {
    var s, t, bytes := Rd(m, d.sv), Rd(m, d.dv), 8 * n;
    && s <= memSize && bytes <= memSize - s && t <= memSize && bytes <= memSize - t
    && !(t > s && t < s + bytes)
    && (forall v | v in [d.t1, d.t2, d.sv, d.dv, d.cv] :: !Overlaps(s, bytes, v, 8) && !Overlaps(t, bytes, v, 8))
    && !Overlaps(t, bytes, d.mv, 8)
    && !Overlaps(s, bytes, d.start, LOOP_LEN) && !Overlaps(t, bytes, d.start, LOOP_LEN)
    && !Overlaps(s, bytes, HW_LO, HW_HI - HW_LO) && !Overlaps(t, bytes, HW_LO, HW_HI - HW_LO)
    && PagesClear(pages, t, t + bytes - 1)
  }

  function Min(a: nat, b: nat): nat { if a < b then a else b }

  /** The variables and patched fields as the last of n iterations leaves them. */
  function LastCells(d: Desc, m: Mem, n: nat, s: word, t: word): (v: seq<word>)
    requires n >= 1 && s + 8 * n < TWO64 && t + 8 * n < TWO64
    ensures |v| == 9
  {
    var dl := t + 8 * n - 8;
    [s + 8 * n, t + 8 * n, Add(Rd(m, d.cv), 8 * n), Neg(dl), Neg(Rd(m, s + 8 * n - 8)), s + 8 * n - 8, dl, dl, dl]
  }

  /** The rounds to do: none where a range is not allowed, else what C and the
      budget leave, the first round being paid for already. */
  function JitCopy(d: Desc, m: Mem, budget: nat, memSize: int, pages: set<int>): (r: CopyResult)
    requires VarsOk(d, memSize)
    ensures r.n > 0 ==> 19 * (r.n - 1) <= budget
    ensures r.n == 0 ==> r.mem == m && !r.done
  {
    var n := Min(budget / 19 + 1, Total(Rd(m, d.cv)));
    if Rd(m, d.mv) != MINUS8 || n < COPY_MIN || !CopyAllowed(d, m, n, memSize, pages) then CopyResult(0, false, m)
    else
      var s, t := Rd(m, d.sv), Rd(m, d.dv);
      CopyResult(n, n == Total(Rd(m, d.cv)),
                 WriteAll(BulkCopy(m, t, s, 8 * n), CellsOf(d), LastCells(d, m, n, s, t)))
  }
}
