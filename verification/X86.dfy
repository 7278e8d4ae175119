/** The x86-64 operations the translator emits, over the eleven registers it
    allocates, and what running a sequence of them does. */
module X86 {
  import opened Words
  import opened Bits
  import opened Memory

  const NREGS: nat := 11

  /** A register, by its place in alloc_regs: rax, rcx, rdx, rbx, rsi, rdi,
      r8 to r11, r13. */
  type Reg = r: int | 0 <= r < 11

  type RegFile = s: seq<word> | |s| == 11 witness [0, 0, 0, 0, 0, 0, 0, 0, 0, 0, 0]

  /** The bitmap of words holding static fields, by word index, and the byte
      per 4 KiB page that summarises it. */
  datatype Marks = Marks(words: set<int>, pages: set<int>)

  /** The stores made so far are logged, with their addresses and values. */
  datatype Machine = Machine(regs: RegFile, fl: Flags, mem: Mem, marks: Marks, log: seq<(word, word)>)

  /** A memory operand: a static address, through r15, or one in a register. */
  datatype Opnd = Abs(a: word) | Ind(base: Reg)

  /** Where a jump out of the block goes: the smc-th check, or a stub. */
  datatype Exit = Smc(k: nat) | Stub(k: nat)

  datatype Op =
    | Load(d: Reg, src: Opnd)               // mov d, [src]
    | LoadBE(d: Reg, src: Opnd)             // movbe d, [src]
    | Store(dst: Opnd, s: Reg)              // mov [dst], s
    | StoreBE(dst: Opnd, s: Reg)            // movbe [dst], s
    | StoreImm(a: word, v: word)            // mov qword [a], imm32
    | BswapR(d: Reg)
    | MovRR(d: Reg, s: Reg)
    | Mov32(d: Reg)                         // mov d32, d32
    | MovImm(d: Reg, v: word)
    | AddRR(d: Reg, s: Reg)
    | SubRR(d: Reg, s: Reg)
    | OrRR(d: Reg, s: Reg)
    | AndRR(d: Reg, s: Reg)
    | AndImm(d: Reg, v: word)               // and d, imm32
    | NegR(d: Reg)
    | NotR(d: Reg)
    | Lea1(d: Reg)                          // lea d, [d + 1]
    | TestRR(d: Reg)
    | ShlRI(d: Reg, n: nat)
    | ShrRI(d: Reg, n: nat)
    | JmpMarked(w: int, x: Exit)            // to x if word w is marked, by its bit
    | JmpPage(b: Reg, t1: Reg, t2: Reg, x: Exit)
      // cmp byte [r14 + t1 + page_off], 0; jnz to code that looks up the words
      // b >> 3 and (b + 7) >> 3 through t1 and t2, and leaves by x or comes back
    | JmpLE(x: Exit)
    | Jmp(x: Exit)

  /** n words' marks as bits, from word w on. */
  function MarkBits(words: set<int>, w: int, n: nat): (v: nat)
    ensures v < Pow2(n)
  {
    if n == 0 then 0 else MarkBits(words, w, n - 1) + if w + n - 1 in words then Pow2(n - 1) else 0
  }

  /** The i-th 64 bits of the bitmap. */
  function BitmapWord(words: set<int>, i: int): word { MarkBits(words, 64 * i, 64) % TWO64 }

  datatype Outcome = Go(m: Machine) | Left(x: Exit, m: Machine)

  function EA(o: Opnd, m: Machine): word {
    match o
    case Abs(a) => a
    case Ind(r) => m.regs[r]
  }

  function Set(m: Machine, r: Reg, v: word): Machine {
    m.(regs := m.regs[r := v])
  }

  function SetF(m: Machine, r: Reg, v: word, f: Flags): Machine {
    m.(regs := m.regs[r := v], fl := f)
  }

  function PutMem(m: Machine, a: word, v: word): Machine {
    m.(mem := Wr(m.mem, a, v), log := m.log + [(a, v)])
  }

  function AddFlags(x: word, y: word): Flags {
    Flags(Add(x, y) == 0, Add(x, y) >= TWO63, !(-TWO63 <= Signed(x) + Signed(y) < TWO63))
  }

  function Exec(op: Op, m: Machine): Outcome {
    match op
    case Load(d, o) => Go(Set(m, d, Bswap(Rd(m.mem, EA(o, m)))))
    case LoadBE(d, o) => Go(Set(m, d, Rd(m.mem, EA(o, m))))
    case Store(o, s) => Go(PutMem(m, EA(o, m), Bswap(m.regs[s])))
    case StoreBE(o, s) => Go(PutMem(m, EA(o, m), m.regs[s]))
    case StoreImm(a, v) => Go(PutMem(m, a, Bswap(v)))
    case BswapR(d) => Go(Set(m, d, Bswap(m.regs[d])))
    case MovRR(d, s) => Go(Set(m, d, m.regs[s]))
    case Mov32(d) => Go(Set(m, d, m.regs[d] % 0x1_0000_0000))
    case MovImm(d, v) => Go(Set(m, d, v))
    case AddRR(d, s) => Go(SetF(m, d, Add(m.regs[d], m.regs[s]), AddFlags(m.regs[d], m.regs[s])))
    case SubRR(d, s) => Go(SetF(m, d, Sub(m.regs[d], m.regs[s]), SubFlags(m.regs[d], m.regs[s])))
    case OrRR(d, s) => var v := Or(m.regs[d], m.regs[s]); Go(SetF(m, d, v, TestFlags(v)))
    case AndRR(d, s) => var v := And(m.regs[d], m.regs[s]); Go(SetF(m, d, v, TestFlags(v)))
    case AndImm(d, v) => var v := And(m.regs[d], v); Go(SetF(m, d, v, TestFlags(v)))
    case NegR(d) => Go(SetF(m, d, Neg(m.regs[d]), SubFlags(0, m.regs[d])))
    case NotR(d) => Go(Set(m, d, Not(m.regs[d])))
    case Lea1(d) => Go(Set(m, d, Add(m.regs[d], 1)))
    case TestRR(d) => Go(m.(fl := TestFlags(m.regs[d])))
    case ShlRI(d, n) => var v := Shl(m.regs[d], n); Go(SetF(m, d, v, TestFlags(v)))
    case ShrRI(d, n) => var v := Shr(m.regs[d], n); Go(SetF(m, d, v, TestFlags(v)))
    case JmpMarked(w, x) =>
      var m1 := m.(fl := TestFlags(if w in m.marks.words then 1 else 0));
      if w in m.marks.words then Left(x, m1) else Go(m1)
    case JmpPage(b, t1, t2, x) =>
      if m.regs[t1] !in m.marks.pages then Go(m.(fl := SubFlags(0, 0)))
      else
        var hi := Add(m.regs[b], 7) / 8;
        var m1 := SetF(Set(m, t1, hi), t2, BitmapWord(m.marks.words, hi / 64), TestFlags(hi));
        if m.regs[b] / 8 in m.marks.words || hi in m.marks.words then Left(x, m1) else Go(m1)
    case JmpLE(x) => if LE(m.fl) then Left(x, m) else Go(m)
    case Jmp(x) => Left(x, m)
  }

  /** Running code from m, until the first jump out. */
  function Run(code: seq<Op>, m: Machine): Outcome {
    if code == [] then Go(m)
    else
      match Run(code[..|code| - 1], m)
      case Go(m1) => Exec(code[|code| - 1], m1)
      case Left(x, m1) => Left(x, m1)
  }

  lemma RunAppend(code: seq<Op>, op: Op, m: Machine)
    ensures Run(code + [op], m) ==
            match Run(code, m)
            case Go(m1) => Exec(op, m1)
            case Left(x, m1) => Left(x, m1)
  {
    hide Exec;
    assert (code + [op])[..|code|] == code;
  }

  /** What follows a jump out does not matter. */
  lemma {:induction false} RunPrefix(code: seq<Op>, more: seq<Op>, m: Machine)
    requires code <= more && Run(code, m).Left?
    ensures Run(more, m) == Run(code, m)
  {
    hide Exec;
    if code != more {
      RunPrefix(code, more[..|more| - 1], m);
    }
  }

  /** Running one sequence after another. */
  lemma {:induction false} RunConcat(a: seq<Op>, b: seq<Op>, m: Machine)
    ensures Run(a + b, m) ==
            match Run(a, m)
            case Go(m1) => Run(b, m1)
            case Left(x, m1) => Left(x, m1)
  {
    hide Exec;
    if b == [] {
      assert a + b == a;
    } else {
      var c := b[..|b| - 1];
      RunConcat(a, c, m);
      assert (a + b)[..|a + b| - 1] == a + c;
    }
  }
}
