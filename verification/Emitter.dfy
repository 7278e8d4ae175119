/** The bytes the translator emits, and decoding them by the rules of the
    architecture (sections 2.1.3 and 2.2.1 of the Intel SDM, volume 2A). */
module Emitter {
  import opened Options
  import opened Words

  type regno = r: int | 0 <= r < 16
  type int32 = v: int | -0x8000_0000 <= v < 0x8000_0000
  type uint32 = v: int | 0 <= v < 0x1_0000_0000

  const RSP: regno := 4

  // ------------------------------------------------------------- the emitter
  // each function puts its bytes before those that follow

  /** The prefix byte, left out where it would say nothing. */
  function Rex(w: bool, r: regno, x: regno, b: regno, rest: seq<byte>): seq<byte> {
    var v := 0x40 + (if w then 8 else 0) + r / 8 * 4 + x / 8 * 2 + b / 8;
    if v == 0x40 then rest else [v] + rest
  }

  function E32(v: uint32, rest: seq<byte>): seq<byte> {
    [v % 0x100, v / 0x100 % 0x100, v / 0x1_0000 % 0x100, v / 0x100_0000] + rest
  }

  function E64(v: word, rest: seq<byte>): seq<byte> {
    E32(v % 0x1_0000_0000, E32(v / 0x1_0000_0000, rest))
  }

  function Unsigned(v: int32): uint32 { if v < 0 then v + 0x1_0000_0000 else v }

  /** ModRM, and SIB and displacement if needed, for [base + disp]. */
  function MemOperand(reg: regno, base: regno, disp: int32, rest: seq<byte>): seq<byte> {
    var mod := if disp == 0 && base % 8 != 5 then 0 else if -128 <= disp <= 127 then 1 else 2;
    var tail :=
      if mod == 1 then [if disp < 0 then disp + 256 else disp] + rest
      else if mod == 2 then E32(Unsigned(disp), rest) else rest;
    [mod * 64 + reg % 8 * 8 + base % 8] + if base % 8 == 4 then [0x24] + tail else tail
  }

  function ModrmReg(reg: regno, rm: regno, rest: seq<byte>): seq<byte> { [0xc0 + reg % 8 * 8 + rm % 8] + rest }

  /** Calls of the emitter, as the translator makes them. */
  datatype Call =
    | OpMem(op: byte, r: regno, base: regno, disp: int32)
    | MovbeMem(store: bool, r: regno, base: regno, disp: int32)
    | LoadSib8(r: regno, base: regno, index: regno)
    | BswapR(r: regno)
    | AluRR(op: byte, dst: regno, src: regno)
    | Mov32(r: regno)
    | Group3(ext: regno, r: regno)
    | ShiftRI(ext: regno, r: regno, n: byte)
    | BtRR(base: regno, bit: regno)
    | MovImm(r: regno, v: word)
    | AluImm(ext: regno, r: regno, imm: int32)
    | Jcc32(cc: byte, rel: int32)
    | Jmp32(rel: int32)
    | JmpR(r: regno)
    | CallR(r: regno)
    | CmpByteZero(base: regno, index: regno, disp: int32)
    | TestBitmap(disp: int32, mask: byte)
    | TestDword(disp: int32, masks: uint32)
    | StoreImm(base: regno, disp: int32, imm: int32)
    | CmpMem(r: regno, base: regno, disp: int32)
    | LeaRip(rel: int32)
    | ImulImm(dst: regno, src: regno, n: byte)

  /** What the translator keeps to. */
  predicate Passed(c: Call) {
    match c
    case OpMem(op, _, _, _) => op in {0x8b, 0x89, 0x8d}
    case LoadSib8(_, base, index) => base % 8 != 5 && index != RSP
    case AluRR(op, _, _) => op in {0x89, 0x29, 0x85, 0x09, 0x21, 0x01}
    case Group3(ext, _) => ext in {2, 3}
    case ShiftRI(ext, _, _) => ext in {4, 5}
    case AluImm(ext, _, _) => ext in {0, 4, 5}
    case Jcc32(cc, _) => cc < 16
    case CmpByteZero(_, index, _) => index != RSP
    case _ => true
  }

  const R14: regno := 14

  function Emit(c: Call, rest: seq<byte>): seq<byte>
    requires Passed(c)
  {
    match c
    case OpMem(op, r, base, disp) => Rex(true, r, 0, base, [op] + MemOperand(r, base, disp, rest))
    case MovbeMem(store, r, base, disp) =>
      Rex(true, r, 0, base, [0x0f, 0x38, if store then 0xf1 else 0xf0] + MemOperand(r, base, disp, rest))
    case LoadSib8(r, base, index) =>
      Rex(true, r, index, base, [0x8b, 0x04 + r % 8 * 8, 0xc0 + index % 8 * 8 + base % 8] + rest)
    case BswapR(r) => Rex(true, 0, 0, r, [0x0f, 0xc8 + r % 8] + rest)
    case AluRR(op, dst, src) => Rex(true, src, 0, dst, [op] + ModrmReg(src, dst, rest))
    case Mov32(r) => Rex(false, r, 0, r, [0x89] + ModrmReg(r, r, rest))
    case Group3(ext, r) => Rex(true, 0, 0, r, [0xf7] + ModrmReg(ext, r, rest))
    case ShiftRI(ext, r, n) => Rex(true, 0, 0, r, [0xc1] + ModrmReg(ext, r, [n] + rest))
    case BtRR(base, bit) => Rex(true, bit, 0, base, [0x0f, 0xa3] + ModrmReg(bit, base, rest))
    case MovImm(r, v) =>
      if v <= 0xffff_ffff then Rex(false, 0, 0, r, [0xb8 + r % 8] + E32(v, rest))
      else if v >= TWO64 - 0x8000_0000 then
        Rex(true, 0, 0, r, [0xc7] + ModrmReg(0, r, E32(v % 0x1_0000_0000, rest)))
      else Rex(true, 0, 0, r, [0xb8 + r % 8] + E64(v, rest))
    case AluImm(ext, r, v) => Rex(true, 0, 0, r, [0x81] + ModrmReg(ext, r, E32(Unsigned(v), rest)))
    case Jcc32(cc, rel) => [0x0f, 0x80 + cc] + E32(Unsigned(rel), rest)
    case Jmp32(rel) => [0xe9] + E32(Unsigned(rel), rest)
    case JmpR(r) => Rex(false, 0, 0, r, [0xff] + ModrmReg(4, r, rest))
    case CallR(r) => Rex(false, 0, 0, r, [0xff] + ModrmReg(2, r, rest))
    case CmpByteZero(base, index, disp) =>
      Rex(false, 0, index, base, [0x80, 0xbc, index % 8 * 8 + base % 8] + E32(Unsigned(disp), [0] + rest))
    case TestBitmap(disp, mask) => Rex(false, 0, 0, R14, [0xf6] + MemOperand(0, R14, disp, [mask] + rest))
    case TestDword(disp, mask) => Rex(false, 0, 0, R14, [0xf7] + MemOperand(0, R14, disp, E32(mask, rest)))
    case StoreImm(base, disp, v) => Rex(true, 0, 0, base, [0xc7] + MemOperand(0, base, disp, E32(Unsigned(v), rest)))
    case CmpMem(r, base, disp) => Rex(true, r, 0, base, [0x39] + MemOperand(r, base, disp, rest))
    case LeaRip(rel) => [0x48, 0x8d, 0x1d] + E32(Unsigned(rel), rest)
    case ImulImm(dst, src, n) => Rex(true, dst, 0, src, [0x6b] + ModrmReg(dst, src, [n] + rest))
  }

  // ------------------------------------------------------------- the decoder

  /** An operand in a register or in memory: [base + index << scale + disp], or
      relative to the next instruction. */
  datatype Rm = Reg(r: regno) | Mem(base: regno, disp: int32) | Sib(base: regno, index: regno, scale: nat, disp: int32) | Rip(disp: int32)

  /** The opcode's map and byte, the operand size, reg or the opcode's digit,
      the other operand, and the immediate. */
  datatype Ins = Ins(escape: nat, op: byte, w: bool, reg: regno, rm: Rm, imm: Option<nat>)

  function D32(s: seq<byte>): Option<(uint32, seq<byte>)> {
    if |s| < 4 then None
    else Some((s[0] as int + s[1] as int * 0x100 + s[2] as int * 0x1_0000 + s[3] as int * 0x100_0000, s[4..]))
  }

  function Signed32(v: uint32): int32 { if v >= 0x8000_0000 then v - 0x1_0000_0000 else v }
  function Signed8(v: byte): int32 { if v >= 128 then v - 256 else v }

  /** A displacement of the size mod says. */
  function DecodeDisp(mod: nat, s: seq<byte>): Option<(int32, seq<byte>)> {
    if mod == 0 then Some((0, s))
    else if mod == 1 then (if s == [] then None else Some((Signed8(s[0]), s[1..])))
    else
      var (v, t) :- D32(s);
      Some((Signed32(v), t))
  }

  /** ModRM, with REX's R, X and B. */
  function DecodeModrm(r: nat, x: nat, b: nat, s: seq<byte>): Option<(regno, Rm, seq<byte>)>
    requires r <= 1 && x <= 1 && b <= 1
  {
    if s == [] then None
    else
      var mod, reg, rm := s[0] / 64, s[0] / 8 % 8 + 8 * r, s[0] % 8;
      if mod == 3 then Some((reg, Reg(rm + 8 * b), s[1..]))
      else if rm == 4 then
        if |s| < 2 then None
        else
          var scale, index, base := s[1] / 64, s[1] / 8 % 8 + 8 * x, s[1] % 8;
          if base == 5 && mod == 0 then None
          else
            var (disp, t) :- DecodeDisp(mod, s[2..]);
            Some((reg, if index == RSP then Mem(base + 8 * b, disp) else Sib(base + 8 * b, index, scale, disp), t))
      else if mod == 0 && rm == 5 then
        var (disp, t) :- DecodeDisp(2, s[1..]);
        Some((reg, Rip(disp), t))
      else
        var (disp, t) :- DecodeDisp(mod, s[1..]);
        Some((reg, Mem(rm + 8 * b, disp), t))
  }

  datatype Form = PlusR | Modrm | Relative | Unknown

  /** How the operands of an opcode are encoded. */
  function FormOf(escape: nat, op: byte): Form {
    if escape == 0 then
      if 0xb8 <= op <= 0xbf then PlusR else if op == 0xe9 then Relative
      else if op in {0x01, 0x09, 0x21, 0x29, 0x39, 0x6b, 0x80, 0x81, 0x85, 0x89, 0x8b, 0x8d, 0xc1, 0xc7, 0xf6, 0xf7, 0xff} then Modrm
      else Unknown
    else if escape == 1 then
      if 0xc8 <= op <= 0xcf then PlusR else if 0x80 <= op <= 0x8f then Relative else if op == 0xa3 then Modrm else Unknown
    else if op in {0xf0, 0xf1} then Modrm else Unknown
  }

  /** The bytes of an immediate. */
  function ImmSize(escape: nat, op: byte, w: bool, reg: regno): nat {
    if escape != 0 then 0
    else if 0xb8 <= op <= 0xbf then (if w then 8 else 4)
    else if op in {0x81, 0xc7} || (op == 0xf7 && reg % 8 == 0) then 4
    else if op in {0x6b, 0x80, 0xc1} || (op == 0xf6 && reg % 8 == 0) then 1
    else 0
  }

  function DecodeImm(size: nat, s: seq<byte>): Option<(Option<nat>, seq<byte>)> {
    if size == 0 then Some((None, s))
    else if size == 1 then
      if s == [] then None
      else
        var v: nat := s[0];
        Some((Some(v), s[1..]))
    else
      var (low, t) :- D32(s);
      var lo: nat := low;
      if size == 4 then Some((Some(lo), t))
      else
        var (hi, u) :- D32(t);
        var v: nat := lo + hi * 0x1_0000_0000;
        Some((Some(v), u))
  }

  /** What follows the opcode. */
  function DecodeOp(escape: nat, op: byte, w: bool, r: nat, x: nat, b: nat, s: seq<byte>): Option<(Ins, seq<byte>)>
    requires r <= 1 && x <= 1 && b <= 1
  {
    match FormOf(escape, op)
    case Unknown => None
    case Relative =>
      var (rel, t) :- DecodeDisp(2, s);
      Some((Ins(escape, op, w, 0, Rip(rel), None), t))
    case PlusR =>
      var (imm, t) :- DecodeImm(ImmSize(escape, op, w, 0), s);
      Some((Ins(escape, op - op % 8, w, 0, Reg(op % 8 + 8 * b), imm), t))
    case Modrm =>
      var (reg, rm, t) :- DecodeModrm(r, x, b, s);
      var (imm, u) :- DecodeImm(ImmSize(escape, op, w, reg), t);
      Some((Ins(escape, op, w, reg, rm, imm), u))
  }

  function DecodeRex(w: bool, r: nat, x: nat, b: nat, s: seq<byte>): Option<(Ins, seq<byte>)>
    requires r <= 1 && x <= 1 && b <= 1
  {
    if s == [] then None
    else if s[0] != 0x0f then DecodeOp(0, s[0], w, r, x, b, s[1..])
    else if |s| < 2 then None
    else if s[1] != 0x38 then DecodeOp(1, s[1], w, r, x, b, s[2..])
    else if |s| < 3 then None
    else DecodeOp(2, s[2], w, r, x, b, s[3..])
  }

  /** The next instruction, and the bytes after it. */
  function Decode(s: seq<byte>): Option<(Ins, seq<byte>)> {
    if s == [] then None
    else if 0x40 <= s[0] < 0x50 then
      DecodeRex(s[0] / 8 % 2 == 1, s[0] / 4 % 2, s[0] / 2 % 2, s[0] % 2, s[1..])
    else DecodeRex(false, 0, 0, 0, s)
  }

  // -------------------------------------------------------- the round trip

  /** The instruction a call of the emitter stands for. */
  function Meant(c: Call): Ins {
    match c
    case OpMem(op, r, base, disp) => Ins(0, op, true, r, Mem(base, disp), None)
    case MovbeMem(store, r, base, disp) => Ins(2, if store then 0xf1 else 0xf0, true, r, Mem(base, disp), None)
    case LoadSib8(r, base, index) => Ins(0, 0x8b, true, r, Sib(base, index, 3, 0), None)
    case BswapR(r) => Ins(1, 0xc8, true, 0, Reg(r), None)
    case AluRR(op, dst, src) => Ins(0, op, true, src, Reg(dst), None)
    case Mov32(r) => Ins(0, 0x89, false, r, Reg(r), None)
    case Group3(ext, r) => Ins(0, 0xf7, true, ext, Reg(r), None)
    case ShiftRI(ext, r, n) => Ins(0, 0xc1, true, ext, Reg(r), Some(n))
    case BtRR(base, bit) => Ins(1, 0xa3, true, bit, Reg(base), None)
    case MovImm(r, v) =>
      if v <= 0xffff_ffff then Ins(0, 0xb8, false, 0, Reg(r), Some(v))
      else if v >= TWO64 - 0x8000_0000 then Ins(0, 0xc7, true, 0, Reg(r), Some(v % 0x1_0000_0000))
      else Ins(0, 0xb8, true, 0, Reg(r), Some(v))
    case AluImm(ext, r, v) => Ins(0, 0x81, true, ext, Reg(r), Some(Unsigned(v)))
    case Jcc32(cc, rel) => Ins(1, if cc < 16 then 0x80 + cc else 0x80, false, 0, Rip(rel), None)
    case Jmp32(rel) => Ins(0, 0xe9, false, 0, Rip(rel), None)
    case JmpR(r) => Ins(0, 0xff, false, 4, Reg(r), None)
    case CallR(r) => Ins(0, 0xff, false, 2, Reg(r), None)
    case CmpByteZero(base, index, disp) => Ins(0, 0x80, false, 7, Sib(base, index, 0, disp), Some(0))
    case TestBitmap(disp, mask) => Ins(0, 0xf6, false, 0, Mem(R14, disp), Some(mask))
    case TestDword(disp, mask) => Ins(0, 0xf7, false, 0, Mem(R14, disp), Some(mask))
    case StoreImm(base, disp, v) => Ins(0, 0xc7, true, 0, Mem(base, disp), Some(Unsigned(v)))
    case CmpMem(r, base, disp) => Ins(0, 0x39, true, r, Mem(base, disp), None)
    case LeaRip(rel) => Ins(0, 0x8d, true, 3, Rip(rel), None)
    case ImulImm(dst, src, n) => Ins(0, 0x6b, true, dst, Reg(src), Some(n))
  }

  /** What mov_imm puts in a register, by the form it chose: a 32-bit immediate
      with its high half cleared, or sign-extended, or all 64 bits. */
  function Loaded(i: Ins): nat
    requires i.imm.Some?
  {
    if i.op == 0xc7 && i.imm.value >= 0x8000_0000 then i.imm.value + TWO64 - 0x1_0000_0000 else i.imm.value
  }

  lemma MovImmLoads(r: regno, v: word)
    ensures Loaded(Meant(MovImm(r, v))) == v
  {
  }

  lemma D32E32(v: uint32, rest: seq<byte>)
    ensures D32(E32(v, rest)) == Some((v, rest))
  {
    hide *;
    Bytes4(v);
    E32Is(v, rest);
    D32Is(E32(v, rest));
  }

  lemma E32Is(v: uint32, rest: seq<byte>)
    ensures var s := E32(v, rest);
      |s| == 4 + |rest| && s[0] == v % 0x100 && s[1] == v / 0x100 % 0x100 && s[2] == v / 0x1_0000 % 0x100
      && s[3] == v / 0x100_0000 && s[4..] == rest
  {
  }

  lemma D32Is(s: seq<byte>)
    requires |s| >= 4
    ensures D32(s) == Some((s[0] as int + s[1] as int * 0x100 + s[2] as int * 0x1_0000 + s[3] as int * 0x100_0000, s[4..]))
  {
  }

  lemma Bytes4(v: nat)
    ensures v == v % 0x100 + v / 0x100 % 0x100 * 0x100 + v / 0x1_0000 % 0x100 * 0x1_0000 + v / 0x100_0000 * 0x100_0000
  {
    assert v / 0x1_0000 == v / 0x100 / 0x100;
    assert v / 0x100_0000 == v / 0x1_0000 / 0x100;
  }

  lemma SignsBack(v: int32)
    ensures Signed32(Unsigned(v)) == v
  {
  }

  /** [base + disp] comes back, whatever the base and the displacement. */
  lemma MemBack(reg: regno, base: regno, disp: int32, rest: seq<byte>)
    ensures DecodeModrm(reg / 8, 0, base / 8, MemOperand(reg, base, disp, rest)) == Some((reg, Mem(base, disp), rest))
  {
    hide E32, D32;
    D32E32(Unsigned(disp), rest);
    SignsBack(disp);
    var s := MemOperand(reg, base, disp, rest);
    var mod := if disp == 0 && base % 8 != 5 then 0 else if -128 <= disp <= 127 then 1 else 2;
    Fields(mod, reg % 8, base % 8);
    assert s[0] == mod * 64 + reg % 8 * 8 + base % 8;
    var tail :=
      if mod == 1 then [if disp < 0 then disp + 256 else disp] + rest
      else if mod == 2 then E32(Unsigned(disp), rest) else rest;
    assert DecodeDisp(mod, tail) == Some((disp, rest));
    if base % 8 == 4 {
      assert s[1] == 0x24 && s[2..] == tail;
    } else {
      assert s[1..] == tail;
    }
  }

  lemma Fields(mod: nat, reg: nat, rm: nat)
    requires mod < 4 && reg < 8 && rm < 8
    ensures var v := mod * 64 + reg * 8 + rm; v / 64 == mod && v / 8 % 8 == reg && v % 8 == rm
  {
  }

  lemma RegBack(reg: regno, rm: regno, x: nat, rest: seq<byte>)
    requires x <= 1
    ensures DecodeModrm(reg / 8, x, rm / 8, ModrmReg(reg, rm, rest)) == Some((reg, Reg(rm), rest))
  {
    Fields(3, reg % 8, rm % 8);
    assert ModrmReg(reg, rm, rest)[1..] == rest;
  }

  /** REX comes back, and is never taken for an opcode. */
  lemma RexBack(w: bool, r: regno, x: regno, b: regno, rest: seq<byte>)
    requires rest != [] && !(0x40 <= rest[0] < 0x50)
    ensures Decode(Rex(w, r, x, b, rest)) == DecodeRex(w, r / 8, x / 8, b / 8, rest)
  {
    hide DecodeRex;
    var v := 0x40 + (if w then 8 else 0) + r / 8 * 4 + x / 8 * 2 + b / 8;
    if v != 0x40 {
      assert Rex(w, r, x, b, rest)[0] == v && Rex(w, r, x, b, rest)[1..] == rest;
    }
  }

  lemma ImmBack(v: uint32, rest: seq<byte>)
    ensures DecodeImm(4, E32(v, rest)) == Some((Some(v), rest))
  {
    hide E32, D32;
    D32E32(v, rest);
  }

  lemma Imm64Back(v: word, rest: seq<byte>)
    ensures DecodeImm(8, E64(v, rest)) == Some((Some(v), rest))
  {
    hide E32, D32;
    D32E32(v % 0x1_0000_0000, E32(v / 0x1_0000_0000, rest));
    D32E32(v / 0x1_0000_0000, rest);
  }

  lemma ByteBack(n: byte, rest: seq<byte>)
    ensures DecodeImm(1, [n] + rest) == Some((Some(n), rest))
  {
    assert ([n] + rest)[1..] == rest;
  }

  /** An instruction with ModRM, its opcode of one byte. */
  lemma OneByteBack(op: byte, w: bool, r: regno, x: regno, b: regno, rm: Rm, modrm: seq<byte>, imms: seq<byte>, imm: Option<nat>, rest: seq<byte>)
    requires FormOf(0, op) == Modrm
    requires DecodeModrm(r / 8, x / 8, b / 8, modrm) == Some((r, rm, imms))
    requires DecodeImm(ImmSize(0, op, w, r), imms) == Some((imm, rest))
    ensures Decode(Rex(w, r, x, b, [op] + modrm)) == Some((Ins(0, op, w, r, rm, imm), rest))
  {
    hide DecodeModrm, DecodeImm, Decode, Rex;
    RexBack(w, r, x, b, [op] + modrm);
    assert ([op] + modrm)[1..] == modrm;
  }

  /** One whose digit, under 8, is in place of a register. */
  lemma DigitBack(op: byte, w: bool, digit: regno, b: regno, rm: Rm, modrm: seq<byte>, imms: seq<byte>, imm: Option<nat>, rest: seq<byte>)
    requires FormOf(0, op) == Modrm && digit < 8
    requires DecodeModrm(0, 0, b / 8, modrm) == Some((digit, rm, imms))
    requires DecodeImm(ImmSize(0, op, w, digit), imms) == Some((imm, rest))
    ensures Decode(Rex(w, 0, 0, b, [op] + modrm)) == Some((Ins(0, op, w, digit, rm, imm), rest))
  {
    hide DecodeModrm, DecodeImm, Decode, Rex;
    RexBack(w, 0, 0, b, [op] + modrm);
    assert ([op] + modrm)[1..] == modrm;
  }

  lemma NoImmBack(rest: seq<byte>)
    ensures DecodeImm(0, rest) == Some((None, rest))
  {
  }

  lemma RegCallsBack(c: Call, rest: seq<byte>)
    requires Passed(c) && (c.AluRR? || c.Mov32? || c.Group3? || c.ShiftRI? || c.AluImm? || c.JmpR? || c.CallR? || c.ImulImm?)
    ensures Decode(Emit(c, rest)) == Some((Meant(c), rest))
  {
    hide Decode, DecodeModrm, DecodeImm, Rex, ModrmReg, E32;
    NoImmBack(rest);
    match c
    case AluRR(op, dst, src) =>
      RegBack(src, dst, 0, rest);
      OneByteBack(op, true, src, 0, dst, Reg(dst), ModrmReg(src, dst, rest), rest, None, rest);
    case Mov32(r) =>
      RegBack(r, r, 0, rest);
      OneByteBack(0x89, false, r, 0, r, Reg(r), ModrmReg(r, r, rest), rest, None, rest);
    case Group3(ext, r) =>
      RegBack(ext, r, 0, rest);
      DigitBack(0xf7, true, ext, r, Reg(r), ModrmReg(ext, r, rest), rest, None, rest);
    case ShiftRI(ext, r, n) =>
      RegBack(ext, r, 0, [n] + rest);
      ByteBack(n, rest);
      DigitBack(0xc1, true, ext, r, Reg(r), ModrmReg(ext, r, [n] + rest), [n] + rest, Some(n), rest);
    case AluImm(ext, r, v) =>
      var t := E32(Unsigned(v), rest);
      RegBack(ext, r, 0, t);
      ImmBack(Unsigned(v), rest);
      DigitBack(0x81, true, ext, r, Reg(r), ModrmReg(ext, r, t), t, Some(Unsigned(v)), rest);
    case JmpR(r) =>
      RegBack(4, r, 0, rest);
      DigitBack(0xff, false, 4, r, Reg(r), ModrmReg(4, r, rest), rest, None, rest);
    case ImulImm(dst, src, n) =>
      RegBack(dst, src, 0, [n] + rest);
      ByteBack(n, rest);
      OneByteBack(0x6b, true, dst, 0, src, Reg(src), ModrmReg(dst, src, [n] + rest), [n] + rest, Some(n), rest);
    case CallR(r) =>
      RegBack(2, r, 0, rest);
      DigitBack(0xff, false, 2, r, Reg(r), ModrmReg(2, r, rest), rest, None, rest);
  }

  lemma MemCallsBack(c: Call, rest: seq<byte>)
    requires Passed(c) && (c.OpMem? || c.TestBitmap? || c.TestDword? || c.StoreImm? || c.CmpMem?)
    ensures Decode(Emit(c, rest)) == Some((Meant(c), rest))
  {
    hide Decode, DecodeModrm, DecodeImm, Rex, MemOperand, E32;
    NoImmBack(rest);
    match c
    case OpMem(op, r, base, disp) =>
      MemBack(r, base, disp, rest);
      OneByteBack(op, true, r, 0, base, Mem(base, disp), MemOperand(r, base, disp, rest), rest, None, rest);
    case CmpMem(r, base, disp) =>
      MemBack(r, base, disp, rest);
      OneByteBack(0x39, true, r, 0, base, Mem(base, disp), MemOperand(r, base, disp, rest), rest, None, rest);
    case TestBitmap(disp, mask) =>
      MemBack(0, R14, disp, [mask] + rest);
      ByteBack(mask, rest);
      DigitBack(0xf6, false, 0, R14, Mem(R14, disp), MemOperand(0, R14, disp, [mask] + rest), [mask] + rest, Some(mask), rest);
    case TestDword(disp, mask) =>
      var t := E32(mask, rest);
      MemBack(0, R14, disp, t);
      ImmBack(mask, rest);
      DigitBack(0xf7, false, 0, R14, Mem(R14, disp), MemOperand(0, R14, disp, t), t, Some(mask), rest);
    case StoreImm(base, disp, v) =>
      var t := E32(Unsigned(v), rest);
      MemBack(0, base, disp, t);
      ImmBack(Unsigned(v), rest);
      DigitBack(0xc7, true, 0, base, Mem(base, disp), MemOperand(0, base, disp, t), t, Some(Unsigned(v)), rest);
  }

  lemma MovImmBack(r: regno, v: word, rest: seq<byte>)
    ensures Decode(Emit(MovImm(r, v), rest)) == Some((Meant(MovImm(r, v)), rest))
  {
    hide Decode, DecodeModrm, DecodeImm, Rex, ModrmReg, E32, E64;
    if v <= 0xffff_ffff {
      ImmBack(v, rest);
      PlusBack(false, r, E32(v, rest), Some(v), rest);
    } else if v >= TWO64 - 0x8000_0000 {
      var u := v % 0x1_0000_0000;
      ImmBack(u, rest);
      RegBack(0, r, 0, E32(u, rest));
      DigitBack(0xc7, true, 0, r, Reg(r), ModrmReg(0, r, E32(u, rest)), E32(u, rest), Some(u), rest);
    } else {
      Imm64Back(v, rest);
      PlusBack(true, r, E64(v, rest), Some(v), rest);
    }
  }

  lemma PlusBack(w: bool, r: regno, imms: seq<byte>, imm: Option<nat>, rest: seq<byte>)
    requires DecodeImm(if w then 8 else 4, imms) == Some((imm, rest))
    ensures Decode(Rex(w, 0, 0, r, [0xb8 + r % 8] + imms)) == Some((Ins(0, 0xb8, w, 0, Reg(r), imm), rest))
  {
    hide DecodeImm, Decode, Rex;
    var op: byte := 0xb8 + r % 8;
    RexBack(w, 0, 0, r, [op] + imms);
    assert ([op] + imms)[1..] == imms;
    assert op % 8 == r % 8 && op - op % 8 == 0xb8;
  }

  lemma EscapedBack(c: Call, rest: seq<byte>)
    requires Passed(c) && (c.MovbeMem? || c.BswapR? || c.BtRR?)
    ensures Decode(Emit(c, rest)) == Some((Meant(c), rest))
  {
    hide Decode, DecodeModrm, Rex, MemOperand, ModrmReg;
    match c
    case MovbeMem(store, r, base, disp) =>
      var op: byte := if store then 0xf1 else 0xf0;
      var t := MemOperand(r, base, disp, rest);
      RexBack(true, r, 0, base, [0x0f, 0x38, op] + t);
      MemBack(r, base, disp, rest);
      assert ([0x0f, 0x38, op] + t)[3..] == t;
    case BswapR(r) =>
      var op: byte := 0xc8 + r % 8;
      RexBack(true, 0, 0, r, [0x0f, op] + rest);
      assert ([0x0f, op] + rest)[2..] == rest;
      assert op % 8 == r % 8 && op - op % 8 == 0xc8;
    case BtRR(base, bit) =>
      var t := ModrmReg(bit, base, rest);
      RexBack(true, bit, 0, base, [0x0f, 0xa3] + t);
      RegBack(bit, base, 0, rest);
      assert ([0x0f, 0xa3] + t)[2..] == t;
  }

  lemma DispBack(v: int32, rest: seq<byte>)
    ensures DecodeDisp(2, E32(Unsigned(v), rest)) == Some((v, rest))
  {
    hide E32, D32;
    D32E32(Unsigned(v), rest);
    SignsBack(v);
  }

  lemma JumpsBack(c: Call, rest: seq<byte>)
    requires Passed(c) && (c.Jcc32? || c.Jmp32? || c.LeaRip?)
    ensures Decode(Emit(c, rest)) == Some((Meant(c), rest))
  {
    hide DecodeDisp, E32;
    match c
    case Jcc32(cc, rel) =>
      var t := E32(Unsigned(rel), rest);
      DispBack(rel, rest);
      assert ([0x0f, 0x80 + cc as int] + t)[2..] == t;
    case Jmp32(rel) =>
      var t := E32(Unsigned(rel), rest);
      DispBack(rel, rest);
      assert ([0xe9] + t)[1..] == t;
    case LeaRip(rel) => LeaBack(rel, rest);
  }

  lemma LeaBack(rel: int32, rest: seq<byte>)
    ensures Decode(Emit(LeaRip(rel), rest)) == Some((Meant(LeaRip(rel)), rest))
  {
    hide DecodeDisp, E32, DecodeRex;
    var t := E32(Unsigned(rel), rest);
    DispBack(rel, rest);
    var s := [0x48, 0x8d, 0x1d] + t;
    assert s[1..] == [0x8d, 0x1d] + t;
    RipBack(t, rel, rest);
  }

  lemma RipBack(t: seq<byte>, rel: int32, rest: seq<byte>)
    requires DecodeDisp(2, t) == Some((rel, rest))
    ensures DecodeRex(true, 0, 0, 0, [0x8d, 0x1d] + t) == Some((Ins(0, 0x8d, true, 3, Rip(rel), None), rest))
  {
    hide DecodeDisp;
    var s := [0x8d, 0x1d] + t;
    assert s[1..] == [0x1d] + t && ([0x1d] + t)[1..] == t;
  }

  lemma SibCallsBack(c: Call, rest: seq<byte>)
    requires Passed(c) && (c.LoadSib8? || c.CmpByteZero?)
    ensures Decode(Emit(c, rest)) == Some((Meant(c), rest))
  {
    hide Decode, DecodeModrm, DecodeImm, Rex, E32;
    match c
    case LoadSib8(r, base, index) =>
      NoImmBack(rest);
      SibBack(0, r, base, index, 3, 0, rest, rest);
      var m := [0x04 + r % 8 * 8, 0xc0 + index % 8 * 8 + base % 8] + rest;
      assert [0x8b, 0x04 + r % 8 * 8, 0xc0 + index % 8 * 8 + base % 8] + rest == [0x8b] + m;
      OneByteBack(0x8b, true, r, index, base, Sib(base, index, 3, 0), m, rest, None, rest);
    case CmpByteZero(base, index, disp) =>
      var t := E32(Unsigned(disp), [0] + rest);
      DispBack(disp, [0] + rest);
      SibBack(2, 7, base, index, 0, disp, t, [0] + rest);
      ByteBack(0, rest);
      var m := [0xbc, index % 8 * 8 + base % 8] + t;
      assert [0x80, 0xbc, index % 8 * 8 + base % 8] + t == [0x80] + m;
      SibDigitBack(base, index, m, Sib(base, index, 0, disp), [0] + rest, rest);
  }

  lemma SibDigitBack(base: regno, index: regno, m: seq<byte>, rm: Rm, imms: seq<byte>, rest: seq<byte>)
    requires DecodeModrm(0, index / 8, base / 8, m) == Some((7, rm, imms)) && DecodeImm(1, imms) == Some((Some(0), rest))
    ensures Decode(Rex(false, 0, index, base, [0x80] + m)) == Some((Ins(0, 0x80, false, 7, rm, Some(0)), rest))
  {
    hide DecodeModrm, DecodeImm, Decode, Rex;
    RexBack(false, 0, index, base, [0x80] + m);
    assert ([0x80] + m)[1..] == m;
  }

  /** [base + index << scale + disp], mod 0 or 2. */
  lemma SibBack(mod: nat, reg: regno, base: regno, index: regno, scale: nat, disp: int32, tail: seq<byte>, rest: seq<byte>)
    requires mod in {0, 2} && scale < 4 && index != RSP && (mod == 0 ==> base % 8 != 5)
    requires DecodeDisp(mod, tail) == Some((disp, rest))
    ensures DecodeModrm(reg / 8, index / 8, base / 8, [mod * 64 + reg % 8 * 8 + 4, scale * 64 + index % 8 * 8 + base % 8] + tail)
         == Some((reg, Sib(base, index, scale, disp), rest))
  {
    hide DecodeDisp;
    var s := [mod * 64 + reg % 8 * 8 + 4, scale * 64 + index % 8 * 8 + base % 8] + tail;
    Fields(mod, reg % 8, 4);
    Fields(scale, index % 8, base % 8);
    assert s[2..] == tail;
  }

  /** Decoding what any call emits gives back the instruction meant, and where
      it ends. */
  lemma EmitDecodes(c: Call, rest: seq<byte>)
    requires Passed(c)
    ensures Decode(Emit(c, rest)) == Some((Meant(c), rest))
  {
    hide Decode, Emit, Meant;
    match c
    case LoadSib8(_, _, _) => SibCallsBack(c, rest);
    case CmpByteZero(_, _, _) => SibCallsBack(c, rest);
    case MovImm(r, v) => MovImmBack(r, v, rest);
    case _ =>
      if c.Jcc32? || c.Jmp32? || c.LeaRip? {
        JumpsBack(c, rest);
      } else if c.MovbeMem? || c.BswapR? || c.BtRR? {
        EscapedBack(c, rest);
      } else if c.OpMem? || c.TestBitmap? || c.TestDword? || c.StoreImm? || c.CmpMem? {
        MemCallsBack(c, rest);
      } else {
        RegCallsBack(c, rest);
      }
  }

  // ------------------------------------------------------------ of sequences

  function EmitAll(cs: seq<Call>, rest: seq<byte>): seq<byte>
    requires forall c | c in cs :: Passed(c)
  {
    if cs == [] then rest else Emit(cs[0], EmitAll(cs[1..], rest))
  }

  /** The next n instructions. */
  function DecodeMany(n: nat, s: seq<byte>): Option<(seq<Ins>, seq<byte>)> {
    if n == 0 then Some(([], s))
    else
      var (i, t) :- Decode(s);
      var (more, u) :- DecodeMany(n - 1, t);
      Some(([i] + more, u))
  }

  function MeantAll(cs: seq<Call>): seq<Ins> {
    if cs == [] then [] else [Meant(cs[0])] + MeantAll(cs[1..])
  }

  /** Calls one after another decode to their instructions in order. */
  lemma {:induction false} EmitAllDecodes(cs: seq<Call>, rest: seq<byte>)
    requires forall c | c in cs :: Passed(c)
    ensures DecodeMany(|cs|, EmitAll(cs, rest)) == Some((MeantAll(cs), rest))
  {
    hide Decode, Emit, Meant, Passed;
    if cs != [] {
      EmitAllDecodes(cs[1..], rest);
      EmitDecodes(cs[0], EmitAll(cs[1..], rest));
    }
  }
}
