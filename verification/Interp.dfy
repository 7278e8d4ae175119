/** The interpreter in assembly: its registers, the byte swaps around each
    load and store, and the branch on the flags the subtraction left. */
module Interp {
  import opened Words
  import opened Memory
  import opened Subleq

  /** mov r, [a], little-endian as the processor loads. */
  function Mov64(m: Mem, a: word): word { Bswap(Rd(m, a)) }

  /** Condition code G of jcc. */
  predicate Greater(f: Flags) { !f.zf && f.sf == f.of }

  lemma LoadSwapped(m: Mem, a: word)
    ensures Bswap(Mov64(m, a)) == Rd(m, a)
  {
    BswapTwice(Rd(m, a));
  }

  class Cpu64 {
    var mem: Mem
    var r12: word   // eip

    constructor (m: Mem)
      ensures mem == m
    {
      mem, r12 := m, 0;
    }

    /** One instruction. */
    method InterpCycle()
      modifies this
      ensures Cpu(mem, r12) == Step(old(Cpu(mem, r12)))
    {
      hide Rd, Wr, Bswap, Mov64;
      var rsi, rbx, rdi := Mov64(mem, r12), Mov64(mem, Add(r12, 8)), Mov64(mem, Add(r12, 16));
      LoadSwapped(mem, r12);
      LoadSwapped(mem, Add(r12, 8));
      LoadSwapped(mem, Add(r12, 16));
      r12 := Add(r12, 24);
      rsi, rbx := Bswap(rsi), Bswap(rbx);
      var rax, rdx := Mov64(mem, rsi), Mov64(mem, rbx);
      LoadSwapped(mem, rsi);
      LoadSwapped(mem, rbx);
      rax, rdx := Bswap(rax), Bswap(rdx);
      var flags := SubFlags(rdx, rax);
      SubFlagsTellOrder(rdx, rax);
      rdx := Sub(rdx, rax);
      BswapTwice(rdx);
      rdx := Bswap(rdx);
      mem := Wr(mem, rbx, Bswap(rdx));
      if !Greater(flags) {
        r12 := Bswap(rdi);
      }
    }

    /** Four instructions a round, until count have run. */
    method SubleqInterp(eip: word, count: nat) returns (rax: word)
      requires count > 0 && count % 4 == 0
      modifies this
      ensures Cpu(mem, rax) == Steps(Cpu(old(mem), eip), count)
    {
      hide Step;
      r12 := eip;
      var rcx := count;
      ghost var s := Cpu(mem, r12);
      while true
        invariant 0 < rcx <= count && rcx % 4 == 0 && Cpu(mem, r12) == Steps(s, count - rcx)
        decreases rcx
      {
        InterpCycle();
        InterpCycle();
        InterpCycle();
        InterpCycle();
        FourMore(s, count - rcx);
        rcx := rcx - 4;
        if rcx == 0 {
          break;
        }
      }
      rax := r12;
    }
  }

  lemma FourMore(s: Cpu, n: nat)
    ensures Steps(s, n + 4) == Step(Step(Step(Step(Steps(s, n)))))
  {
    hide Step;
    assert Steps(s, n + 2) == Step(Steps(s, n + 1));
    assert Steps(s, n + 3) == Step(Steps(s, n + 2));
  }
}
