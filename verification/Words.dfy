/** 64-bit machine words as integers, with the wrap-around of the x86-64
    instructions written out, and the flags a subtraction leaves. */
module Words {

  const TWO64: int := 0x1_0000_0000_0000_0000
  const TWO63: int := 0x8000_0000_0000_0000

  type word = x: int | 0 <= x < 0x1_0000_0000_0000_0000
  type byte = x: int | 0 <= x < 256

  function Add(x: word, y: word): word {
    if x + y < TWO64 then x + y else x + y - TWO64
  }

  function Sub(x: word, y: word): word {
    if x >= y then x - y else x - y + TWO64
  }

  function Neg(x: word): word { Sub(0, x) }

  function Not(x: word): word { TWO64 - 1 - x }

  function Signed(x: word): int {
    if x < TWO63 then x else x - TWO64
  }

  /** B minus A branches in the signed order, before any wrap-around. */
  predicate Taken(vb: word, va: word) { Signed(vb) <= Signed(va) }

  datatype Flags = Flags(zf: bool, sf: bool, of: bool)

  /** The flags of `sub x, y` (and of `neg`, as `sub 0, y`). */
  function SubFlags(x: word, y: word): Flags {
    Flags(x == y, Sub(x, y) >= TWO63, !(-TWO63 <= Signed(x) - Signed(y) < TWO63))
  }

  /** The flags of `test x, x`. */
  function TestFlags(x: word): Flags { Flags(x == 0, x >= TWO63, false) }

  /** Condition code LE of jcc. */
  predicate LE(f: Flags) { f.zf || f.sf != f.of }

  /** `jle` after a subtraction tells B <= A, whatever overflowed. */
  lemma SubFlagsTellOrder(x: word, y: word)
    ensures LE(SubFlags(x, y)) <==> Taken(x, y)
    ensures LE(TestFlags(x)) <==> Taken(x, 0)
  {
  }
}
