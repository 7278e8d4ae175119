/** The three copy loops in assembly, as one method over a byte array; its result is
    that of moving all bytes at the same time. */
module BlockCopy {
  import opened Words
  import opened Memory
  import opened CopyLoop

  /** q with x stored at at. */
  function Patch(q: seq<byte>, at: nat, x: seq<byte>): (r: seq<byte>)
    requires at + |x| <= |q|
    ensures |r| == |q|
  {
    q[..at] + x + q[at + |x|..]
  }

  /** A run stored after the one before it makes one longer run. */
  lemma PatchTwice(q: seq<byte>, at: nat, x: seq<byte>, y: seq<byte>)
    requires at + |x| + |y| <= |q|
    ensures Patch(Patch(q, at, x), at + |x|, y) == Patch(q, at, x + y)
  {
    var p := Patch(q, at, x);
    assert p[..at + |x|] == q[..at] + x;
    assert p[at + |x| + |y|..] == q[at + |x| + |y|..];
  }

  /** The next b bytes: still the original ones, and once they are stored,
      k + b bytes are copied. */
  lemma CopyMoreBytes(m: Mem, d: nat, s: nat, k: nat, b: nat)
    requires d + k + b <= SIZE && s + k + b <= SIZE && (d <= s || s + k + b <= d)
    ensures var q := BulkCopy(m, d, s, k);
      Patch(q, d + k, q[s + k..s + k + b]) == BulkCopy(m, d, s, k + b)
  {
    assert BulkCopy(m, d, s, k)[s + k..s + k + b] == m[s + k..s + k + b];
    assert m[s..s + k] + m[s + k..s + k + b] == m[s..s + k + b];
  }

  lemma CopyNoBytes(m: Mem, d: nat, s: nat)
    requires d <= SIZE && s <= SIZE
    ensures BulkCopy(m, d, s, 0) == m
  {
  }

  lemma FourParts(q: seq<byte>, s: nat, v: nat)
    requires s + 4 * v <= |q|
    ensures q[s..s + v] + q[s + v..s + 2 * v] + q[s + 2 * v..s + 3 * v] + q[s + 3 * v..s + 4 * v] == q[s..s + 4 * v]
  {
  }

  /** One register, word or byte, stored at at. */
  method Put(mem: array<byte>, at: nat, x: seq<byte>)
    requires at + |x| <= mem.Length
    modifies mem
    ensures mem[..] == Patch(old(mem[..]), at, x)
  {
    ghost var m := mem[..];
    var i := 0;
    while i < |x|
      invariant 0 <= i <= |x|
      invariant forall j | 0 <= j < mem.Length :: mem[j] == if at <= j < at + i then x[j - at] else m[j]
    {
      mem[at + i] := x[i];
      i := i + 1;
    }
    assert mem[..] == Patch(m, at, x);
  }

  method Get(mem: array<byte>, at: nat, b: nat) returns (x: seq<byte>)
    requires at + b <= mem.Length
    ensures |x| == b && x == mem[..][at..at + b]
  {
    x := mem[at..at + b];
  }

  /** The next block, through four registers of v bytes each. */
  method CopyOneBlock(mem: array<byte>, d: nat, s: nat, v: nat)
    requires d + 4 * v <= mem.Length && s + 4 * v <= mem.Length
    modifies mem
    ensures mem[..] == Patch(old(mem[..]), d, old(mem[..])[s..s + 4 * v])
  {
    hide Patch;
    ghost var q := mem[..];
    var x0 := Get(mem, s, v);
    var x1 := Get(mem, s + v, v);
    var x2 := Get(mem, s + 2 * v, v);
    var x3 := Get(mem, s + 3 * v, v);
    FourParts(q, s, v);
    Put(mem, d, x0);
    Put(mem, d + v, x1);
    PatchTwice(q, d, x0, x1);
    Put(mem, d + 2 * v, x2);
    PatchTwice(q, d, x0 + x1, x2);
    Put(mem, d + 3 * v, x3);
    PatchTwice(q, d, x0 + x1 + x2, x3);
  }

  /** b bytes at a time, as long as there are as many: four registers of b / 4
      each, or one word, or one byte. */
  method CopyBy(mem: array<byte>, d: nat, s: nat, n: nat, k0: nat, b: nat, ghost m: Mem) returns (k: nat)
    requires mem.Length == SIZE && d + n <= SIZE && s + n <= SIZE && k0 <= n && b in {1, 8, 64, 128, 256}
    requires (d <= s || s + n <= d) && mem[..] == BulkCopy(m, d, s, k0)
    modifies mem
    ensures k0 <= k <= n && n - k < b && mem[..] == BulkCopy(m, d, s, k)
  {
    hide BulkCopy, Patch;
    k := k0;
    while n - k >= b
      invariant k0 <= k <= n && mem[..] == BulkCopy(m, d, s, k)
    {
      CopyMoreBytes(m, d, s, k, b);
      if b >= 64 {
        assert 4 * (b / 4) == b;
        CopyOneBlock(mem, d + k, s + k, b / 4);
      } else {
        var x := Get(mem, s + k, b);
        Put(mem, d + k, x);
      }
      k := k + b;
    }
  }

  /** Copies n bytes from s to d by blocks of b bytes, what is left under a
      block by words, then by bytes: as if all at once, as long as it does not
      go up over its source. */
  method Copy(mem: array<byte>, d: nat, s: nat, n: nat, b: nat)
    requires mem.Length == SIZE && d + n <= SIZE && s + n <= SIZE && b in {64, 128, 256}
    requires d <= s || s + n <= d
    modifies mem
    ensures mem[..] == BulkCopy(old(mem[..]), d, s, n)
  {
    hide BulkCopy;
    ghost var m := mem[..];
    CopyNoBytes(m, d, s);
    var k := CopyBy(mem, d, s, n, 0, b, m);
    k := CopyBy(mem, d, s, n, k, 8, m);
    k := CopyBy(mem, d, s, n, k, 1, m);
  }
}
