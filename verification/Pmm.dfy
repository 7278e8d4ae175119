/** The page allocator: a bitmap of pages, searched from where the last
    allocation ended, then from the start. */
module Pmm {
  import opened Options
  import opened Words
  import opened Bits

  const PAGE_SIZE: nat := 4096
  const BITMAP_BASE: nat := 4096   // the page at 16 MiB
  const PAGE_WORDS: nat := 512
  const MAX_PAGES: nat := 0x100_0000_0000   // physical addresses have 52 bits

  type entry = x: int | 0 <= x < 0x1_0000_0000

  // ------------------------------------------------------------ the bitmap

  /** Bit k of e. */
  predicate BitOf(e: nat, k: nat) {
    if k == 0 then e % 2 == 1 else BitOf(e / 2, k - 1)
  }

  /** The lowest bit, and the rest. */
  lemma OrHalf(x: nat, y: nat)
    ensures OrN(x, y) / 2 == OrN(x / 2, y / 2) && OrN(x, y) % 2 == if x % 2 == 1 || y % 2 == 1 then 1 else 0
  {
  }

  lemma AndHalf(x: nat, y: nat)
    ensures AndN(x, y) / 2 == AndN(x / 2, y / 2) && AndN(x, y) % 2 == if x % 2 == 1 && y % 2 == 1 then 1 else 0
  {
  }

  lemma {:induction false} BitOr(x: nat, y: nat, j: nat)
    ensures BitOf(OrN(x, y), j) == (BitOf(x, j) || BitOf(y, j))
    decreases j
  {
    hide OrN;
    OrHalf(x, y);
    if j > 0 {
      BitOr(x / 2, y / 2, j - 1);
    }
  }

  lemma {:induction false} BitAnd(x: nat, y: nat, j: nat)
    ensures BitOf(AndN(x, y), j) == (BitOf(x, j) && BitOf(y, j))
    decreases j
  {
    hide AndN;
    AndHalf(x, y);
    if j > 0 {
      BitAnd(x / 2, y / 2, j - 1);
    }
  }

  lemma {:induction false} BitPow2(k: nat, j: nat)
    ensures BitOf(Pow2(k), j) == (j == k)
    decreases j
  {
    if j == 0 {
    } else if k == 0 {
      BitNone(j - 1);
    } else {
      BitPow2(k - 1, j - 1);
    }
  }

  lemma {:induction false} BitNone(j: nat)
    ensures !BitOf(0, j)
  {
    if j > 0 {
      BitNone(j - 1);
    }
  }

  lemma {:induction false} BitOnes(n: nat, j: nat)
    ensures BitOf(Pow2(n) - 1, j) == (j < n)
    decreases n
  {
    if n == 0 {
      BitNone(j);
    } else if j > 0 {
      BitOnes(n - 1, j - 1);
    }
  }

  lemma {:induction false} BitAllBut(n: nat, k: nat, j: nat)
    requires k < n
    ensures Pow2(n) - 1 - Pow2(k) >= 0 && BitOf(Pow2(n) - 1 - Pow2(k), j) == (j < n && j != k)
    decreases n
  {
    var x := Pow2(n) - 1 - Pow2(k);
    if k == 0 {
      assert Pow2(n) == 2 * Pow2(n - 1);
      assert x == 2 * (Pow2(n - 1) - 1);
      if j > 0 {
        BitOnes(n - 1, j - 1);
      }
    } else {
      BitAllBut(n - 1, k - 1, if j > 0 then j - 1 else 0);
      assert x == 2 * (Pow2(n - 1) - 1 - Pow2(k - 1)) + 1;
    }
  }

  lemma {:induction false} OrAndBound(x: nat, y: nat, n: nat)
    requires x < Pow2(n) && y < Pow2(n)
    ensures OrN(x, y) < Pow2(n) && AndN(x, y) < Pow2(n)
    decreases n
  {
    if n > 0 {
      OrAndBound(x / 2, y / 2, n - 1);
    }
  }

  lemma Pow32()
    ensures Pow2(32) == 0x1_0000_0000
  {
    assert Pow2(8) == 0x100;
    assert Pow2(16) == 0x1_0000;
    assert Pow2(24) == 0x100_0000;
  }

  lemma {:induction false} Pow2Less(k: nat, n: nat)
    requires k < n
    ensures Pow2(k) < Pow2(n)
  {
    if k + 1 < n {
      Pow2Less(k, n - 1);
    }
  }

  /** e with bit k as val. */
  function SetBit(e: entry, k: nat, val: bool): entry
    requires k < 32
  {
    Pow32();
    Pow2Less(k, 32);
    BitAllBut(32, k, 0);
    if val then
      OrAndBound(e, Pow2(k), 32);
      OrN(e, Pow2(k))
    else
      OrAndBound(e, Pow2(32) - 1 - Pow2(k), 32);
      AndN(e, Pow2(32) - 1 - Pow2(k))
  }

  lemma SetBitIs(e: entry, k: nat, val: bool, j: nat)
    requires k < 32 && j < 32
    ensures BitOf(SetBit(e, k, val), j) == if j == k then val else BitOf(e, j)
  {
    hide BitOf, OrN, AndN;
    BitAllBut(32, k, j);
    BitPow2(k, j);
    BitOr(e, Pow2(k), j);
    BitAnd(e, Pow2(32) - 1 - Pow2(k), j);
  }

  // ---------------------------------------------------------------- the runs

  /** The pages from p on are free. */
  predicate RunFree(used: seq<bool>, p: int, pages: nat) {
    0 <= p && p + pages <= |used| && forall i | p <= i < p + pages :: !used[i]
  }

  /** p is the first place for pages between lo and hi. */
  predicate FirstRun(used: seq<bool>, lo: int, hi: int, pages: nat, p: int) {
    lo <= p && p + pages <= hi && RunFree(used, p, pages) && forall q | lo <= q < p :: !RunFree(used, q, pages)
  }

  predicate NoRun(used: seq<bool>, lo: int, hi: int, pages: nat) {
    forall q | lo <= q && q + pages <= hi :: !RunFree(used, q, pages)
  }

  /** The first run from the hint on, or else the first before it. */
  predicate Chosen(used: seq<bool>, hint: int, pages: nat, p: int) {
    FirstRun(used, hint, |used|, pages, p) || (NoRun(used, hint, |used|, pages) && FirstRun(used, 0, hint, pages, p))
  }

  /** The pages from p on marked as val. */
  function Mark(used: seq<bool>, p: nat, pages: nat, val: bool): (r: seq<bool>)
    requires p + pages <= |used|
    ensures |r| == |used| && forall i | 0 <= i < |used| :: r[i] == if p <= i < p + pages then val else used[i]
  {
    used[..p] + seq(pages, i => val) + used[p + pages..]
  }

  function FreeCount(used: seq<bool>): nat {
    if used == [] then 0 else FreeCount(used[..|used| - 1]) + if used[|used| - 1] then 0 else 1
  }

  lemma CountMore(used: seq<bool>)
    requires used != []
    ensures FreeCount(used) == FreeCount(used[..|used| - 1]) + if used[|used| - 1] then 0 else 1
  {
  }

  lemma {:induction false} MarkCounts(used: seq<bool>, p: nat, pages: nat, val: bool)
    requires p + pages <= |used| && forall i | p <= i < p + pages :: used[i] != val
    ensures FreeCount(Mark(used, p, pages, val)) == if val then FreeCount(used) - pages else FreeCount(used) + pages
    decreases |used|
  {
    hide FreeCount, Mark;
    var n := |used| - 1;
    if pages == 0 {
      assert Mark(used, p, pages, val) == used;
    } else {
      CountMore(used);
      CountMore(Mark(used, p, pages, val));
      var fewer := if p + pages <= n then pages else pages - 1;
      MarkCounts(used[..n], p, fewer, val);
      assert Mark(used, p, pages, val)[..n] == Mark(used[..n], p, fewer, val);
    }
  }

  // --------------------------------------------------------------- the class

  class Allocator {
    const maxPage: nat
    const bitmap: array<entry>
    const phys: array<word>          // physical memory, by words
    var lastAllocPage: nat

    ghost var used: seq<bool>        // by page, from BITMAP_BASE on
    ghost var live: map<nat, nat>    // allocations: first page, from BITMAP_BASE on, and how many

    ghost predicate Valid()
      reads this, bitmap
    {
      && BITMAP_BASE <= maxPage <= MAX_PAGES && |used| == maxPage - BITMAP_BASE && |used| <= 32 * bitmap.Length
      && phys.Length == maxPage * PAGE_WORDS
      && BITMAP_BASE <= lastAllocPage <= maxPage
      && (forall i | 0 <= i < |used| :: BitOf(bitmap[i / 32], i % 32) == used[i])
      && LiveOk(live, used)
    }

    /** How many pages are allocated. */
    ghost function LivePages(): nat
      reads this
    {
      Total(live, |used|)
    }

    /** An empty bitmap. */
    constructor (top: nat)
      requires BITMAP_BASE <= top <= MAX_PAGES
      ensures Valid() && live == map[] && LivePages() == 0 && maxPage == top && lastAllocPage == BITMAP_BASE
      ensures used == seq(top - BITMAP_BASE, i => false) && fresh(bitmap) && fresh(phys)
    {
      maxPage := top;
      bitmap := new entry[top / 32 + 1](i => 0);
      phys := new word[top * PAGE_WORDS](i => 0);
      lastAllocPage := BITMAP_BASE;
      used := seq(top - BITMAP_BASE, i => false);
      live := map[];
      new;
      TotalNone(|used|);
      forall i | 0 <= i < |used|
        ensures !BitOf(bitmap[i / 32], i % 32)
      {
        BitNone(i % 32);
      }
    }

    method RdBitmap(i: nat) returns (b: bool)
      requires Valid() && BITMAP_BASE <= i < maxPage
      ensures b == used[i - BITMAP_BASE]
    {
      var k := i - BITMAP_BASE;
      b := BitOf(bitmap[k / 32], k % 32);
    }

    /** The part of Valid that a bitmap being changed keeps. */
    ghost predicate Tracks()
      reads this, bitmap
    {
      && maxPage >= BITMAP_BASE && |used| == maxPage - BITMAP_BASE && |used| <= 32 * bitmap.Length
      && forall i | 0 <= i < |used| :: BitOf(bitmap[i / 32], i % 32) == used[i]
    }

    method WrBitmap(i: nat, val: bool)
      requires Tracks() && BITMAP_BASE <= i < maxPage
      modifies bitmap, this`used
      ensures Tracks() && used == old(used)[i - BITMAP_BASE := val]
    {
      hide BitOf, SetBit;
      var k := i - BITMAP_BASE;
      forall j | 0 <= j < 32
        ensures BitOf(SetBit(bitmap[k / 32], k % 32, val), j) == if j == k % 32 then val else BitOf(bitmap[k / 32], j)
      {
        SetBitIs(bitmap[k / 32], k % 32, val, j);
      }
      bitmap[k / 32] := SetBit(bitmap[k / 32], k % 32, val);
      used := used[k := val];
    }

    /** The first run of free pages between two pages. */
    method Scan(lo: nat, hi: nat, pages: nat) returns (p: Option<nat>)
      requires Valid() && BITMAP_BASE <= lo <= hi <= maxPage && pages >= 1
      ensures match p
        case Some(q) => q >= BITMAP_BASE && FirstRun(used, lo - BITMAP_BASE, hi - BITMAP_BASE, pages, q - BITMAP_BASE)
        case None => NoRun(used, lo - BITMAP_BASE, hi - BITMAP_BASE, pages)
    {
      var counter, i := 0, lo;
      while i < hi
        invariant lo <= i <= hi && counter <= i - lo && counter < pages
        invariant forall j | i - BITMAP_BASE - counter <= j < i - BITMAP_BASE :: !used[j]
        invariant counter < i - lo ==> used[i - BITMAP_BASE - counter - 1]
        invariant NoRun(used, lo - BITMAP_BASE, i - BITMAP_BASE, pages)
      {
        var b := RdBitmap(i);
        if !b {
          counter := counter + 1;
        } else {
          counter := 0;
        }
        if counter == pages {
          return Some(i - (pages - 1));
        }
        i := i + 1;
      }
      p := None;
    }

    /** Marks a run of pages. */
    method MarkRun(p: nat, pages: nat, val: bool)
      requires Tracks() && BITMAP_BASE <= p && p + pages <= maxPage
      modifies bitmap, this`used
      ensures Tracks() && used == Mark(old(used), p - BITMAP_BASE, pages, val)
    {
      var i := p;
      while i < p + pages
        invariant p <= i <= p + pages && Tracks()
        invariant used == Mark(old(used), p - BITMAP_BASE, i - p, val)
      {
        WrBitmap(i, val);
        i := i + 1;
      }
    }

    /** Zeroes a run of pages. */
    method ZeroPages(p: nat, pages: nat)
      requires (p + pages) * PAGE_WORDS <= phys.Length
      modifies phys
      ensures forall j | 0 <= j < phys.Length ::
        phys[j] == if p * PAGE_WORDS <= j < (p + pages) * PAGE_WORDS then 0 else old(phys[j])
    {
      var j := 0;
      while j < pages * PAGE_SIZE / 8
        invariant 0 <= j <= pages * PAGE_WORDS
        invariant forall k | 0 <= k < phys.Length ::
          phys[k] == if p * PAGE_WORDS <= k < p * PAGE_WORDS + j then 0 else old(phys[k])
      {
        phys[p * PAGE_WORDS + j] := 0;
        j := j + 1;
      }
    }

    /** Where to allocate: after the last allocation, or else before it. */
    method Find(pages: nat) returns (p: Option<nat>)
      requires Valid() && pages >= 1
      ensures match p
        case Some(q) =>
          q >= BITMAP_BASE && q + pages <= maxPage && RunFree(used, q - BITMAP_BASE, pages)
          && Chosen(used, lastAllocPage - BITMAP_BASE, pages, q - BITMAP_BASE)
        case None => NoRun(used, lastAllocPage - BITMAP_BASE, |used|, pages) && NoRun(used, 0, lastAllocPage - BITMAP_BASE, pages)
    {
      hide RunFree, LiveOk, BitOf;
      p := Scan(lastAllocPage, maxPage, pages);
      if p.None? {
        p := Scan(BITMAP_BASE, lastAllocPage, pages);
      }
    }

    /** Takes a run of free pages and zeroes it. */
    method Take(p: nat, pages: nat)
      requires Valid() && pages >= 1 && p >= BITMAP_BASE && p + pages <= maxPage && RunFree(used, p - BITMAP_BASE, pages)
      modifies this, bitmap, phys
      ensures Valid() && used == Mark(old(used), p - BITMAP_BASE, pages, true)
      ensures p - BITMAP_BASE !in old(live) && live == old(live)[p - BITMAP_BASE := pages]
      ensures LivePages() == old(LivePages()) + pages && lastAllocPage == p + pages
      ensures forall j | 0 <= j < phys.Length ::
        phys[j] == if p * PAGE_WORDS <= j < (p + pages) * PAGE_WORDS then 0 else old(phys[j])
      ensures FreeCount(used) + LivePages() == old(FreeCount(used) + LivePages())
    {
      hide LiveOk, BitOf, FreeCount;
      ghost var was, k := used, p - BITMAP_BASE;
      MarkCounts(was, k, pages, true);
      NewLive(live, was, k, pages);
      TotalMore(live, |was|, k, pages);
      lastAllocPage := p + pages;
      live := live[k := pages];
      MarkRun(p, pages, true);
      ZeroPages(p, pages);
    }

    /** Allocates contiguous pages, zeroed: the first that fit after the last
        ones allocated, or else before; null when none do, though a run that
        lies on both sides might. */
    method Kmalloc(pages: nat) returns (ptr: nat)
      requires Valid() && pages >= 1
      modifies this, bitmap, phys
      ensures Valid() && ptr % PAGE_SIZE == 0
      ensures FreeCount(used) + LivePages() == old(FreeCount(used) + LivePages())
      ensures ptr == 0 <==> old(NoRun(used, lastAllocPage - BITMAP_BASE, |used|, pages) && NoRun(used, 0, lastAllocPage - BITMAP_BASE, pages))
      ensures ptr == 0 ==> used == old(used) && live == old(live) && lastAllocPage == old(lastAllocPage) && phys[..] == old(phys[..])
      ensures ptr != 0 ==> BITMAP_BASE <= ptr / PAGE_SIZE && ptr / PAGE_SIZE + pages <= maxPage
      ensures var p := ptr / PAGE_SIZE; var k := p - BITMAP_BASE;
        ptr != 0 ==> old(Chosen(used, lastAllocPage - BITMAP_BASE, pages, k)) && used == Mark(old(used), k, pages, true)
      ensures var p := ptr / PAGE_SIZE; var k := p - BITMAP_BASE;
        ptr != 0 ==> k !in old(live) && live == old(live)[k := pages] && lastAllocPage == p + pages
      ensures var p := ptr / PAGE_SIZE;
        ptr != 0 ==> forall j | 0 <= j < phys.Length ::
          phys[j] == if p * PAGE_WORDS <= j < (p + pages) * PAGE_WORDS then 0 else old(phys[j])
    {
      hide LiveOk, BitOf, RunFree, FreeCount;
      var found := Find(pages);
      if found.None? {
        return 0;
      }
      Take(found.value, pages);
      ptr := found.value * PAGE_SIZE;
    }

    /** Gives back what one allocation got. */
    method Kmfree(ptr: nat, pages: nat)
      requires Valid() && ptr % PAGE_SIZE == 0 && ptr / PAGE_SIZE >= BITMAP_BASE
      requires ptr / PAGE_SIZE - BITMAP_BASE in live && live[ptr / PAGE_SIZE - BITMAP_BASE] == pages
      modifies this, bitmap
      ensures Valid() && lastAllocPage == old(lastAllocPage)
      ensures used == Mark(old(used), ptr / PAGE_SIZE - BITMAP_BASE, pages, false)
      ensures live == old(live) - {ptr / PAGE_SIZE - BITMAP_BASE} && LivePages() == old(LivePages()) - pages
      ensures FreeCount(used) + LivePages() == old(FreeCount(used) + LivePages())
    {
      hide BitOf, LiveOk, FreeCount;
      var p := ptr / PAGE_SIZE;
      ghost var was, k := used, p - BITMAP_BASE;
      LessLive(live, was, k);
      TotalMore(live - {k}, |was|, k, pages);
      assert (live - {k})[k := pages] == live;
      MarkCounts(was, k, pages, false);
      MarkRun(p, pages, false);
      live := live - {k};
    }

    /** How many pages are free. */
    method PmmFreePages() returns (n: nat)
      requires Valid()
      ensures n == FreeCount(used)
    {
      n := 0;
      var i := BITMAP_BASE;
      while i < maxPage
        invariant BITMAP_BASE <= i <= maxPage && n == FreeCount(used[..i - BITMAP_BASE])
      {
        var b := RdBitmap(i);
        assert used[..i + 1 - BITMAP_BASE][..i - BITMAP_BASE] == used[..i - BITMAP_BASE];
        if !b {
          n := n + 1;
        }
        i := i + 1;
      }
      assert used[..i - BITMAP_BASE] == used;
    }
  }

  /** Allocations are in bounds, used, and apart. */
  ghost predicate LiveOk(live: map<nat, nat>, used: seq<bool>) {
    && (forall p | p in live :: p + live[p] <= |used| && live[p] >= 1)
    && (forall p, i | p in live && p <= i < p + live[p] :: used[i])
    && (forall p, q | p in live && q in live && p < q :: p + live[p] <= q)
  }

  /** The pages of the allocations that start before page n. */
  function Total(live: map<nat, nat>, n: nat): nat {
    if n == 0 then 0 else Total(live, n - 1) + if n - 1 in live then live[n - 1] else 0
  }

  lemma {:induction false} TotalNone(n: nat)
    ensures Total(map[], n) == 0
  {
    if n > 0 {
      TotalNone(n - 1);
    }
  }

  lemma {:induction false} TotalMore(live: map<nat, nat>, n: nat, p: nat, pages: nat)
    requires p !in live
    ensures Total(live[p := pages], n) == Total(live, n) + if p < n then pages else 0
  {
    if n > 0 {
      TotalMore(live, n - 1, p, pages);
    }
  }

  lemma LiveUsed(live: map<nat, nat>, used: seq<bool>, p: nat, i: nat)
    requires LiveOk(live, used) && p in live && p <= i < p + live[p]
    ensures i < |used| && used[i]
  {
  }

  lemma NewLive(live: map<nat, nat>, used: seq<bool>, p: nat, pages: nat)
    requires LiveOk(live, used) && RunFree(used, p, pages) && pages >= 1
    ensures p !in live && LiveOk(live[p := pages], Mark(used, p, pages, true))
  {
    if p in live {
      LiveUsed(live, used, p, p);
      assert false;
    }
    forall q | q in live
      ensures q + live[q] <= p || p + pages <= q
    {
      if q < p < q + live[q] {
        LiveUsed(live, used, q, p);
        assert false;
      } else if p <= q < p + pages {
        LiveUsed(live, used, q, q);
        assert false;
      }
    }
  }

  lemma LessLive(live: map<nat, nat>, used: seq<bool>, p: nat)
    requires LiveOk(live, used) && p in live
    ensures p + live[p] <= |used| && forall i | p <= i < p + live[p] :: used[i]
    ensures LiveOk(live - {p}, Mark(used, p, live[p], false))
  {
  }

  /** An allocation fails exactly when every free run long enough lies on both
      sides of where the search starts. */
  lemma MissedStraddles(used: seq<bool>, hint: nat, pages: nat)
    requires hint <= |used| && pages >= 1
    ensures NoRun(used, hint, |used|, pages) && NoRun(used, 0, hint, pages) <==>
      forall q: int | RunFree(used, q, pages) :: q < hint < q + pages
  {
  }
}
