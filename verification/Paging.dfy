/** The 4-level page tables: each table is reached by one path from the root,
    so that writing an entry changes only the translations through it. */
module Paging {
  import opened Options
  import opened Words
  import opened Pmm

  type idx = x: int | 0 <= x < 512

  /** A virtual page, by its indices in the four tables. */
  datatype Page = Page(i4: idx, i3: idx, i2: idx, i1: idx)

  /** Where a virtual page is, and how many pages the one it lies in has. */
  datatype Frame = Frame(page: nat, size: nat)

  /** Which table: the root, or the one for the indices so far. */
  datatype Path = Root | L3(i4: idx) | L2(i4: idx, i3: idx) | L1(i4: idx, i3: idx, i2: idx)

  function PageOf(virt: word): Page {
    Page(virt / 0x80_0000_0000 % 512, virt / 0x4000_0000 % 512, virt / 0x20_0000 % 512, virt / 0x1000 % 512)
  }

  predicate Present(e: word) { e % 2 == 1 }
  predicate Huge(e: word) { e / 128 % 2 == 1 }

  /** The page an entry points to. */
  function Target(e: word): nat { e / 4096 }

  /** Entry i of the table in page t. */
  function Ent(ph: seq<word>, t: nat, i: idx): word {
    if 512 * t + i < |ph| then ph[512 * t + i] else 0
  }

  /** Where the processor finds a virtual page (section 4.5 of the Intel SDM,
      volume 3A): through four tables, or in a page of 1 GiB or 2 MiB. */
  function Walk(ph: seq<word>, root: nat, v: Page): Option<Frame> {
    var e4 := Ent(ph, root, v.i4);
    if !Present(e4) then None
    else
      var e3 := Ent(ph, Target(e4), v.i3);
      if !Present(e3) then None
      else if Huge(e3) then Some(Frame(e3 / 0x4000_0000 * 0x4_0000 + v.i2 * 512 + v.i1, 0x4_0000))
      else
        var e2 := Ent(ph, Target(e3), v.i2);
        if !Present(e2) then None
        else if Huge(e2) then Some(Frame(e2 / 0x20_0000 * 512 + v.i1, 512))
        else
          var e1 := Ent(ph, Target(e2), v.i1);
          if !Present(e1) then None else Some(Frame(Target(e1), 1))
  }

  /** The path one table further down. */
  function Child(p: Path, i: idx): Path {
    match p
    case Root => L3(i)
    case L3(i4) => L2(i4, i)
    case L2(i4, i3) => L1(i4, i3, i)
    case L1(_, _, _) => Root
  }

  /** v's path down to where p is. */
  function Prefix(p: Path, v: Page): Path {
    match p
    case Root => Root
    case L3(_) => L3(v.i4)
    case L2(_, _) => L2(v.i4, v.i3)
    case L1(_, _, _) => L1(v.i4, v.i3, v.i2)
  }

  /** v's index in the table at p. */
  function IndexAt(p: Path, v: Page): idx {
    match p
    case Root => v.i4
    case L3(_) => v.i3
    case L2(_, _) => v.i2
    case L1(_, _, _) => v.i1
  }

  /** An entry with a table below it. */
  predicate Points(p: Path, e: word) { Present(e) && !p.L1? && !((p.L3? || p.L2?) && Huge(e)) }

  /** Every table knows its path: an entry leads to the table whose path is one
      longer. */
  predicate Tree(ph: seq<word>, root: nat, own: map<nat, Path>) {
    && root in own && own[root] == Root
    && (forall t | t in own :: 512 * t + 512 <= |ph|)
    && (forall t, i: idx | t in own && Points(own[t], Ent(ph, t, i)) ::
          Target(Ent(ph, t, i)) in own && own[Target(Ent(ph, t, i))] == Child(own[t], i))
  }

  /** ph with entry i of table t as e. */
  function SetEnt(ph: seq<word>, t: nat, i: idx, e: word): (r: seq<word>)
    requires 512 * t + 512 <= |ph|
    ensures |r| == |ph|
  {
    ph[512 * t + i := e]
  }

  lemma SetEntIs(ph: seq<word>, t: nat, i: idx, e: word, u: nat, j: idx)
    requires 512 * t + 512 <= |ph|
    ensures Ent(SetEnt(ph, t, i, e), u, j) == if u == t && j == i then e else Ent(ph, u, j)
  {
  }

  /** Pages not going through the entry keep their translation. */
  lemma OthersKeep(ph: seq<word>, root: nat, own: map<nat, Path>, t: nat, i: idx, e: word, v: Page)
    requires Tree(ph, root, own) && t in own && (Prefix(own[t], v) != own[t] || IndexAt(own[t], v) != i)
    ensures Walk(SetEnt(ph, t, i, e), root, v) == Walk(ph, root, v)
  {
    hide Ent, SetEnt, Present, Huge, Target;
    var e4 := Ent(ph, root, v.i4);
    SetEntIs(ph, t, i, e, root, v.i4);
    assert Ent(SetEnt(ph, t, i, e), root, v.i4) == e4;
    if Present(e4) {
      assert Points(Root, e4);
      var t3 := Target(e4);
      assert own[t3] == L3(v.i4);
      SetEntIs(ph, t, i, e, t3, v.i3);
      var e3 := Ent(ph, t3, v.i3);
      if Present(e3) && !Huge(e3) {
        assert Points(own[t3], e3);
        var t2 := Target(e3);
        assert own[t2] == L2(v.i4, v.i3);
        SetEntIs(ph, t, i, e, t2, v.i2);
        var e2 := Ent(ph, t2, v.i2);
        if Present(e2) && !Huge(e2) {
          assert Points(own[t2], e2);
          var t1 := Target(e2);
          assert own[t1] == L1(v.i4, v.i3, v.i2);
          SetEntIs(ph, t, i, e, t1, v.i1);
        }
      }
    }
  }

  /** A new, empty table under an entry that was not present. */
  lemma Grown(ph: seq<word>, root: nat, own: map<nat, Path>, t: nat, i: idx, n: nat, e: word)
    requires Tree(ph, root, own) && t in own && !own[t].L1? && n !in own && 512 * n + 512 <= |ph|
    requires !Present(Ent(ph, t, i)) && (forall j: idx :: Ent(ph, n, j) == 0)
    requires Present(e) && !Huge(e) && Target(e) == n
    ensures Tree(SetEnt(ph, t, i, e), root, own[n := Child(own[t], i)])
    ensures forall v :: Walk(SetEnt(ph, t, i, e), root, v) == Walk(ph, root, v)
  {
    hide Ent, SetEnt, Huge, Target, Walk;
    var q, own' := SetEnt(ph, t, i, e), own[n := Child(own[t], i)];
    forall u: nat, j: idx
      ensures Ent(q, u, j) == if u == t && j == i then e else Ent(ph, u, j)
    {
      SetEntIs(ph, t, i, e, u, j);
    }
    forall v
      ensures Walk(q, root, v) == Walk(ph, root, v)
    {
      if Prefix(own[t], v) != own[t] || IndexAt(own[t], v) != i {
        OthersKeep(ph, root, own, t, i, e, v);
      } else {
        EmptyBelow(ph, q, root, own, t, i, n, v);
      }
    }
  }

  /** The pages through the new table are not mapped, before or after. */
  lemma EmptyBelow(ph: seq<word>, q: seq<word>, root: nat, own: map<nat, Path>, t: nat, i: idx, n: nat, v: Page)
    requires Tree(ph, root, own) && t in own && !own[t].L1? && Prefix(own[t], v) == own[t] && IndexAt(own[t], v) == i
    requires !Present(Ent(ph, t, i)) && n !in own && Target(Ent(q, t, i)) == n && !Huge(Ent(q, t, i))
    requires forall u: nat, j: idx :: u != t || j != i ==> Ent(q, u, j) == Ent(ph, u, j)
    requires forall j: idx :: Ent(ph, n, j) == 0
    ensures Walk(q, root, v) == Walk(ph, root, v)
  {
    hide Ent, Huge, Target;
    var e4 := Ent(ph, root, v.i4);
    if Present(e4) {
      assert Points(Root, e4);
      var t3 := Target(e4);
      assert own[t3] == L3(v.i4);
      var e3 := Ent(ph, t3, v.i3);
      if Present(e3) && !Huge(e3) {
        assert Points(own[t3], e3);
        assert own[Target(e3)] == L2(v.i4, v.i3);
      }
    }
  }

  /** v's walk gets to table t, whose path is v's. */
  predicate GetsTo(ph: seq<word>, root: nat, v: Page, t: nat, p: Path) {
    p == Prefix(p, v) &&
    match p
    case Root => t == root
    case L3(_) => var e := Ent(ph, root, v.i4); Present(e) && t == Target(e)
    case L2(_, _) =>
      var e4 := Ent(ph, root, v.i4);
      Present(e4) && var e := Ent(ph, Target(e4), v.i3); Present(e) && !Huge(e) && t == Target(e)
    case L1(_, _, _) =>
      var e4 := Ent(ph, root, v.i4);
      var e3 := Ent(ph, Target(e4), v.i3);
      var e := Ent(ph, Target(e3), v.i2);
      Present(e4) && Present(e3) && !Huge(e3) && Present(e) && !Huge(e) && t == Target(e)
  }

  lemma GetsOwned(ph: seq<word>, root: nat, own: map<nat, Path>, v: Page, t: nat, p: Path)
    requires Tree(ph, root, own) && GetsTo(ph, root, v, t, p)
    ensures t in own && own[t] == p
  {
    hide Ent, Huge, Target, Present;
    var e4 := Ent(ph, root, v.i4);
    if p != Root {
      assert Points(Root, e4);
      assert own[Target(e4)] == L3(v.i4);
      if !p.L3? {
        var t3 := Target(e4);
        var e3 := Ent(ph, t3, v.i3);
        assert Points(own[t3], e3);
        assert own[Target(e3)] == L2(v.i4, v.i3);
        if p.L1? {
          var t2 := Target(e3);
          assert Points(own[t2], Ent(ph, t2, v.i2));
        }
      }
    }
  }

  /** Writing an entry further down leaves the way to a table as it is. */
  lemma StillGets(ph: seq<word>, root: nat, own: map<nat, Path>, v: Page, t: nat, p: Path, u: nat, i: idx, e: word)
    requires Tree(ph, root, own) && GetsTo(ph, root, v, t, p) && u in own && !Before(own[u], p)
    ensures GetsTo(SetEnt(ph, u, i, e), root, v, t, p)
  {
    hide Ent, SetEnt, Huge, Target, Present;
    SetEntIs(ph, u, i, e, root, v.i4);
    var t3 := Target(Ent(ph, root, v.i4));
    if p != Root {
      GetsOwned(ph, root, own, v, t3, L3(v.i4));
      SetEntIs(ph, u, i, e, t3, v.i3);
      var t2 := Target(Ent(ph, t3, v.i3));
      if !p.L3? {
        GetsOwned(ph, root, own, v, t2, L2(v.i4, v.i3));
        SetEntIs(ph, u, i, e, t2, v.i2);
      }
    }
  }

  function Depth(p: Path): nat { if p == Root then 0 else if p.L3? then 1 else if p.L2? then 2 else 3 }

  predicate Before(p: Path, q: Path) { Depth(p) < Depth(q) }

  /** Writing an entry with no table below it. */
  lemma LeafTree(ph: seq<word>, root: nat, own: map<nat, Path>, t: nat, i: idx, e: word)
    requires Tree(ph, root, own) && t in own && !Points(own[t], e)
    ensures Tree(SetEnt(ph, t, i, e), root, own)
  {
    hide Ent, SetEnt, Huge, Target, Present, Points, Child;
    var q := SetEnt(ph, t, i, e);
    forall u: nat, j: idx
      ensures Ent(q, u, j) == if u == t && j == i then e else Ent(ph, u, j)
    {
      SetEntIs(ph, t, i, e, u, j);
    }
  }

  /** A 4 KiB page mapped, and no other page's translation changed. */
  lemma LeafMaps(ph: seq<word>, root: nat, own: map<nat, Path>, v: Page, t: nat, e: word)
    requires Tree(ph, root, own) && GetsTo(ph, root, v, t, L1(v.i4, v.i3, v.i2)) && Present(e)
    ensures t in own
    ensures forall u :: Walk(SetEnt(ph, t, v.i1, e), root, u) == if u == v then Some(Frame(Target(e), 1)) else Walk(ph, root, u)
  {
    hide Ent, SetEnt, Huge, Target, Walk, GetsTo, Present;
    GetsOwned(ph, root, own, v, t, L1(v.i4, v.i3, v.i2));
    forall u
      ensures Walk(SetEnt(ph, t, v.i1, e), root, u) == if u == v then Some(Frame(Target(e), 1)) else Walk(ph, root, u)
    {
      if u == v {
        StillGets(ph, root, own, v, t, L1(v.i4, v.i3, v.i2), t, v.i1, e);
        SetEntIs(ph, t, v.i1, e, t, v.i1);
        LeafWalk(SetEnt(ph, t, v.i1, e), root, v, t);
      } else {
        OthersKeep(ph, root, own, t, v.i1, e, u);
      }
    }
  }

  lemma LeafWalk(ph: seq<word>, root: nat, v: Page, t: nat)
    requires GetsTo(ph, root, v, t, L1(v.i4, v.i3, v.i2)) && Present(Ent(ph, t, v.i1))
    ensures Walk(ph, root, v) == Some(Frame(Target(Ent(ph, t, v.i1)), 1))
  {
    hide Ent, Huge, Target, Present;
  }

  predicate SameRegion(u: Page, v: Page) { u.i4 == v.i4 && u.i3 == v.i3 && u.i2 == v.i2 }

  /** A 2 MiB page mapped: all 512 pages of its region, and no others. */
  lemma HugeMaps(ph: seq<word>, root: nat, own: map<nat, Path>, v: Page, t: nat, e: word)
    requires Tree(ph, root, own) && GetsTo(ph, root, v, t, L2(v.i4, v.i3)) && Present(e) && Huge(e)
    ensures t in own
    ensures forall u ::
      Walk(SetEnt(ph, t, v.i2, e), root, u) == if SameRegion(u, v) then Some(Frame(e / 0x20_0000 * 512 + u.i1, 512)) else Walk(ph, root, u)
  {
    hide Ent, SetEnt, Huge, Target, Walk, GetsTo, Present;
    GetsOwned(ph, root, own, v, t, L2(v.i4, v.i3));
    forall u
      ensures Walk(SetEnt(ph, t, v.i2, e), root, u) ==
        if SameRegion(u, v) then Some(Frame(e / 0x20_0000 * 512 + u.i1, 512)) else Walk(ph, root, u)
    {
      if SameRegion(u, v) {
        GetsAlike(ph, root, u, v, t);
        StillGets(ph, root, own, u, t, L2(v.i4, v.i3), t, v.i2, e);
        SetEntIs(ph, t, v.i2, e, t, v.i2);
        HugeWalk(SetEnt(ph, t, v.i2, e), root, u, t);
      } else {
        OthersKeep(ph, root, own, t, v.i2, e, u);
      }
    }
  }

  lemma GetsAlike(ph: seq<word>, root: nat, u: Page, v: Page, t: nat)
    requires SameRegion(u, v) && GetsTo(ph, root, v, t, L2(v.i4, v.i3))
    ensures GetsTo(ph, root, u, t, L2(v.i4, v.i3))
  {
    hide Ent, Huge, Target, Present;
  }

  lemma HugeWalk(ph: seq<word>, root: nat, v: Page, t: nat)
    requires GetsTo(ph, root, v, t, L2(v.i4, v.i3)) && Present(Ent(ph, t, v.i2)) && Huge(Ent(ph, t, v.i2))
    ensures Walk(ph, root, v) == Some(Frame(Ent(ph, t, v.i2) / 0x20_0000 * 512 + v.i1, 512))
  {
    hide Ent, Huge, Target, Present;
  }

  /** Another page's contents do not matter to the tables. */
  lemma NewPage(ph: seq<word>, q: seq<word>, root: nat, own: map<nat, Path>, n: nat)
    requires Tree(ph, root, own) && n !in own && |q| == |ph| && 512 * n + 512 <= |ph|
    requires forall j | 0 <= j < |ph| :: q[j] == if 512 * n <= j < 512 * n + 512 then 0 else ph[j]
    ensures Tree(q, root, own) && forall j: idx :: Ent(q, n, j) == 0
    ensures forall u: nat, j: idx | u in own :: Ent(q, u, j) == Ent(ph, u, j)
    ensures forall v :: Walk(q, root, v) == Walk(ph, root, v)
  {
    hide Huge, Target, Present, Walk, Points, Child;
    forall u: nat, j: idx | u in own
      ensures Ent(q, u, j) == Ent(ph, u, j)
    {
    }
    SameTables(ph, q, root, own);
  }

  lemma SameTables(ph: seq<word>, q: seq<word>, root: nat, own: map<nat, Path>)
    requires Tree(ph, root, own) && |q| == |ph|
    requires forall u: nat, j: idx | u in own :: Ent(q, u, j) == Ent(ph, u, j)
    ensures Tree(q, root, own) && forall v :: Walk(q, root, v) == Walk(ph, root, v)
  {
    hide Ent, Huge, Target, Present, Points, Walk;
    forall v
      ensures Walk(q, root, v) == Walk(ph, root, v)
    {
      SameWalk(ph, q, root, own, v);
    }
  }

  lemma SameWalk(ph: seq<word>, q: seq<word>, root: nat, own: map<nat, Path>, v: Page)
    requires Tree(ph, root, own) && forall u: nat, j: idx | u in own :: Ent(q, u, j) == Ent(ph, u, j)
    ensures Walk(q, root, v) == Walk(ph, root, v)
  {
    hide Ent, Huge, Target, Present;
    var e4 := Ent(ph, root, v.i4);
    if Present(e4) {
      assert Points(Root, e4);
      var t3 := Target(e4);
      var e3 := Ent(ph, t3, v.i3);
      if Present(e3) && !Huge(e3) {
        assert Points(own[t3], e3);
        var t2 := Target(e3);
        var e2 := Ent(ph, t2, v.i2);
        if Present(e2) && !Huge(e2) {
          assert Points(own[t2], e2);
        }
      }
    }
  }

  /** p with the present and writable bits, as an entry. */
  function TableEntry(p: word): word { p - p % 4096 + 3 }
  function HugeEntry(p: word): word { p - p % 0x20_0000 + 3 + 128 }

  lemma TableEntryIs(p: word)
    ensures Present(TableEntry(p)) && Target(TableEntry(p)) == p / 4096 && !Huge(TableEntry(p))
  {
    assert TableEntry(p) == 4096 * (p / 4096) + 3;
    assert TableEntry(p) / 128 == 32 * (p / 4096);
  }

  lemma HugeEntryIs(p: word)
    ensures Present(HugeEntry(p)) && Huge(HugeEntry(p)) && HugeEntry(p) / 0x20_0000 == p / 0x20_0000
  {
    SplitAt2M(p);
    HugeBits(p / 0x20_0000);
  }

  lemma SplitAt2M(p: nat)
    ensures p == 0x20_0000 * (p / 0x20_0000) + p % 0x20_0000
  {
  }

  lemma HugeBits(q: nat)
    ensures var e := 0x20_0000 * q + 131; e % 2 == 1 && e / 128 % 2 == 1 && e / 0x20_0000 == q
  {
    Div128(0x4000 * q + 1);
    Div2M(q);
    OddOf(0x2000 * q);
    OddOf(0x10_0000 * q + 65);
  }

  lemma Div128(k: nat)
    ensures (128 * k + 3) / 128 == k
  {
  }

  lemma Div2M(k: nat)
    ensures (0x20_0000 * k + 131) / 0x20_0000 == k
  {
  }

  lemma OddOf(k: nat)
    ensures (2 * k + 1) % 2 == 1
  {
  }

  /** One table further. */
  lemma Further(ph: seq<word>, root: nat, own: map<nat, Path>, v: Page, t: nat, p: Path)
    requires Tree(ph, root, own) && GetsTo(ph, root, v, t, p) && !p.L1?
    requires var e := Ent(ph, t, IndexAt(p, v)); Present(e) && (p.L3? || p.L2? ==> !Huge(e))
    ensures var n := Target(Ent(ph, t, IndexAt(p, v)));
      GetsTo(ph, root, v, n, Child(p, IndexAt(p, v))) && n in own && own[n] == Child(p, IndexAt(p, v))
  {
    hide Ent, Huge, Target, Present, Tree;
    GetsOwned(ph, root, own, v, Target(Ent(ph, t, IndexAt(p, v))), Child(p, IndexAt(p, v)));
  }

  lemma SameGets(ph: seq<word>, q: seq<word>, root: nat, own: map<nat, Path>, v: Page, t: nat, p: Path)
    requires Tree(ph, root, own) && GetsTo(ph, root, v, t, p)
    requires forall u: nat, j: idx | u in own :: Ent(q, u, j) == Ent(ph, u, j)
    ensures GetsTo(q, root, v, t, p)
  {
    hide Ent, Huge, Target, Present;
    if p != Root {
      var t3 := Target(Ent(ph, root, v.i4));
      GetsOwned(ph, root, own, v, t3, L3(v.i4));
      if !p.L3? {
        GetsOwned(ph, root, own, v, Target(Ent(ph, t3, v.i3)), L2(v.i4, v.i3));
      }
    }
  }

  lemma NoneLeft(used: seq<bool>, hint: nat)
    requires hint <= |used| && NoRun(used, hint, |used|, 1) && NoRun(used, 0, hint, 1)
    ensures NoRun(used, 0, |used|, 1)
  {
    MissedStraddles(used, hint, 1);
    forall q: int | 0 <= q && q + 1 <= |used|
      ensures !RunFree(used, q, 1)
    {
      assert RunFree(used, q, 1) ==> q < hint < q + 1;
    }
  }

  lemma FreeIsNew(used: seq<bool>, hint: int, k: int)
    requires Chosen(used, hint, 1, k)
    ensures 0 <= k < |used| && !used[k]
  {
    assert RunFree(used, k, 1);
  }

  /** What putting a new, zeroed table under an entry does. */
  lemma AttachOk(ph: seq<word>, q: seq<word>, root: nat, own: map<nat, Path>, v: Page, t: nat, p: Path, ptr: word)
    requires Tree(ph, root, own) && GetsTo(ph, root, v, t, p) && !p.L1? && !Present(Ent(ph, t, IndexAt(p, v)))
    requires ptr % 4096 == 0 && |q| == |ph| && ptr / 4096 !in own && 512 * (ptr / 4096) + 512 <= |ph|
    requires forall j | 0 <= j < |ph| :: q[j] == if 512 * (ptr / 4096) <= j < 512 * (ptr / 4096) + 512 then 0 else ph[j]
    ensures t in own && 512 * t + 512 <= |ph|
    ensures var i := IndexAt(p, v); var r := SetEnt(q, t, i, TableEntry(ptr)); var n := ptr / 4096;
      && Tree(r, root, own[n := Child(p, i)]) && GetsTo(r, root, v, n, Child(p, i))
      && forall u :: Walk(r, root, u) == Walk(ph, root, u)
  {
    hide Ent, Huge, Target, Present, Walk, SetEnt, Tree, GetsTo, TableEntry;
    var i, n := IndexAt(p, v), ptr / 4096;
    GetsOwned(ph, root, own, v, t, p);
    TreeIn(ph, root, own, t);
    NewPage(ph, q, root, own, n);
    SameGets(ph, q, root, own, v, t, p);
    TableEntryIs(ptr);
    Grown(q, root, own, t, i, n, TableEntry(ptr));
    StillGets(q, root, own, v, t, p, t, i, TableEntry(ptr));
    SetEntIs(q, t, i, TableEntry(ptr), t, i);
    Further(SetEnt(q, t, i, TableEntry(ptr)), root, own[n := Child(p, i)], v, t, p);
  }

  lemma TreeIn(ph: seq<word>, root: nat, own: map<nat, Path>, t: nat)
    requires Tree(ph, root, own) && t in own
    ensures 512 * t + 512 <= |ph|
  {
  }

  /** Mapped as part of a larger page. */
  predicate InLarger(f: Option<Frame>) { f.Some? && f.value.size > 1 }

  lemma AtRoot(ph: seq<word>, root: nat, own: map<nat, Path>, v: Page)
    requires Tree(ph, root, own)
    ensures root in own && own[root] == Root && GetsTo(ph, root, v, root, own[root])
  {
    hide Ent;
  }

  lemma LargerAt(ph: seq<word>, root: nat, v: Page, t: nat)
    requires GetsTo(ph, root, v, t, L3(v.i4))
    ensures Present(Ent(ph, t, v.i3)) && Huge(Ent(ph, t, v.i3)) <==> InLarger(Walk(ph, root, v)) && Walk(ph, root, v).value.size == 0x4_0000
  {
    hide Ent, Huge, Target, Present;
  }

  lemma LargerAt2(ph: seq<word>, root: nat, v: Page, t: nat)
    requires GetsTo(ph, root, v, t, L2(v.i4, v.i3))
    ensures Present(Ent(ph, t, v.i2)) && Huge(Ent(ph, t, v.i2)) <==> InLarger(Walk(ph, root, v))
  {
    hide Ent, Huge, Target, Present;
  }

  lemma NotPoints(p: Path, e: word)
    requires p.L2? && Huge(e)
    ensures !Points(p, e)
  {
  }

  class Pager {
    const alloc: Allocator
    const root: nat               // the page of the PML4
    ghost var own: map<nat, Path>

    /** The tables are the tree's, on pages the allocator knows are used. */
    ghost predicate Valid()
      reads this, alloc, alloc.bitmap, alloc.phys
    {
      && alloc.Valid() && Tree(alloc.phys[..], root, own)
      && forall t | t in own :: BITMAP_BASE <= t < alloc.maxPage && alloc.used[t - BITMAP_BASE]
    }

    ghost function Map(v: Page): Option<Frame>
      reads this, alloc, alloc.phys
    {
      Walk(alloc.phys[..], root, v)
    }

    /** Over an empty PML4. */
    constructor (a: Allocator, pml4: nat)
      requires a.Valid() && BITMAP_BASE <= pml4 < a.maxPage && a.used[pml4 - BITMAP_BASE]
      requires forall j: idx :: Ent(a.phys[..], pml4, j) == 0
      ensures Valid() && alloc == a && root == pml4
    {
      alloc, root, own := a, pml4, map[pml4 := Root];
    }

    /** The table entry i of table t points to, a new one if there is none; null
        if there is no page for it. No translation changes. */
    method GetTable(t: nat, i: idx, ghost v: Page) returns (n: nat)
      requires Valid() && t in own && !own[t].L1? && GetsTo(alloc.phys[..], root, v, t, own[t]) && i == IndexAt(own[t], v)
      requires (own[t].L3? || own[t].L2?) && Present(Ent(alloc.phys[..], t, i)) ==> !Huge(Ent(alloc.phys[..], t, i))
      modifies this`own, alloc, alloc.bitmap, alloc.phys
      ensures Valid() && forall u :: Map(u) == old(Map(u))
      ensures n != 0 ==> n in own && own[n] == Child(old(own[t]), i) && GetsTo(alloc.phys[..], root, v, n, own[n])
      ensures n == 0 ==> NoRun(alloc.used, 0, |alloc.used|, 1)
    {
      hide Walk, Huge, Target, NoRun, RunFree, Chosen, FreeCount, GetsTo, Tree, BitOf, LiveOk, Present, Child, TableEntry;
      ghost var ph := alloc.phys[..];
      TreeIn(ph, root, own, t);
      var e := alloc.phys[512 * t + i];
      assert e == Ent(ph, t, i);
      if Present(e) {
        n := Target(e);
        Further(ph, root, own, v, t, own[t]);
        assert n >= BITMAP_BASE;
      } else {
        ghost var was := alloc.used;
        ghost var hint := alloc.lastAllocPage - BITMAP_BASE;
        var ptr := alloc.Kmalloc(1);
        if ptr == 0 {
          NoneLeft(alloc.used, hint);
          n := 0;
        } else {
          FreeIsNew(was, hint, ptr / 4096 - BITMAP_BASE);
          n := ptr / 4096;
          AttachOk(ph, alloc.phys[..], root, own, v, t, own[t], ptr);
          alloc.phys[512 * t + i] := TableEntry(ptr);
          own := own[n := Child(own[t], i)];
        }
      }
    }

    /** Maps one 4 KiB page: it alone translates to the frame then. When it
        fails, as the page is in a larger one or no page is left for a table,
        no translation has changed. */
    method MapPage(phys: word, virt: word) returns (r: int)
      requires Valid()
      modifies this`own, alloc, alloc.bitmap, alloc.phys
      ensures Valid() && (r == 0 || r == -1)
      ensures r == 0 ==> forall u :: Map(u) == if u == PageOf(virt) then Some(Frame(phys / 4096, 1)) else old(Map(u))
      ensures r == -1 ==> forall u :: Map(u) == old(Map(u))
      ensures r == -1 ==> InLarger(old(Map(PageOf(virt)))) || NoRun(alloc.used, 0, |alloc.used|, 1)
      ensures r == 0 ==> !InLarger(old(Map(PageOf(virt))))
    {
      hide Walk, Huge, Target, NoRun, GetsTo, Tree, BitOf, LiveOk, Present, TableEntry;
      var v := PageOf(virt);
      AtRoot(alloc.phys[..], root, own, v);
      var pdpt := GetTable(root, v.i4, v);
      if pdpt == 0 {
        return -1;
      }
      TreeIn(alloc.phys[..], root, own, pdpt);
      var e3 := alloc.phys[512 * pdpt + v.i3];
      LargerAt(alloc.phys[..], root, v, pdpt);
      if Present(e3) && Huge(e3) {
        return -1;
      }
      var pd := GetTable(pdpt, v.i3, v);
      if pd == 0 {
        return -1;
      }
      r := MapInto(pd, phys, v);
    }

    /** The last steps, from the page directory on. */
    method MapInto(pd: nat, phys: word, v: Page) returns (r: int)
      requires Valid() && pd in own && own[pd] == L2(v.i4, v.i3) && GetsTo(alloc.phys[..], root, v, pd, own[pd])
      modifies this`own, alloc, alloc.bitmap, alloc.phys
      ensures Valid() && (r == 0 || r == -1)
      ensures r == 0 ==> forall u :: Map(u) == if u == v then Some(Frame(phys / 4096, 1)) else old(Map(u))
      ensures r == -1 ==> forall u :: Map(u) == old(Map(u))
      ensures r == -1 ==> InLarger(old(Map(v))) || NoRun(alloc.used, 0, |alloc.used|, 1)
      ensures r == 0 ==> !InLarger(old(Map(v)))
    {
      hide Walk, Huge, Target, NoRun, GetsTo, Tree, BitOf, LiveOk, Present, TableEntry;
      TreeIn(alloc.phys[..], root, own, pd);
      var e2 := alloc.phys[512 * pd + v.i2];
      LargerAt2(alloc.phys[..], root, v, pd);
      if Present(e2) && Huge(e2) {
        return -1;
      }
      var pt := GetTable(pd, v.i2, v);
      if pt == 0 {
        return -1;
      }
      TableEntryIs(phys);
      TreeIn(alloc.phys[..], root, own, pt);
      LeafTree(alloc.phys[..], root, own, pt, v.i1, TableEntry(phys));
      LeafMaps(alloc.phys[..], root, own, v, pt, TableEntry(phys));
      alloc.phys[512 * pt + v.i1] := TableEntry(phys);
      r := 0;
    }

    /** Maps a 2 MiB page: all 512 pages of its region, and no others. When no
        page is left for a table, no translation has changed. */
    method MapPage2M(phys: word, virt: word) returns (r: int)
      requires Valid() && (InLarger(Map(PageOf(virt))) ==> Map(PageOf(virt)).value.size == 512)
      modifies this`own, alloc, alloc.bitmap, alloc.phys
      ensures Valid() && (r == 0 || r == -1)
      ensures r == 0 ==> forall u ::
        Map(u) == if SameRegion(u, PageOf(virt)) then Some(Frame(phys / 0x20_0000 * 512 + u.i1, 512)) else old(Map(u))
      ensures r == -1 ==> NoRun(alloc.used, 0, |alloc.used|, 1) && forall u :: Map(u) == old(Map(u))
    {
      hide Walk, Huge, Target, NoRun, GetsTo, Tree, BitOf, LiveOk, Present, TableEntry, HugeEntry;
      var v := PageOf(virt);
      AtRoot(alloc.phys[..], root, own, v);
      var pdpt := GetTable(root, v.i4, v);
      if pdpt == 0 {
        return -1;
      }
      TreeIn(alloc.phys[..], root, own, pdpt);
      LargerAt(alloc.phys[..], root, v, pdpt);
      var pd := GetTable(pdpt, v.i3, v);
      if pd == 0 {
        return -1;
      }
      HugeEntryIs(phys);
      TreeIn(alloc.phys[..], root, own, pd);
      NotPoints(own[pd], HugeEntry(phys));
      LeafTree(alloc.phys[..], root, own, pd, v.i2, HugeEntry(phys));
      HugeMaps(alloc.phys[..], root, own, v, pd, HugeEntry(phys));
      alloc.phys[512 * pd + v.i2] := HugeEntry(phys);
      r := 0;
    }
  }
}
