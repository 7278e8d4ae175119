/** The jumps linked between blocks: a record for each, on the list of the
    block it goes to, or on the free list. */
module Links {
  import opened Options

  const FREE: int := -1

  /** The records of s, one after another from head on. */
  predicate Chain(next: seq<Option<nat>>, head: Option<nat>, s: seq<nat>)
    decreases |s|
  {
    if s == [] then head == None
    else head == Some(s[0]) && s[0] < |next| && Chain(next, next[s[0]], s[1..])
  }

  lemma {:induction false} ChainKept(next: seq<Option<nat>>, head: Option<nat>, s: seq<nat>, i: nat, x: Option<nat>)
    requires Chain(next, head, s) && i < |next| && i !in s
    ensures Chain(next[i := x], head, s)
    decreases |s|
  {
    if s != [] {
      ChainKept(next, next[s[0]], s[1..], i, x);
    }
  }

  lemma {:induction false} ChainGrown(next: seq<Option<nat>>, head: Option<nat>, s: seq<nat>, x: Option<nat>)
    requires Chain(next, head, s)
    ensures Chain(next + [x], head, s)
    decreases |s|
  {
    if s != [] {
      ChainGrown(next, next[s[0]], s[1..], x);
    }
  }

  predicate NoTwice(s: seq<nat>) { forall i, j | 0 <= i < j < |s| :: s[i] != s[j] }

  /** Each record is once on the list of its owner: a block, or FREE. */
  ghost predicate Owned(lists: map<int, seq<nat>>, owner: seq<int>) {
    && (forall o | o in lists :: NoTwice(lists[o]) && forall i | i in lists[o] :: i < |owner| && owner[i] == o)
    && (forall i | 0 <= i < |owner| :: owner[i] in lists && i in lists[owner[i]])
  }

  /** The record on top of one list goes on top of another. */
  lemma MoveTop(lists: map<int, seq<nat>>, owner: seq<int>, o: int, p: int)
    requires Owned(lists, owner) && o in lists && p in lists && o != p && lists[o] != []
    ensures var i := lists[o][0];
      i < |owner| && i !in lists[o][1..] && i !in lists[p] && Owned(lists[o := lists[o][1..]][p := [i] + lists[p]], owner[i := p])
  {
    var i := lists[o][0];
    assert i in lists[o];
    var l := lists[o := lists[o][1..]][p := [i] + lists[p]];
    var w := owner[i := p];
    assert lists[o] == [i] + lists[o][1..];
    forall q | q in l
      ensures NoTwice(l[q]) && forall j | j in l[q] :: j < |w| && w[j] == q
    {
      if q == p {
        assert i !in lists[p];
        assert forall k | 0 <= k < |lists[p]| :: lists[p][k] in lists[p];
      } else if q == o {
        forall k | k in lists[o][1..]
          ensures k in lists[o] && k != i
        {
          var x :| 0 <= x < |lists[o]| - 1 && lists[o][1..][x] == k;
          assert lists[o][x + 1] == k;
        }
      }
    }
    forall j | 0 <= j < |w|
      ensures w[j] in l && j in l[w[j]]
    {
      if j != i {
        assert j in lists[owner[j]];
      }
    }
  }

  /** A new record on top of a list. */
  lemma AddTop(lists: map<int, seq<nat>>, owner: seq<int>, p: int)
    requires Owned(lists, owner) && p in lists
    ensures |owner| !in lists[p] && Owned(lists[p := [|owner|] + lists[p]], owner + [p])
  {
    var l, w, i := lists[p := [|owner|] + lists[p]], owner + [p], |owner|;
    forall q | q in l
      ensures NoTwice(l[q]) && forall j | j in l[q] :: j < |w| && w[j] == q
    {
      assert forall k | 0 <= k < |lists[q]| :: lists[q][k] in lists[q];
    }
    forall j | 0 <= j < |w|
      ensures w[j] in l && j in l[w[j]]
    {
      if j < i {
        assert j in lists[owner[j]];
      }
    }
  }

  /** A linked jump has a record on its block's list, and the other way. */
  ghost predicate Linked(jumps: map<nat, int>, sites: seq<nat>, owner: seq<int>) {
    && |sites| == |owner|
    && (forall i | 0 <= i < |owner| && owner[i] != FREE :: sites[i] in jumps && jumps[sites[i]] == owner[i])
    && (forall s | s in jumps :: jumps[s] != FREE && exists i :: 0 <= i < |owner| && sites[i] == s && owner[i] == jumps[s])
    && (forall i, j | 0 <= i < j < |owner| && owner[i] != FREE && owner[j] != FREE :: sites[i] != sites[j])
  }

  lemma LinkMore(jumps: map<nat, int>, sites: seq<nat>, owner: seq<int>, i: nat, s: nat, t: int)
    requires Linked(jumps, sites, owner) && i < |owner| && owner[i] == FREE && s !in jumps && t != FREE
    ensures Linked(jumps[s := t], sites[i := s], owner[i := t])
  {
    var j', s', o' := jumps[s := t], sites[i := s], owner[i := t];
    forall x | x in j'
      ensures exists k :: 0 <= k < |o'| && s'[k] == x && o'[k] == j'[x]
    {
      if x == s {
        assert s'[i] == x && o'[i] == j'[x];
      } else {
        var k :| 0 <= k < |owner| && sites[k] == x && owner[k] == jumps[x];
        assert s'[k] == x && o'[k] == j'[x];
      }
    }
  }

  lemma LinkNew(jumps: map<nat, int>, sites: seq<nat>, owner: seq<int>, s: nat, t: int)
    requires Linked(jumps, sites, owner) && s !in jumps && t != FREE
    ensures Linked(jumps[s := t], sites + [s], owner + [t])
  {
    var j', s', o' := jumps[s := t], sites + [s], owner + [t];
    forall x | x in j'
      ensures exists k :: 0 <= k < |o'| && s'[k] == x && o'[k] == j'[x]
    {
      if x == s {
        assert s'[|owner|] == x && o'[|owner|] == j'[x];
      } else {
        var k :| 0 <= k < |owner| && sites[k] == x && owner[k] == jumps[x];
        assert s'[k] == x && o'[k] == j'[x];
      }
    }
  }

  lemma LinkLess(jumps: map<nat, int>, sites: seq<nat>, owner: seq<int>, i: nat)
    requires Linked(jumps, sites, owner) && i < |owner| && owner[i] != FREE
    ensures Linked(jumps - {sites[i]}, sites, owner[i := FREE])
  {
    var j', o' := jumps - {sites[i]}, owner[i := FREE];
    forall x | x in j'
      ensures exists k :: 0 <= k < |o'| && sites[k] == x && o'[k] == j'[x]
    {
      var k :| 0 <= k < |owner| && sites[k] == x && owner[k] == jumps[x];
      assert sites[k] == x && o'[k] == j'[x];
    }
  }

  /** Every list is there, record after record. */
  ghost predicate Chains(next: seq<Option<nat>>, lists: map<int, seq<nat>>, incoming: map<int, Option<nat>>, free: Option<nat>) {
    && FREE in lists && FREE !in incoming && (forall b :: b in lists <==> b in incoming || b == FREE)
    && Chain(next, free, lists[FREE]) && forall b | b in incoming :: Chain(next, incoming[b], lists[b])
  }

  lemma OthersChain(next: seq<Option<nat>>, lists: map<int, seq<nat>>, owner: seq<int>, head: Option<nat>, o: int, p: int, i: nat, x: Option<nat>)
    requires Owned(lists, owner) && o in lists && p in lists && o != p && i in lists[o] && i < |next| && Chain(next, head, lists[p])
    ensures Chain(next[i := x], head, lists[p])
  {
    hide Chain;
    NotOn(lists, owner, o, p, i);
    ChainKept(next, head, lists[p], i, x);
  }

  lemma PushChain(next: seq<Option<nat>>, head: Option<nat>, s: seq<nat>, i: nat)
    requires Chain(next, head, s) && i < |next| && i !in s
    ensures Chain(next[i := head], Some(i), [i] + s)
  {
    ChainKept(next, head, s, i, head);
    assert ([i] + s)[1..] == s;
  }

  /** The record on top of the free list is put on t's. */
  lemma AfterMove(next: seq<Option<nat>>, lists: map<int, seq<nat>>, owner: seq<int>, incoming: map<int, Option<nat>>, free: Option<nat>, t: int)
    requires Chains(next, lists, incoming, free) && Owned(lists, owner) && t in incoming && free.Some?
    ensures lists[FREE] != [] && lists[FREE][0] == free.value && free.value < |next|
    ensures var l := free.value;
      Chains(next[l := incoming[t]], lists[FREE := lists[FREE][1..]][t := [l] + lists[t]], incoming[t := Some(l)], next[l])
  {
    hide Chain, Owned;
    FreeTop(next, free, lists[FREE]);
    var l := free.value;
    MoveTop(lists, owner, FREE, t);
    PushChain(next, incoming[t], lists[t], l);
    ChainKept(next, next[l], lists[FREE][1..], l, incoming[t]);
    forall b | b in incoming && b != t
      ensures Chain(next[l := incoming[t]], incoming[b], lists[b])
    {
      OthersChain(next, lists, owner, incoming[b], FREE, b, l, incoming[t]);
    }
  }

  /** The record on top of b's list is put on the free one. */
  lemma AfterDrop(next: seq<Option<nat>>, lists: map<int, seq<nat>>, owner: seq<int>, incoming: map<int, Option<nat>>, free: Option<nat>, b: int)
    requires Chains(next, lists, incoming, free) && Owned(lists, owner) && b in incoming && incoming[b].Some?
    ensures lists[b] != [] && lists[b][0] == incoming[b].value && incoming[b].value < |next|
    ensures var l := incoming[b].value;
      Chains(next[l := free], lists[b := lists[b][1..]][FREE := [l] + lists[FREE]], incoming[b := next[l]], Some(l))
  {
    hide Chain, Owned;
    FreeTop(next, incoming[b], lists[b]);
    var l := incoming[b].value;
    MoveTop(lists, owner, b, FREE);
    PushChain(next, free, lists[FREE], l);
    ChainKept(next, next[l], lists[b][1..], l, free);
    forall c | c in incoming && c != b
      ensures Chain(next[l := free], incoming[c], lists[c])
    {
      OthersChain(next, lists, owner, incoming[c], b, c, l, free);
    }
  }

  lemma AfterAdd(next: seq<Option<nat>>, lists: map<int, seq<nat>>, owner: seq<int>, incoming: map<int, Option<nat>>, free: Option<nat>, t: int)
    requires Chains(next, lists, incoming, free) && Owned(lists, owner) && t in incoming && |next| == |owner|
    ensures Chains(next + [incoming[t]], lists[t := [|next|] + lists[t]], incoming[t := Some(|next|)], free)
  {
    hide Chain, Owned;
    var n := next + [incoming[t]];
    ChainGrown(next, free, lists[FREE], incoming[t]);
    forall b | b in incoming
      ensures Chain(n, incoming[b], lists[b])
    {
      ChainGrown(next, incoming[b], lists[b], incoming[t]);
    }
    AddTop(lists, owner, t);
    PushChain(n, incoming[t], lists[t], |next|);
    assert n[|next| := incoming[t]] == n;
  }

  lemma AddList(next: seq<Option<nat>>, lists: map<int, seq<nat>>, owner: seq<int>, incoming: map<int, Option<nat>>, free: Option<nat>, b: int)
    requires Chains(next, lists, incoming, free) && Owned(lists, owner) && b !in incoming && b != FREE
    ensures Chains(next, lists[b := []], incoming[b := None], free) && Owned(lists[b := []], owner)
  {
  }

  /** A block with no list left can go. */
  lemma DropList(next: seq<Option<nat>>, lists: map<int, seq<nat>>, owner: seq<int>, incoming: map<int, Option<nat>>, free: Option<nat>, b: int)
    requires Chains(next, lists, incoming, free) && Owned(lists, owner) && b in incoming && incoming[b].None?
    ensures Chains(next, lists - {b}, incoming - {b}, free) && Owned(lists - {b}, owner)
    ensures forall i | 0 <= i < |owner| :: owner[i] != b
  {
    EmptyChain(next, lists[b]);
  }

  lemma NoneLinked(jumps: map<nat, int>, sites: seq<nat>, owner: seq<int>, b: int)
    requires Linked(jumps, sites, owner) && forall i | 0 <= i < |owner| :: owner[i] != b
    ensures Without(jumps, b) == jumps
  {
  }

  function Without(jumps: map<nat, int>, b: int): map<nat, int> { map s | s in jumps && jumps[s] != b :: jumps[s] }

  class LinkTable {
    const maxLinks: nat
    var sites: seq<nat>                 // of each record, its jump
    var next: seq<Option<nat>>
    var freeLinks: Option<nat>
    var incoming: map<int, Option<nat>> // of each valid block, its list
    var jumps: map<nat, int>            // where jumps go now; others to their slow paths

    ghost var owner: seq<int>
    ghost var lists: map<int, seq<nat>>

    ghost predicate Valid()
      reads this
    {
      && |sites| == |next| == |owner| <= maxLinks
      && Chains(next, lists, incoming, freeLinks)
      && Owned(lists, owner) && Linked(jumps, sites, owner)
    }

    constructor (max: nat)
      ensures Valid() && maxLinks == max && jumps == map[] && incoming == map[]
    {
      maxLinks, sites, next, freeLinks, incoming, jumps := max, [], [], None, map[], map[];
      owner, lists := [], map[FREE := []];
    }

    /** A new block, with nothing linked to it. */
    method AddBlock(b: nat)
      requires Valid() && b !in incoming
      modifies this`incoming, this`lists
      ensures Valid() && incoming == old(incoming)[b := None]
    {
      hide Linked, Owned, Chains;
      AddList(next, lists, owner, incoming, freeLinks, b);
      incoming := incoming[b := None];
      lists := lists[b := []];
    }

    /** Links the jump at site to block t, if there is a record for it. */
    method LinkTo(site: nat, t: nat)
      requires Valid() && site !in jumps && t in incoming
      modifies this
      ensures Valid() && incoming.Keys == old(incoming.Keys)
      ensures jumps == old(jumps)[site := t] || (jumps == old(jumps) && old(freeLinks.None? && |sites| == maxLinks))
    {
      hide Owned, Linked, Chains;
      HasList(next, lists, incoming, freeLinks, t);
      if freeLinks.Some? {
        AfterMove(next, lists, owner, incoming, freeLinks, t);
        var l := freeLinks.value;
        MoveTop(lists, owner, FREE, t);
        OwnerIs(lists, owner, FREE, l);
        LinkMore(jumps, sites, owner, l, site, t);
        freeLinks := next[l];
        sites := sites[l := site];
        next := next[l := incoming[t]];
        lists := lists[FREE := lists[FREE][1..]][t := [l] + lists[t]];
        incoming := incoming[t := Some(l)];
        jumps := jumps[site := t];
        owner := owner[l := t];
      } else if |sites| < maxLinks {
        AfterAdd(next, lists, owner, incoming, freeLinks, t);
        AddTop(lists, owner, t);
        LinkNew(jumps, sites, owner, site, t);
        next := next + [incoming[t]];
        lists := lists[t := [|sites|] + lists[t]];
        incoming := incoming[t := Some(|sites|)];
        sites := sites + [site];
        jumps := jumps[site := t];
        owner := owner + [t];
      }
    }

    /** Drops block b: the jumps linked to it go to their slow paths, and their
        records are free. */
    method Invalidate(b: nat)
      requires Valid() && b in incoming
      modifies this
      ensures Valid() && incoming.Keys == old(incoming.Keys) - {b}
      ensures jumps == Without(old(jumps), b)
    {
      hide Owned, Linked, Chains, Without;
      HasList(next, lists, incoming, freeLinks, b);
      while incoming[b].Some?
        invariant Valid() && incoming.Keys == old(incoming.Keys) && b in incoming && b in lists
        invariant Without(jumps, b) == Without(old(jumps), b)
        decreases |lists[b]|
      {
        AfterDrop(next, lists, owner, incoming, freeLinks, b);
        var l := incoming[b].value;
        HasList(next, lists, incoming, freeLinks, b);
        MoveTop(lists, owner, b, FREE);
        OwnerIs(lists, owner, b, l);
        LinkLess(jumps, sites, owner, l);
        SiteTo(jumps, sites, owner, l);
        incoming := incoming[b := next[l]];
        next := next[l := freeLinks];
        freeLinks := Some(l);
        jumps := jumps - {sites[l]};
        lists := lists[b := lists[b][1..]][FREE := [l] + lists[FREE]];
        owner := owner[l := FREE];
      }
      DropList(next, lists, owner, incoming, freeLinks, b);
      NoneLinked(jumps, sites, owner, b);
      incoming := incoming - {b};
      lists := lists - {b};
    }

    /** Empties the code cache. */
    method Flush()
      requires Valid()
      modifies this
      ensures Valid() && jumps == map[] && incoming == map[]
    {
      sites, next, freeLinks, incoming, jumps := [], [], None, map[], map[];
      owner, lists := [], map[FREE := []];
    }

    /** Jumps only go to blocks still there. */
    lemma JumpsValid(s: nat)
      requires Valid() && s in jumps
      ensures jumps[s] in incoming
    {
      hide Chain;
      var i :| 0 <= i < |owner| && sites[i] == s && owner[i] == jumps[s];
      assert owner[i] in lists;
    }
  }

  lemma HasList(next: seq<Option<nat>>, lists: map<int, seq<nat>>, incoming: map<int, Option<nat>>, free: Option<nat>, t: int)
    requires Chains(next, lists, incoming, free) && t in incoming
    ensures t in lists && FREE in lists && t != FREE
  {
    hide Chain;
  }

  lemma FreeTop(next: seq<Option<nat>>, head: Option<nat>, s: seq<nat>)
    requires Chain(next, head, s) && head.Some?
    ensures s != [] && s[0] == head.value && s[0] < |next| && Chain(next, next[s[0]], s[1..])
  {
  }

  lemma EmptyChain(next: seq<Option<nat>>, s: seq<nat>)
    requires Chain(next, None, s)
    ensures s == []
  {
  }

  lemma OwnerIs(lists: map<int, seq<nat>>, owner: seq<int>, o: int, i: nat)
    requires Owned(lists, owner) && o in lists && i in lists[o]
    ensures i < |owner| && owner[i] == o
  {
  }

  lemma NotOn(lists: map<int, seq<nat>>, owner: seq<int>, o: int, p: int, i: nat)
    requires Owned(lists, owner) && o in lists && p in lists && i in lists[o] && o != p
    ensures i !in lists[p]
  {
  }

  lemma SiteTo(jumps: map<nat, int>, sites: seq<nat>, owner: seq<int>, i: nat)
    requires Linked(jumps, sites, owner) && i < |owner| && owner[i] != FREE
    ensures sites[i] in jumps && jumps[sites[i]] == owner[i]
    ensures Without(jumps - {sites[i]}, owner[i]) == Without(jumps, owner[i])
  {
  }
}
