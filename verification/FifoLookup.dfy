/**
 Which chunks of a fifo are tracked in a lookup tree: always a run of consecutive chunks.
 The same code serves the enqueue tree (the run starts at the tail chunk) and the dequeue
 tree (the run starts at the first chunk); enq says which flag of the chunk is meant.
 */
module FifoLookup {
  import opened Positions
  import opened OutOfOrder
  import opened Chunks
  import opened ChunkTree
  import opened FifoLayout

  predicate Flag(k: Chunk, enq: bool) {
    if enq then k.inEnq else k.inDeq
  }

  function SetFlag(k: Chunk, enq: bool, v: bool): Chunk {
    if enq then k.(inEnq := v) else k.(inDeq := v)
  }

  ghost predicate FlagAt(m: Memory, c: seq<Link>, a: int, e: int, enq: bool, i: int) {
    0 <= i < |c| && c[i].ptr in m && (Flag(m[c[i].ptr], enq) <==> a <= i < e)
  }

  /** The tree indexes exactly chunks a..e, and exactly those chunks are flagged. */
  ghost predicate Run(m: Memory, c: seq<Link>, tree: Tree, a: nat, e: nat, enq: bool) {
    && a <= e <= |c| && Indexes(tree, c[a..e])
    && (forall i :: 0 <= i < |c| ==> FlagAt(m, c, a, e, enq, i))
  }

  lemma RunEmpty(m: Memory, c: seq<Link>, tree: Tree, a: nat, e: nat, enq: bool, b: nat)
    requires Run(m, c, tree, a, e, enq) && b <= |c|
    ensures tree.Leaf? <==> a == e
    ensures a == e ==> Run(m, c, tree, b, b, enq)
  {
    IndexesNonEmpty(tree, c[a..e]);
    if a == e {
      assert c[b..b] == c[a..e];
      forall i | 0 <= i < |c|
        ensures FlagAt(m, c, b, b, enq, i)
      {
        assert FlagAt(m, c, a, e, enq, i);
      }
    }
  }

  lemma RunFlag(m: Memory, c: seq<Link>, tree: Tree, a: nat, e: nat, enq: bool, i: nat)
    requires Run(m, c, tree, a, e, enq) && i < |c|
    ensures c[i].ptr in m && (Flag(m[c[i].ptr], enq) <==> a <= i < e)
  {
    assert FlagAt(m, c, a, e, enq, i);
  }

  lemma RunOrdered(c: seq<Link>, a: nat, e: nat, h: nat, t: nat, size: nat)
    requires Spots(c, h, t, size) && a <= e <= |c|
    ensures Ordered(c[a..e])
  {
    SpotsSpan(c, h, t, size);
    forall i, j | 0 <= i < |c| && 0 <= j < |c|
      ensures c[i].lo - c[j].lo < TWO31 && (i < j ==> c[i].lo < c[j].lo)
    {
      assert i > 0 ==> c[0].hi <= c[i].lo;
      assert j > 0 ==> c[0].hi <= c[j].lo;
      assert i < |c| - 1 ==> c[i].hi <= c[|c| - 1].lo;
      assert j < |c| - 1 ==> c[j].hi <= c[|c| - 1].lo;
      assert i < j ==> c[i].hi <= c[j].lo;
    }
  }

  lemma RunSpan(c: seq<Link>, a: nat, e: nat, h: nat, t: nat, size: nat, p: nat)
    requires Spots(c, h, t, size) && a <= e <= |c| && c[0].lo <= p <= End(c)
    ensures forall j :: 0 <= j < |c[a..e]| ==> -TWO31 < c[a..e][j].lo - p < TWO31
  {
    SpotsSpan(c, h, t, size);
    forall j | 0 <= j < |c|
      ensures -TWO31 < c[j].lo - p < TWO31
    {
      assert j > 0 ==> c[0].hi <= c[j].lo;
      assert j < |c| - 1 ==> c[j].hi <= c[|c| - 1].lo;
    }
  }

  /** Tracking the chunk behind the run extends the run. */
  lemma RunAdd(m: Memory, c: seq<Link>, tree: Tree, a: nat, e: nat, enq: bool, h: nat, t: nat, size: nat)
    requires Run(m, c, tree, a, e, enq) && Spots(c, h, t, size) && DistinctPtrs(c) && e < |c| && c[e].ptr in m
    ensures var q := m[c[e].ptr := SetFlag(m[c[e].ptr], enq, true)];
            Run(q, c, Insert(tree, Wrap(c[e].lo), c[e].ptr), a, e + 1, enq)
  {
    hide Insert, Indexes, Ordered, Spots, Wrap;
    var q := m[c[e].ptr := SetFlag(m[c[e].ptr], enq, true)];
    assert c[a..e] + [c[e]] == c[a..e + 1];
    RunOrdered(c, a, e + 1, h, t, size);
    InsertLast(tree, c[a..e], c[e]);
    var f := e + 1;
    forall i | 0 <= i < |c|
      ensures FlagAt(q, c, a, f, enq, i)
    {
      assert FlagAt(m, c, a, e, enq, i);
      assert i != e ==> c[i].ptr != c[e].ptr;
    }
  }

  /** Untracking the first chunk of the run leaves the rest of the run. */
  lemma RunDrop(m: Memory, c: seq<Link>, tree: Tree, a: nat, e: nat, enq: bool, h: nat, t: nat, size: nat)
    requires Run(m, c, tree, a, e, enq) && Spots(c, h, t, size) && DistinctPtrs(c) && a < e && c[a].ptr in m
    ensures var q := m[c[a].ptr := SetFlag(m[c[a].ptr], enq, false)];
            Run(q, c, Remove(tree, Wrap(c[a].lo)), a + 1, e, enq)
  {
    hide Remove, Indexes, Ordered, Spots, Wrap;
    var q := m[c[a].ptr := SetFlag(m[c[a].ptr], enq, false)];
    var d := c[a..e];
    RunOrdered(c, a, e, h, t, size);
    RemoveIndexes(tree, d, 0);
    assert d[0] == c[a] && d[..0] + d[1..] == c[a + 1..e];
    var b := a + 1;
    forall i | 0 <= i < |c|
      ensures FlagAt(q, c, b, e, enq, i)
    {
      assert FlagAt(m, c, a, e, enq, i);
      assert i != a ==> c[i].ptr != c[a].ptr;
    }
  }

  /** Only flags of one kind changed, and only of chunks of c. */
  ghost predicate FlagsOnly(m: Memory, q: Memory, enq: bool, c: seq<Link>) {
    && q.Keys == m.Keys
    && forall p :: p in m ==> q[p] == SetFlag(m[p], enq, Flag(q[p], enq)) && (p !in Ptrs(c) ==> q[p] == m[p])
  }

  lemma FlagsOnlyNone(m: Memory, enq: bool, c: seq<Link>)
    ensures FlagsOnly(m, m, enq, c)
  {
  }

  lemma FlagsOnlyOnce(m: Memory, c: seq<Link>, i: nat, enq: bool, v: bool)
    requires i < |c| && c[i].ptr in m
    ensures FlagsOnly(m, m[c[i].ptr := SetFlag(m[c[i].ptr], enq, v)], enq, c)
  {
    assert c[i].ptr in Ptrs(c);
  }

  lemma FlagsOnlyTwice(m: Memory, q: Memory, r: Memory, enq: bool, c: seq<Link>)
    requires FlagsOnly(m, q, enq, c) && FlagsOnly(q, r, enq, c)
    ensures FlagsOnly(m, r, enq, c)
  {
  }

  /** The other tree does not notice. */
  lemma RunOther(m: Memory, q: Memory, c: seq<Link>, tree: Tree, a: nat, e: nat, enq: bool)
    requires Run(m, c, tree, a, e, enq) && FlagsOnly(m, q, !enq, c)
    ensures Run(q, c, tree, a, e, enq)
  {
    forall i | 0 <= i < |c|
      ensures FlagAt(q, c, a, e, enq, i)
    {
      assert FlagAt(m, c, a, e, enq, i);
    }
  }

  /** Flags survive any change that keeps them. */
  lemma RunSame(m: Memory, q: Memory, c: seq<Link>, tree: Tree, a: nat, e: nat, enq: bool)
    requires Run(m, c, tree, a, e, enq) && SameButData(m, q, c)
    ensures Run(q, c, tree, a, e, enq)
  {
    forall i | 0 <= i < |c|
      ensures FlagAt(q, c, a, e, enq, i)
    {
      assert FlagAt(m, c, a, e, enq, i);
    }
  }

  /** Growing by untracked chunks keeps the run. */
  lemma RunJoin(m: Memory, q: Memory, c: seq<Link>, d: seq<Link>, tree: Tree, a: nat, e: nat, enq: bool)
    requires Run(m, c, tree, a, e, enq)
    requires forall i ::
               0 <= i < |c| ==> c[i].ptr in m && c[i].ptr in q && Flag(q[c[i].ptr], enq) == Flag(m[c[i].ptr], enq)
    requires forall j :: 0 <= j < |d| ==> d[j].ptr in q && !Flag(q[d[j].ptr], enq)
    ensures Run(q, c + d, tree, a, e, enq)
  {
    var r := c + d;
    assert r[a..e] == c[a..e];
    forall i | 0 <= i < |r|
      ensures FlagAt(q, r, a, e, enq, i)
    {
      if i < |c| {
        assert FlagAt(m, c, a, e, enq, i);
        assert r[i] == c[i];
      } else {
        assert r[i] == d[i - |c|];
      }
    }
  }

  /** Unlinking the first k chunks, none of them tracked, shifts the run. */
  lemma RunShift(m: Memory, q: Memory, c: seq<Link>, tree: Tree, a: nat, e: nat, enq: bool, k: nat)
    requires Run(m, c, tree, a, e, enq) && k <= a && k <= |c|
    requires forall i ::
               k <= i < |c| ==> c[i].ptr in m && c[i].ptr in q && Flag(q[c[i].ptr], enq) == Flag(m[c[i].ptr], enq)
    ensures Run(q, c[k..], tree, a - k, e - k, enq)
  {
    var r := c[k..];
    assert r[a - k..e - k] == c[a..e];
    var b, f := a - k, e - k;
    forall i | 0 <= i < |r|
      ensures FlagAt(q, r, b, f, enq, i)
    {
      assert FlagAt(m, c, a, e, enq, k + i);
      assert r[i] == c[k + i];
    }
  }

  /** Unlinking the first k chunks while the first one stays tracked: the tree then indexes no run of the list. */
  lemma StaleRun(m: Memory, q: Memory, c: seq<Link>, tree: Tree, e: nat, enq: bool, k: nat, a: nat, b: nat)
    requires Run(m, c, tree, 0, e, enq) && DistinctPtrs(c) && 0 < e && 0 < k < |c|
    ensures !Run(q, c[k..], tree, a, b, enq)
  {
    var first, rest := c[0..e], c[k..];
    assert InOrder(tree)[0].chunk == first[0].ptr == c[0].ptr;
    assert a < b <= |rest| ==> rest[a..b][0] == rest[a] == c[k + a] && c[k + a].ptr != c[0].ptr;
  }

  /**
   The floor of a live position at or past the run's first chunk is the chunk that holds it, or the run's last chunk.
   */
  lemma FloorHolds(c: seq<Link>, a: nat, e: nat, n: Tree, p: int, j: int)
    requires Contiguous(c) && a < e <= |c| && c[a].lo <= p < End(c) && IsFloor(n, c[a..e], p, j)
    ensures var i := a + j;
            && a <= i < e && n.Node? && n.chunk == c[i].ptr && c[i].lo <= p
            && Find(c, p) >= i && (i + 1 < e ==> Find(c, p) == i)
            && (Find(c, p) == i <==> p < c[i].hi)
  {
    var d, i := c[a..e], a + j;
    assert d[0] == c[a];
    assert d[j] == c[i];
    if i + 1 < e {
      assert d[j + 1] == c[i + 1];
      assert c[i].hi == c[i + 1].lo;
    }
    assert c[0].lo <= c[i].lo;
    FindLocates(c, p);
    if p < c[i].hi {
      FindIs(c, p, i);
    }
  }

  // ---- The lookup state of a fifo ----

  /** The cached chunk is none, or one of the list at or after chunk number from. */
  ghost predicate Cached(c: seq<Link>, x: Sptr, from: nat) {
    x == 0 || exists i :: from <= i < |c| && c[i].ptr == x
  }

  lemma CachedHolder(c: seq<Link>, t: nat, p: nat)
    requires Contiguous(c) && c != [] && c[0].lo <= t <= p <= End(c)
    ensures Cached(c, Holder(c, p), Find(c, t)) && Cached(c, Holder(c, p), 0)
  {
    FindMonotone(c, t, p);
    var i := Find(c, p);
    if i < |c| {
      assert c[i].ptr == Holder(c, p);
    }
  }

  /** The furthest position written so far. */
  ghost function Furthest(nodes: seq<Node>, t: nat): nat {
    if nodes == [] then t else nodes[|nodes| - 1].hi
  }

  /** Out-of-order segments lie strictly past the tail, in the chunk list and in the window. */
  ghost predicate Future(nodes: seq<Node>, t: nat, end: nat, top: nat) {
    forall i :: 0 <= i < |nodes| ==> t < nodes[i].lo < nodes[i].hi <= end && nodes[i].hi <= top
  }

  /**
   The enqueue side: the run starts at the tail chunk, ends by the furthest write, and vanishes with the out-of-order
   data.
   */
  ghost predicate EnqSide(m: Memory, c: seq<Link>, tree: Tree, a: nat, e: nat, cache: Sptr, init: bool, t: nat,
                          nodes: seq<Node>) {
    && Run(m, c, tree, a, e, true)
    && (a < e ==> a == Find(c, t) && c[e - 1].lo <= Furthest(nodes, t))
    && (nodes == [] || !init ==> a == e)
    && (nodes == [] ==> cache == 0)
    && Cached(c, cache, Find(c, t))
  }

  /** The dequeue side: the run starts at the first chunk. */
  ghost predicate DeqSide(m: Memory, c: seq<Link>, tree: Tree, d: nat, cache: Sptr, init: bool) {
    && Run(m, c, tree, 0, d, false)
    && (!init ==> d == 0)
    && Cached(c, cache, 0)
  }

  lemma SidesSame(m: Memory, q: Memory, c: seq<Link>, enqTree: Tree, a: nat, e: nat, oooEnq: Sptr, enqInit: bool,
                  t: nat, nodes: seq<Node>,
                  deqTree: Tree, d: nat, oooDeq: Sptr, deqInit: bool)
    requires EnqSide(m, c, enqTree, a, e, oooEnq, enqInit, t, nodes) && DeqSide(m, c, deqTree, d, oooDeq, deqInit)
    requires SameButData(m, q, c) || SameOn(m, q, c)
    ensures EnqSide(q, c, enqTree, a, e, oooEnq, enqInit, t, nodes) && DeqSide(q, c, deqTree, d, oooDeq, deqInit)
  {
    hide Indexes;
    if SameButData(m, q, c) {
      RunSame(m, q, c, enqTree, a, e, true);
      RunSame(m, q, c, deqTree, 0, d, false);
    } else {
      assert c + [] == c;
      RunJoin(m, q, c, [], enqTree, a, e, true);
      RunJoin(m, q, c, [], deqTree, 0, d, false);
    }
  }

  lemma CachedJoin(c: seq<Link>, d: seq<Link>, x: Sptr, from: nat)
    requires Cached(c, x, from)
    ensures Cached(c + d, x, from)
  {
    if x != 0 {
      var i :| from <= i < |c| && c[i].ptr == x;
      assert (c + d)[i].ptr == x;
    }
  }

  /** Growth keeps both sides. */
  lemma SidesJoin(m: Memory, q: Memory, c: seq<Link>, more: seq<Link>, enqTree: Tree, a: nat, e: nat, oooEnq: Sptr,
                  enqInit: bool, t: nat, nodes: seq<Node>,
                  deqTree: Tree, d: nat, oooDeq: Sptr, deqInit: bool)
    requires EnqSide(m, c, enqTree, a, e, oooEnq, enqInit, t, nodes) && DeqSide(m, c, deqTree, d, oooDeq, deqInit)
    requires forall i :: 0 <= i < |c| ==> c[i].ptr in m && c[i].ptr in q && SameFlags(m[c[i].ptr], q[c[i].ptr])
    requires forall j :: 0 <= j < |more| ==> more[j].ptr in q && !q[more[j].ptr].inEnq && !q[more[j].ptr].inDeq
    requires Contiguous(c) && Contiguous(c + more) && c != [] && more != [] && c[0].lo <= t <= End(c)
    ensures EnqSide(q, c + more, enqTree, a, e, oooEnq, enqInit, t, nodes)
    ensures DeqSide(q, c + more, deqTree, d, oooDeq, deqInit)
    ensures Find(c + more, t) == Find(c, t)
  {
    hide Indexes, Find, Contiguous;
    FindJoin(c, more, t);
    RunJoin(m, q, c, more, enqTree, a, e, true);
    RunJoin(m, q, c, more, deqTree, 0, d, false);
    CachedJoin(c, more, oooEnq, Find(c, t));
    CachedJoin(c, more, oooDeq, 0);
  }

  lemma FutureMore(nodes: seq<Node>, t: nat, end: nat, more: nat, top: nat)
    requires Future(nodes, t, end, top) && end <= more
    ensures Future(nodes, t, more, top)
  {
  }
}
