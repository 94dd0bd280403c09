/**
 The out-of-order segment list: bytes written past the tail are tracked as a sorted,
 coalesced, doubly linked list whose nodes live in a pool.
 */
module OutOfOrder {
  import opened Positions

  /** Stands for the invalid pool index. */
  const NONE: int := -1

  /** A pool element: positions are stored in wrapped form. */
  datatype OooSegment = OooSegment(next: int, prev: int, start: u32, length: u32)

  type Pool = map<int, OooSegment>

  /** A list node seen with its pool index and its unwrapped bounds [lo, hi). */
  datatype Node = Node(index: int, lo: nat, hi: nat)

  /** Sorted, non-empty, disjoint and with a gap of at least one byte between neighbours. */
  ghost predicate Separated(s: seq<Node>) {
    && (forall i :: 0 <= i < |s| ==> s[i].lo < s[i].hi)
    && (forall i, j :: 0 <= i < j < |s| ==> s[i].hi < s[j].lo)
  }

  ghost predicate Covers(s: seq<Node>, p: int) {
    exists i :: 0 <= i < |s| && s[i].lo <= p < s[i].hi
  }

  /** Some single segment holds all of [lo, hi). */
  ghost predicate Contains(s: seq<Node>, lo: int, hi: int) {
    exists i :: 0 <= i < |s| && s[i].lo <= lo && hi <= s[i].hi
  }

  /** Every segment is non-empty and lies in the half lap that starts at base. */
  ghost predicate Within(s: seq<Node>, base: int) {
    forall i :: 0 <= i < |s| ==> base <= s[i].lo < s[i].hi < base + TWO31
  }

  /** A separated list is determined by the positions it covers. */
  lemma {:induction false} Canonical(a: seq<Node>, b: seq<Node>)
    requires Separated(a) && Separated(b)
    requires forall p :: Covers(a, p) <==> Covers(b, p)
    ensures |a| == |b|
    ensures forall i :: 0 <= i < |a| ==> a[i].lo == b[i].lo && a[i].hi == b[i].hi
    decreases |a|
  {
    if a == [] {
      if b != [] {
        CoversFirst(b);
      }
    } else {
      CoversFirst(a);
      SameHead(a, b);
      forall p
        ensures Covers(a[1..], p) <==> Covers(b[1..], p)
      {
        CoversTail(a, p);
        CoversTail(b, p);
      }
      Canonical(a[1..], b[1..]);
      assert forall i :: 1 <= i < |a| ==> a[i] == a[1..][i - 1] && b[i] == b[1..][i - 1];
    }
  }

  lemma CoversFirst(a: seq<Node>)
    requires Separated(a) && a != []
    ensures Covers(a, a[0].lo)
  {
    assert a[0].lo < a[0].hi;
  }

  lemma CoversTail(a: seq<Node>, p: int)
    requires Separated(a) && a != []
    ensures Covers(a[1..], p) <==> Covers(a, p) && p >= a[0].hi
  {
    if Covers(a, p) && p >= a[0].hi {
      var i :| 0 <= i < |a| && a[i].lo <= p < a[i].hi;
      assert a[1..][i - 1] == a[i];
    }
    if Covers(a[1..], p) {
      var i :| 0 <= i < |a[1..]| && a[1..][i].lo <= p < a[1..][i].hi;
      assert a[i + 1].lo <= p < a[i + 1].hi;
    }
  }

  lemma SameHead(a: seq<Node>, b: seq<Node>)
    requires Separated(a) && Separated(b) && a != [] && b != []
    requires forall p :: Covers(a, p) <==> Covers(b, p)
    ensures a[0].lo == b[0].lo && a[0].hi == b[0].hi
  {
    assert Covers(a, a[0].lo) && Covers(b, b[0].lo);
    assert a[0].lo == b[0].lo;
    assert !Covers(a, a[0].hi) && !Covers(b, b[0].hi);
    var p, q := a[0].hi, b[0].hi;
    assert p < q ==> Covers(b, p);
    assert q < p ==> Covers(a, q);
  }

  lemma CoversConcat(a: seq<Node>, b: seq<Node>, p: int)
    ensures Covers(a + b, p) <==> Covers(a, p) || Covers(b, p)
  {
    if Covers(a, p) {
      var i :| 0 <= i < |a| && a[i].lo <= p < a[i].hi;
      assert (a + b)[i] == a[i];
    }
    if Covers(b, p) {
      var i :| 0 <= i < |b| && b[i].lo <= p < b[i].hi;
      assert (a + b)[|a| + i] == b[i];
    }
  }

  lemma SeparatedConcat(a: seq<Node>, b: seq<Node>)
    requires Separated(a) && Separated(b)
    requires a != [] && b != [] ==> a[|a| - 1].hi < b[0].lo
    ensures Separated(a + b)
  {
    forall i, j | 0 <= i < |a| && 0 <= j < |b|
      ensures a[i].hi < b[j].lo
    {
      assert a[i].hi <= a[|a| - 1].hi && b[0].lo <= b[j].lo;
    }
  }

  // ---- Merging a new interval: which nodes it touches and what replaces them ----

  /** Nodes k..m of the list are exactly those that overlap or touch [lo, hi). */
  ghost predicate Touched(s: seq<Node>, k: nat, m: nat, lo: nat, hi: nat) {
    && Separated(s) && k <= m <= |s| && lo < hi
    && (k > 0 ==> s[k - 1].hi < lo)
    && (m < |s| ==> hi < s[m].lo)
    && (k < m ==> lo <= s[k].hi && s[m - 1].lo <= hi)
  }

  /** The node that replaces nodes k..m, kept at the given pool index. */
  ghost function Hull(s: seq<Node>, k: nat, m: nat, lo: nat, hi: nat, index: int): Node
    requires k <= m <= |s|
  {
    if k == m then Node(index, lo, hi) else Node(index, Min(lo, s[k].lo), Max(hi, s[m - 1].hi))
  }

  ghost function Splice(s: seq<Node>, k: nat, m: nat, x: Node): seq<Node>
    requires k <= m <= |s|
  {
    s[..k] + [x] + s[m..]
  }

  /** Replacing the touched nodes by their union with [lo, hi) keeps the list separated. */
  lemma MergedSeparated(s: seq<Node>, k: nat, m: nat, lo: nat, hi: nat, index: int)
    requires Touched(s, k, m, lo, hi)
    ensures Separated(Splice(s, k, m, Hull(s, k, m, lo, hi, index)))
  {
    var x := Hull(s, k, m, lo, hi, index);
    assert k < m ==> s[k].lo <= s[m - 1].lo;
    assert m < |s| ==> x.hi < s[m].lo;
    assert k > 0 ==> s[k - 1].hi < x.lo;
    SeparatedConcat(s[..k], [x]);
    SeparatedConcat(s[..k] + [x], s[m..]);
  }

  /** The union of the touched nodes with [lo, hi) is one interval. */
  lemma HullCovers(s: seq<Node>, k: nat, m: nat, lo: nat, hi: nat, p: int)
    requires Touched(s, k, m, lo, hi)
    ensures var x := Hull(s, k, m, lo, hi, NONE);
            x.lo <= p < x.hi <==> Covers(s[k..m], p) || lo <= p < hi
  {
    var mid := s[k..m];
    if k < m {
      assert mid[0] == s[k] && mid[|mid| - 1] == s[m - 1];
      assert Separated(mid);
      if mid[0].lo <= p < lo {
        assert Covers(mid, p);
      }
      if hi <= p < mid[|mid| - 1].hi {
        assert Covers(mid, p);
      }
    }
  }

  lemma CoversSplice(s: seq<Node>, k: nat, m: nat, x: Node, p: int)
    requires k <= m <= |s|
    ensures Covers(Splice(s, k, m, x), p) <==> Covers(s[..k], p) || x.lo <= p < x.hi || Covers(s[m..], p)
  {
    CoversConcat(s[..k] + [x], s[m..], p);
    CoversConcat(s[..k], [x], p);
    assert Covers([x], p) <==> [x][0].lo <= p < [x][0].hi;
  }

  lemma CoversSplit(s: seq<Node>, k: nat, m: nat, p: int)
    requires k <= m <= |s|
    ensures Covers(s, p) <==> Covers(s[..k], p) || Covers(s[k..m], p) || Covers(s[m..], p)
  {
    CoversConcat(s[..k] + s[k..m], s[m..], p);
    CoversConcat(s[..k], s[k..m], p);
    assert s == s[..k] + s[k..m] + s[m..];
  }

  /** Merging adds exactly the positions of [lo, hi). */
  lemma MergedCovers(s: seq<Node>, k: nat, m: nat, lo: nat, hi: nat, index: int, p: int)
    requires Touched(s, k, m, lo, hi)
    ensures Covers(Splice(s, k, m, Hull(s, k, m, lo, hi, index)), p) <==> Covers(s, p) || lo <= p < hi
  {
    CoversSplice(s, k, m, Hull(s, k, m, lo, hi, index), p);
    CoversSplit(s, k, m, p);
    HullCovers(s, k, m, lo, hi, p);
  }

  lemma TouchedFrom(s: seq<Node>, k: nat, m: nat, lo: nat, hi: nat)
    requires Separated(s) && k < m <= |s| && lo < hi
    requires s[k].lo <= lo <= s[k].hi && s[m - 1].lo <= hi
    requires m < |s| ==> hi < s[m].lo
    ensures Touched(s, k, m, lo, hi)
  {
  }

  /** Merging as one step: the separated result, its coverage, its bounds and where the new interval went. */
  lemma MergeSpec(s: seq<Node>, k: nat, m: nat, lo: nat, hi: nat, index: int, base: int)
    requires Touched(s, k, m, lo, hi) && Within(s, base) && base <= lo && hi < base + TWO31
    ensures var t := Splice(s, k, m, Hull(s, k, m, lo, hi, index));
            && Separated(t) && Within(t, base)
            && (forall p :: Covers(t, p) <==> Covers(s, p) || lo <= p < hi)
            && t[k].lo <= lo && hi <= t[k].hi && t[k].index == index
  {
    MergedSeparated(s, k, m, lo, hi, index);
    forall p
      ensures Covers(Splice(s, k, m, Hull(s, k, m, lo, hi, index)), p) <==> Covers(s, p) || lo <= p < hi
    {
      MergedCovers(s, k, m, lo, hi, index, p);
    }
  }

  lemma NotContained(s: seq<Node>, k: nat, m: nat, lo: nat, hi: nat)
    requires Touched(s, k, m, lo, hi)
    requires k < m ==> lo < s[k].lo || s[k].hi < hi
    ensures !Contains(s, lo, hi)
  {
    forall i | 0 <= i < |s|
      ensures !(s[i].lo <= lo && hi <= s[i].hi)
    {
      assert k < m ==> s[k].lo <= s[m - 1].lo;
    }
  }

  /** The effect of adding [lo, hi) to the list. */
  ghost predicate Added(s: seq<Node>, t: seq<Node>, lo: int, hi: int, newest: int) {
    && (forall p :: Covers(t, p) <==> Covers(s, p) || lo <= p < hi)
    && (newest == NONE <==> Contains(s, lo, hi))
    && (newest != NONE ==> exists i :: 0 <= i < |t| && t[i].index == newest && t[i].lo <= lo && hi <= t[i].hi)
  }

  lemma AddDone(s: seq<Node>, k: nat, m: nat, lo: nat, hi: nat, index: int, newest: int, base: int)
    requires Touched(s, k, m, lo, hi) && Within(s, base) && base <= lo && hi < base + TWO31 && index != NONE
    requires newest == if k < m && s[k].lo <= lo && hi <= s[k].hi then NONE else index
    ensures var t := Splice(s, k, m, Hull(s, k, m, lo, hi, index));
            Separated(t) && Within(t, base) && Added(s, t, lo, hi, newest)
  {
    MergeSpec(s, k, m, lo, hi, index, base);
    if newest != NONE {
      NotContained(s, k, m, lo, hi);
    }
  }

  lemma TouchedGap(s: seq<Node>, k: nat, lo: nat, hi: nat, index: int)
    requires Separated(s) && k <= |s| && lo < hi
    requires k > 0 ==> s[k - 1].hi < lo
    requires k < |s| ==> hi < s[k].lo
    ensures Touched(s, k, k, lo, hi) && Hull(s, k, k, lo, hi, index) == Node(index, lo, hi)
  {
  }

  /** Moving the start of node k down to lo first does not change the outcome of a merge. */
  lemma LoweredSeparated(s: seq<Node>, k: nat, lo: nat, base: int)
    requires Separated(s) && Within(s, base) && k < |s| && base <= lo < s[k].lo && (k > 0 ==> s[k - 1].hi < lo)
    ensures Separated(s[k := Node(s[k].index, lo, s[k].hi)]) && Within(s[k := Node(s[k].index, lo, s[k].hi)], base)
  {
  }

  lemma LoweredHull(s: seq<Node>, k: nat, m: nat, lo: nat, hi: nat)
    requires Separated(s) && k < |s| && lo < s[k].lo <= hi
    requires var g := s[k := Node(s[k].index, lo, s[k].hi)]; Touched(g, k, m, lo, hi) && k < m
    ensures Touched(s, k, m, lo, hi)
    ensures var g := s[k := Node(s[k].index, lo, s[k].hi)];
            Splice(g, k, m, Hull(g, k, m, lo, hi, s[k].index)) == Splice(s, k, m, Hull(s, k, m, lo, hi, s[k].index))
  {
    var g := s[k := Node(s[k].index, lo, s[k].hi)];
    SpliceReplace(s, k, m, g[k], Hull(s, k, m, lo, hi, s[k].index));
    assert k > 0 ==> g[k - 1] == s[k - 1];
    assert m < |s| ==> g[m] == s[m];
    assert m - 1 > k ==> g[m - 1] == s[m - 1];
  }

  lemma SpliceSelf(s: seq<Node>, k: nat)
    requires k < |s|
    ensures Splice(s, k, k + 1, s[k]) == s
  {
  }

  lemma HullSelf(s: seq<Node>, k: nat, lo: nat, hi: nat)
    requires Separated(s) && k < |s| && s[k].lo <= lo < hi <= s[k].hi
    ensures Touched(s, k, k + 1, lo, hi)
    ensures Splice(s, k, k + 1, Hull(s, k, k + 1, lo, hi, s[k].index)) == s
  {
    SpliceSelf(s, k);
  }

  lemma SpliceReplace(s: seq<Node>, k: nat, m: nat, x: Node, y: Node)
    requires k < m <= |s|
    ensures Splice(s[k := x], k, m, y) == Splice(s, k, m, y)
    ensures Splice(s, k, m, x)[k] == x
    ensures Splice(s, k, m, x)[k := y] == Splice(s, k, m, y)
  {
  }

  /** Growing node k to hi and absorbing up to m gives the hull of the touched nodes. */
  lemma AbsorbedHull(s: seq<Node>, k: nat, m: nat, lo: nat, hi: nat)
    requires Separated(s) && k < m <= |s| && lo < hi
    requires s[k].lo <= lo <= s[k].hi < hi
    requires var g := s[k := Node(s[k].index, s[k].lo, hi)];
             g[m - 1].lo <= hi && (m < |s| ==> hi < g[m].lo)
    ensures Touched(s, k, m, lo, hi)
    ensures var g := s[k := Node(s[k].index, s[k].lo, hi)];
            Splice(g, k, m, Node(s[k].index, s[k].lo, Max(hi, g[m - 1].hi))) ==
                Splice(s, k, m, Hull(s, k, m, lo, hi, s[k].index))
  {
    var g := s[k := Node(s[k].index, s[k].lo, hi)];
    SpliceReplace(s, k, m, g[k], Hull(s, k, m, lo, hi, s[k].index));
    TouchedFrom(s, k, m, lo, hi);
  }

  lemma GrownBounds(s: seq<Node>, k: nat, hi: nat, base: int)
    requires Separated(s) && Within(s, base) && k < |s| && s[k].lo < hi < base + TWO31
    ensures var g := s[k := Node(s[k].index, s[k].lo, hi)];
            && (forall i :: k < i < |g| ==> g[k].lo < g[i].lo < g[i].hi < g[k].lo + TWO31)
            && (forall i, j :: k < i < j < |g| ==> g[i].hi < g[j].lo)
  {
  }

  lemma SpliceAfter(s: seq<Node>, k: nat, m: nat, x: Node)
    requires k < m < |s|
    ensures Splice(s, k, m, x)[k + 1] == s[m]
    ensures Without(Splice(s, k, m, x), k + 1) == Splice(s, k, m + 1, x)
  {
  }

  // ---- Collecting segments that the tail has reached ----

  /** The tail moved from t over recorded bytes to the first unrecorded position u, and only later segments survive. */
  ghost predicate Collected(s: seq<Node>, r: seq<Node>, t: int, u: int) {
    && t <= u
    && (forall p :: t <= p < u ==> Covers(s, p))
    && !Covers(s, u)
    && (forall p :: Covers(r, p) <==> Covers(s, p) && p > u)
    && (forall i :: 0 <= i < |r| ==> r[i].lo > u)
    && (exists j :: 0 <= j <= |s| && r == s[j..])
  }

  lemma SuffixCovers(s: seq<Node>, j: nat, u: int, p: int)
    requires Separated(s) && j <= |s|
    requires forall i :: 0 <= i < j ==> s[i].hi <= u
    requires j < |s| ==> s[j].lo > u
    ensures Covers(s[j..], p) <==> Covers(s, p) && p > u
    ensures !Covers(s, u)
  {
    if Covers(s, p) && p > u {
      var i :| 0 <= i < |s| && s[i].lo <= p < s[i].hi;
      assert s[j..][i - j] == s[i];
    }
    if Covers(s[j..], p) {
      var i :| 0 <= i < |s[j..]| && s[j..][i].lo <= p < s[j..][i].hi;
      assert s[j + i].lo <= p < s[j + i].hi;
      assert s[j].lo <= s[j + i].lo;
    }
  }

  /** The first j segments end by u. */
  ghost predicate Passed(s: seq<Node>, j: nat, u: int) {
    j <= |s| && forall i :: 0 <= i < j ==> s[i].hi <= u
  }

  /** Dropping the first j segments collects them when they end by u and the others start after u. */
  lemma CollectedAt(s: seq<Node>, j: nat, t: int, u: int)
    requires Separated(s) && Passed(s, j, u)
    requires j < |s| ==> s[j].lo > u
    requires t == u || (j > 0 && s[j - 1].lo <= t < s[j - 1].hi == u)
    ensures Collected(s, s[j..], t, u) && Separated(s[j..])
  {
    var r := s[j..];
    forall p
      ensures Covers(r, p) <==> Covers(s, p) && p > u
    {
      SuffixCovers(s, j, u, p);
    }
    SuffixCovers(s, j, u, u);
    forall i | 0 <= i < |r|
      ensures r[i].lo > u
    {
      assert s[j].lo <= s[j + i].lo;
    }
  }

  /** Collecting the segment that holds the tail moves the tail to the end of that segment. */
  lemma CollectedOver(s: seq<Node>, j: nat, t: int)
    requires Separated(s) && Passed(s, j, t) && j < |s| && s[j].lo <= t < s[j].hi
    ensures Collected(s, s[j + 1..], t, s[j].hi) && Separated(s[j + 1..])
  {
    CollectedAt(s, j + 1, t, s[j].hi);
  }

  lemma NothingPassed(s: seq<Node>, t: int)
    ensures Passed(s, 0, t)
  {
  }

  lemma PassedNext(s: seq<Node>, j: nat, t: int)
    requires Passed(s, j, t) && j < |s|
    ensures s[j].hi <= t ==> Passed(s, j + 1, t)
    ensures Without(s[j..], 0) == s[j + 1..]
  {
  }

  // ---- The doubly linked list inside the pool ----

  ghost function At(s: seq<Node>, i: int): int {
    if 0 <= i < |s| then s[i].index else NONE
  }

  ghost predicate NodeAt(pool: Pool, s: seq<Node>, i: int) {
    && 0 <= i < |s|
    && 0 <= s[i].index
    && 0 <= s[i].hi - s[i].lo < TWO32
    && s[i].index in pool
    && pool[s[i].index] == OooSegment(At(s, i + 1), At(s, i - 1), Wrap(s[i].lo), s[i].hi - s[i].lo)
  }

  /** The pool holds exactly the nodes of s, doubly linked in that order. */
  ghost predicate Linked(pool: Pool, s: seq<Node>) {
    && (forall i :: 0 <= i < |s| ==> NodeAt(pool, s, i))
    && DistinctIndices(s)
    && (forall x :: x in pool ==> x >= 0 && exists i :: 0 <= i < |s| && s[i].index == x)
  }

  ghost function Without(s: seq<Node>, k: nat): seq<Node>
    requires k < |s|
  {
    s[..k] + s[k + 1..]
  }

  /** The pool after the neighbours of node number k have been made to bypass it. */
  ghost predicate Bypassed(p: Pool, s: seq<Node>, k: nat, q: Pool)
    requires k < |s|
  {
    && (forall x :: x in q <==> x in p && x != s[k].index)
    && (forall x :: x in q ==>
          q[x] == p[x].(next := if x == At(s, k - 1) then At(s, k + 1) else p[x].next,
                        prev := if x == At(s, k + 1) then At(s, k - 1) else p[x].prev))
  }

  lemma Unlink(p: Pool, s: seq<Node>, k: nat, q: Pool)
    requires Linked(p, s) && k < |s| && Bypassed(p, s, k, q)
    ensures Linked(q, Without(s, k))
  {
    var r := Without(s, k);
    forall i | 0 <= i < |r|
      ensures NodeAt(q, r, i)
    {
      assert NodeAt(p, s, if i < k then i else i + 1);
    }
    forall x | x in q
      ensures exists i :: 0 <= i < |r| && r[i].index == x
    {
      var j :| 0 <= j < |s| && s[j].index == x;
      assert r[if j < k then j else j - 1].index == x;
    }
  }

  /** The pool after a new node has been placed before node number k. */
  ghost predicate Placed(p: Pool, s: seq<Node>, k: nat, x: Node, q: Pool)
    requires k <= |s| && 0 <= x.hi - x.lo < TWO32
  {
    && (forall y :: y in q <==> y in p || y == x.index)
    && x.index in q && q[x.index] == OooSegment(At(s, k), At(s, k - 1), Wrap(x.lo), x.hi - x.lo)
    && (forall y :: y in p && y != x.index ==>
          q[y] == p[y].(next := if y == At(s, k - 1) then x.index else p[y].next,
                        prev := if y == At(s, k) then x.index else p[y].prev))
  }

  lemma SpliceFirst(s: seq<Node>, k: nat, x: Node)
    requires k <= |s|
    ensures At(Splice(s, k, k, x), 0) == if k == 0 then x.index else At(s, 0)
  {
  }

  /** The pool after a new element has been linked between prev and next. */
  function LinkedPool(p: Pool, slot: int, seg: OooSegment): Pool
    requires seg.prev == NONE || seg.prev in p
    requires seg.next == NONE || seg.next in p
  {
    var q := p[slot := seg];
    var r := if seg.prev == NONE then q else q[seg.prev := q[seg.prev].(next := slot)];
    if seg.next == NONE then r else r[seg.next := r[seg.next].(prev := slot)]
  }

  /** The neighbours of place k are in the pool, and different. */
  lemma Neighbours(p: Pool, s: seq<Node>, k: nat)
    requires Linked(p, s) && k <= |s|
    ensures At(s, k) == NONE <==> k == |s|
    ensures At(s, k - 1) == NONE <==> k == 0
    ensures k < |s| ==> At(s, k) in p && At(s, k) >= 0
    ensures k > 0 ==> At(s, k - 1) in p && At(s, k - 1) >= 0
    ensures 0 < k < |s| ==> At(s, k - 1) != At(s, k)
    ensures NONE !in p
  {
    hide Wrap;
    assert k < |s| ==> NodeAt(p, s, k);
    assert k > 0 ==> NodeAt(p, s, k - 1);
  }

  lemma LinkPlaces(p: Pool, s: seq<Node>, k: nat, x: Node)
    requires Linked(p, s) && k <= |s| && x.index >= 0 && x.index !in p && 0 <= x.hi - x.lo < TWO32
    requires At(s, k) == NONE || At(s, k) in p
    requires At(s, k - 1) == NONE || At(s, k - 1) in p
    ensures Placed(p, s, k, x, LinkedPool(p, x.index, OooSegment(At(s, k), At(s, k - 1), Wrap(x.lo), x.hi - x.lo)))
  {
    hide Linked, Wrap, At;
    Neighbours(p, s, k);
  }

  lemma PlaceNode(p: Pool, s: seq<Node>, k: nat, x: Node, q: Pool, i: nat)
    requires Linked(p, s) && k <= |s| && x.index >= 0 && x.index !in p
    requires 0 <= x.hi - x.lo < TWO32 && Placed(p, s, k, x, q) && i <= |s|
    ensures NodeAt(q, Splice(s, k, k, x), i)
  {
    if i != k {
      assert NodeAt(p, s, if i < k then i else i - 1);
    }
  }

  lemma PlaceFound(s: seq<Node>, k: nat, x: Node, y: int)
    requires k <= |s|
    requires y == x.index || exists j :: 0 <= j < |s| && s[j].index == y
    ensures exists i :: 0 <= i <= |s| && Splice(s, k, k, x)[i].index == y
  {
    var r := Splice(s, k, k, x);
    if y == x.index {
      assert r[k].index == y;
    } else {
      var j :| 0 <= j < |s| && s[j].index == y;
      assert r[if j < k then j else j + 1].index == y;
    }
  }

  ghost predicate DistinctIndices(s: seq<Node>) {
    forall i, j :: 0 <= i < j < |s| ==> s[i].index != s[j].index
  }

  lemma PlaceDistinct(s: seq<Node>, k: nat, x: Node)
    requires k <= |s| && DistinctIndices(s)
    requires forall i :: 0 <= i < |s| ==> s[i].index != x.index
    ensures DistinctIndices(Splice(s, k, k, x))
  {
  }

  lemma Place(p: Pool, s: seq<Node>, k: nat, x: Node, q: Pool)
    requires Linked(p, s) && k <= |s| && x.index >= 0 && x.index !in p
    requires 0 <= x.hi - x.lo < TWO32 && Placed(p, s, k, x, q)
    ensures Linked(q, Splice(s, k, k, x))
  {
    forall i | 0 <= i < |s|
      ensures s[i].index != x.index
    {
      assert NodeAt(p, s, i);
    }
    PlaceDistinct(s, k, x);
    forall i | 0 <= i <= |s|
      ensures NodeAt(q, Splice(s, k, k, x), i)
    {
      PlaceNode(p, s, k, x, q, i);
    }
    forall y | y in q
      ensures exists i :: 0 <= i <= |s| && Splice(s, k, k, x)[i].index == y
    {
      PlaceFound(s, k, x, y);
    }
  }

  /** Rewriting the bounds stored in node number k keeps the links. */
  lemma Rebound(p: Pool, s: seq<Node>, k: nat, lo: nat, hi: nat, q: Pool)
    requires Linked(p, s) && k < |s| && 0 <= hi - lo < TWO32 && s[k].index in p
    requires q == p[s[k].index := p[s[k].index].(start := Wrap(lo), length := hi - lo)]
    ensures Linked(q, s[k := Node(s[k].index, lo, hi)])
  {
    var r := s[k := Node(s[k].index, lo, hi)];
    forall i | 0 <= i < |r|
      ensures NodeAt(q, r, i)
    {
      assert NodeAt(p, s, i);
    }
    forall x | x in q
      ensures exists i :: 0 <= i < |r| && r[i].index == x
    {
      var j :| 0 <= j < |s| && s[j].index == x;
      assert r[j].index == x;
    }
  }

  lemma NextOf(pool: Pool, s: seq<Node>, k: nat)
    requires Linked(pool, s) && k < |s|
    ensures s[k].index in pool && pool[s[k].index].next == At(s, k + 1)
  {
    assert NodeAt(pool, s, k);
  }

  function EndPos(s: OooSegment): u32 {
    Plus(s.start, s.length)
  }

  /** What the code reads from node number k, and how it compares with position q. */
  lemma NodeFacts(pool: Pool, s: seq<Node>, k: nat, q: int)
    requires Linked(pool, s) && k < |s|
    requires -TWO31 < s[k].lo - q && s[k].hi - q < TWO31
    ensures s[k].index >= 0 && s[k].index in pool
    ensures var n := pool[s[k].index];
            && n.next == At(s, k + 1) && n.prev == At(s, k - 1)
            && n.start == Wrap(s[k].lo) && EndPos(n) == Wrap(s[k].hi)
            && (PosLt(n.start, Wrap(q)) <==> s[k].lo < q)
            && (PosLeq(n.start, Wrap(q)) <==> s[k].lo <= q)
            && (PosLeq(EndPos(n), Wrap(q)) <==> s[k].hi <= q)
            && (PosLt(Wrap(q), n.start) <==> q < s[k].lo)
            && (PosLeq(Wrap(q), EndPos(n)) <==> q <= s[k].hi)
            && (PosGt(Wrap(q), EndPos(n)) <==> q > s[k].hi)
  {
    assert NodeAt(pool, s, k);
    WrapPlus(s[k].lo, s[k].hi - s[k].lo);
    Order(s[k].lo, q);
    Order(q, s[k].lo);
    Order(s[k].hi, q);
    Order(q, s[k].hi);
  }

  /** The signed distance from node number k to the tail t, and its unsigned comparisons with a count n. */
  lemma Reach(pool: Pool, s: seq<Node>, k: nat, t: nat, n: u32)
    requires Linked(pool, s) && k < |s|
    requires n < TWO31 && t - n < s[k].lo <= s[k].hi < t + TWO31
    ensures s[k].index >= 0 && s[k].index in pool
    ensures pool[s[k].index].length == s[k].hi - s[k].lo && pool[s[k].index].next == At(s, k + 1)
    ensures AsI32(Minus(Wrap(t), pool[s[k].index].start)) == t - s[k].lo
    ensures s[k].lo <= t ==> Wrap(t - s[k].lo) == t - s[k].lo < n
    ensures s[k].lo > t ==> Wrap(t - s[k].lo) > n
  {
    assert NodeAt(pool, s, k);
    WrapMinus(t, s[k].lo);
  }

  class OooList {
    var pool: Pool
    var head: int
    var newest: int
    ghost var nodes: seq<Node>

    ghost predicate Wf()
      reads this`pool, this`head, this`nodes
    {
      Linked(pool, nodes) && head == At(nodes, 0)
    }

    ghost predicate Valid()
      reads this`pool, this`head, this`nodes
    {
      Wf() && Separated(nodes)
    }

    constructor ()
      ensures Valid() && nodes == [] && newest == NONE
    {
      pool := map[];
      head := NONE;
      newest := NONE;
      nodes := [];
    }

    lemma HeadNone()
      requires Wf()
      ensures head == NONE <==> nodes == []
    {
      assert nodes != [] ==> NodeAt(pool, nodes, 0);
    }

    /** Unlinks node number k and returns it to the pool. */
    method Free(index: int, ghost k: nat)
      requires Wf() && k < |nodes| && nodes[k].index == index
      modifies this`pool, this`head, this`nodes
      ensures Wf()
      ensures nodes == Without(old(nodes), k)
    {
      assert NodeAt(pool, nodes, k);
      assert k + 1 < |nodes| ==> NodeAt(pool, nodes, k + 1);
      assert k > 0 ==> NodeAt(pool, nodes, k - 1);
      var cur := pool[index];
      if cur.next != NONE {
        pool := pool[cur.next := pool[cur.next].(prev := cur.prev)];
      }
      if cur.prev != NONE {
        pool := pool[cur.prev := pool[cur.prev].(next := cur.next)];
      } else {
        head := cur.next;
      }
      pool := pool - {index};
      assert Bypassed(old(pool), nodes, k, pool);
      Unlink(old(pool), nodes, k, pool);
      nodes := Without(nodes, k);
    }

    /** Takes a free pool slot for a new segment and links it between prev and next. */
    method Link(slot: int, start: u32, length: u32, prev: int, next: int, ghost k: nat, ghost x: Node)
      requires Wf() && k <= |nodes| && prev == At(nodes, k - 1) && next == At(nodes, k)
      requires slot >= 0 && slot !in pool
      requires x.index == slot && start == Wrap(x.lo) && length == x.hi - x.lo
      modifies this`pool, this`head, this`newest, this`nodes
      ensures Wf() && newest == slot
      ensures nodes == Splice(old(nodes), k, k, x)
    {
      hide Linked, Wrap, At, Placed, Splice;
      Neighbours(pool, nodes, k);
      var p := pool[slot := OooSegment(next, prev, start, length)];
      if prev != NONE {
        p := p[prev := p[prev].(next := slot)];
      }
      if next != NONE {
        p := p[next := p[next].(prev := slot)];
      }
      LinkPlaces(pool, nodes, k, x);
      Place(pool, nodes, k, x, p);
      SpliceFirst(nodes, k, x);
      head := if prev != NONE then head else slot;
      pool, newest, nodes := p, slot, Splice(nodes, k, k, x);
    }

    /** First segment that starts at or after the position, or the last segment. */
    method Search(pos: u32, ghost lo: nat, ghost base: int) returns (s: int, ghost k: nat)
      requires Wf() && nodes != []
      requires Within(nodes, base) && base <= lo < base + TWO31 && pos == Wrap(lo)
      ensures k < |nodes| && s == nodes[k].index
      ensures k > 0 ==> nodes[k - 1].lo < lo
      ensures k + 1 == |nodes| || lo <= nodes[k].lo
    {
      s, k := head, 0;
      NodeFacts(pool, nodes, 0, lo);
      while pool[s].next != NONE && PosLt(pool[s].start, pos)
        invariant k < |nodes| && s == nodes[k].index && s in pool
        invariant pool[s].next == At(nodes, k + 1)
        invariant PosLt(pool[s].start, pos) <==> nodes[k].lo < lo
        invariant k > 0 ==> nodes[k - 1].lo < lo
        decreases |nodes| - k
      {
        s, k := pool[s].next, k + 1;
        NodeFacts(pool, nodes, k, lo);
      }
      if k + 1 < |nodes| {
        NodeFacts(pool, nodes, k + 1, lo);
      }
    }

    /** Removes the segments after node number k that end at or before hi. */
    method DropCovered(s: int, end: u32, ghost k: nat, ghost hi: nat) returns (it: int, ghost m: nat)
      requires Wf() && k < |nodes| && nodes[k].index == s && end == Wrap(hi)
      requires forall i :: k < i < |nodes| ==> -TWO31 < nodes[i].lo - hi && nodes[i].hi - hi < TWO31
      modifies this`pool, this`head, this`nodes
      ensures Wf() && k < m <= |old(nodes)|
      ensures nodes == Splice(old(nodes), k, m, old(nodes)[k])
      ensures forall i :: k < i < m ==> old(nodes)[i].hi <= hi
      ensures m < |old(nodes)| ==> hi < old(nodes)[m].hi
      ensures it == if m < |old(nodes)| then old(nodes)[m].index else NONE
    {
      hide Linked, Wrap, PosLeq, EndPos, Without;
      ghost var was := nodes;
      SpliceSelf(was, k);
      NextOf(pool, nodes, k);
      it, m := pool[s].next, k + 1;
      if m < |was| {
        NodeFacts(pool, nodes, m, hi);
      }
      while it != NONE && PosLeq(EndPos(pool[it]), end)
        invariant Wf() && k < m <= |was|
        invariant nodes == Splice(was, k, m, was[k])
        invariant forall i :: k < i < m ==> was[i].hi <= hi
        invariant it == if m < |was| then was[m].index else NONE
        invariant m < |was| ==> it >= 0 && it in pool && (PosLeq(EndPos(pool[it]), end) <==> was[m].hi <= hi)
        decreases |was| - m
      {
        SpliceAfter(was, k, m, was[k]);
        NodeFacts(pool, nodes, k + 1, hi);
        var next := pool[it].next;
        assert next == if m + 1 < |was| then was[m + 1].index else NONE;
        Free(it, k + 1);
        it, m := next, m + 1;
        if m < |was| {
          assert nodes[k + 1] == was[m];
          NodeFacts(pool, nodes, k + 1, hi);
        }
      }
    }

    /** Rewrites the bounds of node number k. */
    method Resize(s: int, start: u32, length: u32, ghost k: nat, ghost lo: nat, ghost hi: nat)
      requires Wf() && k < |nodes| && nodes[k].index == s
      requires start == Wrap(lo) && length == hi - lo
      modifies this`pool, this`nodes
      ensures Wf()
      ensures nodes == old(nodes)[k := Node(s, lo, hi)]
    {
      assert NodeAt(pool, nodes, k);
      pool := pool[s := pool[s].(start := start, length := length)];
      Rebound(old(pool), nodes, k, lo, hi, pool);
      nodes := nodes[k := Node(s, lo, hi)];
    }

    /** Node number k takes over the end of its follower, which is freed. */
    method TakeOver(s: int, it: int, ghost k: nat)
      requires Wf() && k + 1 < |nodes| && nodes[k].index == s && nodes[k + 1].index == it
      requires nodes[k].lo < nodes[k + 1].lo < nodes[k + 1].hi < nodes[k].lo + TWO31
      requires nodes[k].lo < nodes[k].hi < nodes[k].lo + TWO31
      modifies this`pool, this`head, this`nodes
      ensures Wf()
      ensures nodes == Without(old(nodes)[k := Node(s, old(nodes)[k].lo, old(nodes)[k + 1].hi)], k + 1)
    {
      hide Linked, Wrap, Minus, PosLeq, EndPos, Without;
      ghost var lo, hi := nodes[k].lo, nodes[k + 1].hi;
      NodeFacts(pool, nodes, k, lo);
      NodeFacts(pool, nodes, k + 1, lo);
      Distance(hi, lo);
      Resize(s, pool[s].start, Minus(EndPos(pool[it]), pool[s].start), k, lo, hi);
      Free(it, k + 1);
    }

    /** Removes the segments after node number k that it reaches, taking over the end of the last one. */
    method Absorb(s: int, end: u32, ghost k: nat, ghost hi: nat) returns (ghost m: nat)
      requires Wf() && k < |nodes| && nodes[k].index == s && end == Wrap(hi) && nodes[k].hi == hi
      requires nodes[k].lo < hi < nodes[k].lo + TWO31
      requires forall i :: k < i < |nodes| ==> nodes[k].lo < nodes[i].lo < nodes[i].hi < nodes[k].lo + TWO31
      requires forall i, j :: k < i < j < |nodes| ==> nodes[i].hi < nodes[j].lo
      modifies this`pool, this`head, this`nodes
      ensures Wf() && k < m <= |old(nodes)|
      ensures nodes == Splice(old(nodes), k, m, Node(s, old(nodes)[k].lo, Max(hi, old(nodes)[m - 1].hi)))
      ensures old(nodes)[m - 1].lo <= hi
      ensures m < |old(nodes)| ==> hi < old(nodes)[m].lo
    {
      hide Linked, Wrap, Minus, PosLeq, EndPos;
      ghost var was, x := nodes, nodes[k];
      var it;
      it, m := DropCovered(s, end, k, hi);
      assert m - 1 > k ==> was[m - 1].hi <= hi;
      if m < |was| {
        SpliceAfter(was, k, m, x);
        NodeFacts(pool, nodes, k + 1, hi);
      }
      if it != NONE && PosLeq(pool[it].start, end) {
        ghost var y := Node(s, x.lo, was[m].hi);
        SpliceReplace(was, k, m, x, y);
        SpliceAfter(was, k, m, y);
        TakeOver(s, it, k);
        m := m + 1;
      }
    }

    /** Grows node number k up to hi, absorbing every later segment it reaches. */
    method ExtendTail(s: int, end: u32, ghost k: nat, ghost lo: nat, ghost hi: nat, ghost base: int)
      returns (ghost m: nat)
      requires Valid() && k < |nodes| && nodes[k].index == s && end == Wrap(hi)
      requires Within(nodes, base) && base <= lo < hi < base + TWO31
      requires nodes[k].lo <= lo <= nodes[k].hi
      modifies this`pool, this`head, this`newest, this`nodes
      ensures Wf() && k < m <= |old(nodes)| && Touched(old(nodes), k, m, lo, hi)
      ensures nodes == Splice(old(nodes), k, m, Hull(old(nodes), k, m, lo, hi, s))
      ensures newest == if hi > old(nodes)[k].hi then s else old(newest)
    {
      hide Linked, Separated, Splice, Touched, Hull;
      ghost var was := nodes;
      NodeFacts(pool, nodes, k, hi);
      m := k + 1;
      if PosGt(end, EndPos(pool[s])) {
        Distance(hi, was[k].lo);
        Resize(s, pool[s].start, Minus(end, pool[s].start), k, was[k].lo, hi);
        GrownBounds(was, k, hi, base);
        m := Absorb(s, end, k, hi);
        AbsorbedHull(was, k, m, lo, hi);
        newest := s;
      } else {
        HullSelf(was, k, lo, hi);
      }
    }

    /** Merges [lo, hi) into the list when it starts at or before the end of node number k. */
    method Merge(s: int, offsetPos: u32, offsetEnd: u32, ghost k: nat, ghost lo: nat, ghost hi: nat, ghost base: int)
      requires Valid() && Within(nodes, base) && k < |nodes| && nodes[k].index == s && newest == NONE
      requires offsetPos == Wrap(lo) && offsetEnd == Wrap(hi) && base <= lo < hi < base + TWO31
      requires lo <= nodes[k].hi && nodes[k].lo <= hi && (k > 0 ==> nodes[k - 1].hi < lo)
      modifies this
      ensures Valid() && Within(nodes, base) && Added(old(nodes), nodes, lo, hi, newest)
    {
      hide Linked, Separated, Splice, Hull, Touched, Added;
      ghost var was := nodes;
      ghost var m;
      NodeFacts(pool, nodes, k, lo);
      if PosLt(offsetPos, pool[s].start) {
        Distance(was[k].hi, lo);
        LoweredSeparated(was, k, lo, base);
        Resize(s, offsetPos, Minus(EndPos(pool[s]), offsetPos), k, lo, was[k].hi);
        newest := s;
        m := ExtendTail(s, offsetEnd, k, lo, hi, base);
        LoweredHull(was, k, m, lo, hi);
      } else {
        m := ExtendTail(s, offsetEnd, k, lo, hi, base);
      }
      AddDone(was, k, m, lo, hi, s, newest, base);
    }

    /** Links a new segment [lo, hi) that touches no other. */
    method Insert(slot: int, start: u32, length: u32, prev: int, next: int, ghost k: nat, ghost lo: nat, ghost hi: nat,
                  ghost base: int)
      requires Valid() && Within(nodes, base) && base <= lo < hi < base + TWO31 && slot >= 0 && slot !in pool
      requires k <= |nodes| && prev == At(nodes, k - 1) && next == At(nodes, k)
      requires (k > 0 ==> nodes[k - 1].hi < lo) && (k < |nodes| ==> hi < nodes[k].lo)
      requires start == Wrap(lo) && length == hi - lo
      modifies this
      ensures Valid() && Within(nodes, base) && Added(old(nodes), nodes, lo, hi, newest)
    {
      hide Linked, Separated, Splice, Hull, Touched, Added, Wrap, At;
      ghost var was := nodes;
      TouchedGap(was, k, lo, hi, slot);
      Link(slot, start, length, prev, next, k, Node(slot, lo, hi));
      AddDone(was, k, k, lo, hi, slot, newest, base);
    }

    /** Records [t + offset, t + offset + length) as written. */
    method Add(offset: u32, tail: u32, length: u32, slot: int, ghost t: nat)
      requires Valid() && Within(nodes, t)
      requires tail == Wrap(t) && 0 < length && offset + length < TWO31
      requires slot >= 0 && slot !in pool
      modifies this
      ensures Valid() && Within(nodes, t)
      ensures Added(old(nodes), nodes, t + offset, t + offset + length, newest)
    {
      hide Linked, Splice, Hull, Touched, Added, Plus, PosLt, PosLeq, PosGt, Wrap, EndPos;
      ghost var lo, hi := t + offset, t + offset + length;
      var offsetPos, offsetEnd := Plus(tail, offset), Plus(Plus(tail, offset), length);
      WrapPlus(t, offset);
      WrapPlus(lo, length);
      newest := NONE;
      if nodes != [] {
        NodeFacts(pool, nodes, 0, lo);
      }
      if head == NONE {
        Insert(slot, offsetPos, length, NONE, NONE, 0, lo, hi, t);
        return;
      }
      var s;
      ghost var k;
      s, k := Search(offsetPos, lo, t);
      NodeFacts(pool, nodes, k, lo);
      NodeFacts(pool, nodes, k, hi);
      if k > 0 {
        NodeFacts(pool, nodes, k - 1, lo);
      }
      var prev := pool[s].prev;
      if prev != NONE && PosLeq(offsetPos, EndPos(pool[prev])) {
        Merge(prev, offsetPos, offsetEnd, k - 1, lo, hi, t);
      } else if PosLt(offsetEnd, pool[s].start) {
        Insert(slot, offsetPos, length, prev, s, k, lo, hi, t);
      } else if PosGt(offsetPos, EndPos(pool[s])) {
        Insert(slot, offsetPos, length, s, NONE, k + 1, lo, hi, t);
      } else {
        Merge(s, offsetPos, offsetEnd, k, lo, hi, t);
      }
    }

    /** Removes the segments reached by a tail that just advanced by enqueued bytes and advances it over them. */
    method TryCollect(enqueued: u32, tail: u32, ghost t: nat) returns (bytes: u32, newTail: u32, ghost u: nat)
      requires Valid() && nodes != [] && tail == Wrap(t)
      requires 0 < enqueued <= t && enqueued < TWO31
      requires forall i :: 0 <= i < |nodes| ==> t - enqueued < nodes[i].lo < nodes[i].hi < t + TWO31
      modifies this`pool, this`head, this`nodes
      ensures Valid() && Collected(old(nodes), nodes, t, u)
      ensures newTail == Wrap(u) && bytes == u - t
    {
      hide Linked, Separated, Passed, Collected, Without, Minus, Plus, Wrap, AsI32;
      ghost var was, j := nodes, 0;
      assert was[0..] == was;
      Reach(pool, nodes, 0, t, enqueued);
      NothingPassed(was, t);
      bytes, newTail, u := 0, tail, t;
      var s := head;
      var diff := AsI32(Minus(newTail, pool[s].start));
      assert Wrap(diff) != enqueued;
      if Wrap(diff) > enqueued {
        CollectedAt(was, 0, t, t);
        return;
      }
      while 0 <= diff && Wrap(diff) < enqueued
        invariant Wf() && 0 <= j < |was| && nodes == was[j..] && s == nodes[0].index
        invariant Passed(was, j, t)
        invariant newTail == tail && u == t && bytes == 0
        invariant s in pool && diff == t - was[j].lo
        invariant diff >= 0 ==> Wrap(diff) == diff < enqueued
        invariant pool[s].length == was[j].hi - was[j].lo && pool[s].next == At(nodes, 1)
        decreases |was| - j
      {
        PassedNext(was, j, t);
        var index := s;
        if pool[s].length > Wrap(diff) {
          bytes := Minus(pool[s].length, Wrap(diff));
          u := was[j].hi;
          MinusExact(pool[s].length, diff);
          WrapPlus(t, bytes);
          newTail := Plus(newTail, bytes);
          Free(index, 0);
          CollectedOver(was, j, t);
          return;
        }
        if j + 1 < |was| {
          Reach(pool, nodes, 1, t, enqueued);
        }
        if pool[s].next != NONE {
          s := pool[s].next;
          diff := AsI32(Minus(newTail, pool[s].start));
          Free(index, 0);
          j := j + 1;
          Reach(pool, nodes, 0, t, enqueued);
        } else {
          Free(index, 0);
          j := j + 1;
          break;
        }
      }
      CollectedAt(was, j, t, t);
    }
  }
}
