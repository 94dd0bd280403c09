/**
 The search tree over chunk start positions. Its library is a red-black tree; here it is
 the plain binary search tree that balancing preserves, ordered by wrapped comparison.
 */
module ChunkTree {
  import opened Positions
  import opened Chunks

  datatype Tree = Leaf | Node(left: Tree, key: u32, chunk: Sptr, right: Tree)

  datatype Entry = Entry(key: u32, chunk: Sptr)

  ghost function InOrder(t: Tree): seq<Entry> {
    match t
    case Leaf => []
    case Node(l, k, c, r) => InOrder(l) + [Entry(k, c)] + InOrder(r)
  }

  /** Ranges in increasing order within half a lap. */
  ghost predicate Ordered(c: seq<Link>) {
    && (forall i, j :: 0 <= i < j < |c| ==> c[i].lo < c[j].lo)
    && (forall i, j :: 0 <= i < |c| && 0 <= j < |c| ==> c[i].lo - c[j].lo < TWO31)
  }

  /** The tree holds exactly the chunks of c, in order. */
  ghost predicate Indexes(t: Tree, c: seq<Link>) {
    && |InOrder(t)| == |c|
    && (forall i :: 0 <= i < |c| ==> InOrder(t)[i] == Entry(Wrap(c[i].lo), c[i].ptr))
  }

  ghost function Size(t: Tree): nat {
    |InOrder(t)|
  }

  /** A node splits the chunks it indexes into its left subtree, itself and its right subtree. */
  lemma NodeSplit(t: Tree, c: seq<Link>)
    requires t.Node? && Indexes(t, c)
    ensures var n := Size(t.left);
            && n < |c|
            && t.key == Wrap(c[n].lo) && t.chunk == c[n].ptr
            && Indexes(t.left, c[..n]) && Indexes(t.right, c[n + 1..])
  {
    var n := Size(t.left);
    var s := InOrder(t);
    assert s[n] == Entry(t.key, t.chunk);
    assert forall i :: 0 <= i < n ==> s[i] == InOrder(t.left)[i];
    assert forall i :: 0 <= i < |InOrder(t.right)| ==> s[n + 1 + i] == InOrder(t.right)[i];
  }

  lemma NodeJoin(t: Tree, a: seq<Link>, x: Link, b: seq<Link>)
    requires t.Node? && t.key == Wrap(x.lo) && t.chunk == x.ptr
    requires Indexes(t.left, a) && Indexes(t.right, b)
    ensures Indexes(t, a + [x] + b)
  {
  }

  // ---- Insertion and removal ----

  function Insert(t: Tree, key: u32, chunk: Sptr): Tree {
    match t
    case Leaf => Node(Leaf, key, chunk, Leaf)
    case Node(l, k, c, r) =>
      if PosLt(key, k) then Node(Insert(l, key, chunk), k, c, r) else Node(l, k, c, Insert(r, key, chunk))
  }

  lemma SingleIndexes(x: Link)
    ensures Indexes(Node(Leaf, Wrap(x.lo), x.ptr, Leaf), [x])
  {
    hide Wrap;
    NodeJoin(Node(Leaf, Wrap(x.lo), x.ptr, Leaf), [], x, []);
    assert [] + [x] + [] == [x];
  }

  /** Inserting the chunk that follows an indexed run extends the run. */
  lemma {:induction false} InsertLast(t: Tree, c: seq<Link>, x: Link)
    requires Indexes(t, c) && Ordered(c + [x])
    ensures Indexes(Insert(t, Wrap(x.lo), x.ptr), c + [x])
  {
    hide Indexes, Ordered, Wrap, PosLt, Size;
    IndexesNonEmpty(t, c);
    if t.Leaf? {
      SingleIndexes(x);
      assert c + [x] == [x];
    } else {
      NodeSplit(t, c);
      var n := Size(t.left);
      var d := c + [x];
      assert d[n] == c[n] && d[|c|] == x;
      SameKey(d, |c|, n);
      var b := c[n + 1..];
      OrderedSlice(d, n + 1, |d|);
      assert b + [x] == d[n + 1..|d|];
      InsertLast(t.right, b, x);
      NodeJoin(Insert(t, Wrap(x.lo), x.ptr), c[..n], c[n], b + [x]);
      assert c[..n] + [c[n]] + (b + [x]) == d;
    }
  }

  lemma OrderedSlice(c: seq<Link>, a: nat, b: nat)
    requires Ordered(c) && a <= b <= |c|
    ensures Ordered(c[a..b])
  {
  }

  function First(t: Tree): Entry
    requires t.Node?
  {
    if t.left.Leaf? then Entry(t.key, t.chunk) else First(t.left)
  }

  function RemoveFirst(t: Tree): Tree
    requires t.Node?
  {
    if t.left.Leaf? then t.right else Node(RemoveFirst(t.left), t.key, t.chunk, t.right)
  }

  function Remove(t: Tree, key: u32): Tree {
    match t
    case Leaf => Leaf
    case Node(l, k, c, r) =>
      if key == k then
        if r.Leaf? then l else var m := First(r); Node(l, m.key, m.chunk, RemoveFirst(r))
      else if PosLt(key, k) then Node(Remove(l, key), k, c, r)
      else Node(l, k, c, Remove(r, key))
  }

  lemma {:induction false} FirstIndexes(t: Tree, c: seq<Link>)
    requires t.Node? && Indexes(t, c)
    ensures c != [] && First(t) == Entry(Wrap(c[0].lo), c[0].ptr) && Indexes(RemoveFirst(t), c[1..])
  {
    NodeSplit(t, c);
    if t.left.Leaf? {
      assert c[..0] == [];
    } else {
      var n := Size(t.left);
      FirstIndexes(t.left, c[..n]);
      NodeJoin(RemoveFirst(t), c[..n][1..], c[n], c[n + 1..]);
      assert c[..n][1..] + [c[n]] + c[n + 1..] == c[1..];
    }
  }

  /** Removing the key of chunk i leaves the other chunks indexed in order. */
  lemma {:induction false} RemoveIndexes(t: Tree, c: seq<Link>, i: nat)
    requires Indexes(t, c) && Ordered(c) && i < |c|
    ensures Indexes(Remove(t, Wrap(c[i].lo)), c[..i] + c[i + 1..])
  {
    hide Indexes, Ordered, Wrap, PosLt, Size;
    IndexesNonEmpty(t, c);
    NodeSplit(t, c);
    var n := Size(t.left);
    SameKey(c, i, n);
    if i == n {
      RemoveRoot(t, c);
    } else if i < n {
      OrderedSlice(c, 0, n);
      assert c[0..n] == c[..n];
      RemoveIndexes(t.left, c[..n], i);
      NodeJoin(Remove(t, Wrap(c[i].lo)), c[..n][..i] + c[..n][i + 1..], c[n], c[n + 1..]);
      assert c[..n][..i] + c[..n][i + 1..] + [c[n]] + c[n + 1..] == c[..i] + c[i + 1..];
    } else {
      OrderedSlice(c, n + 1, |c|);
      assert c[n + 1..|c|] == c[n + 1..];
      var b, j := c[n + 1..], i - n - 1;
      RemoveIndexes(t.right, b, j);
      NodeJoin(Remove(t, Wrap(c[i].lo)), c[..n], c[n], b[..j] + b[j + 1..]);
      assert c[..n] + [c[n]] + (b[..j] + b[j + 1..]) == c[..i] + c[i + 1..];
    }
  }

  lemma IndexesNonEmpty(t: Tree, c: seq<Link>)
    requires Indexes(t, c)
    ensures t.Leaf? <==> c == []
  {
  }

  lemma SameKey(c: seq<Link>, i: nat, n: nat)
    requires Ordered(c) && i < |c| && n < |c|
    ensures Wrap(c[i].lo) == Wrap(c[n].lo) <==> i == n
    ensures PosLt(Wrap(c[i].lo), Wrap(c[n].lo)) <==> i < n
  {
    Order(c[i].lo, c[n].lo);
    Order(c[n].lo, c[i].lo);
  }

  lemma RemoveRoot(t: Tree, c: seq<Link>)
    requires t.Node? && Indexes(t, c)
    ensures var n := Size(t.left);
            n < |c| && Indexes(Remove(t, t.key), c[..n] + c[n + 1..])
  {
    NodeSplit(t, c);
    var n := Size(t.left);
    var b := c[n + 1..];
    if t.right.Leaf? {
      assert b == [];
      assert c[..n] + c[n + 1..] == c[..n];
    } else {
      FirstIndexes(t.right, b);
      NodeJoin(Remove(t, t.key), c[..n], b[0], b[1..]);
      assert c[..n] + [b[0]] + b[1..] == c[..n] + c[n + 1..];
    }
  }

  // ---- Floor search ----

  /** A step of the walk from the root: the node left behind and the side taken. */
  datatype Step = Step(node: Tree, right: bool)

  /** The deepest node from which the walk went right. */
  ghost function LastRight(path: seq<Step>): Tree {
    if path == [] then Leaf
    else if path[|path| - 1].right then path[|path| - 1].node
    else LastRight(path[..|path| - 1])
  }

  /** The in-order predecessor of a node without left child, found by climbing back. */
  method Predecessor(path: seq<Step>) returns (n: Tree)
    ensures n == LastRight(path)
  {
    var i := |path|;
    assert path[..i] == path;
    while i > 0 && !path[i - 1].right
      invariant 0 <= i <= |path| && LastRight(path[..i]) == LastRight(path)
    {
      assert path[..i][..i - 1] == path[..i - 1];
      i := i - 1;
    }
    n := if i == 0 then Leaf else path[i - 1].node;
  }

  /** n is the node of the chunk with the greatest start at or before p. */
  ghost predicate IsFloor(n: Tree, c: seq<Link>, p: int, i: int) {
    if c == [] || p < c[0].lo then n.Leaf? && i == -1
    else && 0 <= i < |c| && c[i].lo <= p && (i + 1 < |c| ==> p < c[i + 1].lo)
         && n.Node? && n.key == Wrap(c[i].lo) && n.chunk == c[i].ptr
  }

  /** Chunks a..b remain below the current node; the walk last went right at chunk a - 1. */
  ghost predicate WalkAt(cur: Tree, path: seq<Step>, c: seq<Link>, p: int, a: int, b: int) {
    && 0 <= a <= b <= |c| && Indexes(cur, c[a..b])
    && (a > 0 ==> c[a - 1].lo <= p) && (b < |c| ==> p < c[b].lo)
    && (a == 0 ==> LastRight(path) == Leaf)
    && (a > 0 ==>
          && LastRight(path).Node? && LastRight(path).key == Wrap(c[a - 1].lo)
          && LastRight(path).chunk == c[a - 1].ptr)
  }

  lemma WalkDown(cur: Tree, path: seq<Step>, c: seq<Link>, p: int, a: int, b: int)
    requires WalkAt(cur, path, c, p, a, b) && cur.Node?
    ensures var m := a + Size(cur.left);
            && 0 <= a <= m < b <= |c| && cur.key == Wrap(c[m].lo) && cur.chunk == c[m].ptr
            && (p < c[m].lo ==> WalkAt(cur.left, path + [Step(cur, false)], c, p, a, m))
            && (p < c[m].lo ==> WalkAt(cur.left, path, c, p, a, m))
            && (c[m].lo <= p ==> WalkAt(cur.right, path + [Step(cur, true)], c, p, m + 1, b))
  {
    var d := c[a..b];
    NodeSplit(cur, d);
    var n := Size(cur.left);
    assert d[..n] == c[a..a + n] && d[n + 1..] == c[a + n + 1..b];
    assert (path + [Step(cur, false)])[..|path|] == path;
  }

  /** The tree walk returns the floor node: the exact key, a right dead end, or the predecessor of a left dead end. */
  method FindNode(t: Tree, pos: u32, ghost c: seq<Link>, ghost p: int) returns (n: Tree, ghost i: int)
    requires Indexes(t, c) && Ordered(c) && pos == Wrap(p)
    requires forall j :: 0 <= j < |c| ==> -TWO31 < c[j].lo - p < TWO31
    ensures IsFloor(n, c, p, i) && n == Floor(t, pos, Leaf)
  {
    hide Indexes, Ordered, WalkAt, PosLt, Wrap, Size, LastRight;
    IndexesNonEmpty(t, c);
    if t.Leaf? {
      return Leaf, -1;
    }
    var cur, path: seq<Step> := t, [];
    ghost var a, b := 0, |c|;
    WalkStart(t, c, p);
    assert LastRight(path) == Leaf by { LastRightStep(path, t, true); }
    while pos != cur.key
      invariant cur.Node? && WalkAt(cur, path, c, p, a, b) && Floor(t, pos, Leaf) == Floor(cur, pos, LastRight(path))
      decreases cur
    {
      WalkDown(cur, path, c, p, a, b);
      ghost var m := a + Size(cur.left);
      OrderBoth(p, c[m].lo);
      var prev := cur;
      LastRightStep(path, prev, PosLt(pos, cur.key));
      if PosLt(pos, cur.key) {
        cur := cur.left;
        if cur.Leaf? {
          WalkLeftEnd(path, c, p, a, m);
          n := Predecessor(path);
          return n, a - 1;
        }
        path, b := path + [Step(prev, false)], m;
      } else {
        cur := cur.right;
        if cur.Leaf? {
          WalkRightEnd(path + [Step(prev, true)], c, p, m + 1, b);
          return prev, m;
        }
        path, a := path + [Step(prev, true)], m + 1;
      }
    }
    WalkDown(cur, path, c, p, a, b);
    i := a + Size(cur.left);
    OrderBoth(p, c[i].lo);
    n := cur;
    WalkExact(c, p, i);
  }

  lemma LastRightStep(path: seq<Step>, node: Tree, left: bool)
    ensures LastRight([]) == Leaf
    ensures LastRight(path + [Step(node, !left)]) == if left then LastRight(path) else node
  {
    assert (path + [Step(node, !left)])[..|path|] == path;
  }

  lemma OrderBoth(p: int, q: int)
    requires -TWO31 < p - q < TWO31
    ensures PosLt(Wrap(p), Wrap(q)) <==> p < q
    ensures Wrap(p) == Wrap(q) <==> p == q
  {
    Order(p, q);
    Order(q, p);
  }

  lemma WalkStart(t: Tree, c: seq<Link>, p: int)
    requires Indexes(t, c)
    ensures WalkAt(t, [], c, p, 0, |c|)
  {
    assert c[0..|c|] == c;
  }

  lemma WalkLeftEnd(path: seq<Step>, c: seq<Link>, p: int, a: int, m: int)
    requires WalkAt(Leaf, path, c, p, a, m) && m < |c| && Ordered(c)
    ensures IsFloor(LastRight(path), c, p, a - 1)
  {
  }

  lemma WalkRightEnd(path: seq<Step>, c: seq<Link>, p: int, a: int, b: int)
    requires WalkAt(Leaf, path, c, p, a, b) && a > 0 && Ordered(c)
    ensures IsFloor(LastRight(path), c, p, a - 1)
    ensures path != [] && path[|path| - 1].right ==> LastRight(path) == path[|path| - 1].node
  {
    assert a > 1 ==> c[0].lo < c[a - 1].lo;
  }

  lemma WalkExact(c: seq<Link>, p: int, i: int)
    requires 0 <= i < |c| && Ordered(c) && p == c[i].lo
    ensures c[0].lo <= p && (i + 1 < |c| ==> p < c[i + 1].lo)
  {
  }

  // ---- The floor as a recursion ----

  /** The node with the greatest key at or before pos; last is the one known from above. */
  ghost function Floor(t: Tree, pos: u32, last: Tree): Tree {
    match t
    case Leaf => last
    case Node(l, k, c, r) =>
      if pos == k then t else if PosLt(pos, k) then Floor(l, pos, last) else Floor(r, pos, t)
  }

  lemma SubRun(c: seq<Link>, a: nat, b: nat, n: nat)
    requires a <= a + n < b <= |c|
    ensures var d := c[a..b];
            d[..n] == c[a..a + n] && d[n + 1..] == c[a + n + 1..b] && d[n] == c[a + n]
  {
  }

  /** Chunks a..b remain below t, and last is the node of chunk a - 1. */
  lemma {:induction false} FloorWalk(t: Tree, last: Tree, c: seq<Link>, p: int, a: nat, b: nat) returns (i: int)
    requires a <= b <= |c| && Indexes(t, c[a..b]) && Ordered(c)
    requires forall j :: 0 <= j < |c| ==> -TWO31 < c[j].lo - p < TWO31
    requires a > 0 ==> c[a - 1].lo <= p && last.Node? && last.key == Wrap(c[a - 1].lo) && last.chunk == c[a - 1].ptr
    requires (a == 0 ==> last.Leaf?) && (b < |c| ==> p < c[b].lo)
    ensures IsFloor(Floor(t, Wrap(p), last), c, p, i)
  {
    hide Indexes, Wrap, PosLt, Size, PosGt;
    IndexesNonEmpty(t, c[a..b]);
    if t.Leaf? {
      i := a - 1;
    } else {
      var d := c[a..b];
      NodeSplit(t, d);
      var n := Size(t.left);
      SubRun(c, a, b, n);
      OrderBoth(p, c[a + n].lo);
      if p == c[a + n].lo {
        i := a + n;
      } else if p < c[a + n].lo {
        i := FloorWalk(t.left, last, c, p, a, a + n);
      } else {
        i := FloorWalk(t.right, t, c, p, a + n + 1, b);
      }
    }
  }

  /** The recursion finds the floor, like the walk with its climb back. */
  lemma FloorIs(t: Tree, c: seq<Link>, p: int) returns (i: int)
    requires Indexes(t, c) && Ordered(c) && forall j :: 0 <= j < |c| ==> -TWO31 < c[j].lo - p < TWO31
    ensures IsFloor(Floor(t, Wrap(p), Leaf), c, p, i)
  {
    assert c[0..|c|] == c;
    i := FloorWalk(t, Leaf, c, p, 0, |c|);
  }
}
