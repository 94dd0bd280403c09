/**
 The state of a fifo as one value, and what growing and shrinking its chunk list does to it.
 */
module FifoState {
  import opened Positions
  import opened OutOfOrder
  import opened Chunks
  import opened SizeClasses
  import opened FreeLists
  import opened Allocation
  import opened AllocationLaws
  import opened Segments
  import opened ChunkTree
  import opened FifoLayout
  import opened FifoLookup
  import opened ByteQueue

  /** The chunk list with its contents and the window [h, t) on it. */
  datatype Shape = Shape(c: seq<Link>, cells: seq<byte>, start: Sptr, end: Sptr, h: nat, t: nat, size: nat, slice: nat)

  /** The lookup trees with the runs they track, and the cached chunks. */
  datatype Look = Look(
    enqTree: Tree, from: nat, to: nat, oooEnq: Sptr, enqInit: bool, deqTree: Tree, deqTo: nat, oooDeq: Sptr,
    deqInit: bool)

  ghost predicate Laid(m: Memory, place: map<Sptr, Place>, f: Shape) {
    Layout(m, place, f.slice, f.c, f.cells, f.start, f.end) && Spots(f.c, f.h, f.t, f.size)
  }

  lemma LaidElim(m: Memory, place: map<Sptr, Place>, f: Shape)
    requires Laid(m, place, f)
    ensures Layout(m, place, f.slice, f.c, f.cells, f.start, f.end) && Spots(f.c, f.h, f.t, f.size)
    ensures f.c != [] && f.c[0].lo <= f.h <= f.t <= End(f.c) == |f.cells| && f.t <= f.h + f.size
  {
  }

  ghost predicate Tracked(m: Memory, f: Shape, k: Look, nodes: seq<Node>) {
    && f.c != [] && Future(nodes, f.t, End(f.c), f.h + f.size)
    && EnqSide(m, f.c, k.enqTree, k.from, k.to, k.oooEnq, k.enqInit, f.t, nodes)
    && DeqSide(m, f.c, k.deqTree, k.deqTo, k.oooDeq, k.deqInit)
  }

  lemma TrackedSame(m: Memory, q: Memory, f: Shape, k: Look, nodes: seq<Node>)
    requires Tracked(m, f, k, nodes) && (SameButData(m, q, f.c) || SameOn(m, q, f.c))
    ensures Tracked(q, f, k, nodes)
  {
    hide EnqSide, DeqSide, SameButData, SameOn;
    SidesSame(m, q, f.c, k.enqTree, k.from, k.to, k.oooEnq, k.enqInit, f.t, nodes, k.deqTree, k.deqTo, k.oooDeq,
              k.deqInit);
  }

  // ---- Growth ----

  /** The chunks of got have been granted in m1 and placed behind the list of f in m2. */
  ghost predicate Granting(m: Memory, m1: Memory, m2: Memory, w: map<Sptr, Place>, v: map<Sptr, Place>, f: Shape,
                           got: seq<Sptr>, first: Sptr) {
    && Granted(m, m1, w, v, got, f.slice) && Listed(m1, got, first) && got != [] && f.c != []
    && (forall i :: 0 <= i < |got| ==> got[i] in m1 && m1[got[i]].length > 0)
    && PlacedUpTo(m1, m2, LinksFrom(m1, got, End(f.c)), |got|)
    && Chained(m2, LinksFrom(m1, got, End(f.c)))
    && End(f.c) + Total(m1, got) <= f.h + f.size + SLACK
  }

  ghost function Relinked(m: Memory, x: Sptr, next: Sptr): Memory
    requires x in m
  {
    m[x := m[x].(next := next)]
  }

  ghost function GrownShape(f: Shape, m1: Memory, r: Memory, got: seq<Sptr>): Shape
    requires got != [] && f.c != []
  {
    var d := LinksFrom(m1, got, End(f.c));
    f.(c := f.c + d, cells := f.cells + Bytes(r, d), end := got[|got| - 1])
  }

  lemma Grow(m: Memory, m1: Memory, m2: Memory, w: map<Sptr, Place>, v: map<Sptr, Place>, f: Shape, k: Look,
             nodes: seq<Node>, got: seq<Sptr>, first: Sptr)
    requires Laid(m, w, f) && Tracked(m, f, k, nodes) && Granting(m, m1, m2, w, v, f, got, first)
    ensures f.end in m2
    ensures var r := Relinked(m2, f.end, first);
            var g := GrownShape(f, m1, r, got);
            && Laid(r, v, g) && Tracked(r, g, k, nodes) && g.c != [] && End(g.c) == End(f.c) + Total(m1, got)
            && f.c <= g.c && f.cells <= g.cells && g.end in r && r[g.end := r[g.end].(next := 0)] == r
            && (Holder(f.c, f.h) == 0 || Holder(g.c, f.h) == Holder(f.c, f.h))
            && Holder(g.c, f.t) == if Holder(f.c, f.t) == 0 then first else Holder(f.c, f.t)
  {
    hide Layout, Spots, Granted, Listed, EnqSide, DeqSide, Total, Chained, LinksFrom, PlacedUpTo, Bytes, Find, Holder,
         Contiguous, Future;
    GrowLayout(m, m1, m2, w, v, f.slice, f.c, f.cells, f.start, f.end, got, first);
    var r := Relinked(m2, f.end, first);
    var d := LinksFrom(m1, got, End(f.c));
    var g := GrownShape(f, m1, r, got);
    LastNext(r, v, g.slice, g.c, g.cells, g.start, g.end);
    GrowSpots(f.c, d, f.h, f.t, f.size);
    SidesJoin(m, r, f.c, d, k.enqTree, k.from, k.to, k.oooEnq, k.enqInit, f.t, nodes, k.deqTree, k.deqTo, k.oooDeq,
              k.deqInit);
    FutureMore(nodes, f.t, End(f.c), End(d), f.h + f.size);
    GrowHolder(f.c, d, f.h, f.t);
  }

  /** Chunks granted to others leave the fifo as it is. */
  lemma Kept(m: Memory, q: Memory, w: map<Sptr, Place>, v: map<Sptr, Place>, got: seq<Sptr>, f: Shape, k: Look,
             nodes: seq<Node>)
    requires Laid(m, w, f) && Tracked(m, f, k, nodes) && Granted(m, q, w, v, got, f.slice)
    ensures Laid(q, v, f) && Tracked(q, f, k, nodes)
  {
    hide Layout, Spots, Granted, EnqSide, DeqSide, SameOn, SameButData, Future;
    GrantKeeps(m, q, w, v, got, f.slice, f.c, f.cells, f.start, f.end);
    TrackedSame(m, q, f, k, nodes);
  }

  // ---- What the segment has to offer ----

  /** The free chunks of the fifo's slice, the byte index of the segment and its limit. */
  datatype Supply = Supply(stock: seq<nat>, index: nat, max: nat)

  /** What the segment has to offer to the fifos of slice s. */
  ghost function OfferOf(seg: Segment, s: nat): Supply
    reads seg`slices, seg`byteIndex, seg`maxByteIndex
  {
    Supply(if s < |seg.slices| then seg.StockAt(s) else [], seg.byteIndex, seg.maxByteIndex)
  }

  lemma OfferOfFacts(seg: Segment, s: nat)
    requires seg.Valid() && s < |seg.slices|
    ensures |OfferOf(seg, s).stock| == N_CLASSES && seg.byteIndex <= seg.maxByteIndex
    ensures Settles(seg.slices, seg.slices, s, seg.byteIndex, Outcome(0, OfferOf(seg, s).stock, seg.byteIndex))
  {
    hide MemOk, ListsOk, Regions, Counters, CarvedBytes, Stock, Settles, ChunkBytes;
    seg.StockCounted(s);
    SettlesSame(seg.slices, s, seg.byteIndex, 0);
  }

  /** What happens when the list is to cover want bytes from the tail: nothing if it does, else an allocation. */
  ghost function Growth(u: Supply, minAlloc: nat, f: Shape, want: int): Outcome {
    if f.c == [] || |u.stock| != N_CLASSES || u.index > u.max || f.t + want <= End(f.c) then
      Outcome(0, u.stock, u.index)
    else
      Allocate(u.stock, u.index, u.max, Max(Min(minAlloc, f.size - (f.t - f.h)), f.t + want - End(f.c)))
  }

  /** How many of want bytes from the tail the list has, or can be given, room for. */
  ghost function Fit(u: Supply, minAlloc: nat, f: Shape, want: int): int {
    if f.c == [] || f.t + want <= End(f.c) || Growth(u, minAlloc, f, want).total > 0 then want else End(f.c) - f.t
  }

  lemma FitAll(u: Supply, minAlloc: nat, f: Shape, want: int)
    requires f.c != [] && f.t + want <= End(f.c)
    ensures Fit(u, minAlloc, f, want) == want && Growth(u, minAlloc, f, want) == Outcome(0, u.stock, u.index)
  {
    hide Allocate;
  }

  lemma FitGrown(u: Supply, minAlloc: nat, f: Shape, want: int)
    requires f.c != [] && End(f.c) < f.t + want && |u.stock| == N_CLASSES && u.index <= u.max
    ensures var n := Max(Min(minAlloc, f.size - (f.t - f.h)), f.t + want - End(f.c));
            var o := Allocate(u.stock, u.index, u.max, n);
            && Growth(u, minAlloc, f, want) == o
            && Fit(u, minAlloc, f, want) == if o.total > 0 then want else End(f.c) - f.t
  {
    hide Allocate;
  }

  /** The bytes asked of the segment: what is missing, but no less than the smallest growth, within the window. */
  ghost predicate GrowthRequest(n: int, minAlloc: nat, f: Shape, want: int)
    requires f.c != []
  {
    var missing, least := f.t + want - End(f.c), Min(minAlloc, f.size - (f.t - f.h));
    missing <= n && least <= n && (n == missing || n == least)
  }

  /** What a list that is too short asks for and gets. */
  lemma GrowthShare(u: Supply, minAlloc: nat, f: Shape, want: int) returns (n: nat)
    requires f.c != [] && End(f.c) < f.t + want && |u.stock| == N_CLASSES
    requires ChunkBytes(u.stock, N_CLASSES) <= u.index <= u.max <= MAX_SEGMENT
    requires minAlloc <= MAX_SIZE && f.t + want - End(f.c) <= MAX_SIZE
    ensures GrowthRequest(n, minAlloc, f, want)
    ensures var k, total := FreelistForSize(n), Growth(u, minAlloc, f, want).total;
            && (total > 0 <==> Serves(u.stock, u.index, u.max, n, k))
            && (total > 0 ==> n <= total < n + MAX_SIZE)
            && (u.stock[k] > 0 || ClassFits(u.index, u.max, ClassSize(k)) ==> total == 4096 || total < 2 * n)
  {
    hide Allocate, FreelistForSize, ClassSize, Serves, ClassFits, CanCarve, ChunkBytes;
    n := Max(Min(minAlloc, f.size - (f.t - f.h)), f.t + want - End(f.c));
    FitGrown(u, minAlloc, f, want);
    AllocateIff(u.stock, u.index, u.max, n);
    AllocateCovers(u.stock, u.index, u.max, n);
    var k := FreelistForSize(n);
    CanCarveIff(u.index, u.max, k);
    FreelistCovers(n);
    ClassBounds(k);
    if k == 0 {
      ClassBounds0();
    }
  }

  // ---- The domain of the operations ----

  /** An enqueue of len bytes asks for growth the allocator covers. */
  ghost predicate CanEnqueue(f: Shape, len: nat) {
    0 < len < TWO32 && f.c != [] && f.t + Min(f.size - (f.t - f.h), len) <= End(f.c) + MAX_SIZE
  }

  ghost predicate CanEnqueueAhead(f: Shape, offset: nat, len: nat) {
    && 0 < offset && 0 < len && offset + len < TWO32 && f.c != []
    && (offset + len <= f.size - (f.t - f.h) ==> f.t + offset + len <= End(f.c) + MAX_SIZE)
  }

  /** At most one chunk is tracked for peeking, and a tracked chunk stays in the list. */
  ghost predicate CanDequeue(f: Shape, tracked: nat, len: nat) {
    && len < TWO32 && tracked <= 1
    && (tracked == 0 || (f.c != [] && f.h <= f.t && DropCount(f.c, f.h + Min(f.t - f.h, len)) == 0))
  }

  /** The first byte lies in some chunk. */
  ghost predicate CanPeek(f: Shape, offset: nat, len: nat) {
    offset < TWO32 && len < TWO32 && f.c != [] && (offset <= f.t - f.h ==> f.h + offset < End(f.c))
  }

  /** Two shapes with the same window and the same end of the chunk list. */
  ghost predicate Alike(f: Shape, g: Shape) {
    f.c != [] && g.c != [] && End(f.c) == End(g.c) && f.h == g.h && f.t == g.t && f.size == g.size
  }

  /** Where the chunks lie does not matter for growth. */
  lemma GrowthAlike(u: Supply, minAlloc: nat, f: Shape, g: Shape, want: int)
    requires Alike(f, g)
    ensures Growth(u, minAlloc, f, want) == Growth(u, minAlloc, g, want)
    ensures Fit(u, minAlloc, f, want) == Fit(u, minAlloc, g, want)
  {
    hide Allocate;
  }

  /** The slice and the byte index are what an allocation with outcome o leaves; the other slices are untouched. */
  ghost predicate Settles(s0: seq<Slice>, s1: seq<Slice>, s: nat, index: nat, o: Outcome) {
    Leaves(s0, s1, s, o.stock) && index == o.index
  }

  lemma SettlesIntro(s0: seq<Slice>, s1: seq<Slice>, s: nat, index: nat, o: Outcome)
    requires Leaves(s0, s1, s, o.stock) && index == o.index
    ensures Settles(s0, s1, s, index, o)
  {
  }

  lemma SettlesSame(slices: seq<Slice>, s: nat, index: nat, total: nat)
    requires s < |slices| && |slices[s].free| == N_CLASSES
    ensures Settles(slices, slices, s, index, Outcome(total, Stock(slices[s].free), index))
  {
  }

  /** How many chunks a fifo that is not empty gives back when its head moves to u. */
  ghost function PassedBy(f: Shape, u: int): (n: nat)
    ensures n <= |f.c|
  {
    if f.h == f.t || f.c == [] || u < 0 then 0 else DropCount(f.c, u)
  }

  lemma PassedByIs(f: Shape, u: nat)
    requires f.c != []
    ensures PassedBy(f, u) == if f.h == f.t then 0 else DropCount(f.c, u)
  {
  }

  /** Passed chunks are all that leave: the first chunk kept holds the head, or it is the last one. */
  lemma PassedExactly(c: seq<Link>, u: nat)
    requires c != [] && Contiguous(c) && c[0].lo <= u <= End(c)
    ensures var n := DropCount(c, u);
            n < |c| && c[n].lo <= u && (n + 1 == |c| || u < c[n].hi) && forall i :: 0 <= i < n ==> c[i].hi <= u
  {
    hide Find;
    FindLocates(c, u);
  }

  /** The first n chunks of the list go back to the segment. */
  ghost function Returning(u: Supply, f: Shape, n: nat): (o: Outcome)
    ensures o.total == 0 && o.index == u.index
  {
    if |u.stock| == N_CLASSES && n <= |f.c| then Outcome(0, Restock(u.stock, SizesOf(f.c[..n])), u.index)
    else Outcome(0, u.stock, u.index)
  }

  lemma ReturningIs(u: Supply, f: Shape, n: nat)
    requires |u.stock| == N_CLASSES && n <= |f.c|
    ensures Returning(u, f, n) == Outcome(0, Restock(u.stock, SizesOf(f.c[..n])), u.index)
  {
  }

  lemma ReturningNone(u: Supply, f: Shape)
    ensures Returning(u, f, 0) == Outcome(0, u.stock, u.index)
  {
  }

  /** The sizes of the chunks of a list. */
  ghost function SizesOf(c: seq<Link>): seq<nat> {
    seq(|c|, i requires 0 <= i < |c| => if c[i].lo <= c[i].hi then c[i].hi - c[i].lo else 0)
  }

  lemma ChunkSizes(m: Memory, place: map<Sptr, Place>, f: Shape, n: nat, q: Memory)
    requires Laid(m, place, f) && n <= |f.c|
    requires forall p :: p in m ==> p in q && q[p].length == m[p].length
    ensures Sizes(q, PtrsOf(f.c, n)) == SizesOf(f.c[..n])
  {
    hide Holds, Spots;
    var a, b := Sizes(q, PtrsOf(f.c, n)), SizesOf(f.c[..n]);
    forall i | 0 <= i < n
      ensures a[i] == b[i]
    {
      assert LinkAt(m, f.c, i);
    }
  }

  /** The first n chunks of a fifo hold less than half a lap of bytes; links do not matter. */
  lemma FewBytes(m: Memory, place: map<Sptr, Place>, f: Shape, n: nat, q: Memory)
    requires Laid(m, place, f) && n <= |f.c|
    requires forall p :: p in m ==> p in q && q[p].length == m[p].length
    ensures Total(q, PtrsOf(f.c, n)) < TWO31
  {
    hide Holds, Total, Spots, LinkAt;
    var c, l := f.c, PtrsOf(f.c, n);
    ChainedFacts(m, c);
    SpotsSpan(c, f.h, f.t, f.size);
    TotalSame(m, q, l);
    ChainTotal(m, c, n, l);
    if n > 0 {
      Bounds(c, n - 1);
    }
  }

  /** What the code reads at the end of the chunk list, compared with a position of the window. */
  lemma EndFacts(m: Memory, place: map<Sptr, Place>, f: Shape, p: nat)
    requires Laid(m, place, f) && f.t <= p <= f.h + f.size
    ensures f.end in m && f.c != []
    ensures Plus(m[f.end].start, Wrap(m[f.end].length)) == ChunkEnd(m[f.end]) == Wrap(End(f.c))
    ensures Minus(ChunkEnd(m[f.end]), Wrap(f.t)) == End(f.c) - f.t
    ensures PosGt(Wrap(p), ChunkEnd(m[f.end])) <==> p > End(f.c)
    ensures Minus(Wrap(f.t), Wrap(f.h)) == f.t - f.h <= f.size <= MAX_FIFO
  {
    hide Wrap, Plus, Minus, PosGt;
    var c := f.c;
    assert LinkAt(m, c, |c| - 1);
    WrapSmall(m[f.end].length);
    WrapPlus(c[|c| - 1].lo, m[f.end].length);
    Distance(End(c), f.t);
    Distance(f.t, f.h);
    Order(p, End(c));
  }

  // ---- Lookup steps ----

  lemma FlagFacts(m: Memory, place: map<Sptr, Place>, n: nat, f: Shape, i: nat, enq: bool, v: bool, b: nat)
    requires Laid(m, place, f) && MemOk(m, place, n) && Regions(m, b) && i < |f.c|
    ensures f.c[i].ptr in m && m[f.c[i].ptr].start == Wrap(f.c[i].lo) && DistinctPtrs(f.c)
    ensures var q := m[f.c[i].ptr := SetFlag(m[f.c[i].ptr], enq, v)];
            Laid(q, place, f) && MemOk(q, place, n) && Regions(q, b) && FlagsOnly(m, q, enq, f.c)
  {
    hide MemOk, Regions, Holds, Spots;
    assert LinkAt(m, f.c, i);
    var x := f.c[i].ptr;
    FlagLayout(m, SetFlag(m[x], enq, v), place, n, f.slice, f.c, f.cells, f.start, f.end, x, b);
    FlagsOnlyOnce(m, f.c, i, enq, v);
  }

  lemma TrackFacts(m: Memory, place: map<Sptr, Place>, n: nat, f: Shape, tree: Tree, a: nat, e: nat, enq: bool, b: nat)
    requires Laid(m, place, f) && MemOk(m, place, n) && Regions(m, b) && Run(m, f.c, tree, a, e, enq) && e < |f.c|
    ensures f.c[e].ptr in m && m[f.c[e].ptr].start == Wrap(f.c[e].lo)
    ensures var q := m[f.c[e].ptr := SetFlag(m[f.c[e].ptr], enq, true)];
            && Laid(q, place, f) && MemOk(q, place, n) && Regions(q, b) && FlagsOnly(m, q, enq, f.c)
            && Run(q, f.c, Insert(tree, Wrap(f.c[e].lo), f.c[e].ptr), a, e + 1, enq)
  {
    hide MemOk, Regions, Layout, Spots, Run, DistinctPtrs, FlagsOnly, SetFlag, Insert, Wrap;
    FlagFacts(m, place, n, f, e, enq, true, b);
    RunAdd(m, f.c, tree, a, e, enq, f.h, f.t, f.size);
  }

  lemma UntrackFacts(m: Memory, place: map<Sptr, Place>, n: nat, f: Shape, tree: Tree, a: nat, e: nat, enq: bool,
                     b: nat)
    requires Laid(m, place, f) && MemOk(m, place, n) && Regions(m, b) && Run(m, f.c, tree, a, e, enq) && a < e <= |f.c|
    ensures f.c[a].ptr in m && m[f.c[a].ptr].start == Wrap(f.c[a].lo)
    ensures var q := m[f.c[a].ptr := SetFlag(m[f.c[a].ptr], enq, false)];
            && Laid(q, place, f) && MemOk(q, place, n) && Regions(q, b) && FlagsOnly(m, q, enq, f.c)
            && Run(q, f.c, Remove(tree, Wrap(f.c[a].lo)), a + 1, e, enq)
  {
    hide MemOk, Regions, Layout, Spots, Run, DistinctPtrs, FlagsOnly, SetFlag, Remove, Wrap;
    FlagFacts(m, place, n, f, a, enq, false, b);
    RunDrop(m, f.c, tree, a, e, enq, f.h, f.t, f.size);
  }

  // ---- Moving the tail ----

  lemma CollectedTop(nodes: seq<Node>, rest: seq<Node>, t: nat, p: nat, u: nat, end: nat, top: nat)
    requires Future(nodes, t, end, top) && t <= p <= end && p <= top && Collected(nodes, rest, p, u)
    ensures p <= u <= end && u <= top
  {
    if p < u {
      assert Covers(nodes, u - 1);
      var i :| 0 <= i < |nodes| && nodes[i].lo <= u - 1 < nodes[i].hi;
    }
  }

  /** Collecting keeps the segments past the tail and inside the list and the window. */
  lemma CollectedFuture(nodes: seq<Node>, rest: seq<Node>, t: nat, p: nat, u: nat, end: nat, top: nat)
    requires Future(nodes, t, end, top) && t <= p <= end && p <= top && Collected(nodes, rest, p, u)
    ensures p <= u <= end && u <= top && Future(rest, u, end, top)
  {
    hide Covers;
    CollectedTop(nodes, rest, t, p, u, end, top);
    var j :| 0 <= j <= |nodes| && rest == nodes[j..];
    forall i | 0 <= i < |rest|
      ensures u < rest[i].lo < rest[i].hi <= end && rest[i].hi <= top
    {
      assert rest[i] == nodes[j + i];
    }
  }

  lemma CollectedFurthest(nodes: seq<Node>, rest: seq<Node>, t: nat, p: nat, u: nat)
    requires Collected(nodes, rest, p, u) && nodes != [] && nodes[|nodes| - 1].lo < nodes[|nodes| - 1].hi
    ensures Furthest(nodes, t) <= Furthest(rest, u)
  {
    var last := nodes[|nodes| - 1];
    assert Covers(nodes, last.hi - 1);
    if rest == [] {
      assert !Covers(rest, last.hi - 1);
    }
  }

  lemma CollectedNothing(p: nat)
    ensures Collected([], [], p, p)
  {
    var none: seq<Node> := [];
    assert none == none[0..];
  }

  lemma LaidTail(m: Memory, place: map<Sptr, Place>, f: Shape, u: nat)
    requires Laid(m, place, f) && f.t <= u && f.c != [] && u <= End(f.c) && u <= f.h + f.size
    ensures Laid(m, place, f.(t := u))
  {
  }

  /** Without out-of-order data the tail moves freely. */
  lemma TrackedTail(m: Memory, f: Shape, k: Look, u: nat)
    requires Tracked(m, f, k, [])
    ensures Tracked(m, f.(t := u), k, [])
  {
  }

  /** The lookup state after the tail moved to u and the enqueue run was cut to start there. */
  lemma TrackedCleared(m: Memory, q: Memory, f: Shape, k: Look, nodes: seq<Node>, rest: seq<Node>, p: nat, u: nat,
                       tree: Tree, a: nat, e: nat)
    requires Tracked(m, f, k, nodes) && nodes != [] && Collected(nodes, rest, p, u) && f.t <= p <= End(f.c)
    requires p <= f.h + f.size
    requires Run(q, f.c, tree, a, e, true) && FlagsOnly(m, q, true, f.c)
    requires a < e ==> a == Find(f.c, u) && e == k.to && k.from < k.to
    requires rest == [] ==> a == e
    ensures Tracked(q, f.(t := u), k.(enqTree := tree, from := a, to := e, oooEnq := 0), rest)
  {
    hide Indexes, Find, Collected;
    CollectedFurthest(nodes, rest, f.t, p, u);
    CollectedFuture(nodes, rest, f.t, p, u, End(f.c), f.h + f.size);
    RunOther(m, q, f.c, k.deqTree, 0, k.deqTo, false);
  }

  /** What committing n bytes needs to know before collecting. */
  lemma FinishFacts(m: Memory, place: map<Sptr, Place>, f: Shape, k: Look, nodes: seq<Node>, n: nat)
    requires Laid(m, place, f) && Tracked(m, f, k, nodes) && f.c != [] && f.t + n <= End(f.c) && f.t + n <= f.h + f.size
    requires 0 < n
    ensures n < TWO31 && Plus(Wrap(f.t), n) == Wrap(f.t + n) && Future(nodes, f.t, End(f.c), f.h + f.size)
    ensures forall i :: 0 <= i < |nodes| ==> f.t + n - n < nodes[i].lo < nodes[i].hi < f.t + n + TWO31
  {
    hide Wrap, Plus, EnqSide, DeqSide, Layout;
    WrapPlus(f.t, n);
  }

  /** What clearing the enqueue run up to u needs to know. */
  lemma ClearFacts(m: Memory, place: map<Sptr, Place>, f: Shape, k: Look, nodes: seq<Node>, rest: seq<Node>, n: nat,
                   u: nat)
    requires Laid(m, place, f) && Tracked(m, f, k, nodes) && nodes != [] && Collected(nodes, rest, f.t + n, u) && 0 < n
    requires u <= End(f.c)
    ensures Run(m, f.c, k.enqTree, k.from, k.to, true) && k.from <= k.to <= |f.c|
    ensures k.from < k.to ==> k.from == Find(f.c, f.t) && (rest == [] ==> f.c[k.to - 1].lo <= u)
    ensures f.c != [] && f.c[0].lo <= u && Find(f.c, f.t) <= Find(f.c, u)
    ensures Holder(f.c, f.t) == PtrAt(f.c, Find(f.c, f.t))
  {
    hide Collected, Find, Layout, DeqSide;
    CollectedUp(nodes, rest, f.t + n, u);
    CollectedFurthest(nodes, rest, f.t, f.t + n, u);
    FindMonotone(f.c, f.t, u);
  }

  lemma CollectedUp(nodes: seq<Node>, rest: seq<Node>, p: nat, u: nat)
    requires Collected(nodes, rest, p, u)
    ensures p <= u
  {
  }

  // ---- Writing ahead of the tail ----

  lemma FurthestCovers(nodes: seq<Node>, t: nat, p: nat)
    requires Separated(nodes) && Covers(nodes, p)
    ensures nodes != [] && p < Furthest(nodes, t)
  {
    var i :| 0 <= i < |nodes| && nodes[i].lo <= p < nodes[i].hi;
    assert i < |nodes| - 1 ==> nodes[i].hi < nodes[|nodes| - 1].lo;
  }

  lemma AddedFuture(nodes: seq<Node>, more: seq<Node>, t: nat, lo: nat, hi: nat, end: nat, top: nat)
    requires Future(nodes, t, end, top) && Separated(more) && t < lo < hi <= end && hi <= top
    requires forall p :: Covers(more, p) <==> Covers(nodes, p) || lo <= p < hi
    ensures Future(more, t, end, top)
  {
    forall i | 0 <= i < |more|
      ensures t < more[i].lo < more[i].hi <= end && more[i].hi <= top
    {
      assert Covers(more, more[i].lo);
      assert Covers(more, more[i].hi - 1);
    }
  }

  /** Recording [lo, hi) as written keeps the lookup state. */
  lemma TrackedAdded(m: Memory, f: Shape, k: Look, nodes: seq<Node>, more: seq<Node>, lo: nat, hi: nat)
    requires Tracked(m, f, k, nodes) && Separated(more) && f.t < lo < hi <= End(f.c) && hi <= f.h + f.size
    requires forall p :: Covers(more, p) <==> Covers(nodes, p) || lo <= p < hi
    ensures Tracked(m, f, k, more) && more != [] && hi <= Furthest(more, f.t)
  {
    hide Run, Find, Cached, DeqSide;
    AddedFuture(nodes, more, f.t, lo, hi, End(f.c), f.h + f.size);
    assert Covers(more, hi - 1);
    FurthestCovers(more, f.t, hi - 1);
    if nodes != [] {
      var q := nodes[|nodes| - 1].hi - 1;
      assert Covers(nodes, q);
      FurthestCovers(more, f.t, q);
    }
  }

  /** What looking up a position past the tail needs to know. */
  lemma EnqFacts(m: Memory, place: map<Sptr, Place>, f: Shape, k: Look, nodes: seq<Node>, p: nat, len: nat)
    requires Laid(m, place, f) && Tracked(m, f, k, nodes) && f.c != [] && f.t <= p < End(f.c) && 0 < len
    requires p + len <= End(f.c)
    ensures Run(m, f.c, k.enqTree, k.from, k.to, true) && k.from <= k.to <= |f.c|
    ensures (k.from < k.to ==> k.from == Find(f.c, f.t)) && (!k.enqInit ==> k.from == k.to)
    ensures Holder(f.c, f.t) == PtrAt(f.c, Find(f.c, f.t))
    ensures f.c[0].lo <= f.t && Contiguous(f.c) && Find(f.c, f.t) <= Find(f.c, p) && len < TWO32
    ensures Plus(Wrap(p), len) == Wrap(p + len)
    ensures k.oooEnq != 0 ==> k.oooEnq in m && (IncludesPos(m[k.oooEnq], Wrap(p)) ==> k.oooEnq == Holder(f.c, p))
  {
    hide Find, DeqSide, Wrap, Plus, IncludesPos;
    FindMonotone(f.c, f.t, p);
    WrapPlus(p, len);
    if k.oooEnq != 0 {
      var i :| Find(f.c, f.t) <= i < |f.c| && f.c[i].ptr == k.oooEnq;
      FindCompare(m, place, f.slice, f.c, f.cells, f.start, f.end, f.h, f.t, f.size, i, p);
    }
  }

  /** The enqueue side after a lookup for [p, pe). */
  lemma TrackedEnq(m: Memory, q: Memory, f: Shape, k: Look, nodes: seq<Node>, tree: Tree, e: nat, p: nat, pe: nat)
    requires Tracked(m, f, k, nodes) && nodes != [] && Contiguous(f.c) && f.c[0].lo <= f.t <= p <= End(f.c)
    requires pe <= Furthest(nodes, f.t)
    requires Run(q, f.c, tree, Find(f.c, f.t), e, true) && FlagsOnly(m, q, true, f.c)
    requires !k.enqInit ==> e == Find(f.c, f.t)
    requires Find(f.c, f.t) < e ==> (k.from < k.to && e == k.to) || f.c[e - 1].lo <= pe
    ensures Tracked(q, f, k.(enqTree := tree, from := Find(f.c, f.t), to := e, oooEnq := Holder(f.c, p)), nodes)
  {
    hide Indexes, Find, Contiguous, Holder, Cached, FlagsOnly, FlagAt;
    RunOther(m, q, f.c, k.deqTree, 0, k.deqTo, false);
    CachedHolder(f.c, f.t, p);
  }

  /** Caching the chunk behind the bytes just written. */
  lemma TrackedCache(m: Memory, f: Shape, k: Look, nodes: seq<Node>, p: nat)
    requires Tracked(m, f, k, nodes) && nodes != [] && Contiguous(f.c) && f.c[0].lo <= f.t <= p <= End(f.c)
    ensures Tracked(m, f, k.(oooEnq := Holder(f.c, p)), nodes)
  {
    hide Find, Contiguous, Holder, Run;
    CachedHolder(f.c, f.t, p);
  }

  /** The dequeue side after a lookup. */
  lemma TrackedDeq(m: Memory, q: Memory, f: Shape, k: Look, nodes: seq<Node>, tree: Tree, d: nat, p: nat)
    requires Tracked(m, f, k, nodes) && Contiguous(f.c) && f.c[0].lo <= p <= End(f.c)
    requires Run(q, f.c, tree, 0, d, false) && FlagsOnly(m, q, false, f.c) && (!k.deqInit ==> d == 0)
    ensures Tracked(q, f, k.(deqTree := tree, deqTo := d, oooDeq := Holder(f.c, p)), nodes)
  {
    hide Indexes, Find, Contiguous, Holder, FlagsOnly, FlagAt;
    RunOther(m, q, f.c, k.enqTree, k.from, k.to, true);
    CachedHolder(f.c, p, p);
  }

  // ---- The byte stream a fifo stands for ----

  ghost predicate Known(cells: seq<byte>, t: nat, nodes: seq<Node>, p: int) {
    0 <= p < |cells| && (p < t || Covers(nodes, p))
  }

  ghost function Written(cells: seq<byte>, t: nat, nodes: seq<Node>): map<nat, byte> {
    map p: nat | p < |cells| && Known(cells, t, nodes, p) :: cells[p]
  }

  /** The stream: bytes below the tail and bytes covered by out-of-order segments. */
  ghost function Contents(f: Shape, nodes: seq<Node>): Queue {
    Queue(f.h, f.t, Written(f.cells, f.t, nodes))
  }

  lemma ContentsEnds(f: Shape, nodes: seq<Node>)
    ensures Contents(f, nodes).h == f.h && Contents(f, nodes).t == f.t
  {
  }

  lemma ContentsSound(f: Shape, nodes: seq<Node>, end: nat, top: nat)
    requires f.h <= f.t <= |f.cells| && Future(nodes, f.t, end, top)
    ensures Sound(Contents(f, nodes))
  {
  }

  /** New chunks at the end add no bytes. */
  lemma ContentsGrown(f: Shape, g: Shape, nodes: seq<Node>, end: nat, top: nat)
    requires f.cells <= g.cells && f.t == g.t <= |f.cells| && f.h == g.h && Future(nodes, f.t, end, top)
    requires end <= |f.cells|
    ensures Contents(g, nodes) == Contents(f, nodes)
  {
    forall p: nat
      ensures Known(f.cells, f.t, nodes, p) <==> Known(g.cells, f.t, nodes, p)
    {
    }
    assert Written(f.cells, f.t, nodes) == Written(g.cells, f.t, nodes);
  }

  /** Storing x at the tail and collecting what it reaches. */
  lemma StoredAtTail(f: Shape, g: Shape, nodes: seq<Node>, rest: seq<Node>, x: seq<byte>)
    requires f.t + |x| <= |f.cells| && g.cells == Overwrite(f.cells, f.t, x) && g.h == f.h
    requires Collected(nodes, rest, f.t + |x|, g.t) && g.t <= |f.cells|
    ensures Put(Contents(f, nodes), Contents(g, rest), f.t, x)
  {
    OverwriteSize(f.cells, f.t, x);
    forall p: nat
      ensures Known(g.cells, g.t, rest, p) <==> Known(f.cells, f.t, nodes, p) || f.t <= p < f.t + |x|
    {
    }
    assert !Known(g.cells, g.t, rest, g.t);
  }

  /** Storing x ahead of the tail. */
  lemma StoredAhead(f: Shape, g: Shape, nodes: seq<Node>, more: seq<Node>, at: nat, x: seq<byte>)
    requires f.t < at && at + |x| <= |f.cells| && g.cells == Overwrite(f.cells, at, x) && g.h == f.h && g.t == f.t
    requires forall p :: Covers(more, p) <==> Covers(nodes, p) || at <= p < at + |x|
    requires !Covers(nodes, f.t)
    ensures Put(Contents(f, nodes), Contents(g, more), at, x)
  {
    OverwriteSize(f.cells, at, x);
    forall p: nat
      ensures Known(g.cells, g.t, more, p) <==> Known(f.cells, f.t, nodes, p) || at <= p < at + |x|
    {
    }
    assert !Known(g.cells, g.t, more, g.t);
  }

  lemma ReadsOut(f: Shape, nodes: seq<Node>, p: nat, n: nat)
    requires p + n <= f.t <= |f.cells|
    ensures Reads(Contents(f, nodes), p, f.cells[p..p + n])
  {
    var q, out := Contents(f, nodes), f.cells[p..p + n];
    forall i | 0 <= i < n
      ensures ReadAt(q, p, out, i)
    {
      assert Known(f.cells, f.t, nodes, p + i);
    }
  }

  /** However the list grows, the stream stays. */
  lemma ViewGrown(m: Memory, place: map<Sptr, Place>, f: Shape, k: Look, nodes: seq<Node>)
    requires Laid(m, place, f) && Tracked(m, f, k, nodes)
    ensures forall g: Shape ::
              f.cells <= g.cells && f.t == g.t && f.h == g.h ==> Contents(g, nodes) == Contents(f, nodes)
  {
    hide Contents, EnqSide, DeqSide, Spots, Future;
    LaidElim(m, place, f);
    forall g: Shape | f.cells <= g.cells && f.t == g.t && f.h == g.h
      ensures Contents(g, nodes) == Contents(f, nodes)
    {
      ContentsGrown(f, g, nodes, End(f.c), f.h + f.size);
    }
  }

  /** Storing bytes keeps the lookup state. */
  lemma TrackedStored(m: Memory, q: Memory, f: Shape, k: Look, nodes: seq<Node>, cells: seq<byte>)
    requires Tracked(m, f, k, nodes) && SameButData(m, q, f.c)
    ensures Tracked(q, f.(cells := cells), k, nodes)
  {
    hide SameButData, EnqSide, DeqSide;
    TrackedSame(m, q, f, k, nodes);
  }

  // ---- An out-of-order write, step by step ----

  lemma AheadFacts(m: Memory, place: map<Sptr, Place>, f: Shape, k: Look, nodes: seq<Node>, offset: u32, x: seq<byte>)
    requires Laid(m, place, f) && Tracked(m, f, k, nodes) && 0 < offset && x != [] && f.c != []
    requires f.t + offset + |x| <= End(f.c) && f.t + offset + |x| <= f.h + f.size
    ensures Within(nodes, f.t) && offset + |x| < TWO31 && Plus(Wrap(f.t), offset) == Wrap(f.t + offset)
    ensures Contiguous(f.c) && f.c[0].lo <= f.t
  {
    hide Wrap, Plus, EnqSide, DeqSide, Layout, Contiguous;
    WrapPlus(f.t, offset);
  }

  lemma AddedTracked(m: Memory, place: map<Sptr, Place>, f: Shape, k: Look, nodes: seq<Node>, more: seq<Node>, p: nat,
                     x: seq<byte>, newest: int)
    requires Laid(m, place, f) && Tracked(m, f, k, nodes) && Added(nodes, more, p, p + |x|, newest) && Separated(more)
    requires f.t < p && x != [] && f.c != [] && p + |x| <= End(f.c) && p + |x| <= f.h + f.size
    ensures Tracked(m, f, k, more) && more != [] && p + |x| <= Furthest(more, f.t)
  {
    hide Laid, Tracked, Furthest, Separated, Covers;
    TrackedAdded(m, f, k, nodes, more, p, p + |x|);
  }

  lemma StoredView(m: Memory, k: Look, f: Shape, g: Shape, nodes: seq<Node>, more: seq<Node>, p: nat, x: seq<byte>,
                   newest: int)
    requires Added(nodes, more, p, p + |x|, newest) && Tracked(m, f, k, more)
    requires f.t < p && p + |x| <= |f.cells| && g == f.(cells := Overwrite(f.cells, p, x))
    ensures Put(Contents(f, nodes), Contents(g, more), p, x)
  {
    hide Put, Contents, Overwrite, EnqSide, DeqSide;
    assert !Covers(more, f.t);
    StoredAhead(f, g, nodes, more, p, x);
  }

  /** Without a tail chunk there is no out-of-order data. */
  lemma TailNull(m: Memory, place: map<Sptr, Place>, f: Shape, k: Look, nodes: seq<Node>)
    requires Laid(m, place, f) && Tracked(m, f, k, nodes)
    ensures f.c != [] && f.t <= End(f.c) && (Holder(f.c, f.t) == 0 <==> f.t == End(f.c))
    ensures Holder(f.c, f.t) == 0 ==> nodes == []
  {
    hide EnqSide, DeqSide, Holds, AllUsed;
    LaidElim(m, place, f);
    FindLocates(f.c, f.t);
    ChainedFacts(m, f.c);
    assert nodes != [] ==> f.t < nodes[0].lo < nodes[0].hi <= End(f.c);
  }

  // ---- Moving the head ----

  /** The chunks from number n on are the same in both memories. */
  ghost predicate SameFrom(m: Memory, q: Memory, c: seq<Link>, n: nat) {
    forall i :: n <= i < |c| ==> c[i].ptr in m && c[i].ptr in q && q[c[i].ptr] == m[c[i].ptr]
  }

  /** How many chunks are unlinked when the head moves to u: all before the one that holds u, but never the last. */
  ghost function DropCount(c: seq<Link>, u: nat): nat
    requires c != []
  {
    if Find(c, u) < |c| then Find(c, u) else |c| - 1
  }

  ghost function Headed(f: Shape, u: nat): Shape
    requires f.c != []
  {
    var n := DropCount(f.c, u);
    f.(c := if n < |f.c| then f.c[n..] else f.c, start := PtrAt(f.c, n), h := u)
  }

  lemma PassedFacts(f: Shape, u: nat, m: Memory, place: map<Sptr, Place>)
    requires Laid(m, place, f) && f.h <= u <= f.t
    ensures f.c != [] && Contiguous(f.c) && f.c[0].lo <= u <= f.t <= End(f.c)
    ensures var n := DropCount(f.c, u);
            && n < |f.c| && f.c[n].lo <= u <= f.c[n].hi && n <= Find(f.c, u) <= Find(f.c, f.t) <= |f.c|
            && (n < |f.c| - 1 ==> n == Find(f.c, u)) && (u < End(f.c) ==> Holder(f.c, u) == f.c[n].ptr)
            && f.c[n].lo <= f.t
  {
    FindMonotone(f.c, u, f.t);
    FindLocates(f.c, u);
  }

  /** The list after the first n chunks are cut off in q and given back in r. */
  lemma LaidHeaded(m: Memory, q: Memory, r: Memory, w: map<Sptr, Place>, v: map<Sptr, Place>, f: Shape, u: nat)
    requires Laid(m, w, f) && f.h <= u <= f.t && f.c != []
    requires var n := DropCount(f.c, u);
             && n < |f.c|
             && (n == 0 ==> r == m && v == w)
             && (n > 0 ==> Released(q, r, w, v, PtrsOf(f.c, n)))
             && (n > 0 ==> SameFrom(m, q, f.c, n))
    ensures Laid(r, v, Headed(f, u))
    ensures SameFrom(m, r, f.c, DropCount(f.c, u))
  {
    hide Find, Contiguous, Released, AllUsed, Holds;
    PassedFacts(f, u, m, w);
    var n := DropCount(f.c, u);
    ChainedFacts(m, f.c);
    assert LinkAt(m, f.c, n);
    HeadedSpots(f.c, f.h, f.t, f.size, u, n);
    if n == 0 {
      assert f.c[0..] == f.c;
    } else {
      ShrinkLayout(m, q, r, w, v, f.slice, f.c, f.cells, f.start, f.end, n);
    }
  }

  lemma CachedDrop(c: seq<Link>, x: Sptr, from: nat, n: nat)
    requires Cached(c, x, from) && n <= from && n <= |c|
    ensures Cached(c[n..], x, from - n)
  {
    if x != 0 {
      var i :| from <= i < |c| && c[i].ptr == x;
      assert c[n..][i - n].ptr == x;
    }
  }

  /** A run from chunk number n on, or an empty one, seen from the shortened list. */
  lemma RunHeaded(m: Memory, r: Memory, c: seq<Link>, tree: Tree, a: nat, e: nat, enq: bool, n: nat)
    requires Run(m, c, tree, a, e, enq) && n <= |c| && (a < e ==> n <= a)
    requires SameFrom(m, r, c, n)
    ensures if a < e then Run(r, c[n..], tree, a - n, e - n, enq) else Run(r, c[n..], tree, 0, 0, enq)
  {
    hide Indexes, FlagAt;
    if a < e {
      RunShift(m, r, c, tree, a, e, enq, n);
    } else {
      RunEmpty(m, c, tree, a, e, enq, n);
      RunShift(m, r, c, tree, n, n, enq, n);
    }
  }

  ghost function HeadedLook(k: Look, n: nat, tree: Tree, a: nat, e: nat, cache: Sptr): Look
    requires (k.from < k.to ==> n <= k.from) && (a < e ==> n <= a)
  {
    k.(from := if k.from < k.to then k.from - n else 0, to := if k.from < k.to then k.to - n else 0,
       deqTree := tree, deqTo := if a < e then e - n else 0, oooDeq := cache)
  }

  lemma HeadedFacts(f: Shape, u: nat, m: Memory, place: map<Sptr, Place>, k: Look, tree: Tree, a: nat, e: nat,
                    cache: Sptr)
    requires Laid(m, place, f) && f.h <= u <= f.t && f.c != []
    requires var n := DropCount(f.c, u); (k.from < k.to ==> n <= k.from) && (a < e ==> n <= a)
    ensures var n := DropCount(f.c, u);
            && n < |f.c| && Headed(f, u) == f.(c := f.c[n..], start := PtrAt(f.c, n), h := u)
            && (var r := HeadedLook(k, n, tree, a, e, cache);
                && r == k.(from := r.from, to := r.to, deqTree := tree, deqTo := r.deqTo, oooDeq := cache)
                && (n == 0 || e == 0 ==> r.deqTo == if a < e then e else 0))
  {
    hide Find, Spots, Contiguous;
    PassedFacts(f, u, m, place);
  }

  lemma EnqHeaded(m: Memory, r: Memory, f: Shape, k: Look, nodes: seq<Node>, n: nat)
    requires EnqSide(m, f.c, k.enqTree, k.from, k.to, k.oooEnq, k.enqInit, f.t, nodes)
    requires Contiguous(f.c) && n < |f.c| && f.c[n].lo <= f.t <= End(f.c) && n <= Find(f.c, f.t)
    requires SameFrom(m, r, f.c, n)
    ensures k.from < k.to ==> n <= k.from
    ensures EnqSide(r, f.c[n..], k.enqTree, if k.from < k.to then k.from - n else 0,
                    if k.from < k.to then k.to - n else 0, k.oooEnq, k.enqInit, f.t, nodes)
  {
    hide Indexes, Find, FlagAt, Contiguous, Furthest, SameFrom;
    RunHeaded(m, r, f.c, k.enqTree, k.from, k.to, true, n);
    FindDrop(f.c, n, f.t);
    CachedDrop(f.c, k.oooEnq, Find(f.c, f.t), n);
    if k.from < k.to {
      assert f.c[n..][k.to - n - 1] == f.c[k.to - 1];
    }
  }

  lemma DeqHeaded(m: Memory, r: Memory, f: Shape, k: Look, n: nat, tree: Tree, a: nat, e: nat, cache: Sptr)
    requires Run(m, f.c, tree, a, e, false) && n <= |f.c| && (a < e ==> a == n) && (!k.deqInit ==> a >= e)
    requires Cached(f.c, cache, n) && SameFrom(m, r, f.c, n)
    ensures DeqSide(r, f.c[n..], tree, if a < e then e - n else 0, cache, k.deqInit)
  {
    hide SameFrom, Run;
    RunHeaded(m, r, f.c, tree, a, e, false, n);
    CachedDrop(f.c, cache, n, n);
  }

  /** The lookup state seen from the list without its first n chunks. */
  lemma TrackedDropped(m: Memory, r: Memory, f: Shape, k: Look, nodes: seq<Node>, u: nat, n: nat, g: Shape, j: Look,
                       tree: Tree, a: nat, e: nat, cache: Sptr)
    requires Contiguous(f.c) && n < |f.c| && f.c[n].lo <= f.t <= End(f.c) && n <= Find(f.c, f.t) && f.h <= u
    requires Future(nodes, f.t, End(f.c), f.h + f.size) && SameFrom(m, r, f.c, n)
    requires EnqSide(m, f.c, k.enqTree, k.from, k.to, k.oooEnq, k.enqInit, f.t, nodes)
    requires Run(m, f.c, tree, a, e, false) && (a < e ==> a == n) && (!k.deqInit ==> a >= e) && Cached(f.c, cache, n)
    requires g.c == f.c[n..] && g.t == f.t && g.h == u && g.size == f.size
    requires j == k.(from := if k.from < k.to && n <= k.from then k.from - n else 0,
                     to := if k.from < k.to && n <= k.to then k.to - n else 0,
                     deqTree := tree, deqTo := if a < e then e - n else 0, oooDeq := cache)
    ensures Tracked(r, g, j, nodes) && (k.from < k.to ==> n <= k.from)
  {
    hide Find, Run, Contiguous, SameFrom, EnqSide, DeqSide, Cached, Future, Tracked;
    EnqHeaded(m, r, f, k, nodes, n);
    DeqHeaded(m, r, f, k, n, tree, a, e, cache);
    DropContiguous(f.c, n);
    FutureTop(nodes, f.t, End(f.c), f.h + f.size, u + f.size);
    TrackedIntro(r, g, j, nodes);
  }

  /** The lookup state after the head moved to u; the dequeue run was cut to start at the new first chunk. */
  lemma TrackedHeaded(m: Memory, r: Memory, w: map<Sptr, Place>, f: Shape, k: Look, nodes: seq<Node>, u: nat,
                      tree: Tree, a: nat, e: nat, cache: Sptr)
    requires Laid(m, w, f) && f.c != [] && f.h <= u <= f.t && Future(nodes, f.t, End(f.c), f.h + f.size)
    requires EnqSide(m, f.c, k.enqTree, k.from, k.to, k.oooEnq, k.enqInit, f.t, nodes)
    requires Run(m, f.c, tree, a, e, false) && (a < e ==> a == DropCount(f.c, u)) && (!k.deqInit ==> a >= e)
    requires Cached(f.c, cache, DropCount(f.c, u))
    requires SameFrom(m, r, f.c, DropCount(f.c, u))
    ensures var n := DropCount(f.c, u);
            && (k.from < k.to ==> n <= k.from) && (a < e ==> n <= a)
            && Tracked(r, Headed(f, u), HeadedLook(k, n, tree, a, e, cache), nodes)
  {
    hide Find, Run, Contiguous, Layout, Spots, Laid, SameFrom, DropCount, EnqSide, DeqSide, Cached, Future, Headed,
         HeadedLook, Tracked;
    PassedFacts(f, u, m, w);
    var n := DropCount(f.c, u);
    EnqHeaded(m, r, f, k, nodes, n);
    HeadedFacts(f, u, m, w, k, tree, a, e, cache);
    HeadedRuns(k, n, tree, a, e, cache);
    TrackedDropped(m, r, f, k, nodes, u, n, Headed(f, u), HeadedLook(k, n, tree, a, e, cache), tree, a, e, cache);
  }

  lemma TrackedIntro(m: Memory, f: Shape, k: Look, nodes: seq<Node>)
    requires f.c != [] && Future(nodes, f.t, End(f.c), f.h + f.size)
    requires EnqSide(m, f.c, k.enqTree, k.from, k.to, k.oooEnq, k.enqInit, f.t, nodes)
    requires DeqSide(m, f.c, k.deqTree, k.deqTo, k.oooDeq, k.deqInit)
    ensures Tracked(m, f, k, nodes)
  {
  }

  lemma HeadedRuns(k: Look, n: nat, tree: Tree, a: nat, e: nat, cache: Sptr)
    requires (k.from < k.to ==> n <= k.from) && (a < e ==> n <= a)
    ensures var r := HeadedLook(k, n, tree, a, e, cache);
            && r.from == (if k.from < k.to then k.from - n else 0) && r.to == (if k.from < k.to then k.to - n else 0)
            && r.deqTo == if a < e then e - n else 0
  {
  }

  lemma FutureTop(nodes: seq<Node>, t: nat, end: nat, top: nat, more: nat)
    requires Future(nodes, t, end, top) && top <= more
    ensures Future(nodes, t, end, more)
  {
  }

  /** What walking to the new first chunk needs to know. */
  lemma WalkFacts(m: Memory, place: map<Sptr, Place>, f: Shape, k: Look, nodes: seq<Node>, u: nat)
    requires Laid(m, place, f) && Tracked(m, f, k, nodes) && f.h <= u <= f.t
    ensures Run(m, f.c, k.deqTree, 0, k.deqTo, false) && k.deqTo <= |f.c|
    ensures f.c != [] && f.c[0].lo <= u <= f.t <= End(f.c) && f.start == f.c[0].ptr && f.start != 0
  {
    hide EnqSide;
    ChainedFacts(m, f.c);
  }

  /** A cached chunk that starts before the end of chunk number n is given up. */
  lemma CacheKept(m: Memory, place: map<Sptr, Place>, f: Shape, x: Sptr, n: nat)
    requires Laid(m, place, f) && Cached(f.c, x, 0) && x != 0 && n < |f.c|
    ensures x in m && f.c[n].ptr in m
    ensures !PosLt(m[x].start, ChunkEnd(m[f.c[n].ptr])) ==> Cached(f.c, x, n)
  {
    hide Wrap, ChunkEnd, PosLt;
    var c := f.c;
    var i :| 0 <= i < |c| && c[i].ptr == x;
    assert LinkAt(m, c, i);
    assert LinkAt(m, c, n);
    SpotsSpan(c, f.h, f.t, f.size);
    LiveChunk(m, c, f.h, f.t, f.size, n, c[0].lo);
    assert c[0].lo <= c[i].lo && c[i].hi <= End(c) && c[0].lo <= c[n].lo && c[n].hi <= End(c);
    Order(c[i].lo, c[n].hi);
    if i < n {
      assert c[i].hi <= c[n].lo;
    }
  }

  lemma EnqFlags(m: Memory, q: Memory, f: Shape, k: Look, nodes: seq<Node>)
    requires Tracked(m, f, k, nodes) && FlagsOnly(m, q, false, f.c)
    ensures EnqSide(q, f.c, k.enqTree, k.from, k.to, k.oooEnq, k.enqInit, f.t, nodes) && f.c != []
    ensures Future(nodes, f.t, End(f.c), f.h + f.size) && Cached(f.c, k.oooDeq, 0) && (!k.deqInit ==> k.deqTo == 0)
  {
    hide FlagsOnly;
    RunOther(m, q, f.c, k.enqTree, k.from, k.to, true);
  }

  /** Cutting the passed chunks off: they form a list of handed-out chunks. */
  lemma CutFacts(m: Memory, w: map<Sptr, Place>, f: Shape, u: nat, n: nat, size: nat, b: nat)
    requires Laid(m, w, f) && f.h <= u <= f.t && f.c != [] && n == DropCount(f.c, u) > 0 && MemOk(m, w, size)
    requires Regions(m, b)
    ensures n < |f.c| && f.c[n - 1].ptr in m && f.start == f.c[0].ptr
    ensures var q := m[f.c[n - 1].ptr := m[f.c[n - 1].ptr].(next := 0)];
            && Listed(q, PtrsOf(f.c, n), f.start) && SameFrom(m, q, f.c, n) && MemOk(q, w, size) && Regions(q, b)
    ensures |PtrsOf(f.c, n)| == n
    ensures forall i ::
              0 <= i < n ==>
                PtrsOf(f.c, n)[i] in w && w[PtrsOf(f.c, n)[i]].used && w[PtrsOf(f.c, n)[i]].slice == f.slice
  {
    hide MemOk, Regions, Find, Spots, Listed, Chained, Holds;
    PassedFacts(f, u, m, w);
    CutList(m, f.c, n);
    RelinkMem(m, w, size, b, f.c[n - 1].ptr, 0);
  }

  lemma HeadedStart(f: Shape, u: nat, m: Memory, place: map<Sptr, Place>)
    requires Laid(m, place, f) && f.h <= u <= f.t
    ensures f.c != [] && DropCount(f.c, u) < |f.c| && Headed(f, u).start == PtrAt(f.c, DropCount(f.c, u))
    ensures PtrAt(f.c, DropCount(f.c, u) - 1) == 0 <==> DropCount(f.c, u) == 0
  {
    hide Find, Spots, Contiguous;
    PassedFacts(f, u, m, place);
    ChainedFacts(m, f.c);
  }

  lemma CachedNone(c: seq<Link>, n: nat)
    ensures Cached(c, 0, n)
  {
  }

  /** A head that stays in the first chunk unlinks nothing. */
  lemma HeadStays(m: Memory, place: map<Sptr, Place>, f: Shape, k: Look, nodes: seq<Node>, u: nat)
    requires Laid(m, place, f) && Tracked(m, f, k, nodes) && f.h <= u <= f.t && f.c != [] && u < f.c[0].hi
    ensures Laid(m, place, f.(h := u)) && Tracked(m, f.(h := u), k, nodes) && DropCount(f.c, u) == 0
  {
    hide EnqSide, DeqSide, Layout;
  }

  lemma ContentsHead(f: Shape, nodes: seq<Node>, g: Shape)
    requires g.cells == f.cells && g.t == f.t
    ensures Contents(g, nodes) == Contents(f, nodes).(h := g.h)
  {
  }

  /** The chunks that hold head and tail are the same in the shortened list. */
  lemma HolderDrop(m: Memory, place: map<Sptr, Place>, f: Shape, u: nat, n: nat)
    requires Laid(m, place, f) && f.h <= u <= f.t && f.c != [] && n == DropCount(f.c, u)
    ensures n < |f.c| && Holder(f.c[n..], u) == Holder(f.c, u) && Holder(f.c[n..], f.t) == Holder(f.c, f.t)
  {
    hide Find, Spots, Layout, DropCount, Contiguous, Holder;
    PassedFacts(f, u, m, place);
    HolderKept(f.c, n, u);
    HolderKept(f.c, n, f.t);
  }

  /** What the code reads about the window and the first chunk. */
  lemma HeadFacts(m: Memory, place: map<Sptr, Place>, f: Shape, u: nat)
    requires Laid(m, place, f) && f.h <= u <= f.t
    ensures f.c != [] && f.start in m && f.start == f.c[0].ptr && f.c[0].lo <= f.h <= u <= f.t <= End(f.c)
    ensures Minus(Wrap(f.t), Wrap(f.h)) == f.t - f.h <= MAX_FIFO && Plus(Wrap(f.h), u - f.h) == Wrap(u)
    ensures PosGeq(Wrap(u), ChunkEnd(m[f.start])) <==> u >= f.c[0].hi
    ensures IncludesPos(m[f.start], Wrap(u)) <==> f.c[0].lo <= u < f.c[0].hi
  {
    hide Wrap, Minus, Plus, PosGeq, ChunkEnd, IncludesPos;
    Distance(f.t, f.h);
    WrapPlus(f.h, u - f.h);
    LiveChunk(m, f.c, f.h, f.t, f.size, 0, u);
  }

  lemma TakeFacts(m: Memory, place: map<Sptr, Place>, f: Shape, nodes: seq<Node>, u: nat, dst: seq<byte>)
    requires Laid(m, place, f) && f.h <= u <= f.t && SliceIs(dst, f.cells, f.h, u)
    ensures |dst| == u - f.h && Reads(Contents(f, nodes), f.h, dst) && Contents(f, nodes).h == f.h
    ensures Contents(f, nodes).t == f.t
  {
    hide Reads, Written;
    LaidElim(m, place, f);
    ReadsOut(f, nodes, f.h, u - f.h);
  }

  lemma HolderAt(c: seq<Link>, p: nat)
    ensures Holder(c, p) == PtrAt(c, Find(c, p))
  {
  }

  lemma FirstHolds(c: seq<Link>, u: nat)
    requires c != []
    ensures u < c[0].hi ==> Holder(c, u) == c[0].ptr
  {
  }

  lemma NothingDropped(c: seq<Link>, u: nat)
    requires c != [] && u < c[0].hi
    ensures DropCount(c, u) == 0 && c[0..] == c
  {
  }

  /** What looking up a position of the window needs to know. */
  lemma DeqFacts(m: Memory, place: map<Sptr, Place>, f: Shape, k: Look, nodes: seq<Node>, p: nat, len: nat)
    requires Laid(m, place, f) && Tracked(m, f, k, nodes) && f.c != [] && f.h <= p < End(f.c) && p + len <= f.t
    ensures Run(m, f.c, k.deqTree, 0, k.deqTo, false) && k.deqTo <= |f.c| && (!k.deqInit ==> k.deqTo == 0)
    ensures f.c[0].lo <= p && Contiguous(f.c) && len < TWO32 && Plus(Wrap(p), len) == Wrap(p + len)
    ensures p + len <= End(f.c)
    ensures f.start == PtrAt(f.c, 0)
    ensures k.oooDeq != 0 ==> k.oooDeq in m && (IncludesPos(m[k.oooDeq], Wrap(p)) ==> k.oooDeq == Holder(f.c, p))
  {
    hide Find, EnqSide, Wrap, Plus, IncludesPos;
    WrapPlus(p, len);
    if k.oooDeq != 0 {
      var i :| 0 <= i < |f.c| && f.c[i].ptr == k.oooDeq;
      FindCompare(m, place, f.slice, f.c, f.cells, f.start, f.end, f.h, f.t, f.size, i, p);
    }
  }

  /** What a peek hands out, and caching the chunk behind it. */
  lemma PeekFacts(m: Memory, place: map<Sptr, Place>, f: Shape, k: Look, nodes: seq<Node>, p: nat, n: nat,
                  dst: seq<byte>)
    requires Laid(m, place, f) && Tracked(m, f, k, nodes) && f.h <= p && p + n <= f.t && SliceIs(dst, f.cells, p, p + n)
    ensures |dst| == n && Reads(Contents(f, nodes), p, dst) && Contents(f, nodes).h == f.h
    ensures Contents(f, nodes).t == f.t
    ensures Tracked(m, f, k.(oooDeq := Holder(f.c, p + n)), nodes)
  {
    hide Reads, Written, EnqSide, Run, Layout, Find, Holder;
    LaidElim(m, place, f);
    ReadsOut(f, nodes, p, n);
    CachedHolder(f.c, p, p + n);
  }

  // ---- A new fifo ----

  lemma FlagsClear(m: Memory, q: Memory, d: seq<Link>, enq: bool)
    requires PlacedUpTo(m, q, d, |d|)
    ensures Run(q, d, Leaf, 0, 0, enq)
  {
    forall i | 0 <= i < |d|
      ensures FlagAt(q, d, 0, 0, enq, i)
    {
    }
  }

  lemma NewFifo(m: Memory, q: Memory, place: map<Sptr, Place>, f: Shape, l: seq<Sptr>, enqInit: bool, deqInit: bool)
    requires Listed(m, l, f.start) && l != [] && f.c == LinksFrom(m, l, 0) && Chained(q, f.c)
    requires PlacedUpTo(m, q, f.c, |l|)
    requires forall i :: 0 <= i < |l| ==> l[i] in m && 0 < m[l[i]].length <= MAX_CHUNK
    requires forall i :: 0 <= i < |l| ==> l[i] in place && place[l[i]].used && place[l[i]].slice == f.slice
    requires 0 < f.size <= MAX_FIFO && Total(m, l) <= f.size + SLACK
    requires f.h == 0 && f.t == 0 && f.cells == Bytes(q, f.c) && f.end == l[|l| - 1]
    ensures Laid(q, place, f) && Tracked(q, f, Look(Leaf, 0, 0, 0, enqInit, Leaf, 0, 0, deqInit), [])
    ensures Holder(f.c, 0) == f.start && Contents(f, []) == Queue(0, 0, map[])
  {
    hide Layout, Spots, Chained, Listed, LinksFrom, Bytes, Total, Run, PlacedUpTo;
    InitLayout(m, q, place, f.slice, l, f.start, f.size);
    GrowFacts(m, l, f.start, 0);
    FlagsClear(m, q, f.c, true);
    FlagsClear(m, q, f.c, false);
    assert Written(f.cells, 0, []) == map[];
    assert f.c[0].lo < f.c[0].hi;
  }

  lemma TrackedInit(m: Memory, f: Shape, k: Look, nodes: seq<Node>)
    requires Tracked(m, f, k, nodes)
    ensures Tracked(m, f, k.(enqInit := true), nodes) && Tracked(m, f, k.(deqInit := true), nodes)
  {
  }

  // ---- What an operation leaves alone ----

  /** Only chunks of c changed. */
  ghost predicate Only(m: Memory, q: Memory, c: seq<Link>) {
    q.Keys == m.Keys && forall p :: p in m && p !in Ptrs(c) ==> q[p] == m[p]
  }

  lemma OnlyNone(m: Memory, c: seq<Link>)
    ensures Only(m, m, c)
  {
  }

  lemma OnlyTwice(m: Memory, q: Memory, r: Memory, c: seq<Link>)
    requires Only(m, q, c) && Only(q, r, c)
    ensures Only(m, r, c)
  {
  }

  lemma OnlyData(m: Memory, q: Memory, c: seq<Link>)
    requires SameButData(m, q, c)
    ensures Only(m, q, c)
  {
  }

  lemma OnlyFlags(m: Memory, q: Memory, enq: bool, c: seq<Link>)
    requires FlagsOnly(m, q, enq, c)
    ensures Only(m, q, c)
  {
  }

  /**
   The list was c and is now d. Chunks handed out to others are untouched, and every chunk handed out now is in d or was
   handed out to others before: nothing is taken from others, and nothing that leaves the list stays handed out.
   */
  ghost predicate Apart(m: Memory, q: Memory, w: map<Sptr, Place>, v: map<Sptr, Place>, c: seq<Link>, d: seq<Link>) {
    && (forall p :: p in w && w[p].used && p !in Ptrs(c) ==>
          p in v && v[p] == w[p] && p !in Ptrs(d) && (p in m ==> p in q && q[p] == m[p]))
    && (forall p :: p in v && v[p].used && p !in Ptrs(d) ==> p in w && w[p].used && p !in Ptrs(c))
  }

  lemma OnlyApart(m: Memory, q: Memory, w: map<Sptr, Place>, c: seq<Link>)
    requires Only(m, q, c)
    ensures Apart(m, q, w, w, c, c)
  {
  }

  lemma ApartNone(m: Memory, w: map<Sptr, Place>, c: seq<Link>)
    ensures Apart(m, m, w, w, c, c)
  {
  }

  lemma ApartTwice(m: Memory, q: Memory, r: Memory, w: map<Sptr, Place>, v: map<Sptr, Place>, x: map<Sptr, Place>,
                   c: seq<Link>, d: seq<Link>, e: seq<Link>)
    requires Apart(m, q, w, v, c, d) && Apart(q, r, v, x, d, e)
    ensures Apart(m, r, w, x, c, e)
  {
  }

  lemma ApartOnly(m: Memory, q: Memory, r: Memory, w: map<Sptr, Place>, v: map<Sptr, Place>, c: seq<Link>, d: seq<Link>)
    requires Apart(m, q, w, v, c, d) && Only(q, r, d)
    ensures Apart(m, r, w, v, c, d)
  {
    OnlyApart(q, r, v, d);
    ApartTwice(m, q, r, w, v, v, c, d, d);
  }

  lemma OnlyThenApart(m: Memory, q: Memory, r: Memory, w: map<Sptr, Place>, v: map<Sptr, Place>, c: seq<Link>,
                      d: seq<Link>)
    requires Only(m, q, c) && Apart(q, r, w, v, c, d)
    ensures Apart(m, r, w, v, c, d)
  {
    OnlyApart(m, q, w, c);
    ApartTwice(m, q, r, w, w, v, c, c, d);
  }

  /** Growing takes chunks only from the free lists. */
  lemma GrowApart(m: Memory, m1: Memory, m2: Memory, w: map<Sptr, Place>, v: map<Sptr, Place>, f: Shape, got: seq<Sptr>,
                  first: Sptr)
    requires Laid(m, w, f) && Granting(m, m1, m2, w, v, f, got, first) && f.end in m2
    ensures var r := Relinked(m2, f.end, first); Apart(m, r, w, v, f.c, GrownShape(f, m1, r, got).c)
  {
    hide Laid, Granting, Ptrs, Bytes, LinksFrom;
    GrantingSome(m, m1, m2, w, v, f, got, first);
    var d, r := LinksFrom(m1, got, End(f.c)), Relinked(m2, f.end, first);
    PtrsUnion(f.c, d);
    forall p | p in w && w[p].used && p !in Ptrs(f.c)
      ensures p in v && v[p] == w[p] && p !in Ptrs(f.c + d) && (p in m ==> p in r && r[p] == m[p])
    {
      GrowOther(m, m1, m2, w, v, f, got, first, p);
    }
    forall p | p in v && v[p].used && p !in Ptrs(f.c + d)
      ensures p in w && w[p].used && p !in Ptrs(f.c)
    {
      GrowOwn(m, m1, m2, w, v, f, got, first, p);
    }
  }

  lemma GrantingSome(m: Memory, m1: Memory, m2: Memory, w: map<Sptr, Place>, v: map<Sptr, Place>, f: Shape,
                     got: seq<Sptr>, first: Sptr)
    requires Granting(m, m1, m2, w, v, f, got, first)
    ensures got != [] && f.c != []
  {
  }

  lemma GrowOwn(m: Memory, m1: Memory, m2: Memory, w: map<Sptr, Place>, v: map<Sptr, Place>, f: Shape, got: seq<Sptr>,
                first: Sptr, p: Sptr)
    requires Granting(m, m1, m2, w, v, f, got, first) && p in v && v[p].used && p !in Ptrs(LinksFrom(m1, got, End(f.c)))
    ensures p in w && w[p].used
  {
    hide Chained, Listed, Total, LinksFrom, PlacedUpTo;
    var d := LinksFrom(m1, got, End(f.c));
    GrowFacts(m1, got, first, End(f.c));
    InPtrs(d);
    PtrsHas(d);
    forall i | 0 <= i < |got|
      ensures got[i] != p
    {
      assert d[i].ptr in Ptrs(d);
    }
  }

  lemma GrowOther(m: Memory, m1: Memory, m2: Memory, w: map<Sptr, Place>, v: map<Sptr, Place>, f: Shape, got: seq<Sptr>,
                  first: Sptr, p: Sptr)
    requires Laid(m, w, f) && Granting(m, m1, m2, w, v, f, got, first) && f.end in m2
    requires p in w && w[p].used && p !in Ptrs(f.c)
    ensures p in v && v[p] == w[p] && p !in Ptrs(LinksFrom(m1, got, End(f.c)))
    ensures p in m ==> p in m2 && Relinked(m2, f.end, first)[p] == m[p]
  {
    hide Spots, Holds, Chained, Listed, Total, LinksFrom;
    var d := LinksFrom(m1, got, End(f.c));
    GrowFacts(m1, got, first, End(f.c));
    InPtrs(d);
    PtrsHas(d);
    assert f.c[|f.c| - 1].ptr in Ptrs(f.c);
    forall i | 0 <= i < |d|
      ensures d[i].ptr != p
    {
      assert d[i].ptr == got[i];
    }
  }

  /** A failed growth changes nothing that is handed out. */
  lemma KeptApart(m: Memory, q: Memory, w: map<Sptr, Place>, v: map<Sptr, Place>, got: seq<Sptr>, f: Shape)
    requires Granted(m, q, w, v, got, f.slice) && got == [] && Laid(m, w, f)
    ensures Apart(m, q, w, v, f.c, f.c)
  {
    hide Spots, Chained, Holds;
    InPtrs(f.c);
    PtrsHas(f.c);
    forall p | p in Ptrs(f.c)
      ensures p in w && w[p].used
    {
      var i :| 0 <= i < |f.c| && f.c[i].ptr == p;
    }
  }

  /** Unlinked chunks are given back, all of them and nothing else. */
  lemma ShrinkApart(m: Memory, q: Memory, r: Memory, w: map<Sptr, Place>, v: map<Sptr, Place>, c: seq<Link>, n: nat)
    requires 0 < n <= |c| && DistinctPtrs(c) && Only(m, q, c) && Released(q, r, w, v, PtrsOf(c, n))
    ensures Apart(m, r, w, v, c, c[n..])
  {
    var l, d := PtrsOf(c, n), c[n..];
    InPtrs(c);
    PtrsHas(c);
    InPtrs(d);
    PtrsHas(d);
    forall i | 0 <= i < |d|
      ensures d[i].ptr in Ptrs(c)
    {
      assert d[i] == c[n + i];
    }
    forall i | n <= i < |c|
      ensures c[i].ptr in Ptrs(d)
    {
      assert d[i - n] == c[i];
    }
    forall p | p in Ptrs(c) && p !in Ptrs(d)
      ensures p in l
    {
      var i :| 0 <= i < |c| && c[i].ptr == p;
      assert l[i] == p;
    }
    forall p | p in l
      ensures p in Ptrs(c)
    {
      var i :| 0 <= i < |l| && l[i] == p;
      assert c[i].ptr == p;
    }
  }

  lemma CutApart(m: Memory, q: Memory, r: Memory, w: map<Sptr, Place>, v: map<Sptr, Place>, f: Shape, n: nat)
    requires Laid(m, w, f) && 0 < n <= |f.c| && f.c[n - 1].ptr in m
    requires q == m[f.c[n - 1].ptr := m[f.c[n - 1].ptr].(next := 0)]
    requires Released(q, r, w, v, PtrsOf(f.c, n))
    ensures Apart(m, r, w, v, f.c, f.c[n..])
  {
    hide Spots, Holds, Released, PtrsOf, Apart, LinkAt;
    ChainedFacts(m, f.c);
    InPtrs(f.c);
    PtrsHas(f.c);
    ShrinkApart(m, q, r, w, v, f.c, n);
  }

  lemma LaidList(m: Memory, place: map<Sptr, Place>, f: Shape)
    requires Laid(m, place, f)
    ensures f.c != [] && Contiguous(f.c) && f.c[0].lo <= f.h <= f.c[0].hi && f.start == f.c[0].ptr
    ensures f.end == f.c[|f.c| - 1].ptr
    ensures forall i :: 0 < i < |f.c| ==> f.c[i - 1].hi == f.c[i].lo
  {
  }

  lemma HolderEnd(c: seq<Link>)
    requires c != [] && Contiguous(c)
    ensures Holder(c, End(c)) == 0
  {
    FindEnd(c);
  }

  lemma PlacedOnly(m: Memory, q: Memory, d: seq<Link>, l: seq<Sptr>)
    requires PlacedUpTo(m, q, d, |d|) && |d| == |l| && forall i :: 0 <= i < |d| ==> d[i].ptr == l[i]
    ensures Only(m, q, d) && Ptrs(d) == Elems(l)
  {
    InPtrs(d);
    PtrsHas(d);
    forall p
      ensures p in Ptrs(d) <==> p in Elems(l)
    {
      if p in Elems(l) {
        var i :| 0 <= i < |l| && l[i] == p;
        assert d[i].ptr == p;
      }
    }
  }
}
