/**
 The chunk list of a fifo inside the segment: placing freshly allocated chunks, the chunk
 that holds a position, storing bytes, growing at the end and shrinking at the front.
 */
module FifoLayout {
  import opened Positions
  import opened Chunks
  import opened SizeClasses
  import opened FreeLists
  import opened Segments

  const MAX_FIFO: nat := 0x4000_0000

  /** How far the chunk list may reach past the window: more than any first allocation and its rounding. */
  const SLACK: nat := 0x400_0000

  /** Every chunk of the list is handed out to the slice. */
  ghost predicate AllUsed(place: map<Sptr, Place>, c: seq<Link>, s: nat) {
    forall i :: 0 <= i < |c| ==> c[i].ptr in place && place[c[i].ptr].used && place[c[i].ptr].slice == s
  }

  /** The chunk list of a fifo: linked, contiguous, owned, and holding the bytes of cells. */
  ghost predicate Layout(m: Memory, place: map<Sptr, Place>, s: nat, c: seq<Link>, cells: seq<byte>, start: Sptr,
                         end: Sptr) {
    && Chained(m, c) && Holds(m, c, cells) && AllUsed(place, c, s)
    && start == c[0].ptr && end == c[|c| - 1].ptr
  }

  /** Where head and tail lie in the chunk list, and how far the list reaches. */
  ghost predicate Spots(c: seq<Link>, h: nat, t: nat, size: nat) {
    && c != [] && Contiguous(c)
    && c[0].lo <= h <= c[0].hi <= c[0].lo + MAX_CHUNK
    && h <= t <= End(c) && t <= h + size <= h + MAX_FIFO
    && End(c) <= h + size + SLACK
  }

  /** All live positions lie within half a lap of each other. */
  lemma SpotsSpan(c: seq<Link>, h: nat, t: nat, size: nat)
    requires Spots(c, h, t, size)
    ensures End(c) - c[0].lo < TWO31 - MAX_CHUNK
    ensures c[0].lo <= h <= t <= End(c)
  {
  }

  lemma SpotsFacts(c: seq<Link>, h: nat, t: nat, size: nat)
    requires Spots(c, h, t, size)
    ensures c != [] && Contiguous(c) && c[0].lo <= h <= t <= End(c)
  {
  }

  lemma LayoutFacts(m: Memory, place: map<Sptr, Place>, s: nat, c: seq<Link>, cells: seq<byte>, start: Sptr, end: Sptr)
    requires Layout(m, place, s, c, cells, start, end)
    ensures c != [] && Chained(m, c) && Holds(m, c, cells) && AllUsed(place, c, s) && |cells| == End(c) && Contiguous(c)
    ensures start == c[0].ptr && end == c[|c| - 1].ptr
  {
  }

  /** Chunk i and a live position: everything the code reads there, without wrap-around. */
  lemma LiveChunk(m: Memory, c: seq<Link>, h: nat, t: nat, size: nat, i: nat, p: int)
    requires Chained(m, c) && Spots(c, h, t, size) && i < |c| && c[0].lo <= p <= End(c) + MAX_CHUNK
    ensures c[i].ptr != 0 && c[i].ptr in m
    ensures c[0].lo <= c[i].lo < c[i].hi <= End(c) && c[i].hi - c[i].lo <= MAX_CHUNK
    ensures var k := m[c[i].ptr];
            && k.next == PtrAt(c, i + 1)
            && k.start == Wrap(c[i].lo) && k.length == c[i].hi - c[i].lo == |k.data|
            && ChunkEnd(k) == Wrap(c[i].hi)
            && (IncludesPos(k, Wrap(p)) <==> c[i].lo <= p < c[i].hi)
            && (PosGt(Wrap(p), ChunkEnd(k)) <==> p > c[i].hi)
            && (PosGeq(Wrap(p), ChunkEnd(k)) <==> p >= c[i].hi)
            && (c[i].lo <= p ==> Minus(Wrap(p), k.start) == p - c[i].lo)
            && (p <= c[i].hi ==> Minus(ChunkEnd(k), Wrap(p)) == c[i].hi - p)
  {
    hide Wrap, ChunkEnd, IncludesPos, PosGt, PosGeq, Minus;
    assert LinkAt(m, c, i);
    assert c[0].lo <= c[i].lo && c[i].hi <= End(c);
    ChunkFacts(m, c, i, p);
  }

  ghost function PlacedChunk(k: Chunk, lo: nat): Chunk {
    k.(start := Wrap(lo), inEnq := false, inDeq := false)
  }

  /** The first j chunks of d have been given their start positions; nothing else changed. */
  ghost predicate PlacedUpTo(m: Memory, q: Memory, d: seq<Link>, j: nat) {
    && q.Keys == m.Keys && j <= |d|
    && (forall i :: 0 <= i < j ==> d[i].ptr in m && q[d[i].ptr] == PlacedChunk(m[d[i].ptr], d[i].lo))
    && (forall p :: p in m && (forall i :: 0 <= i < j ==> d[i].ptr != p) ==> q[p] == m[p])
  }

  lemma PlacedNext(m: Memory, q: Memory, d: seq<Link>, j: nat, r: Memory)
    requires PlacedUpTo(m, q, d, j) && j < |d| && DistinctPtrs(d) && d[j].ptr in m
    requires d[j].ptr in q && r == q[d[j].ptr := PlacedChunk(q[d[j].ptr], d[j].lo)]
    ensures q[d[j].ptr] == m[d[j].ptr] && PlacedUpTo(m, r, d, j + 1)
  {
    forall p | p in m && (forall i :: 0 <= i < j + 1 ==> d[i].ptr != p)
      ensures r[p] == m[p]
    {
      assert d[j].ptr != p;
      assert forall i :: 0 <= i < j ==> d[i].ptr != p;
    }
  }

  /** A list whose chunks all have their start positions is a chunk list over its range. */
  lemma PlacedChain(m: Memory, q: Memory, l: seq<Sptr>, c: Sptr, lo: nat)
    requires Listed(m, l, c) && l != []
    requires forall i :: 0 <= i < |l| ==> l[i] in m && 0 < m[l[i]].length == |m[l[i]].data| <= MAX_CHUNK
    requires PlacedUpTo(m, q, LinksFrom(m, l, lo), |l|)
    ensures Chained(q, LinksFrom(m, l, lo))
  {
    hide LinksFrom, Contiguous, Total, Wrap;
    LinksFacts(m, l, lo);
    var d := LinksFrom(m, l, lo);
    forall i | 0 <= i < |d|
      ensures LinkAt(q, d, i)
    {
      assert NextAt(m, l, i);
    }
  }

  lemma LinksDistinct(m: Memory, l: seq<Sptr>, c: Sptr, lo: nat)
    requires Listed(m, l, c)
    requires forall i :: 0 <= i < |l| ==> l[i] in m && m[l[i]].length > 0
    ensures DistinctPtrs(LinksFrom(m, l, lo))
  {
    LinksFacts(m, l, lo);
  }

  /** Gives the chunks of a list consecutive start positions from lo on and clears their index flags. */
  method PlaceChunks(seg: Segment, first: Sptr, start: u32, ghost l: seq<Sptr>, ghost lo: nat) returns (last: Sptr)
    requires seg.Valid() && Listed(seg.mem, l, first) && l != [] && start == Wrap(lo)
    requires forall i ::
               0 <= i < |l| ==> l[i] in seg.mem && 0 < seg.mem[l[i]].length == |seg.mem[l[i]].data| <= MAX_CHUNK
    modifies seg`mem
    ensures seg.Valid() && last == l[|l| - 1]
    ensures PlacedUpTo(old(seg.mem), seg.mem, LinksFrom(old(seg.mem), l, lo), |l|)
    ensures Chained(seg.mem, LinksFrom(old(seg.mem), l, lo))
  {
    hide Chained, MemOk, ListsOk, Regions, Counters, CarvedBytes, Wrap, Plus, PlacedUpTo, Listed, Contiguous, LinksFrom,
         PlacedChunk;
    ghost var m0, d, j := seg.mem, LinksFrom(seg.mem, l, lo), 0;
    PlaceBegin(m0, l, first, lo);
    var cur, pos := first, start;
    last := first;
    while cur != 0
      invariant 0 <= j <= |l| && cur == (if j < |l| then l[j] else 0) && (j < |l| ==> cur != 0)
      invariant seg.Valid() && PlacedUpTo(m0, seg.mem, d, j)
      invariant j > 0 ==> last == l[j - 1]
      invariant j < |l| ==> pos == Wrap(d[j].lo)
      decreases |l| - j
    {
      PlaceStepLink(m0, l, first, lo, j);
      PlaceStep(m0, seg.mem, d, j, seg.place, |seg.slices|, seg.byteIndex);
      seg.mem := seg.mem[cur := seg.mem[cur].(start := pos, inEnq := false, inDeq := false)];
      pos := Plus(pos, Wrap(seg.mem[cur].length));
      last, cur, j := cur, seg.mem[cur].next, j + 1;
    }
    PlacedChain(m0, seg.mem, l, first, lo);
  }

  lemma PlaceBegin(m: Memory, l: seq<Sptr>, first: Sptr, lo: nat)
    requires Listed(m, l, first) && l != []
    requires forall i :: 0 <= i < |l| ==> l[i] in m && m[l[i]].length > 0
    ensures first == l[0] && first != 0
    ensures var d := LinksFrom(m, l, lo); |d| == |l| && d[0].lo == lo && PlacedUpTo(m, m, d, 0)
  {
    LinksFacts(m, l, lo);
    ListWalk(m, l, first, 0);
  }

  /** One step of the placement loop: where it goes next. */
  lemma PlaceStepLink(m0: Memory, l: seq<Sptr>, first: Sptr, lo: nat, j: nat)
    requires Listed(m0, l, first) && j < |l|
    requires forall i :: 0 <= i < |l| ==> l[i] in m0 && 0 < m0[l[i]].length <= MAX_CHUNK
    ensures l[j] in m0 && m0[l[j]].next == (if j + 1 < |l| then l[j + 1] else 0) && (j + 1 < |l| ==> l[j + 1] != 0)
    ensures var d := LinksFrom(m0, l, lo);
            && |d| == |l| && DistinctPtrs(d) && d[j].ptr == l[j]
            && (j + 1 < |l| ==> Plus(Wrap(d[j].lo), Wrap(m0[l[j]].length)) == Wrap(d[j + 1].lo))
  {
    hide Contiguous, Wrap, Plus, LinksFrom, Listed, DistinctPtrs;
    var d := LinksFrom(m0, l, lo);
    LinksFacts(m0, l, lo);
    LinksDistinct(m0, l, first, lo);
    ListWalk(m0, l, first, j);
    if j + 1 < |l| {
      ListWalk(m0, l, first, j + 1);
      NextLo(d, j);
    }
    WrapSmall(m0[l[j]].length);
    WrapPlus(d[j].lo, m0[l[j]].length);
  }

  /** One step of the placement loop: what it writes. */
  lemma PlaceStep(m0: Memory, q: Memory, d: seq<Link>, j: nat, place: map<Sptr, Place>, n: nat, b: nat)
    requires j < |d| && d[j].ptr in m0 && DistinctPtrs(d) && PlacedUpTo(m0, q, d, j)
    requires MemOk(q, place, n) && Regions(q, b)
    ensures d[j].ptr in q && q[d[j].ptr] == m0[d[j].ptr]
    ensures var r := q[d[j].ptr := q[d[j].ptr].(start := Wrap(d[j].lo), inEnq := false, inDeq := false)];
            PlacedUpTo(m0, r, d, j + 1) && MemOk(r, place, n) && Regions(r, b)
  {
    hide MemOk, Regions, Wrap, DistinctPtrs, PlacedUpTo;
    PlacedKeys(m0, q, d, j);
    var r := q[d[j].ptr := q[d[j].ptr].(start := Wrap(d[j].lo), inEnq := false, inDeq := false)];
    PlacedNext(m0, q, d, j, r);
    TouchMem(q, r, place, n, b);
  }

  lemma InitHolds(q: Memory, d: seq<Link>)
    requires Chained(q, d) && d[0].lo == 0
    ensures Holds(q, d, Bytes(q, d))
  {
    forall j | 0 <= j < |d|
      ensures DataAt(q, d, j)
    {
      assert LinkAt(q, d, j);
    }
    forall i | 0 <= i < |d|
      ensures CellsAt(q, d, Bytes(q, d), i)
    {
      BytesFacts(q, d, i);
    }
    BytesFacts(q, d, 0);
  }

  lemma InitLayout(m: Memory, q: Memory, place: map<Sptr, Place>, s: nat, l: seq<Sptr>, start: Sptr, size: nat)
    requires Listed(m, l, start) && l != [] && Chained(q, LinksFrom(m, l, 0))
    requires forall i :: 0 <= i < |l| ==> l[i] in m && 0 < m[l[i]].length <= MAX_CHUNK
    requires forall i :: 0 <= i < |l| ==> l[i] in place && place[l[i]].used && place[l[i]].slice == s
    requires 0 < size <= MAX_FIFO && Total(m, l) <= size + SLACK
    ensures var d := LinksFrom(m, l, 0);
            && Layout(q, place, s, d, Bytes(q, d), start, l[|l| - 1]) && Spots(d, 0, 0, size)
  {
    hide Chained, Holds, LinksFrom, Bytes, Total, Listed;
    var d := LinksFrom(m, l, 0);
    LinksFacts(m, l, 0);
    InitHolds(q, d);
    ListWalk(m, l, start, 0);
    LayoutIntro(q, place, s, d, Bytes(q, d), start, l[|l| - 1]);
  }

  lemma UsedSizes(m: Memory, place: map<Sptr, Place>, n: nat, l: seq<Sptr>)
    requires MemOk(m, place, n) && forall i :: 0 <= i < |l| ==> l[i] in place
    ensures forall i :: 0 <= i < |l| ==> l[i] in m && 0 < m[l[i]].length == |m[l[i]].data| <= MAX_CHUNK
  {
    forall i | 0 <= i < |l|
      ensures l[i] in m && 0 < m[l[i]].length == |m[l[i]].data| <= MAX_CHUNK
    {
      ChunkFactsOf(m, place, n, l[i]);
      ClassBounds(place[l[i]].cls);
    }
  }

  lemma PlacedKeys(m: Memory, q: Memory, d: seq<Link>, j: nat)
    requires PlacedUpTo(m, q, d, j)
    ensures q.Keys == m.Keys
  {
  }

  lemma NextLo(d: seq<Link>, j: nat)
    requires Contiguous(d) && j < |d|
    ensures j + 1 < |d| ==> d[j + 1].lo == d[j].hi
  {
    assert j + 1 < |d| ==> d[j + 1 - 1].hi == d[j + 1].lo;
  }

  lemma ListWalk(m: Memory, l: seq<Sptr>, c: Sptr, j: nat)
    requires Listed(m, l, c)
    ensures c == (if l == [] then 0 else l[0])
    ensures j < |l| ==> l[j] != 0 && l[j] in m && m[l[j]].next == if j + 1 < |l| then l[j + 1] else 0
  {
    assert j < |l| ==> NextAt(m, l, j);
  }

  /** Only the bytes of chunks of c changed. */
  ghost predicate SameButData(m: Memory, q: Memory, c: seq<Link>) {
    q.Keys == m.Keys && forall p :: p in m ==> q[p] == m[p].(data := q[p].data) && (p !in Ptrs(c) ==> q[p] == m[p])
  }

  lemma StoreLayout(m: Memory, place: map<Sptr, Place>, n: nat, s: nat, c: seq<Link>, cells: seq<byte>, start: Sptr,
                    end: Sptr,
                    i: nat, off: nat, x: seq<byte>, b: nat)
    requires Layout(m, place, s, c, cells, start, end) && MemOk(m, place, n) && Regions(m, b)
    requires i < |c| && off + |x| <= c[i].hi - c[i].lo
    ensures c[i].ptr in m && off + |x| <= |m[c[i].ptr].data| && c[i].lo + off + |x| <= |cells|
    ensures var q := m[c[i].ptr := m[c[i].ptr].(data := Overwrite(m[c[i].ptr].data, off, x))];
            && Layout(q, place, s, c, Overwrite(cells, c[i].lo + off, x), start, end)
            && MemOk(q, place, n) && Regions(q, b) && SameButData(m, q, c)
  {
    hide MemOk, Regions, Holds, Overwrite;
    assert c[i].ptr in Ptrs(c);
    assert LinkAt(m, c, i);
    LayoutFacts(m, place, s, c, cells, start, end);
    assert c[i].hi <= End(c);
    var q := m[c[i].ptr := m[c[i].ptr].(data := Overwrite(m[c[i].ptr].data, off, x))];
    OverwriteSize(m[c[i].ptr].data, off, x);
    WriteCells(m, c, cells, i, c[i].lo + off, x, q);
    TouchMem(m, q, place, n, b);
  }

  lemma LayoutIntro(m: Memory, place: map<Sptr, Place>, s: nat, c: seq<Link>, cells: seq<byte>, start: Sptr, end: Sptr)
    requires c != [] && Chained(m, c) && Holds(m, c, cells) && AllUsed(place, c, s)
    requires start == c[0].ptr && end == c[|c| - 1].ptr
    ensures Layout(m, place, s, c, cells, start, end)
  {
  }

  // ---- The chunk that holds a position ----

  /** Everything the code reads from the chunk that holds live position p. */
  lemma HolderFacts(m: Memory, place: map<Sptr, Place>, s: nat, c: seq<Link>, cells: seq<byte>, start: Sptr, end: Sptr,
                    h: nat, t: nat, size: nat, p: nat)
    requires Layout(m, place, s, c, cells, start, end) && Spots(c, h, t, size) && c[0].lo <= p < End(c)
    ensures var i := Find(c, p);
            && i < |c| && Holder(c, p) == c[i].ptr != 0 && c[i].ptr in m
            && c[0].lo <= c[i].lo <= p < c[i].hi <= End(c) == |cells| && c[i].hi - c[i].lo <= MAX_CHUNK
            && (var k := m[c[i].ptr];
                && k.length == c[i].hi - c[i].lo == |k.data| && k.start == Wrap(c[i].lo)
                && IncludesPos(k, Wrap(p)) && Minus(Wrap(p), k.start) == p - c[i].lo
                && k.next == PtrAt(c, i + 1) == Holder(c, c[i].hi) && Find(c, c[i].hi) == i + 1
                && k.data == cells[c[i].lo..c[i].hi])
  {
    hide Wrap, ChunkEnd, IncludesPos, PosGt, PosGeq, Minus;
    FindLocates(c, p);
    var i := Find(c, p);
    SpotsSpan(c, h, t, size);
    LiveChunk(m, c, h, t, size, i, p);
    assert CellsAt(m, c, cells, i);
    FindNext(c, i);
  }

  /** The end of a chunk is held by the next one. */
  lemma FindNext(c: seq<Link>, i: nat)
    requires Contiguous(c) && i < |c|
    ensures Find(c, c[i].hi) == i + 1
  {
    if i + 1 < |c| {
      assert c[i + 1 - 1].hi == c[i + 1].lo;
      FindIs(c, c[i].hi, i + 1);
    } else {
      FindEnd(c);
    }
  }

  /** Positions are found in order. */
  lemma FindMonotone(c: seq<Link>, p: int, q: int)
    requires Contiguous(c) && c != [] && c[0].lo <= p <= q <= End(c)
    ensures Find(c, p) <= Find(c, q) <= |c|
  {
    FindLocates(c, p);
    FindLocates(c, q);
  }

  // ---- Flag changes, growth and shrinking ----

  lemma FlagLayout(m: Memory, k: Chunk, place: map<Sptr, Place>, n: nat, s: nat, c: seq<Link>, cells: seq<byte>,
                   start: Sptr, end: Sptr,
                   x: Sptr, b: nat)
    requires Layout(m, place, s, c, cells, start, end) && MemOk(m, place, n) && Regions(m, b)
    requires x in m && SameButFlags(m[x], k)
    ensures var q := m[x := k]; Layout(q, place, s, c, cells, start, end) && MemOk(q, place, n) && Regions(q, b)
  {
    hide MemOk, Regions;
    var q := m[x := k];
    forall i | 0 <= i < |c|
      ensures c[i].ptr in m && c[i].ptr in q && SameButFlags(m[c[i].ptr], q[c[i].ptr])
    {
      assert LinkAt(m, c, i);
    }
    SameChain(m, c, q, cells);
    TouchMem(m, q, place, n, b);
  }

  /** Freshly granted chunks are none of the fifo's own. */
  lemma GrantApart(m: Memory, q: Memory, w: map<Sptr, Place>, v: map<Sptr, Place>, got: seq<Sptr>, s: nat, c: seq<Link>)
    requires Granted(m, q, w, v, got, s) && AllUsed(w, c, s) && Chained(m, c)
    ensures AllUsed(v, c, s)
    ensures forall i :: 0 <= i < |c| ==> c[i].ptr in m && c[i].ptr in q && q[c[i].ptr] == m[c[i].ptr]
    ensures forall i, j :: 0 <= i < |c| && 0 <= j < |got| ==> c[i].ptr != got[j]
  {
    forall i | 0 <= i < |c|
      ensures c[i].ptr in m && c[i].ptr in q && q[c[i].ptr] == m[c[i].ptr]
    {
      assert LinkAt(m, c, i);
    }
  }

  /** What the fifo's chunks and the new chunks look like once the new ones are placed and linked. */
  lemma GrowMemory(m: Memory, q: Memory, c: seq<Link>, d: seq<Link>, first: Sptr)
    requires PlacedUpTo(m, q, d, |d|) && c != [] && DistinctPtrs(c)
    requires forall i, j :: 0 <= i < |c| && 0 <= j < |d| ==> c[i].ptr != d[j].ptr
    requires forall i :: 0 <= i < |c| ==> c[i].ptr in m
    ensures c[|c| - 1].ptr in q
    ensures var r := q[c[|c| - 1].ptr := q[c[|c| - 1].ptr].(next := first)];
            && (forall i :: 0 <= i < |c| ==> c[i].ptr in r)
            && (forall i :: 0 <= i < |c| - 1 ==> r[c[i].ptr] == m[c[i].ptr])
            && r[c[|c| - 1].ptr] == m[c[|c| - 1].ptr].(next := first)
            && (forall j :: 0 <= j < |d| ==> d[j].ptr in r && r[d[j].ptr] == q[d[j].ptr])
            && (forall j :: 0 <= j < |d| ==> d[j].ptr in r && !r[d[j].ptr].inEnq && !r[d[j].ptr].inDeq)
  {
    forall i | 0 <= i < |c|
      ensures q[c[i].ptr] == m[c[i].ptr]
    {
    }
  }

  lemma SameLinks(m: Memory, r: Memory, d: seq<Link>)
    requires Chained(m, d) && forall j :: 0 <= j < |d| ==> d[j].ptr in m && d[j].ptr in r && r[d[j].ptr] == m[d[j].ptr]
    ensures Chained(r, d)
  {
    forall j | 0 <= j < |d|
      ensures LinkAt(r, d, j)
    {
      assert LinkAt(m, d, j);
    }
  }

  /** Linking placed chunks behind the last chunk appends them to the fifo. */
  lemma GrowLayout(m: Memory, m1: Memory, m2: Memory, w: map<Sptr, Place>, v: map<Sptr, Place>, s: nat, c: seq<Link>,
                   cells: seq<byte>,
                   start: Sptr, end: Sptr, got: seq<Sptr>, first: Sptr)
    requires Layout(m, w, s, c, cells, start, end) && Granted(m, m1, w, v, got, s) && Listed(m1, got, first)
    requires got != []
    requires forall i :: 0 <= i < |got| ==> got[i] in m1 && m1[got[i]].length > 0
    requires var d := LinksFrom(m1, got, End(c)); PlacedUpTo(m1, m2, d, |got|) && Chained(m2, d)
    ensures end in m2
    ensures var r := m2[end := m2[end].(next := first)];
            var d := LinksFrom(m1, got, End(c));
            && Layout(r, v, s, c + d, cells + Bytes(r, d), start, got[|got| - 1])
            && d != [] && Contiguous(d) && d[0].lo == End(c) && d[0].ptr == first != 0
            && End(d) == End(c + d) == End(c) + Total(m1, got)
            && (forall i :: 0 <= i < |c| ==>
                  c[i].ptr != 0 && c[i].ptr in m && c[i].ptr in r && SameFlags(m[c[i].ptr], r[c[i].ptr]))
            && (forall j :: 0 <= j < |d| ==> d[j].ptr in r && !r[d[j].ptr].inEnq && !r[d[j].ptr].inDeq)
  {
    hide LinksFrom, Bytes, PlacedUpTo, Chained, Listed, Granted, AllUsed, Holds, Contiguous, DistinctPtrs, Total;
    ChainedFacts(m, c);
    var d := LinksFrom(m1, got, End(c));
    GrowFacts(m1, got, first, End(c));
    GrantApart(m, m1, w, v, got, s, c);
    GrowMemory(m1, m2, c, d, first);
    var r := m2[end := m2[end].(next := first)];
    ChainedFacts(m2, d);
    SameLinks(m2, r, d);
    JoinChain(m, c, d, r);
    JoinHolds(m, c, d, r, cells);
    GrantUsed(m, m1, w, v, got, s, c, d);
    ConcatContiguous(c, d);
    LayoutIntro(r, v, s, c + d, cells + Bytes(r, d), start, got[|got| - 1]);
  }

  /** The bytes of a stretch of the list, counted chunk by chunk. */
  lemma {:induction false} ChainTotal(m: Memory, c: seq<Link>, k: nat, l: seq<Sptr>)
    requires Chained(m, c) && |l| <= k <= |c| && forall i :: 0 <= i < |l| ==> l[i] == c[k - |l| + i].ptr
    ensures Total(m, l) == if l == [] then 0 else c[k - 1].hi - c[k - |l|].lo
    decreases |l|
  {
    hide Contiguous, DistinctPtrs;
    if l != [] {
      ChainTotal(m, c, k, l[1..]);
      assert LinkAt(m, c, k - |l|);
      if |l| > 1 {
        NextLo(c, k - |l|);
      }
    }
  }

  ghost predicate SameFlags(a: Chunk, b: Chunk) {
    a.inEnq == b.inEnq && a.inDeq == b.inDeq
  }

  lemma ChainedFacts(m: Memory, c: seq<Link>)
    requires Chained(m, c)
    ensures c != [] && DistinctPtrs(c) && Contiguous(c)
    ensures forall i :: 0 <= i < |c| ==> c[i].ptr in m && c[i].ptr != 0
  {
    forall i | 0 <= i < |c|
      ensures c[i].ptr in m && c[i].ptr != 0
    {
      assert LinkAt(m, c, i);
    }
  }

  lemma GrowFacts(m: Memory, got: seq<Sptr>, first: Sptr, lo: nat)
    requires Listed(m, got, first) && got != []
    requires forall i :: 0 <= i < |got| ==> got[i] in m && m[got[i]].length > 0
    ensures var d := LinksFrom(m, got, lo);
            && |d| == |got| && Contiguous(d) && d[0].lo == lo && d[0].ptr == first != 0 && End(d) == lo + Total(m, got)
            && (forall i :: 0 <= i < |d| ==> d[i].ptr == got[i])
  {
    LinksFacts(m, got, lo);
    ListWalk(m, got, first, 0);
  }

  lemma GrantUsed(m: Memory, q: Memory, w: map<Sptr, Place>, v: map<Sptr, Place>, got: seq<Sptr>, s: nat, c: seq<Link>,
                  d: seq<Link>)
    requires Granted(m, q, w, v, got, s) && AllUsed(v, c, s) && |d| == |got|
    requires forall i :: 0 <= i < |d| ==> d[i].ptr == got[i]
    ensures AllUsed(v, c + d, s)
  {
  }

  ghost function PtrsOf(c: seq<Link>, k: nat): seq<Sptr>
    requires k <= |c|
  {
    seq(k, i requires 0 <= i < k => c[i].ptr)
  }

  /** Cutting the list behind chunk k - 1 leaves a null-terminated list of the first k chunks. */
  lemma CutList(m: Memory, c: seq<Link>, k: nat)
    requires Chained(m, c) && 0 < k <= |c|
    ensures c[k - 1].ptr in m
    ensures var q := m[c[k - 1].ptr := m[c[k - 1].ptr].(next := 0)];
            && Listed(q, PtrsOf(c, k), c[0].ptr) && q.Keys == m.Keys
            && (forall i :: k <= i < |c| ==> c[i].ptr in m && c[i].ptr in q && q[c[i].ptr] == m[c[i].ptr])
  {
    var l := PtrsOf(c, k);
    forall i | 0 <= i < |c|
      ensures c[i].ptr in m && (i != k - 1 ==> c[i].ptr != c[k - 1].ptr)
    {
      assert LinkAt(m, c, i);
    }
    var q := m[c[k - 1].ptr := m[c[k - 1].ptr].(next := 0)];
    forall i | 0 <= i < k
      ensures NextAt(q, l, i)
    {
      assert LinkAt(m, c, i);
    }
  }

  /** Once the first k chunks are cut off and given back, the rest is a list over the remaining range. */
  lemma ShrinkLayout(m: Memory, q: Memory, r: Memory, w: map<Sptr, Place>, v: map<Sptr, Place>, s: nat, c: seq<Link>,
                     cells: seq<byte>,
                     start: Sptr, end: Sptr, k: nat)
    requires Layout(m, w, s, c, cells, start, end) && 0 < k < |c|
    requires forall i :: k <= i < |c| ==> c[i].ptr in m && c[i].ptr in q && q[c[i].ptr] == m[c[i].ptr]
    requires Released(q, r, w, v, PtrsOf(c, k))
    ensures Layout(r, v, s, c[k..], cells, c[k].ptr, end)
    ensures forall i :: k <= i < |c| ==> c[i].ptr in m && c[i].ptr in r && r[c[i].ptr] == m[c[i].ptr]
  {
    hide Chained, Holds, Contiguous;
    ChainedFacts(m, c);
    var l := PtrsOf(c, k);
    forall i | k <= i < |c|
      ensures c[i].ptr !in l && c[i].ptr in r && r[c[i].ptr] == m[c[i].ptr]
    {
    }
    DropChain(m, c, k, r, cells);
    forall i | 0 <= i < |c| - k
      ensures c[k..][i].ptr in v && v[c[k..][i].ptr].used && v[c[k..][i].ptr].slice == s
    {
      assert c[k..][i] == c[k + i];
    }
    LayoutIntro(r, v, s, c[k..], cells, c[k].ptr, end);
  }

  // ---- Copying across chunks ----

  /** p is the first position of its chunk. */
  ghost predicate StartsAt(c: seq<Link>, p: nat) {
    Find(c, p) < |c| && c[Find(c, p)].lo == p
  }

  /** Advancing n bytes from p inside the chunk that holds p. */
  lemma Advance(c: seq<Link>, p: nat, n: nat)
    requires Contiguous(c) && c != [] && c[0].lo <= p < End(c)
    ensures var i := Find(c, p);
            && i < |c| && c[i].lo <= p < c[i].hi <= End(c)
            && (p + n < c[i].hi ==> Holder(c, p + n) == c[i].ptr)
            && (p + n == c[i].hi ==> Holder(c, p + n) == PtrAt(c, i + 1) && (p + n < End(c) ==> StartsAt(c, p + n)))
  {
    hide Find, Contiguous;
    FindLocates(c, p);
    var i := Find(c, p);
    Bounds(c, i);
    if p + n < c[i].hi {
      FindIs(c, p + n, i);
    } else if p + n == c[i].hi {
      FindNext(c, i);
      FindLocates(c, p + n);
      NextLo(c, i);
    }
  }

  lemma OverwriteMore(s: seq<byte>, p: nat, src: seq<byte>, a: nat, b: nat)
    requires a <= b <= |src| && p + b <= |s|
    ensures |Overwrite(s, p, src[..a])| == |s|
    ensures Overwrite(Overwrite(s, p, src[..a]), p + a, src[a..b]) == Overwrite(s, p, src[..b])
  {
    OverwriteSize(s, p, src[..a]);
    OverwriteTwice(s, p, src[..a], src[a..b]);
    assert src[..a] + src[a..b] == src[..b];
  }

  lemma SameButDataTwice(m: Memory, q: Memory, r: Memory, c: seq<Link>)
    requires SameButData(m, q, c) && SameButData(q, r, c)
    ensures SameButData(m, r, c)
  {
  }

  lemma SameButDataAt(m: Memory, q: Memory, c: seq<Link>, x: Sptr)
    requires SameButData(m, q, c) && x in m
    ensures x in q && q[x].next == m[x].next && q[x].length == m[x].length && q[x].start == m[x].start
  {
  }

  lemma FindCompare(m: Memory, place: map<Sptr, Place>, s: nat, c: seq<Link>, cells: seq<byte>, start: Sptr, end: Sptr,
                    h: nat, t: nat, size: nat, i: nat, p: nat)
    requires Layout(m, place, s, c, cells, start, end) && Spots(c, h, t, size) && i < |c| && c[0].lo <= p <= End(c)
    ensures c[i].ptr != 0 && c[i].ptr in m
    ensures var k := m[c[i].ptr];
            && k.next == PtrAt(c, i + 1) && k.start == Wrap(c[i].lo)
            && (IncludesPos(k, Wrap(p)) <==> Find(c, p) == i)
            && (p < c[i].lo <==> Find(c, p) < i) && (c[i].hi <= p <==> i < Find(c, p))
            && Find(c, p) <= |c|
  {
    hide Wrap, ChunkEnd, IncludesPos, PosGt, PosGeq, Minus;
    LiveChunk(m, c, h, t, size, i, p);
    FindLocates(c, p);
    if c[i].lo <= p < c[i].hi {
      FindIs(c, p, i);
    }
  }

  lemma SliceOfSlice(s: seq<byte>, lo: nat, hi: nat, p: nat, n: nat)
    requires lo <= p <= p + n <= hi <= |s|
    ensures s[lo..hi][p - lo..p - lo + n] == s[p..p + n]
  {
    var a, b := s[lo..hi][p - lo..p - lo + n], s[p..p + n];
    forall i | 0 <= i < n
      ensures a[i] == b[i]
    {
      assert s[lo..hi][p - lo + i] == s[p + i];
    }
  }

  ghost predicate SliceIs(x: seq<byte>, s: seq<byte>, a: nat, b: nat) {
    a <= b <= |s| && x == s[a..b]
  }

  lemma SliceJoin(x: seq<byte>, y: seq<byte>, s: seq<byte>, a: nat, b: nat, c: nat)
    requires SliceIs(x, s, a, b) && b <= c <= |s| && y == s[b..c]
    ensures SliceIs(x + y, s, a, c)
  {
  }

  lemma SliceIntro(s: seq<byte>, a: nat, b: nat)
    requires a <= b <= |s|
    ensures SliceIs(s[a..b], s, a, b)
  {
  }

  /** Reading inside a chunk reads the bytes at those positions. */
  lemma ReadFacts(m: Memory, place: map<Sptr, Place>, s: nat, c: seq<Link>, cells: seq<byte>, start: Sptr, end: Sptr,
                  h: nat, t: nat, size: nat, p: nat, n: nat)
    requires Layout(m, place, s, c, cells, start, end) && Spots(c, h, t, size) && c[0].lo <= p < End(c)
    requires Find(c, p) < |c| && p + n <= c[Find(c, p)].hi
    ensures p + n <= |cells| && Holder(c, p) in m && c[Find(c, p)].lo <= p
    ensures var k, off := m[Holder(c, p)], p - c[Find(c, p)].lo;
            off + n <= |k.data| && k.data[off..off + n] == cells[p..p + n]
  {
    hide Find, Holder, IncludesPos, Minus, Wrap;
    HolderFacts(m, place, s, c, cells, start, end, h, t, size, p);
    var i := Find(c, p);
    SliceOfSlice(cells, c[i].lo, c[i].hi, p, n);
  }

  /** The chunks of c are the same in both memories. */
  ghost predicate SameOn(m: Memory, q: Memory, c: seq<Link>) {
    forall i :: 0 <= i < |c| ==> c[i].ptr in m && c[i].ptr in q && q[c[i].ptr] == m[c[i].ptr]
  }

  /** Granting chunks to others leaves the fifo's own chunks alone. */
  lemma GrantKeeps(m: Memory, q: Memory, w: map<Sptr, Place>, v: map<Sptr, Place>, got: seq<Sptr>, s: nat, c: seq<Link>,
                   cells: seq<byte>,
                   start: Sptr, end: Sptr)
    requires Layout(m, w, s, c, cells, start, end) && Granted(m, q, w, v, got, s)
    ensures Layout(q, v, s, c, cells, start, end) && SameOn(m, q, c)
  {
    hide Holds, Chained, Granted;
    GrantApart(m, q, w, v, got, s, c);
    SameChain(m, c, q, cells);
  }

  lemma GrantSizes(m: Memory, q: Memory, w: map<Sptr, Place>, v: map<Sptr, Place>, n: nat, got: seq<Sptr>, s: nat)
    requires Granted(m, q, w, v, got, s) && MemOk(q, v, n)
    ensures forall i :: 0 <= i < |got| ==> got[i] in q && 0 < q[got[i]].length == |q[got[i]].data| <= MAX_CHUNK
  {
    UsedSizes(q, v, n, got);
  }

  /** Where the chunk list ends, read from its last chunk. */
  lemma GrantEnd(m: Memory, q: Memory, w: map<Sptr, Place>, v: map<Sptr, Place>, got: seq<Sptr>, s: nat, c: seq<Link>,
                 cells: seq<byte>,
                 start: Sptr, end: Sptr)
    requires Layout(m, w, s, c, cells, start, end) && Granted(m, q, w, v, got, s)
    ensures end in q && q[end].length <= MAX_CHUNK && c != [] && Plus(q[end].start, Wrap(q[end].length)) == Wrap(End(c))
  {
    hide Wrap, Plus;
    assert LinkAt(m, c, |c| - 1);
    WrapSmall(q[end].length);
    WrapPlus(c[|c| - 1].lo, q[end].length);
  }

  lemma RelinkMem(m: Memory, place: map<Sptr, Place>, n: nat, b: nat, x: Sptr, next: Sptr)
    requires MemOk(m, place, n) && Regions(m, b) && x in m
    ensures var q := m[x := m[x].(next := next)]; MemOk(q, place, n) && Regions(q, b)
  {
    TouchMem(m, m[x := m[x].(next := next)], place, n, b);
  }

  /** The last chunk ends the list. */
  lemma LastNext(m: Memory, place: map<Sptr, Place>, s: nat, c: seq<Link>, cells: seq<byte>, start: Sptr, end: Sptr)
    requires Layout(m, place, s, c, cells, start, end)
    ensures end in m && m[end].next == 0 && m[end := m[end].(next := 0)] == m
  {
    assert LinkAt(m, c, |c| - 1);
    assert m[end].(next := 0) == m[end];
  }

  lemma GrowSpots(c: seq<Link>, d: seq<Link>, h: nat, t: nat, size: nat)
    requires Spots(c, h, t, size) && Contiguous(d) && d != [] && d[0].lo == End(c)
    requires End(d) <= h + size + SLACK
    ensures Spots(c + d, h, t, size) && Contiguous(c) && Contiguous(c + d) && c[0].lo <= h <= t <= End(c)
    ensures Find(c + d, h) == Find(c, h) && Find(c + d, t) == Find(c, t)
    ensures Find(c, t) <= |c|
  {
    ConcatContiguous(c, d);
    FindJoin(c, d, h);
    FindJoin(c, d, t);
    FindLocates(c, t);
  }

  /** Which chunks hold head and tail after growth: the same, or the first new chunk if there was none. */
  lemma GrowHolder(c: seq<Link>, d: seq<Link>, h: nat, t: nat)
    requires Find(c + d, h) == Find(c, h) && Find(c + d, t) == Find(c, t) && Find(c, t) <= |c| && d != []
    requires forall i :: 0 <= i < |c| ==> c[i].ptr != 0
    ensures Holder(c, h) == 0 || Holder(c + d, h) == Holder(c, h)
    ensures Holder(c + d, t) == if Holder(c, t) == 0 then d[0].ptr else Holder(c, t)
  {
  }

  lemma PrefixOf<T>(a: seq<T>, b: seq<T>)
    ensures a <= a + b
  {
  }

  lemma OverwriteNone(s: seq<byte>, p: nat)
    requires p <= |s|
    ensures Overwrite(s, p, []) == s
  {
  }

  lemma SameButDataNone(m: Memory, c: seq<Link>)
    ensures SameButData(m, m, c)
  {
  }

  lemma SliceTake(s: seq<byte>, a: nat, n: nat, k: nat)
    requires a + n <= |s| && k <= n
    ensures s[a..a + n][..k] == s[a..a + k]
  {
  }

  lemma HeadedSpots(c: seq<Link>, h: nat, t: nat, size: nat, u: nat, n: nat)
    requires Spots(c, h, t, size) && h <= u <= t && n < |c| && c[n].lo <= u <= c[n].hi <= c[n].lo + MAX_CHUNK
    ensures Spots(c[n..], u, t, size)
  {
    DropContiguous(c, n);
  }

  /** Growth does not move the holder of a position, unless there was none. */
  lemma HolderGrow(c: seq<Link>, d: seq<Link>, p: nat)
    requires Contiguous(c) && Contiguous(d) && c != [] && d != [] && End(c) == d[0].lo && c[0].lo <= p <= End(c)
    ensures Find(c + d, p) == Find(c, p)
    ensures p < End(c) ==> Holder(c + d, p) == Holder(c, p)
    ensures p == End(c) ==> Holder(c, p) == 0 && Holder(c + d, p) == d[0].ptr
  {
    ConcatContiguous(c, d);
    FindJoin(c, d, p);
    FindLocates(c, p);
  }

  /** Dropping chunks from the front does not move the holder of a later position. */
  lemma HolderKept(c: seq<Link>, k: nat, p: nat)
    requires Contiguous(c) && k < |c| && c[k].lo <= p <= End(c)
    ensures Holder(c[k..], p) == Holder(c, p)
  {
    FindDrop(c, k, p);
  }
}
