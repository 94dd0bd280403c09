/**
 Fifos of one segment: allocating a fifo with its first chunks, giving all its chunks back,
 and the accounting over any number of fifos that share the segment's free lists.
 */
module SegmentFifos {
  import opened Arithmetic
  import opened Positions
  import opened Chunks
  import opened SizeClasses
  import opened FreeLists
  import opened Allocation
  import opened AllocationLaws
  import opened Segments
  import opened FifoLayout
  import opened FifoState
  import opened ByteQueue
  import opened Fifos
  import OutOfOrder

  /**
   Bytes allocated with a new fifo: a percentage of its size, in 32-bit arithmetic, but at least the smallest chunk.
   */
  function FirstAlloc(pct: nat, dataBytes: nat): nat {
    Max(Wrap(pct * dataBytes) / 100, 4096)
  }

  lemma ListedChain(m: Memory, c: seq<Link>)
    requires Chained(m, c)
    ensures Listed(m, PtrsOf(c, |c|), c[0].ptr)
  {
    var l := PtrsOf(c, |c|);
    forall i | 0 <= i < |l|
      ensures NextAt(m, l, i)
    {
      assert LinkAt(m, c, i);
    }
  }

  // Bytes of a shared fifo header, the alignment of a batch of them, and how many a batch holds.
  const FIFO_HDR: nat := 192
  const LINE: nat := 64
  const HDR_BATCH: nat := 32

  /** Where the byte index stands once a header has been found: unmoved if one was free, else behind a new batch. */
  function AfterHeader(byteIndex: nat, free: nat): nat {
    if free > 0 then byteIndex else RoundUp(byteIndex, LINE) + RoundUp(FIFO_HDR * HDR_BATCH, LINE)
  }

  lemma HeaderBytes(index: nat)
    ensures AfterHeader(index, 0) == RoundUp(index, 64) + 6144
  {
  }

  /** The fifo headers of a segment: how many are free in each slice, and how many were ever carved. */
  class HeaderPool {
    var free: seq<nat>
    ghost var made: seq<nat>

    ghost predicate Valid(seg: Segment)
      reads this, seg
    {
      |free| == |made| == |seg.slices|
    }

    constructor (nSlices: nat)
      ensures free == made == seq(nSlices, _ => 0)
    {
      free, made := seq(nSlices, _ => 0), seq(nSlices, _ => 0);
    }

    /** Takes a free header, carving a batch when there is none. */
    method Take(seg: Segment, s: nat) returns (ok: bool)
      requires Valid(seg) && seg.Valid() && s < |seg.slices|
      modifies this, seg`byteIndex
      ensures seg.Valid() && |free| == |made| == |old(free)|
      ensures ok <==> old(HeaderThere(seg.byteIndex, free[s], seg.maxByteIndex))
      ensures ok ==> seg.byteIndex == old(AfterHeader(seg.byteIndex, free[s]))
      ensures !ok ==> free == old(free) && made == old(made) && seg.byteIndex == old(seg.byteIndex)
      ensures ok <==> old(free[s]) > 0 || RoundUp(old(seg.byteIndex), 64) + 6144 < seg.maxByteIndex
      ensures made[s] == old(made[s]) + if ok && old(free[s]) == 0 then 32 else 0
      ensures ok ==> made[s] + old(free[s]) == old(made[s]) + free[s] + 1
      ensures ok ==> free == old(free)[s := (if old(free[s]) > 0 then old(free[s]) else HDR_BATCH) - 1]
      ensures forall i :: 0 <= i < |free| && i != s ==> made[i] == old(made)[i]
    {
      hide MemOk, ListsOk, Regions, Counters, CarvedBytes, RoundUp;
      HeaderBytes(seg.byteIndex);
      if free[s] == 0 {
        var pos := seg.AllocAligned(FIFO_HDR * HDR_BATCH, LINE);
        if pos == 0 {
          return false;
        }
        seg.MovedOn(old(seg.byteIndex));
        free, made := free[s := HDR_BATCH], made[s := made[s] + HDR_BATCH];
      }
      free := free[s := free[s] - 1];
      ok := true;
    }

    /** Puts a header back. */
    method Give(s: nat)
      requires s < |free|
      modifies this`free
      ensures free == old(free)[s := old(free)[s] + 1]
    {
      free := free[s := free[s] + 1];
    }
  }

  /** Gives all chunks of a fifo back, and its header. */
  method FreeFifo(f: Fifo, pool: HeaderPool)
    requires f.Valid() && pool.Valid(f.seg)
    modifies f.seg, pool
    ensures f.seg.Valid() && Apart(old(f.seg.mem), f.seg.mem, old(f.seg.place), f.seg.place, f.chain, [])
    ensures |f.seg.slices| == |old(f.seg.slices)| && f.slice < |f.seg.slices| && pool.made == old(pool.made)
    ensures Settles(old(f.seg.slices), f.seg.slices, f.slice, f.seg.byteIndex, old(f.Returned(|f.chain|)))
    ensures f.seg.maxByteIndex == old(f.seg.maxByteIndex)
    ensures pool.Valid(f.seg) && pool.free == old(pool.free)[f.slice := old(pool.free)[f.slice] + 1]
  {
    hide Laid, Tracked, MemOk, ListsOk, Regions, Counters, CarvedBytes, Listed, Released, Apart, PtrsOf, Total, Wrap,
         Holder, Settles, Leaves, Restock, Returning, Sizes, SizesOf, Stock;
    ghost var m, w, s0, o := f.seg.mem, f.seg.place, f.seg.slices, f.Returned(|f.chain|);
    f.BaseElim();
    OfferOfFacts(f.seg, f.slice);
    ReturningIs(f.Offer(), f.Sh(), |f.chain|);
    ChunkSizes(m, w, f.Sh(), |f.chain|, m);
    FreeFacts(m, w, f.Sh());
    FewBytes(m, w, f.Sh(), |f.chain|, m);
    f.seg.Collect(f.slice, f.startChunk, PtrsOf(f.chain, |f.chain|));
    SettlesIntro(s0, f.seg.slices, f.slice, f.seg.byteIndex, o);
    AllApart(m, f.seg.mem, w, f.seg.place, f.Sh());
    pool.Give(f.slice);
  }

  lemma FreeFacts(m: Memory, w: map<Sptr, Place>, f: Shape)
    requires Laid(m, w, f)
    ensures Listed(m, PtrsOf(f.c, |f.c|), f.start) && |PtrsOf(f.c, |f.c|)| == |f.c|
    ensures forall i ::
              0 <= i < |f.c| ==>
                PtrsOf(f.c, |f.c|)[i] in w && w[PtrsOf(f.c, |f.c|)[i]].used && w[PtrsOf(f.c, |f.c|)[i]].slice == f.slice
  {
    hide Listed, Holds, Spots;
    ListedChain(m, f.c);
  }

  lemma AllApart(m: Memory, r: Memory, w: map<Sptr, Place>, v: map<Sptr, Place>, f: Shape)
    requires Laid(m, w, f) && Released(m, r, w, v, PtrsOf(f.c, |f.c|))
    ensures Apart(m, r, w, v, f.c, [])
  {
    hide Holds, Spots, Apart, PtrsOf, Released, LinkAt;
    ChainedFacts(m, f.c);
    OnlyNone(m, f.c);
    ShrinkApart(m, m, r, w, v, f.c, |f.c|);
    assert f.c[|f.c|..] == [];
  }

  /** A header can be had: one is free, or a batch of them fits. */
  predicate HeaderThere(index: nat, free: nat, max: nat) {
    free > 0 || AfterHeader(index, free) < max
  }

  /** What creating a fifo takes from the segment: nothing when it is too large or there is no header. */
  ghost function Founding(u: Supply, free: nat, size: nat, pct: nat, maxBytes: nat): Outcome {
    var at := AfterHeader(u.index, free);
    if size > maxBytes || !HeaderThere(u.index, free, u.max) || |u.stock| != N_CLASSES || at > u.max then
      Outcome(0, u.stock, u.index)
    else Allocate(u.stock, at, u.max, FirstAlloc(pct, size))
  }

  /** The free headers afterwards; the header of a fifo without chunks goes back. */
  ghost function HeadersLeft(u: Supply, free: nat, size: nat, pct: nat, maxBytes: nat): int {
    if size > maxBytes || !HeaderThere(u.index, free, u.max) then free
    else
      (if free > 0 then free else HDR_BATCH)
      - if Founding(u, free, size, pct, maxBytes).total > 0 then 1 else 0
  }

  lemma FoundingIs(u: Supply, free: nat, size: nat, pct: nat, maxBytes: nat)
    requires size <= maxBytes && HeaderThere(u.index, free, u.max) && |u.stock| == N_CLASSES && u.index <= u.max
    ensures AfterHeader(u.index, free) <= u.max
    ensures var o := Allocate(u.stock, AfterHeader(u.index, free), u.max, FirstAlloc(pct, size));
            && Founding(u, free, size, pct, maxBytes) == o
            && HeadersLeft(u, free, size, pct, maxBytes)
               == (if free > 0 then free else HDR_BATCH) - if o.total > 0 then 1 else 0
  {
    hide Allocate, FirstAlloc, RoundUp;
  }

  /**
   A fifo can be created: its size is allowed, a header is free or a batch of 32 of 192 bytes fits at a multiple of
   64, and behind it its first n bytes can be allocated.
   */
  ghost predicate CanFound(u: Supply, free: nat, size: nat, maxBytes: nat, n: nat) {
    var at := if free > 0 then u.index else RoundUp(u.index, 64) + 6144;
    && size <= maxBytes && (free > 0 || at < u.max) && |u.stock| == N_CLASSES && at <= u.max
    && Serves(u.stock, at, u.max, n, FreelistForSize(n))
  }

  lemma FoundingIff(u: Supply, free: nat, size: nat, pct: nat, maxBytes: nat)
    requires |u.stock| == N_CLASSES && ChunkBytes(u.stock, N_CLASSES) <= u.index <= u.max <= MAX_SEGMENT
    ensures Founding(u, free, size, pct, maxBytes).total > 0
            <==> CanFound(u, free, size, maxBytes, FirstAlloc(pct, size))
  {
    hide Allocate, FirstAlloc, RoundUp, AfterHeader, Serves, FreelistForSize;
    HeaderBytes(u.index);
    RoundUpIs(u.index, 64);
    FirstAllocBounds(pct, size);
    HeaderNone(u.index, free);
    if size <= maxBytes && HeaderThere(u.index, free, u.max) {
      AllocateIff(u.stock, AfterHeader(u.index, free), u.max, FirstAlloc(pct, size));
    }
  }

  lemma HeaderNone(index: nat, free: nat)
    ensures AfterHeader(index, free) == if free > 0 then index else AfterHeader(index, 0)
  {
  }

  lemma FoundingNot(u: Supply, free: nat, size: nat, pct: nat, maxBytes: nat)
    requires size > maxBytes || !HeaderThere(u.index, free, u.max)
    ensures Founding(u, free, size, pct, maxBytes) == Outcome(0, u.stock, u.index)
    ensures HeadersLeft(u, free, size, pct, maxBytes) == free
  {
    hide Allocate, FirstAlloc, RoundUp;
  }

  /**
   Takes a header and allocates the first chunks of a new fifo. It fails exactly when the fifo is too large, when
   there is no header and no room for a batch of them, or when the allocation fails; then the header goes back.
   */
  method AllocFifo(seg: Segment, pool: HeaderPool, slice: nat, dataBytes: nat, pct: nat, maxBytes: nat)
    returns (f: Fifo?)
    requires seg.Valid() && pool.Valid(seg) && slice < |seg.slices| && 0 < dataBytes <= MAX_FIFO && pct < 256
    modifies seg, pool
    ensures seg.Valid() && pool.Valid(seg) && |seg.slices| == |old(seg.slices)|
    ensures var o := old(Founding(OfferOf(seg, slice), pool.free[slice], dataBytes, pct, maxBytes));
            && (f == null <==> o.total == 0) && (f != null ==> f.chain != [] && End(f.chain) == o.total)
            && Settles(old(seg.slices), seg.slices, slice, seg.byteIndex, o)
            && seg.maxByteIndex == old(seg.maxByteIndex)
    ensures f != null <==>
              old(CanFound(OfferOf(seg, slice), pool.free[slice], dataBytes, maxBytes, FirstAlloc(pct, dataBytes)))
    ensures pool.made[slice] == old(pool.made[slice])
              + if dataBytes <= maxBytes && old(pool.free[slice]) == 0
                   && RoundUp(old(seg.byteIndex), 64) + 6144 < seg.maxByteIndex then 32 else 0
    ensures var n := old(HeadersLeft(OfferOf(seg, slice), pool.free[slice], dataBytes, pct, maxBytes));
            n >= 0 && pool.free == old(pool.free)[slice := n]
    ensures f == null ==> Apart(old(seg.mem), seg.mem, old(seg.place), seg.place, [], [])
    ensures f != null ==>
              && fresh(f) && f.seg == seg && f.slice == slice && f.size == dataBytes && f.Valid()
              && f.View() == Queue(0, 0, map[]) && f.minAlloc == MinAlloc(dataBytes) && !f.enqInit && !f.deqInit
    ensures f != null ==>
              FirstShare(pct, dataBytes, End(f.chain),
                         old(OwnClass(OfferOf(seg, slice), pool.free[slice], FirstAlloc(pct, dataBytes))))
    ensures f != null ==> Apart(old(seg.mem), seg.mem, old(seg.place), seg.place, [], f.chain)
    ensures f != null ==> dataBytes <= maxBytes && fresh(f.ooo)
    ensures pool.made[slice] + old(pool.free[slice])
            == old(pool.made[slice]) + pool.free[slice] + if f == null then 0 else 1
    ensures forall i :: 0 <= i < |pool.free| && i != slice ==> pool.made[i] == old(pool.made)[i]
  {
    hide MemOk, ListsOk, Regions, Counters, CarvedBytes, Listed, Total, Apart, Granted, Only, Ptrs, Elems, FirstAlloc,
         FreelistForSize, Laid, Tracked, Wrap, Holder, Contents, AfterHeader, Allocate, Founding, HeadersLeft, Settles,
         Leaves, Stock, FirstShare, OwnClass, Serves, CanFound, RoundUp;
    ApartNone(seg.mem, seg.place, []);
    OfferOfFacts(seg, slice);
    seg.StockCounted(slice);
    ghost var u, free := OfferOf(seg, slice), pool.free[slice];
    FoundingIff(u, free, dataBytes, pct, maxBytes);
    if dataBytes > maxBytes {
      FoundingNot(u, free, dataBytes, pct, maxBytes);
      return null;
    }
    var minSize := FirstAlloc(pct, dataBytes);
    FirstAllocBounds(pct, dataBytes);
    var ok := pool.Take(seg, slice);
    if !ok {
      FoundingNot(u, free, dataBytes, pct, maxBytes);
      return null;
    }
    FoundingIs(u, free, dataBytes, pct, maxBytes);
    ghost var m, w := seg.mem, seg.place;
    var c: Sptr;
    ghost var got: seq<Sptr>;
    c, got := seg.AllocChunk(slice, minSize);
    SettlesIntro(old(seg.slices), seg.slices, slice, seg.byteIndex, Founding(u, free, dataBytes, pct, maxBytes));
    ListedNull(seg.mem, got, c);
    GrantedFacts(m, seg.mem, w, seg.place, got, slice);
    if c == 0 {
      pool.Give(slice);
      return null;
    }
    ghost var m1 := seg.mem;
    var g := new Fifo(seg, slice, dataBytes);
    g.Init(c, got);
    NewApart(m, m1, seg.mem, w, seg.place, got, slice, g.chain);
    FoundingShare(u, free, dataBytes, pct, maxBytes);
    return g;
  }

  lemma FirstAllocBounds(pct: nat, dataBytes: nat)
    ensures 4096 <= FirstAlloc(pct, dataBytes) <= TWO32 / 100
  {
    hide Wrap;
  }

  /** The first allocation is the percentage of the size, at least 4096 bytes, exactly when the product fits 32 bits. */
  lemma FirstAllocIff(pct: nat, dataBytes: nat)
    ensures FirstAlloc(pct, dataBytes) == Max(pct * dataBytes / 100, 4096) <==> pct * dataBytes < TWO32
  {
    hide Wrap;
    ShareIff(pct * dataBytes);
  }

  lemma ShareIff(x: nat)
    ensures Max(Wrap(x) / 100, 4096) == Max(x / 100, 4096) <==> x < TWO32
  {
    if x >= TWO32 {
      assert Wrap(x) <= x - TWO32;
      assert x / 100 >= 42949672;
      assert Wrap(x) / 100 <= (x - TWO32) / 100 < x / 100;
    }
  }

  /**
   All of a fifo of 1 GB is asked for, and the product is a multiple of 2^32: one chunk of 4096 bytes is allocated.
   */
  lemma FirstAllocWraps()
    ensures FirstAlloc(100, 0x4000_0000) == 4096
  {
  }

  /**
   A fifo that starts with end bytes got at least its percentage; served by one class, by the smallest that has it.
   */
  ghost predicate FirstShare(pct: nat, dataBytes: nat, end: nat, direct: bool) {
    var x := pct * dataBytes;
    && (x < TWO32 && x / 100 <= MAX_SIZE ==> x < 100 * (end + 1) && 4096 <= end)
    && (x < TWO32 && direct && end > 4096 ==> 50 * end < x)
  }

  /** The request's own class has a chunk or room for one, once the header has its place. */
  ghost predicate OwnClass(u: Supply, free: nat, n: nat) {
    var at, k := AfterHeader(u.index, free), FreelistForSize(n);
    |u.stock| == N_CLASSES && at <= u.max && (u.stock[k] > 0 || ClassFits(at, u.max, ClassSize(k)))
  }

  lemma FoundingShare(u: Supply, free: nat, size: nat, pct: nat, maxBytes: nat)
    requires Founding(u, free, size, pct, maxBytes).total > 0
    ensures FirstShare(pct, size, Founding(u, free, size, pct, maxBytes).total,
                       OwnClass(u, free, FirstAlloc(pct, size)))
  {
    hide Allocate, Wrap, FreelistForSize, ClassSize, FirstAlloc, AfterHeader, ClassFits, CanCarve, RoundUp;
    var n, at := FirstAlloc(pct, size), AfterHeader(u.index, free);
    FirstAllocIff(pct, size);
    FirstAllocBounds(pct, size);
    AllocateCovers(u.stock, at, u.max, n);
    var k := FreelistForSize(n);
    CanCarveIff(at, u.max, k);
    FreelistCovers(n);
    ClassBounds(k);
    if k > 0 {
      ClassBounds(k - 1);
    } else {
      ClassBounds0();
    }
  }

  lemma GrantedFacts(m: Memory, q: Memory, w: map<Sptr, Place>, v: map<Sptr, Place>, got: seq<Sptr>, s: nat)
    requires Granted(m, q, w, v, got, s)
    ensures forall i :: 0 <= i < |got| ==> got[i] in v && v[got[i]].used && v[got[i]].slice == s
    ensures got == [] ==> Apart(m, q, w, v, [], [])
  {
  }

  /** The chunks of a new fifo were free before. */
  lemma NewApart(m: Memory, q: Memory, r: Memory, w: map<Sptr, Place>, v: map<Sptr, Place>, got: seq<Sptr>, s: nat,
                 c: seq<Link>)
    requires Granted(m, q, w, v, got, s) && Only(q, r, c) && Ptrs(c) == Elems(got)
    ensures Apart(m, r, w, v, [], c)
  {
  }

  // ---- All fifos of a segment together ----

  ghost predicate InFifo(fs: seq<Shape>, i: int, p: Sptr) {
    0 <= i < |fs| && p in Ptrs(fs[i].c)
  }

  /** Every fifo is intact, and the chunks handed out are exactly those linked in fifos, each in one of them. */
  ghost predicate Fleet(m: Memory, w: map<Sptr, Place>, fs: seq<Shape>) {
    && (forall i :: 0 <= i < |fs| ==> Laid(m, w, fs[i]))
    && (forall i, j, p :: InFifo(fs, i, p) && InFifo(fs, j, p) ==> i == j)
    && (forall p :: p in w && w[p].used ==> exists i :: InFifo(fs, i, p))
  }

  lemma OwnUsed(m: Memory, w: map<Sptr, Place>, f: Shape, p: Sptr)
    requires Laid(m, w, f) && p in Ptrs(f.c)
    ensures p in w && w[p].used && p in m
  {
    hide Spots, Holds;
    ChainedFacts(m, f.c);
    InPtrs(f.c);
    PtrsHas(f.c);
    var i :| 0 <= i < |f.c| && f.c[i].ptr == p;
  }

  lemma ListIntact(m: Memory, q: Memory, w: map<Sptr, Place>, v: map<Sptr, Place>, c: seq<Link>, d: seq<Link>,
                   g: Shape)
    requires Apart(m, q, w, v, c, d) && Laid(m, w, g) && Ptrs(g.c) !! Ptrs(c)
    ensures Laid(q, v, g) && Ptrs(g.c) !! Ptrs(d) && SameOn(m, q, g.c)
  {
    hide Spots, Holds, Chained;
    InPtrs(g.c);
    PtrsHas(g.c);
    forall i | 0 <= i < |g.c|
      ensures g.c[i].ptr in m && g.c[i].ptr in q && q[g.c[i].ptr] == m[g.c[i].ptr] && g.c[i].ptr in v
      ensures v[g.c[i].ptr] == w[g.c[i].ptr]
    {
      OwnUsed(m, w, g, g.c[i].ptr);
    }
    SameChain(m, g.c, q, g.cells);
    forall p | p in Ptrs(g.c)
      ensures p !in Ptrs(d)
    {
      OwnUsed(m, w, g, p);
    }
  }

  /** An operation on one fifo leaves every other fifo intact: its chunk list, its bytes and its lookup state. */
  lemma OthersIntact(m: Memory, q: Memory, w: map<Sptr, Place>, v: map<Sptr, Place>, c: seq<Link>, d: seq<Link>,
                     g: Shape, k: Look, nodes: seq<OutOfOrder.Node>)
    requires Apart(m, q, w, v, c, d) && Laid(m, w, g) && Tracked(m, g, k, nodes) && Ptrs(g.c) !! Ptrs(c)
    ensures Laid(q, v, g) && Tracked(q, g, k, nodes) && Ptrs(g.c) !! Ptrs(d)
  {
    hide Laid, Tracked, Apart, Ptrs, SameOn, SameButData;
    ListIntact(m, q, w, v, c, d, g);
    TrackedSame(m, q, g, k, nodes);
  }

  lemma Disjoint(fs: seq<Shape>, i: nat, j: nat)
    requires (forall i, j, p :: InFifo(fs, i, p) && InFifo(fs, j, p) ==> i == j) && i < |fs| && j < |fs| && i != j
    ensures Ptrs(fs[i].c) !! Ptrs(fs[j].c)
  {
    forall p | p in Ptrs(fs[i].c)
      ensures p !in Ptrs(fs[j].c)
    {
      assert InFifo(fs, i, p);
      assert InFifo(fs, j, p) ==> i == j;
    }
  }

  /** An operation on fifo i keeps the fleet. */
  lemma FleetStep(m: Memory, q: Memory, w: map<Sptr, Place>, v: map<Sptr, Place>, fs: seq<Shape>, i: nat, g: Shape)
    requires Fleet(m, w, fs) && i < |fs| && Apart(m, q, w, v, fs[i].c, g.c) && Laid(q, v, g)
    ensures Fleet(q, v, fs[i := g])
  {
    hide Laid, Ptrs;
    var gs := fs[i := g];
    forall j | 0 <= j < |fs| && j != i
      ensures Laid(q, v, gs[j]) && Ptrs(gs[j].c) !! Ptrs(g.c)
    {
      Disjoint(fs, j, i);
      ListIntact(m, q, w, v, fs[i].c, g.c, fs[j]);
    }
    forall j, k, p | InFifo(gs, j, p) && InFifo(gs, k, p)
      ensures j == k
    {
      if j != i && k != i {
        assert InFifo(fs, j, p) && InFifo(fs, k, p);
      }
    }
    forall p | p in v && v[p].used
      ensures exists j :: InFifo(gs, j, p)
    {
      if p in Ptrs(g.c) {
        assert InFifo(gs, i, p);
      } else {
        var j :| InFifo(fs, j, p);
        assert InFifo(gs, j, p);
      }
    }
  }

  /** A new fifo joins the fleet. */
  lemma FleetAlloc(m: Memory, q: Memory, w: map<Sptr, Place>, v: map<Sptr, Place>, fs: seq<Shape>, g: Shape)
    requires Fleet(m, w, fs) && Apart(m, q, w, v, [], g.c) && Laid(q, v, g)
    ensures Fleet(q, v, fs + [g])
  {
    hide Laid;
    var gs, n := fs + [g], |fs|;
    forall j | 0 <= j < n
      ensures Laid(q, v, gs[j]) && Ptrs(gs[j].c) !! Ptrs(g.c)
    {
      ListIntact(m, q, w, v, [], g.c, fs[j]);
    }
    forall j, k, p | InFifo(gs, j, p) && InFifo(gs, k, p)
      ensures j == k
    {
      if j < n && k < n {
        assert InFifo(fs, j, p) && InFifo(fs, k, p);
      }
    }
    forall p | p in v && v[p].used
      ensures exists j :: InFifo(gs, j, p)
    {
      if p in Ptrs(g.c) {
        assert InFifo(gs, n, p);
      } else {
        var j :| InFifo(fs, j, p);
        assert InFifo(gs, j, p);
      }
    }
  }

  /** A freed fifo, here the last one, leaves the fleet. */
  lemma FleetFree(m: Memory, q: Memory, w: map<Sptr, Place>, v: map<Sptr, Place>, fs: seq<Shape>, g: Shape)
    requires Fleet(m, w, fs + [g]) && Apart(m, q, w, v, g.c, [])
    ensures Fleet(q, v, fs)
  {
    hide Laid, Ptrs;
    var gs, n := fs + [g], |fs|;
    forall j | 0 <= j < n
      ensures Laid(q, v, fs[j])
    {
      Disjoint(gs, j, n);
      ListIntact(m, q, w, v, g.c, [], gs[j]);
    }
    forall j, k, p | InFifo(fs, j, p) && InFifo(fs, k, p)
      ensures j == k
    {
      assert InFifo(gs, j, p) && InFifo(gs, k, p);
    }
    forall p | p in v && v[p].used
      ensures exists j :: InFifo(fs, j, p)
    {
      PtrsNone(p);
      var j :| InFifo(gs, j, p);
      assert InFifo(fs, j, p);
    }
  }

  lemma PtrsNone(p: Sptr)
    ensures p !in Ptrs([])
  {
  }

  /** The order of the fleet does not matter. */
  lemma FleetOrder(m: Memory, w: map<Sptr, Place>, fs: seq<Shape>, i: nat)
    requires Fleet(m, w, fs) && i < |fs|
    ensures Fleet(m, w, fs[..i] + fs[i + 1..] + [fs[i]])
  {
    hide Laid, Ptrs;
    var gs, n := fs[..i] + fs[i + 1..] + [fs[i]], |fs|;
    forall j | 0 <= j < n
      ensures gs[j] == fs[if j < i then j else if j < n - 1 then j + 1 else i]
    {
    }
    forall j, k, p | InFifo(gs, j, p) && InFifo(gs, k, p)
      ensures j == k
    {
      var a := if j < i then j else if j < n - 1 then j + 1 else i;
      var b := if k < i then k else if k < n - 1 then k + 1 else i;
      assert InFifo(fs, a, p) && InFifo(fs, b, p);
    }
    forall p | p in w && w[p].used
      ensures exists j :: InFifo(gs, j, p)
    {
      var a :| InFifo(fs, a, p);
      var j := if a < i then a else if a > i then a - 1 else n - 1;
      assert InFifo(gs, j, p);
    }
  }

  /** The chunks of class k of slice s that are linked in some fifo. */
  ghost function Linked(w: map<Sptr, Place>, fs: seq<Shape>, s: nat, k: nat): set<Sptr> {
    set p | p in w && w[p].slice == s && w[p].cls == k && exists i :: InFifo(fs, i, p)
  }

  /** For every class, the chunks ever carved are those on its free list plus those linked in fifos. */
  lemma FleetConserves(seg: Segment, fs: seq<Shape>, s: nat, k: nat)
    requires seg.Valid() && Fleet(seg.mem, seg.place, fs) && s < |seg.slices| && k < N_CLASSES
    ensures |seg.slices[s].free| == |seg.slices[s].numChunks| == N_CLASSES
    ensures seg.slices[s].numChunks[k] == |seg.slices[s].free[k]| + |Linked(seg.place, fs, s, k)|
    ensures seg.slices[s].flBytes == FreeBytes(seg.slices[s].free, N_CLASSES)
    ensures seg.cachedBytes == TotalFree(seg.slices, |seg.slices|)
  {
    hide Laid, Ptrs, MemOk, ListsOk, Regions, Counters, CarvedBytes, FreeBytes, TotalFree;
    seg.Conservation(s, k);
    var w := seg.place;
    forall p
      ensures p in Linked(w, fs, s, k) <==> p in UsedOf(w, s, k)
    {
      if p in Linked(w, fs, s, k) {
        var i :| InFifo(fs, i, p);
        OwnUsed(seg.mem, w, fs[i], p);
        assert w[p] == Place(s, k, true);
      }
    }
    assert Linked(w, fs, s, k) == UsedOf(w, s, k);
  }
}
