/**
 Where a message queue and its rings lie in shared memory: computing the size to allocate,
 writing the headers, and finding the rings again when another process attaches.
 */
module MsgQueueLayout {
  import opened Positions

  // Sizes of the shared structures: n_rings with padding, the queue header, a descriptor, a ring header.
  const SHARED: nat := 8
  const QUEUE: nat := 112
  const DESC: nat := 8
  const RING: nat := 20

  datatype RingCfg = RingCfg(nitems: u32, elsize: u32, external: bool)

  datatype Cfg = Cfg(qItems: u32, rings: seq<RingCfg>)

  /** A ring header in shared memory. */
  datatype Header = Header(nitems: u32, elsize: u32, cursize: u32, head: u32, tail: u32)

  /** A ring as an attached process sees it. */
  datatype Attached = Attached(nitems: u32, elsize: u32, at: nat)

  /** The queue's size, stored in 32 bits. */
  function QueueSize(items: u32): u32 {
    Wrap(QUEUE + items * DESC)
  }

  /** The distance from a ring to the next: the product and the sum are cut to 32 bits. */
  function Stride(nitems: u32, elsize: u32): u32 {
    Wrap(RING + Wrap(nitems * elsize))
  }

  /** Bytes a ring really occupies. */
  function Extent(nitems: u32, elsize: u32): nat {
    RING + nitems * elsize
  }

  lemma StrideExact(nitems: u32, elsize: u32)
    ensures Stride(nitems, elsize) == Extent(nitems, elsize) <==> Extent(nitems, elsize) < TWO32
    ensures Stride(nitems, elsize) <= Extent(nitems, elsize) && RING <= Extent(nitems, elsize)
  {
    assert nitems * elsize >= 0;
  }

  // ---- Specification ----

  /** Where ring i lies. */
  ghost function Place(cfg: Cfg, i: nat): nat
    requires i <= |cfg.rings|
  {
    if i == 0 then SHARED + QueueSize(cfg.qItems)
    else Place(cfg, i - 1) + Stride(cfg.rings[i - 1].nitems, cfg.rings[i - 1].elsize)
  }

  ghost function Data(cfg: Cfg, i: nat): nat
    requires i <= |cfg.rings|
  {
    if i == 0 then 0 else Data(cfg, i - 1) + cfg.rings[i - 1].nitems * cfg.rings[i - 1].elsize
  }

  ghost function ExternalData(cfg: Cfg, i: nat): nat
    requires i <= |cfg.rings|
  {
    if i == 0 then 0
    else
      var ring := cfg.rings[i - 1];
      ExternalData(cfg, i - 1) + if ring.external then ring.nitems * ring.elsize else 0
  }

  /** No size is cut: the queue and every ring take fewer than 2^32 bytes. */
  ghost predicate Fits(cfg: Cfg) {
    && QUEUE + cfg.qItems * DESC < TWO32
    && (forall i :: 0 <= i < |cfg.rings| ==> Extent(cfg.rings[i].nitems, cfg.rings[i].elsize) < TWO32)
  }

  /** A queue whose size is not cut has fewer than 2^29 descriptors. */
  lemma FitsSmall(cfg: Cfg)
    requires Fits(cfg)
    ensures cfg.qItems < 0x2000_0000
  {
  }

  lemma {:induction false} PlaceIs(cfg: Cfg, i: nat)
    requires Fits(cfg) && i <= |cfg.rings|
    ensures Place(cfg, i) == SHARED + QUEUE + cfg.qItems * DESC + RING * i + Data(cfg, i)
    decreases i
  {
    if i > 0 {
      PlaceIs(cfg, i - 1);
      StrideExact(cfg.rings[i - 1].nitems, cfg.rings[i - 1].elsize);
    }
  }

  /** Rings follow each other: each one ends where the next begins, if and only if its size was not cut. */
  lemma RingsTouch(cfg: Cfg, i: nat)
    requires i < |cfg.rings|
    ensures Place(cfg, i) + Extent(cfg.rings[i].nitems, cfg.rings[i].elsize) == Place(cfg, i + 1)
            <==> Extent(cfg.rings[i].nitems, cfg.rings[i].elsize) < TWO32
    ensures Place(cfg, i + 1) <= Place(cfg, i) + Extent(cfg.rings[i].nitems, cfg.rings[i].elsize)
    ensures RING <= Extent(cfg.rings[i].nitems, cfg.rings[i].elsize)
  {
    hide Stride, Extent, QueueSize;
    StrideExact(cfg.rings[i].nitems, cfg.rings[i].elsize);
  }

  lemma {:induction false} PlaceOrder(cfg: Cfg, i: nat, j: nat)
    requires Fits(cfg) && i < j <= |cfg.rings|
    ensures Place(cfg, i) + Extent(cfg.rings[i].nitems, cfg.rings[i].elsize) <= Place(cfg, j)
    decreases j
  {
    hide Stride, Extent, QueueSize, Place;
    RingsTouch(cfg, j - 1);
    if j > i + 1 {
      PlaceOrder(cfg, i, j - 1);
    }
  }

  ghost function AllocSize(cfg: Cfg): int {
    SHARED + QueueSize(cfg.qItems) + RING * |cfg.rings| + Data(cfg, |cfg.rings|) - ExternalData(cfg, |cfg.rings|)
  }

  // ---- The code ----

  /** Bytes to allocate for a queue and its rings; rings with data elsewhere need only a header. */
  method SizeToAlloc(cfg: Cfg) returns (size: nat)
    ensures size == AllocSize(cfg)
  {
    var ringsSize := RING * |cfg.rings|;
    for i := 0 to |cfg.rings|
      invariant ringsSize == RING * |cfg.rings| + Data(cfg, i) - ExternalData(cfg, i)
      invariant ExternalData(cfg, i) <= Data(cfg, i)
    {
      assert cfg.rings[i].nitems * cfg.rings[i].elsize >= 0;
      if !cfg.rings[i].external {
        ringsSize := ringsSize + cfg.rings[i].nitems * cfg.rings[i].elsize;
      }
    }
    size := SHARED + QueueSize(cfg.qItems) + ringsSize;
  }

  /** How far the rings reach past the allocated bytes: by the data kept elsewhere. */
  lemma WithinAllocation(cfg: Cfg)
    requires Fits(cfg)
    ensures Place(cfg, |cfg.rings|) <= AllocSize(cfg) <==> ExternalData(cfg, |cfg.rings|) == 0
    ensures Place(cfg, |cfg.rings|) - AllocSize(cfg) == ExternalData(cfg, |cfg.rings|)
  {
    hide Place, Data, ExternalData, Wrap;
    QueueExact(cfg.qItems);
    PlaceIs(cfg, |cfg.rings|);
  }

  /** A ring of four 256-byte elements kept elsewhere is laid out 1024 bytes past the allocation. */
  lemma ExternalOverruns()
    ensures var cfg := Cfg(1, [RingCfg(4, 256, true)]); Fits(cfg) && Place(cfg, 1) == AllocSize(cfg) + 1024
  {
    var cfg := Cfg(1, [RingCfg(4, 256, true)]);
    assert ExternalData(cfg, 1) == ExternalData(cfg, 0) + 1024;
    WithinAllocation(cfg);
  }

  /** The descriptors end by the first ring, each ring by the next, and the last one by the end of the allocation. */
  ghost predicate WellPlaced(cfg: Cfg) {
    && SHARED + QUEUE + cfg.qItems * DESC <= Place(cfg, 0)
    && (forall i :: 0 <= i < |cfg.rings| ==> EndsByNext(cfg, i))
    && Place(cfg, |cfg.rings|) <= AllocSize(cfg)
  }

  ghost predicate EndsByNext(cfg: Cfg, i: int) {
    0 <= i < |cfg.rings| && Place(cfg, i) + Extent(cfg.rings[i].nitems, cfg.rings[i].elsize) <= Place(cfg, i + 1)
  }

  /** Everything lies in its own part of the allocation if and only if no size is cut and no data is kept elsewhere. */
  lemma WellPlacedIff(cfg: Cfg)
    ensures WellPlaced(cfg) <==> Fits(cfg) && ExternalData(cfg, |cfg.rings|) == 0
  {
    hide Stride, Extent, Place, AllocSize, Data, ExternalData;
    QueueExact(cfg.qItems);
    PlaceFirst(cfg);
    forall i | 0 <= i < |cfg.rings|
      ensures EndsByNext(cfg, i) <==> Extent(cfg.rings[i].nitems, cfg.rings[i].elsize) < TWO32
    {
      RingsTouch(cfg, i);
    }
    if Fits(cfg) {
      WithinAllocation(cfg);
    }
    if WellPlaced(cfg) {
      forall i | 0 <= i < |cfg.rings|
        ensures Extent(cfg.rings[i].nitems, cfg.rings[i].elsize) < TWO32
      {
        assert EndsByNext(cfg, i);
      }
    }
  }

  lemma QueueExact(items: u32)
    ensures QueueSize(items) == QUEUE + items * DESC <==> QUEUE + items * DESC < TWO32
    ensures QueueSize(items) <= QUEUE + items * DESC
  {
    hide Wrap;
    WrapLess(QUEUE + items * DESC);
  }

  ghost predicate HeaderAt(headers: map<nat, Header>, cfg: Cfg, i: int) {
    && 0 <= i < |cfg.rings| && Place(cfg, i) in headers
    && headers[Place(cfg, i)] == Header(cfg.rings[i].nitems, cfg.rings[i].elsize, 0, 0, 0)
  }

  /** The headers of the first n rings of cfg are in place. */
  ghost predicate InPlace(headers: map<nat, Header>, cfg: Cfg, n: nat) {
    n <= |cfg.rings| && forall i :: 0 <= i < n ==> HeaderAt(headers, cfg, i)
  }

  lemma PlaceFirst(cfg: Cfg)
    ensures Place(cfg, 0) == SHARED + QueueSize(cfg.qItems)
  {
  }

  lemma PlaceNext(cfg: Cfg, i: nat)
    requires i < |cfg.rings|
    ensures Place(cfg, i + 1) == Place(cfg, i) + Stride(cfg.rings[i].nitems, cfg.rings[i].elsize)
  {
  }

  lemma HeaderAdded(headers: map<nat, Header>, cfg: Cfg, i: nat)
    requires Fits(cfg) && i < |cfg.rings| && InPlace(headers, cfg, i)
    ensures InPlace(headers[Place(cfg, i) := Header(cfg.rings[i].nitems, cfg.rings[i].elsize, 0, 0, 0)], cfg, i + 1)
  {
    hide Place, Fits;
    PlacesApart(cfg, i);
    var more := headers[Place(cfg, i) := Header(cfg.rings[i].nitems, cfg.rings[i].elsize, 0, 0, 0)];
    forall j | 0 <= j < i + 1
      ensures HeaderAt(more, cfg, j)
    {
      assert j < i ==> HeaderAt(headers, cfg, j);
    }
  }

  ghost predicate AttachedAt(rings: seq<Attached>, cfg: Cfg, i: int) {
    0 <= i < |rings| && i < |cfg.rings| && rings[i] == Attached(cfg.rings[i].nitems, cfg.rings[i].elsize, Place(cfg, i))
  }

  /** A queue in shared memory: its header fields and the ring headers by address. */
  class SharedQueue {
    var nRings: nat
    var maxsize: u32
    var elsize: nat
    var headers: map<nat, Header>

    constructor ()
    {
      headers := map[];
    }

    /** Lays the queue and its rings out. */
    method Init(cfg: Cfg)
      requires Fits(cfg)
      modifies this
      ensures nRings == |cfg.rings| && maxsize == cfg.qItems && elsize == DESC && InPlace(headers, cfg, |cfg.rings|)
    {
      hide Stride, QueueSize, Fits, Place;
      elsize, maxsize, nRings := DESC, cfg.qItems, |cfg.rings|;
      var ring := SHARED + QueueSize(cfg.qItems);
      PlaceFirst(cfg);
      for i := 0 to |cfg.rings|
        invariant ring == Place(cfg, i) && InPlace(headers, cfg, i)
        invariant elsize == DESC && maxsize == cfg.qItems && nRings == |cfg.rings|
      {
        HeaderAdded(headers, cfg, i);
        PlaceNext(cfg, i);
        headers := headers[ring := Header(cfg.rings[i].nitems, cfg.rings[i].elsize, 0, 0, 0)];
        ring := ring + Stride(cfg.rings[i].nitems, cfg.rings[i].elsize);
      }
    }

    /** Finds the rings again from what is in memory. */
    method Attach(ghost cfg: Cfg) returns (rings: seq<Attached>)
      requires 0 < nRings == |cfg.rings| && maxsize == cfg.qItems && InPlace(headers, cfg, |cfg.rings|)
      ensures |rings| == |cfg.rings| && forall i :: 0 <= i < |rings| ==> AttachedAt(rings, cfg, i)
    {
      hide Stride, QueueSize, Place;
      rings := [];
      var ring := SHARED + QueueSize(maxsize);
      PlaceFirst(cfg);
      for i := 0 to nRings
        invariant |rings| == i && ring == Place(cfg, i)
        invariant forall j :: 0 <= j < i ==> AttachedAt(rings, cfg, j)
      {
        assert HeaderAt(headers, cfg, i);
        PlaceNext(cfg, i);
        var hdr := headers[ring];
        ghost var before := rings;
        rings := rings + [Attached(hdr.nitems, hdr.elsize, ring)];
        ring := ring + Stride(hdr.nitems, hdr.elsize);
        forall j | 0 <= j < i + 1
          ensures AttachedAt(rings, cfg, j)
        {
          assert j < i ==> AttachedAt(before, cfg, j);
        }
      }
    }
  }

  lemma PlacesApart(cfg: Cfg, i: nat)
    requires Fits(cfg) && i < |cfg.rings|
    ensures forall j :: 0 <= j < i ==> Place(cfg, j) < Place(cfg, i)
  {
    hide Stride, Extent, QueueSize, Place;
    forall j | 0 <= j < i
      ensures Place(cfg, j) < Place(cfg, i)
    {
      PlaceOrder(cfg, j, i);
      RingsTouch(cfg, j);
    }
  }

  /**
   Without external data the rings, headers and data, are disjoint and inside the allocation; in particular attaching
   finds them so.
   */
  lemma RingsDisjoint(cfg: Cfg, i: nat, j: nat)
    requires Fits(cfg) && i < j < |cfg.rings| && ExternalData(cfg, |cfg.rings|) == 0
    ensures SHARED + QUEUE + cfg.qItems * DESC <= Place(cfg, i)
    ensures Place(cfg, i) + Extent(cfg.rings[i].nitems, cfg.rings[i].elsize) <= Place(cfg, j)
    ensures Place(cfg, j) + Extent(cfg.rings[j].nitems, cfg.rings[j].elsize) <= AllocSize(cfg)
  {
    PlaceIs(cfg, i);
    PlaceIs(cfg, |cfg.rings|);
    PlaceOrder(cfg, i, j);
    PlaceOrder(cfg, j, |cfg.rings|);
  }

  /** A ring whose size is cut to 32 bits overlaps its successor. */
  lemma CutRingOverlaps()
    ensures var cfg := Cfg(1, [RingCfg(0x1_0000, 0x1_0000, false), RingCfg(1, 1, false)]);
            !Fits(cfg) && Place(cfg, 1) == Place(cfg, 0) + RING < Place(cfg, 0) + Extent(0x1_0000, 0x1_0000)
  {
    var cfg := Cfg(1, [RingCfg(0x1_0000, 0x1_0000, false), RingCfg(1, 1, false)]);
    assert Place(cfg, 1) == Place(cfg, 0) + Stride(0x1_0000, 0x1_0000);
    assert Extent(cfg.rings[0].nitems, cfg.rings[0].elsize) >= TWO32;
  }
}
