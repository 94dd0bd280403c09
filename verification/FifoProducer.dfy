/**
 Every step of the producer keeps the invariant of the fifo shared with a consumer.
 */
module FifoProducer {
  import opened Positions
  import opened Chunks
  import opened FifoLayout
  import opened FifoLookup
  import opened ByteQueue
  import opened FifoMachine
  import ChunkTree

  // ---- Steps that only change the producer's own state ----

  lemma ProdLocal(s: State, s': State)
    requires Inv(s) && s' == s.(prod := s'.prod, end := s'.end, tailChunk := s'.tailChunk, enq := s'.enq)
    requires Fresh(s.prod) == {} && Fresh(s'.prod) == {}
    requires forall x :: InFlight(s'.prod, x) <==> InFlight(s.prod, x)
    requires ProdOk(s') && Remembered(s') && Looked(s')
    ensures Inv(s')
  {
    hide Chained, Holds, Spots, Lens, Holder, Wrap, ProdOk, Remembered, Reads, Sound, InFlight, Fresh, Looked;
    forall x: nat | x in s'.q.bytes
      ensures ByteAt(s', x)
    {
      assert ByteAt(s, x);
    }
  }

  /** A step on the way to the copy: the tail stands still and nothing leaves the bytes past it. */
  lemma LookedLocal(s: State, s': State)
    requires Inv(s) && s' == s.(prod := s'.prod, end := s'.end, tailChunk := s'.tailChunk)
    requires !s.prod.PClear? && !s.prod.PTail? && !s'.prod.PTail? && (s'.prod.PClear? ==> s'.prod.p == s.q.t)
    requires !s.prod.PProbe? && !s.prod.PTrack? && !s.prod.PSeek?
    requires s.prod.PCopy? ==> s.prod.at == s.q.t
    ensures Looked(s')
  {
    hide Chained, Holds, Spots, Lens, Holder, Wrap, ProdOk, Remembered, Reads, Sound, InFlight, Fresh, Looked,
         SameTracks;
    SameTracksMem(s, s');
    LookedSame(s, s');
  }

  /** A step of a write ahead of the tail that goes on. */
  lemma LookedAhead(s: State, s': State)
    requires Inv(s) && s' == s.(prod := s'.prod)
    requires s.prod.PProbe? || s.prod.PTrack? || s.prod.PSeek?
    requires s'.prod.PTrack? || s'.prod.PSeek? || s'.prod.PCopy?
    requires s'.prod.at == s.prod.at && s'.prod.src == s.prod.src
    ensures Looked(s')
  {
    hide Chained, Holds, Spots, Lens, Holder, Wrap, ProdOk, Remembered, Reads, Sound, InFlight, Fresh, Looked,
         SameTracks;
    SameTracksMem(s, s');
    LookedSame(s, s');
  }

  lemma LoadKeeps(s: State, s': State, offset: nat, src: seq<byte>)
    requires Inv(s) && Load(s, s', offset, src)
    ensures Inv(s')
  {
    hide Listing, Owners, Faithful, ConsOk, Words, Holder, Minus, Contiguous, Looked;
    Facts(s);
    LookedLocal(s, s');
    ProdLocal(s, s');
  }

  lemma NoGrowKeeps(s: State, s': State)
    requires Inv(s) && NoGrow(s, s')
    ensures Inv(s')
  {
    hide Listing, Owners, Faithful, ConsOk, Words, Holder, Minus, PosGt, Wrap, ChunkEnd, Contiguous, Looked;
    Facts(s);
    EndOf(s, s.prod.at + |s.prod.src|);
    LookedLocal(s, s');
    ProdLocal(s, s');
  }

  lemma GrowFailsKeeps(s: State, s': State)
    requires Inv(s) && GrowFails(s, s')
    ensures Inv(s')
  {
    hide Listing, Owners, Faithful, ConsOk, Words, Holder, Minus, PosGt, Wrap, ChunkEnd, Contiguous, Looked;
    Facts(s);
    EndOf(s, s.prod.at + |s.prod.src|);
    LookedLocal(s, s');
    ProdLocal(s, s');
  }

  lemma SetEndKeeps(s: State, s': State)
    requires Inv(s) && SetEnd(s, s')
    ensures Inv(s')
  {
    hide Listing, Owners, Faithful, ConsOk, Words, Holder, Contiguous, Find, Looked;
    Facts(s);
    HolderOf(s, s.q.t);
    LookedLocal(s, s');
    ProdLocal(s, s');
  }

  // ---- Finding the chunk of a write ahead of the tail ----

  lemma SpotIs(c: seq<Link>, i: nat, t: nat)
    requires Contiguous(c) && DistinctPtrs(c) && c != [] && c[0].lo <= t < End(c) && Find(c, t) <= i < |c|
    ensures Spot(c, c[i].ptr, t) == Max(t, c[i].lo) && Find(c, Max(t, c[i].lo)) == i
  {
    FindLocates(c, t);
    assert forall j :: 0 <= j < |c| && c[j].ptr == c[i].ptr ==> j == i;
    assert i > Find(c, t) ==> c[Find(c, t)].hi <= c[i].lo;
    FindIs(c, Max(t, c[i].lo), i);
  }

  /** A cached chunk is a linked chunk, and the test tells whether it holds the position. */
  lemma CacheHit(s: State, p: nat)
    requires Inv(s) && s.enq.cache != 0 && s.chain != [] && s.q.t <= p <= End(s.chain)
    ensures s.enq.cache in s.mem && s.enq.cache in Ptrs(s.chain)
    ensures IncludesPos(s.mem[s.enq.cache], Wrap(p)) ==> s.enq.cache == Holder(s.chain, p)
  {
    hide Listing, Owners, Words, Remembered, ProdOk, ConsOk, Faithful, Find, Run, Wrap, IncludesPos, Beyond, Low, Tail;
    Facts(s);
    InPtrs(s.chain);
    var i :| Find(s.chain, Tail(s)) <= i < |s.chain| && s.chain[i].ptr == s.enq.cache;
    Compared(s, i, p);
  }

  /** The floor of a position past the tail is a tracked chunk: the one that holds it, or the last one tracked. */
  lemma FloorFound(s: State, p: nat) returns (i: nat)
    requires Inv(s) && s.prod.PProbe? && s.enq.tree.Node? && s.chain != [] && s.q.t <= p < End(s.chain)
    ensures s.enq.from <= i < s.enq.to <= |s.chain| && s.enq.from == Find(s.chain, s.q.t) && s.enq.init
    ensures var n := ChunkTree.Floor(s.enq.tree, Wrap(p), ChunkTree.Leaf); n.Node? && n.chunk == s.chain[i].ptr
    ensures s.chain[i].lo <= p && i <= Find(s.chain, p) && (i + 1 < s.enq.to ==> Find(s.chain, p) == i)
  {
    hide Owners, Words, Remembered, ProdOk, ConsOk, Faithful, Find, Wrap, Holds, Lens, LinkAt, Spots, Contiguous,
         ChunkTree.Indexes, ChunkTree.Ordered, ChunkTree.Floor, Beyond, Cached, FlagAt;
    var c, a, e := s.chain, s.enq.from, s.enq.to;
    Facts(s);
    RunEmpty(s.mem, c, s.enq.tree, a, e, true, 0);
    RunOrdered(c, a, e, s.pos, s.q.t, s.size);
    RunSpan(c, a, e, s.pos, s.q.t, s.size, p);
    FindLocates(c, s.q.t);
    var j := ChunkTree.FloorIs(s.enq.tree, c[a..e], p);
    FloorHolds(c, a, e, ChunkTree.Floor(s.enq.tree, Wrap(p), ChunkTree.Leaf), p, j);
    i := a + j;
  }

  lemma ProbeHitKeeps(s: State, s': State)
    requires Inv(s) && Probe(s, s') && s.enq.cache != 0 && s.enq.cache in s.mem
    requires IncludesPos(s.mem[s.enq.cache], Wrap(s.prod.at))
    ensures Inv(s')
  {
    hide Listing, Owners, Faithful, ConsOk, Words, Find, IncludesPos, Wrap, Contiguous, Looked, Holder;
    Facts(s);
    CacheHit(s, s.prod.at);
    LookedAhead(s, s');
    ProdLocal(s, s');
  }

  lemma ProbeTreeKeeps(s: State, s': State)
    requires Inv(s) && Probe(s, s') && s'.prod.PTrack? && s.enq.tree.Node?
    requires s.enq.cache != 0 ==> s.enq.cache in s.mem && !IncludesPos(s.mem[s.enq.cache], Wrap(s.prod.at))
    ensures Inv(s')
  {
    hide Listing, Owners, Faithful, ConsOk, Words, Find, IncludesPos, Wrap, Contiguous, Looked, Spot, ChunkTree.Floor;
    Facts(s);
    ListingDistinct(s);
    FindLocates(s.chain, s.q.t);
    var i := FloorFound(s, s.prod.at);
    SpotIs(s.chain, i, s.q.t);
    LookedAhead(s, s');
    ProdLocal(s, s');
  }

  lemma ListingDistinct(s: State)
    requires Listing(s)
    ensures DistinctPtrs(s.chain)
  {
  }

  /** Flagging one linked chunk changes nothing else. */
  lemma FlagKeeps(s: State, s': State, i: nat, v: bool)
    requires Inv(s) && i < |s.chain| && s.chain[i].ptr in s.mem
    requires s' == s.(mem := s.mem[s.chain[i].ptr := SetFlag(s.mem[s.chain[i].ptr], true, v)], prod := s'.prod,
                      enq := s'.enq)
    requires Fresh(s.prod) == {} && Fresh(s'.prod) == {} && !s.prod.PLinked? && !s'.prod.PLinked?
    requires forall x :: InFlight(s'.prod, x) <==> InFlight(s.prod, x)
    requires ProdOk(s') && Looked(s')
    ensures Inv(s')
  {
    hide Chained, Holds, Spots, Holder, Wrap, ProdOk, Remembered, Reads, Sound, InFlight, Fresh, Looked, ConsOk;
    Facts(s);
    SameChain(s.mem, s.chain, s'.mem, s.cells);
    ConsSame(s, s');
    RememberedSame(s, s');
    forall x: nat | x in s'.q.bytes
      ensures ByteAt(s', x)
    {
      assert ByteAt(s, x);
    }
  }

  /** Chunk number e enters the tree behind the run a..e. */
  lemma TrackRun(s: State, r: State, a: nat, e: nat)
    requires Inv(s) && Run(s.mem, s.chain, s.enq.tree, a, e, true) && e < |s.chain| && s.chain[e].ptr in s.mem
    requires r == Tracking(s, s.chain[e].ptr, a, e + 1)
    ensures Run(r.mem, s.chain, r.enq.tree, a, e + 1, true)
  {
    hide Owners, Words, Remembered, ProdOk, ConsOk, Faithful, Run, Wrap, Holds, Lens, Spots, Contiguous,
         ChunkTree.Insert, Looked;
    assert LinkAt(s.mem, s.chain, e);
    RunAdd(s.mem, s.chain, s.enq.tree, a, e, true, s.pos, s.q.t, s.size);
  }

  /** The first tracked chunk leaves the tree. */
  lemma UntrackRun(s: State, r: State)
    requires Inv(s) && s.enq.from < s.enq.to && s.enq.from < |s.chain| && s.chain[s.enq.from].ptr in s.mem
    requires r == Untracking(s, s.chain[s.enq.from].ptr)
    ensures Run(r.mem, s.chain, r.enq.tree, s.enq.from + 1, s.enq.to, true)
  {
    hide Owners, Words, Remembered, ProdOk, ConsOk, Faithful, Run, Wrap, Holds, Lens, Spots, Contiguous,
         ChunkTree.Remove;
    assert LinkAt(s.mem, s.chain, s.enq.from);
    RunDrop(s.mem, s.chain, s.enq.tree, s.enq.from, s.enq.to, true, s.pos, s.q.t, s.size);
  }

  /** The first lookup tracks the tail chunk. */
  lemma ProbeFirstLooked(s: State, s': State)
    requires Inv(s) && s.prod.PProbe? && s.enq.init && s.enq.tree.Leaf? && s.tailChunk in s.mem
    requires var i := Find(s.chain, s.q.t);
             s' == Tracking(s, s.tailChunk, i, i + 1).(prod := PTrack(s.prod.at, s.prod.src, s.tailChunk, s.q.t))
    ensures Looked(s') && ProdOk(s')
  {
    hide Owners, Words, ConsOk, Faithful, Wrap, Listing, Contiguous, ChunkTree.Insert, Run, Cached, Find;
    Facts(s);
    var i := Find(s.chain, s.q.t);
    HolderOf(s, s.q.t);
    FindMonotone(s.chain, s.q.t, s.prod.at);
    RunEmpty(s.mem, s.chain, s.enq.tree, s.enq.from, s.enq.to, true, i);
    TrackRun(s, Tracking(s, s.tailChunk, i, i + 1), i, i);
    forall p: nat | Beyond(s, p)
      ensures Beyond(s', p)
    {
    }
    assert Beyond(s', s.prod.at);
  }

  lemma ProbeFirstKeeps(s: State, s': State)
    requires Inv(s) && s.prod.PProbe? && s.enq.init && s.enq.tree.Leaf? && s.tailChunk in s.mem
    requires var i := Find(s.chain, s.q.t);
             s' == Tracking(s, s.tailChunk, i, i + 1).(prod := PTrack(s.prod.at, s.prod.src, s.tailChunk, s.q.t))
    ensures Inv(s')
  {
    hide Owners, Words, ConsOk, Faithful, Wrap, Listing, Contiguous, ChunkTree.Insert, Find, Looked;
    Facts(s);
    HolderOf(s, s.q.t);
    ProbeFirstLooked(s, s');
    FlagKeeps(s, s', Find(s.chain, s.q.t), true);
  }

  lemma ProbeKeeps(s: State, s': State)
    requires Inv(s) && Probe(s, s')
    ensures Inv(s')
  {
    hide Listing, Owners, Faithful, ConsOk, Words, Find, IncludesPos, Wrap, Contiguous, Looked, Spot, ChunkTree.Floor,
         Holder, Tracking;
    if s.enq.cache != 0 && IncludesPos(s.mem[s.enq.cache], Wrap(s.prod.at)) {
      ProbeHitKeeps(s, s');
    } else if !s.enq.init {
      LookedAhead(s, s');
      ProdLocal(s, s');
    } else if s.enq.tree.Leaf? {
      ProbeFirstKeeps(s, s');
    } else {
      ProbeTreeKeeps(s, s');
    }
  }

  /** Caching the chunk that holds the first byte. */
  lemma CacheKeeps(s: State, s': State)
    requires Inv(s) && (s.prod.PTrack? || s.prod.PSeek?) && s' == s.(enq := s.enq.(cache := Holder(s.chain, s.prod.at)))
    ensures Inv(s')
  {
    hide Listing, Owners, Words, ConsOk, Faithful, Find, Holder, Cached, Run, Contiguous;
    Facts(s);
    CachedHolder(s.chain, s.q.t, s.prod.at);
    forall p: nat | Beyond(s, p)
      ensures Beyond(s', p)
    {
    }
    assert Beyond(s', s.prod.at);
    ProdLocal(s, s');
  }

  ghost function Noted(s: State): State
    requires s.prod.PTrack? && s.prod.c in s.mem
  {
    if IncludesPos(s.mem[s.prod.c], Wrap(s.prod.at)) then s.(enq := s.enq.(cache := s.prod.c)) else s
  }

  lemma NotedKeeps(s: State)
    requires Inv(s) && s.prod.PTrack? && s.chain != []
    ensures s.prod.c in s.mem && Inv(Noted(s))
    ensures Find(s.chain, s.prod.at) <= Find(s.chain, s.prod.p) ==> Noted(s).enq.cache == Holder(s.chain, s.prod.at)
  {
    hide Listing, Owners, Words, ConsOk, Faithful, Find, Looked, Contiguous, Remembered, IncludesPos, Wrap;
    Facts(s);
    HolderOf(s, s.prod.p);
    Compared(s, Find(s.chain, s.prod.p), s.prod.at);
    if IncludesPos(s.mem[s.prod.c], Wrap(s.prod.at)) {
      CacheKeeps(s, Noted(s));
    }
  }

  /** Where the walk along the list stands. */
  lemma TrackSpot(s: State)
    requires Inv(s) && s.prod.PTrack? && s.chain != []
    ensures var i := Find(s.chain, s.prod.p);
            && i < |s.chain| && s.prod.c == s.chain[i].ptr && s.prod.c in s.mem
            && s.mem[s.prod.c].next == PtrAt(s.chain, i + 1)
            && i < s.enq.to <= |s.chain| && s.enq.from <= i && After(s.chain, s.prod.p) == s.chain[i].hi
            && s.prod.p < s.chain[i].hi
            && (i + 1 < |s.chain| ==>
                  && s.chain[i + 1].ptr != 0 && s.chain[i + 1].ptr in s.mem
                  && s.chain[i].hi == s.chain[i + 1].lo < End(s.chain)
                  && Find(s.chain, s.chain[i].hi) == i + 1 && (Flagged(s, s.chain[i + 1].ptr) <==> i + 1 < s.enq.to))
            && (IncludesPos(s.mem[s.prod.c], Wrap(s.prod.at + |s.prod.src|)) <==>
                  Find(s.chain, s.prod.at + |s.prod.src|) == i)
            && i <= Find(s.chain, s.prod.at + |s.prod.src|)
            && Find(s.chain, s.prod.at) <= Find(s.chain, s.prod.at + |s.prod.src|)
            && (i < Find(s.chain, s.prod.at + |s.prod.src|) ==> s.chain[i].hi <= s.prod.at + |s.prod.src|)
            && Find(s.chain, s.prod.at) < |s.chain|
  {
    hide Listing, Owners, Words, ConsOk, Faithful, Find, Contiguous, Remembered, IncludesPos, Wrap, ChunkTree.Indexes,
         FlagAt, Cached, Beyond;
    Facts(s);
    var c, i, e := s.chain, Find(s.chain, s.prod.p), s.prod.at + |s.prod.src|;
    HolderOf(s, s.prod.p);
    HolderOf(s, s.prod.at);
    Compared(s, i, e);
    FindMonotone(c, s.prod.p, e);
    FindMonotone(c, s.prod.at, e);
    FindMonotone(c, s.q.t, s.prod.p);
    if i + 1 < |c| {
      NextLo(c, i);
      FindNext(c, i);
      Compared(s, i + 1, e);
      RunFlag(s.mem, c, s.enq.tree, s.enq.from, s.enq.to, true, i + 1);
      Bounds(c, i + 1);
    }
  }

  lemma TrackMoreLooked(s: State, s': State)
    requires Inv(s) && s.prod.PTrack? && s.chain != []
    requires var i := Find(s.chain, s.prod.p);
             && i + 1 == s.enq.to < |s.chain| && s.chain[i + 1].ptr in s.mem
             && i < Find(s.chain, s.prod.at + |s.prod.src|)
             && (Find(s.chain, s.prod.at) <= i ==> s.enq.cache == Holder(s.chain, s.prod.at))
             && s' == Tracking(s, s.chain[i + 1].ptr, s.enq.from, s.enq.to + 1).(
                        prod := PTrack(s.prod.at, s.prod.src, s.chain[i + 1].ptr, s.chain[i].hi))
    ensures Looked(s') && ProdOk(s')
  {
    hide Owners, Words, ConsOk, Faithful, Wrap, Listing, Contiguous, ChunkTree.Insert, Run, Cached, Find, IncludesPos,
         Remembered;
    Facts(s);
    TrackSpot(s);
    var i := Find(s.chain, s.prod.p);
    TrackRun(s, Tracking(s, s.chain[i + 1].ptr, s.enq.from, i + 2), s.enq.from, i + 1);
    forall p: nat | Beyond(s, p)
      ensures Beyond(s', p)
    {
    }
    assert Beyond(s', s.prod.at + |s.prod.src| - 1);
  }

  /** Steps of the walk once the first byte's chunk has been noted. */
  lemma TrackEndKeeps(r: State, s': State)
    requires Inv(r) && r.prod.PTrack? && r.chain != []
    requires s' == r.(prod := PCopy(r.prod.at, r.prod.src, 0, Holder(r.chain, r.prod.at)))
    ensures Inv(s')
  {
    hide Listing, Owners, Faithful, ConsOk, Words, Find, Holder, Contiguous, Looked, Remembered;
    Facts(r);
    LookedAhead(r, s');
    RememberedSame(r, s');
    ProdLocal(r, s');
  }

  lemma TrackMoreKeeps(r: State, s': State)
    requires Inv(r) && r.prod.PTrack? && r.chain != []
    requires var i := Find(r.chain, r.prod.p);
             && i + 1 == r.enq.to < |r.chain| && r.chain[i + 1].ptr in r.mem
             && i < Find(r.chain, r.prod.at + |r.prod.src|)
             && (Find(r.chain, r.prod.at) <= i ==> r.enq.cache == Holder(r.chain, r.prod.at))
             && s' == Tracking(r, r.chain[i + 1].ptr, r.enq.from, r.enq.to + 1).(
                        prod := PTrack(r.prod.at, r.prod.src, r.chain[i + 1].ptr, r.chain[i].hi))
    ensures Inv(s')
  {
    hide Listing, Owners, Faithful, ConsOk, Words, Find, Wrap, Contiguous, Looked, Remembered, ProdOk, Holder,
         ChunkTree.Insert;
    TrackMoreLooked(r, s');
    FlagKeeps(r, s', Find(r.chain, r.prod.p) + 1, true);
  }

  lemma TrackKeeps(s: State, s': State)
    requires Inv(s) && Track(s, s')
    ensures Inv(s')
  {
    hide Listing, Owners, Faithful, ConsOk, Words, Find, IncludesPos, Wrap, Contiguous, Looked, Remembered, Flagged,
         Holder, Tracking;
    Facts(s);
    NotedKeeps(s);
    var r := Noted(s);
    TrackSpot(r);
    assert Flagged(r, s.mem[s.prod.c].next) == Flagged(s, s.mem[s.prod.c].next) by { FlaggedSame(s, r); }
    if s'.prod.PCopy? {
      TrackEndKeeps(r, s');
    } else {
      TrackMoreKeeps(r, s');
    }
  }

  lemma FlaggedSame(s: State, r: State)
    requires r.mem == s.mem
    ensures forall x :: Flagged(r, x) == Flagged(s, x)
  {
  }

  lemma SeekKeeps(s: State, s': State)
    requires Inv(s) && Seek(s, s')
    ensures Inv(s')
  {
    hide Listing, Owners, Faithful, ConsOk, Words, Find, IncludesPos, Wrap, Contiguous, After, Looked, Remembered;
    Facts(s);
    HolderOf(s, s.prod.p);
    Compared(s, Find(s.chain, s.prod.p), s.prod.at);
    var r := if IncludesPos(s.mem[s.prod.c], Wrap(s.prod.at)) then s.(enq := s.enq.(cache := s.prod.c)) else s;
    if IncludesPos(s.mem[s.prod.c], Wrap(s.prod.at)) {
      CacheKeeps(s, r);
    }
    LookedAhead(r, s');
    RememberedSame(r, s');
    ProdLocal(r, s');
  }

  // ---- Passing chunks on the way to the new tail ----

  /** Where the clearing walk stands: the tree is empty, or the chunk reached is its first. */
  lemma ClearSpot(s: State)
    requires Inv(s) && s.prod.PClear? && s.chain != []
    ensures var i := Find(s.chain, s.prod.p);
            && i <= Find(s.chain, s.prod.u) <= |s.chain| && s.enq.from <= s.enq.to <= |s.chain|
            && (s.enq.from < s.enq.to ==> s.enq.from == i < |s.chain|)
            && (s.prod.c == 0 <==> s.prod.p == End(s.chain))
            && (s.prod.c == 0 ==> i == Find(s.chain, s.prod.u) == |s.chain|)
            && (s.prod.c != 0 ==>
                  && i < |s.chain| && s.prod.c == s.chain[i].ptr && s.prod.c in s.mem
                  && (Flagged(s, s.prod.c) <==> s.enq.from < s.enq.to)
                  && (IncludesPos(s.mem[s.prod.c], Wrap(s.prod.u)) <==> i == Find(s.chain, s.prod.u))
                  && After(s.chain, s.prod.p) == s.chain[i].hi && s.mem[s.prod.c].next == Holder(s.chain, s.chain[i].hi)
                  && Find(s.chain, s.chain[i].hi) == i + 1 && s.prod.p < s.chain[i].hi
                  && (i < Find(s.chain, s.prod.u) ==> s.chain[i].hi <= s.prod.u))
  {
    hide Listing, Owners, Words, ConsOk, Faithful, Find, Contiguous, Remembered, IncludesPos, Wrap, ChunkTree.Indexes,
         FlagAt, Cached, Beyond, Put;
    Facts(s);
    var c, i := s.chain, Find(s.chain, s.prod.p);
    FindMonotone(c, s.prod.p, s.prod.u);
    FindLocates(c, s.prod.u);
    if s.prod.p < End(c) {
      HolderOf(s, s.prod.p);
      Compared(s, i, s.prod.u);
      RunFlag(s.mem, c, s.enq.tree, s.enq.from, s.enq.to, true, i);
      FindNext(c, i);
    } else {
      FindEnd(c);
    }
  }

  lemma ClearLooked(s: State, s': State)
    requires Inv(s) && Clear(s, s') && s.chain != []
    ensures Looked(s') && ProdOk(s')
  {
    hide Owners, Words, ConsOk, Faithful, Wrap, Listing, Contiguous, ChunkTree.Remove, Run, Cached, Find, IncludesPos,
         Remembered, Put, After, Holder, Flagged;
    Facts(s);
    ClearSpot(s);
    if Flagged(s, s.prod.c) {
      UntrackRun(s, Untracking(s, s.prod.c));
    }
    forall p: nat | Beyond(s, p)
      ensures Beyond(s', p)
    {
    }
  }

  lemma ClearKeeps(s: State, s': State)
    requires Inv(s) && Clear(s, s')
    ensures Inv(s')
  {
    hide Listing, Owners, Faithful, ConsOk, Words, Find, IncludesPos, Wrap, Contiguous, Looked, Remembered, Put, ProdOk,
         Flagged;
    Facts(s);
    ClearSpot(s);
    ClearLooked(s, s');
    if Flagged(s, s.prod.c) {
      FlagKeeps(s, s', Find(s.chain, s.prod.p), false);
    } else {
      RememberedSame(s, s');
      ProdLocal(s, s');
    }
  }

  /** If the run does not reach past the new tail chunk and bytes past the new tail are left, they bound it. */
  lemma ClearEndLooked(s: State, s': State)
    requires Inv(s) && ClearEnd(s, s') && s.chain != []
    ensures Looked(s') && ProdOk(s')
  {
    hide Owners, Words, ConsOk, Wrap, Listing, Contiguous, ChunkTree.Remove, Run, Find, IncludesPos, Remembered, Put,
         After, Flagged;
    Facts(s);
    ClearSpot(s);
    if s.enq.from < s.enq.to {
      ClearBound(s);
      if !KnownPast(s.q, s.prod.u) {
        ClearSingle(s);
        UntrackRun(s, Untracking(s, s.prod.c));
      } else {
        var p: nat :| p in s.q.bytes && s.prod.u < p && s.chain[s.enq.to - 1].lo <= p + 1;
        assert Beyond(s', p);
      }
    }
  }

  /** The run ends by a byte past the new tail, or by the new tail. */
  lemma ClearBound(s: State)
    requires Inv(s) && s.prod.PClear? && s.enq.from < s.enq.to <= |s.chain|
    ensures KnownPast(s.q, s.prod.u) ==>
              exists p: nat :: p in s.q.bytes && s.prod.u < p && s.chain[s.enq.to - 1].lo <= p + 1
    ensures !KnownPast(s.q, s.prod.u) ==> s.chain[s.enq.to - 1].lo <= s.prod.u
  {
    hide Owners, Words, ConsOk, Wrap, Listing, Contiguous, Run, Cached, Find, Remembered, Holder;
    var r :| Put(s.q, r, s.prod.at, s.prod.src) && r.t == s.prod.u;
    assert s.prod.u !in s.q.bytes;
    var p: nat :| Beyond(s, p) && s.chain[s.enq.to - 1].lo <= p + 1;
    assert p in s.q.bytes && p != s.prod.u;
  }

  /** Then it is the chunk of the new tail alone. */
  lemma ClearSingle(s: State)
    requires Inv(s) && s.prod.PClear? && s.enq.from < s.enq.to <= |s.chain|
    requires s.enq.from == Find(s.chain, s.prod.u) < |s.chain|
    requires s.chain[s.enq.to - 1].lo <= s.prod.u
    ensures s.enq.to == s.enq.from + 1
  {
    hide Owners, Words, ConsOk, Wrap, Listing, Run, Cached, Find, Remembered, Holder, Faithful, Put;
    Facts(s);
    FindLocates(s.chain, s.prod.u);
  }

  lemma ClearEndKeeps(s: State, s': State)
    requires Inv(s) && ClearEnd(s, s')
    ensures Inv(s')
  {
    hide Listing, Owners, Faithful, ConsOk, Words, Find, IncludesPos, Wrap, Contiguous, Looked, Remembered, Put, ProdOk,
         Flagged, KnownPast;
    Facts(s);
    ClearSpot(s);
    ClearEndLooked(s, s');
    if !KnownPast(s.q, s.prod.u) && s.prod.c != 0 && Flagged(s, s.prod.c) {
      FlagKeeps(s, s', Find(s.chain, s.prod.p), false);
    } else {
      RememberedSame(s, s');
      ProdLocal(s, s');
    }
  }

  // ---- The new tail ----

  lemma FinishTailKeeps(s: State, s': State, u: nat)
    requires Inv(s) && FinishTail(s, s', u)
    ensures Inv(s')
  {
    hide Listing, Owners, ConsOk, Words, Holder, Contiguous, Looked, Put, KnownPast;
    Facts(s);
    var r :| Put(s.q, r, s.prod.at, s.prod.src) && r.t == u;
    PutReach(s, r, s.prod.at, s.prod.src);
    if KnownPast(s.q, s.q.t) {
      LookedLocal(s, s');
    } else {
      NothingPast(s, r);
      NothingLooked(s, s');
    }
    ProdLocal(s, s');
  }

  /** Without bytes past the tail the new tail is right behind the bytes written. */
  lemma NothingPast(s: State, r: Queue)
    requires s.prod.PCopy? && s.prod.at == s.q.t && Put(s.q, r, s.prod.at, s.prod.src) && !KnownPast(s.q, s.q.t)
    requires Sound(s.q) && s.prod.src != []
    ensures r.t == s.prod.at + |s.prod.src|
  {
    var e := s.prod.at + |s.prod.src|;
    assert e !in r.bytes;
    assert forall p: nat :: s.prod.at <= p < e ==> p in r.bytes;
  }

  /** Without bytes past the tail nothing is tracked or cached, so the tail may move. */
  lemma NothingLooked(s: State, s': State)
    requires Inv(s) && s.prod.PCopy? && s.prod.at == s.q.t && !KnownPast(s.q, s.q.t) && s' == s.(prod := s'.prod)
    ensures Looked(s')
  {
    hide Run, Find, Listing, Owners, ConsOk, Words, Holder, Contiguous, ProdOk, Remembered, Faithful;
    assert forall p: nat :: !Beyond(s, p);
  }

  /** The new tail stays in the list and in the window. */
  lemma PutReach(s: State, r: Queue, at: nat, src: seq<byte>)
    requires Inv(s) && Put(s.q, r, at, src) && s.q.t == at && Range(s, at, src)
    ensures at + |src| <= r.t <= End(s.chain) && r.t <= s.q.h + s.size
  {
    hide Owners, ConsOk, Words, Holder, ProdOk, Remembered, Looked, Listing, Contiguous;
    Facts(s);
    if r.t > s.q.t {
      assert r.t - 1 in r.bytes;
      assert r.t - 1 in s.q.bytes ==> ByteAt(s, r.t - 1);
    }
    assert forall p: nat :: at <= p < at + |src| ==> p in r.bytes;
  }

  // ---- Steps on shared chunks ----

  lemma PlaceListing(s: State, s': State, d: seq<Link>)
    requires Inv(s) && Place(s, s', d)
    ensures Listing(s') && Owners(s')
  {
    hide Chained, Holds, Spots, Wrap, PosGt, ChunkEnd, ConsOk, Faithful, Remembered, ProdOk;
    InPtrs(s.chain);
    Facts(s);
    SameChain(s.mem, s.chain, s'.mem, s.cells);
    PlacedLens(s.mem, s'.mem, d);
  }

  lemma PlaceTracks(s: State, s': State, d: seq<Link>)
    requires Inv(s) && Place(s, s', d)
    ensures SameTracks(s, s')
  {
    hide Holds, Spots, Wrap, PosGt, ChunkEnd, ConsOk, Faithful, Remembered, ProdOk, Looked, Ptrs, Chained;
    InPtrs(s.chain);
    ChainedFacts(s.mem, s.chain);
  }

  lemma PlaceKeeps(s: State, s': State, d: seq<Link>)
    requires Inv(s) && Place(s, s', d)
    ensures Inv(s')
  {
    hide Listing, Owners, Chained, Holder, Wrap, Reads, Sound, PosGt, ChunkEnd, ConsOk, Looked, SameTracks;
    PlaceListing(s, s', d);
    ConsSame(s, s');
    PlaceTracks(s, s', d);
    LookedSame(s, s');
    forall x: nat | x in s'.q.bytes
      ensures ByteAt(s', x)
    {
      assert ByteAt(s, x);
    }
  }

  lemma PlacedLens(m: Memory, q: Memory, d: seq<Link>)
    requires Lens(m) && Chained(q, d) && q.Keys == m.Keys && forall x :: x in m && x !in Ptrs(d) ==> q[x] == m[x]
    ensures Lens(q)
  {
    forall x | x in q
      ensures x != 0 && 0 < q[x].length == |q[x].data| <= MAX_CHUNK
    {
      if x in Ptrs(d) {
        var i :| 0 <= i < |d| && d[i].ptr == x;
        assert LinkAt(q, d, i);
      }
    }
  }

  lemma LinkListing(s: State, s': State)
    requires Inv(s) && Attach(s, s')
    ensures Listing(s') && s'.chain[0] == s.chain[0]
    ensures var d := s.prod.d;
            && Contiguous(s.chain) && Contiguous(d) && d != []
            && End(s.chain) == d[0].lo && End(s'.chain) == End(d)
  {
    hide Holds, Reads, Put, Bytes, Wrap, Contiguous, DistinctPtrs, ConsOk, Faithful, Owners, Remembered, Lens;
    var c, d := s.chain, s.prod.d;
    ChainedFacts(s.mem, c);
    ChainedFacts(s.mem, d);
    LinkMemory(s, s');
    LinkLens(s, s');
    SameLinks(s.mem, s'.mem, d);
    JoinChain(s.mem, c, d, s'.mem);
    JoinHolds(s.mem, c, d, s'.mem, s.cells);
    GrowSpots(c, d, s.pos, s.q.t, s.size);
    ConcatContiguous(c, d);
  }

  /** Only the last chunk changes, and only its link. */
  lemma LinkMemory(s: State, s': State)
    requires Inv(s) && Attach(s, s')
    ensures var c, d := s.chain, s.prod.d;
            && (forall i :: 0 <= i < |c| - 1 ==>
                  c[i].ptr in s'.mem && c[i].ptr in s.mem && s'.mem[c[i].ptr] == s.mem[c[i].ptr])
            && c[|c| - 1].ptr in s.mem && c[|c| - 1].ptr in s'.mem
            && s'.mem[c[|c| - 1].ptr] == s.mem[c[|c| - 1].ptr].(next := d[0].ptr)
            && (forall j :: 0 <= j < |d| ==>
                  d[j].ptr in s'.mem && d[j].ptr in s.mem && s'.mem[d[j].ptr] == s.mem[d[j].ptr])
            && (forall i, j :: 0 <= i < |c| && 0 <= j < |d| ==> c[i].ptr != d[j].ptr)
  {
    hide Holds, Reads, Put, Bytes, Wrap, Contiguous, Spots, ConsOk, Faithful;
    ChainedFacts(s.mem, s.chain);
    ChainedFacts(s.mem, s.prod.d);
    InPtrs(s.chain);
    InPtrs(s.prod.d);
  }

  lemma LinkLens(s: State, s': State)
    requires Inv(s) && Attach(s, s')
    ensures Lens(s'.mem)
  {
    hide Holds, Reads, Put, Bytes, Wrap, Contiguous, Spots, ConsOk, Faithful, Owners, Remembered, Chained, ProdOk;
  }

  lemma LinkCons(s: State, s': State)
    requires Inv(s) && Attach(s, s') && s'.chain != [] && s'.chain[0] == s.chain[0]
    requires var d := s.prod.d; Contiguous(s.chain) && Contiguous(d) && d != [] && End(s.chain) == d[0].lo
    ensures ConsOk(s') && Remembered(s')
  {
    hide Holds, Reads, Put, Bytes, Wrap, Contiguous, Find, Holder, Listing, Owners, Faithful, Chained;
    Facts(s);
    var d := s.prod.d;
    HolderGrow(s.chain, d, s.q.t);
    if s.pos == s.q.h {
      HolderGrow(s.chain, d, s.q.h);
    }
    if !s.cons.CIdle? && !s.cons.CFind? {
      HolderGrow(s.chain, d, s.q.h + s.cons.n);
      if s.cons.CCopy? {
        HolderGrow(s.chain, d, s.q.h + |s.cons.buf|);
      }
    }
  }

  lemma LinkLooked(s: State, s': State)
    requires Inv(s) && Attach(s, s')
    requires var d := s.prod.d; Contiguous(s.chain) && Contiguous(d) && d != [] && End(s.chain) == d[0].lo
    ensures Looked(s')
  {
    hide Holds, Reads, Put, Bytes, Wrap, Contiguous, Find, Holder, Listing, Owners, Faithful, Chained,
         ChunkTree.Indexes, Cached, ConsOk, FlagAt;
    Facts(s);
    var d := s.prod.d;
    HolderGrow(s.chain, d, s.q.t);
    LinkFlags(s, s');
    RunJoin(s.mem, s'.mem, s.chain, d, s.enq.tree, s.enq.from, s.enq.to, true);
    CachedJoin(s.chain, d, s.enq.cache, Find(s.chain, s.q.t));
    assert forall p: nat :: Beyond(s, p) ==> Beyond(s', p);
  }

  lemma LinkFlags(s: State, s': State)
    requires Inv(s) && Attach(s, s')
    ensures var c, d := s.chain, s.prod.d;
            && (forall i :: 0 <= i < |c| ==>
                  && c[i].ptr in s.mem && c[i].ptr in s'.mem
                  && Flag(s'.mem[c[i].ptr], true) == Flag(s.mem[c[i].ptr], true))
            && (forall j :: 0 <= j < |d| ==> d[j].ptr in s'.mem && !Flag(s'.mem[d[j].ptr], true))
  {
    hide Holds, Reads, Put, Bytes, Wrap, Contiguous, Find, Holder, Listing, Owners, Faithful, Chained, ConsOk, Looked;
    LinkMemory(s, s');
    Facts(s);
    var d := s.prod.d;
    forall j | 0 <= j < |d|
      ensures d[j].ptr in s'.mem && !Flag(s'.mem[d[j].ptr], true)
    {
      assert !Flagged(s, d[j].ptr);
    }
  }

  lemma LinkKeeps(s: State, s': State)
    requires Inv(s) && Attach(s, s')
    ensures Inv(s')
  {
    hide Listing, Chained, Holds, Holder, Wrap, Reads, Sound, ConsOk, Contiguous, Remembered, Bytes, Ptrs, Looked;
    LinkListing(s, s');
    LinkCons(s, s');
    LinkLooked(s, s');
    PtrsUnion(s.chain, s.prod.d);
    PrefixOf(s.cells, Bytes(s'.mem, s.prod.d));
    forall x: nat | x in s'.q.bytes
      ensures ByteAt(s', x)
    {
      assert ByteAt(s, x);
    }
  }

  lemma WriteListing(s: State, s': State)
    requires Inv(s) && WriteByte(s, s')
    ensures Listing(s') && Range(s, s.prod.at, s.prod.src) && s.q.t <= s.prod.at + s.prod.i < End(s.chain)
    ensures s'.prod.c == Holder(s.chain, s.prod.at + s.prod.i + 1)
    ensures |s'.cells| == |s.cells|
    ensures forall x ::
              0 <= x < |s.cells| ==>
                s'.cells[x] == if x == s.prod.at + s.prod.i then s.prod.src[s.prod.i] else s.cells[x]
  {
    hide Holds, Reads, Put, Wrap, Contiguous, ConsOk, Faithful, Owners, Remembered, Minus, Find, Holder, Spots;
    var p, i := s.prod.at + s.prod.i, Find(s.chain, s.prod.at + s.prod.i);
    Facts(s);
    HolderOf(s, p);
    OverwriteSize(s.mem[s.prod.c].data, p - s.chain[i].lo, [s.prod.src[s.prod.i]]);
    WriteCells(s.mem, s.chain, s.cells, i, p, [s.prod.src[s.prod.i]], s'.mem);
  }

  lemma WriteTracks(s: State, s': State)
    requires Inv(s) && WriteByte(s, s')
    ensures SameTracks(s, s')
  {
    hide Listing, Owners, Words, Remembered, ProdOk, ConsOk, Faithful, Looked, Overwrite, Minus, Wrap;
    Facts(s);
  }

  lemma WriteByteKeeps(s: State, s': State)
    requires Inv(s) && WriteByte(s, s')
    ensures Inv(s') && s.prod.at + s.prod.i >= s.q.t
  {
    hide Listing, Chained, Holds, Holder, Wrap, Reads, Sound, ConsOk, Contiguous, Remembered, Ptrs, Overwrite, Minus,
         Looked, SameTracks;
    WriteListing(s, s');
    ConsSame(s, s');
    RememberedSame(s, s');
    WriteTracks(s, s');
    LookedSame(s, s');
    forall x: nat | x in s'.q.bytes
      ensures ByteAt(s', x)
    {
      assert ByteAt(s, x);
    }
  }

  /** Storing at or past the tail changes nothing that was committed. */
  lemma PutBelow(q: Queue, r: Queue, at: nat, x: seq<byte>, p: nat, buf: seq<byte>)
    requires Put(q, r, at, x) && q.t <= at && Reads(q, p, buf) && p + |buf| <= q.t
    ensures Reads(r, p, buf)
  {
    forall i | 0 <= i < |buf|
      ensures ReadAt(r, p, buf, i)
    {
      assert ReadAt(q, p, buf, i);
    }
  }

  lemma ConsPut(s: State, s': State, at: nat, src: seq<byte>)
    requires ConsOk(s) && Words(s)
    requires s' == s.(prod := s'.prod, q := s'.q, tail := s'.tail, tailChunk := s'.tailChunk, enq := s'.enq)
    requires Put(s.q, s'.q, at, src) && s.q.t <= at
    ensures ConsOk(s')
  {
    hide Reads, Holder, Find, Wrap;
    if !s.cons.CIdle? && !s.cons.CFind? {
      PutBelow(s.q, s'.q, at, src, s.q.h, s.cons.buf);
    }
  }

  lemma StoredBytes(s: State, s': State, at: nat, src: seq<byte>)
    requires Inv(s) && Put(s.q, s'.q, at, src) && Range(s, at, src) && Stored(s, at, src, |src|)
    requires s' == s.(prod := PIdle, q := s'.q, tail := s'.tail, tailChunk := s'.tailChunk, enq := s'.enq)
    requires forall x :: InFlight(s.prod, x) ==> at <= x < at + |src|
    ensures Faithful(s')
  {
    hide Listing, Owners, Remembered, ConsOk, Reads, Holder, ProdOk, Looked;
    Facts(s);
    PutBelow(s.q, s'.q, at, src, 0, s.out);
    forall x: nat | x in s'.q.bytes
      ensures ByteAt(s', x)
    {
      if at <= x < at + |src| {
        assert s.cells[at + (x - at)] == src[x - at];
      } else {
        assert ByteAt(s, x);
      }
    }
    assert forall p: nat :: p < s'.q.t ==> p in s'.q.bytes;
  }

  /** The chunk behind the bytes written ahead may be cached: it lies past the tail. */
  lemma AheadLooked(s: State, s': State)
    requires Inv(s) && FinishAhead(s, s') && s'.q.t == s.q.t
    ensures Looked(s')
  {
    hide Listing, Owners, Words, Remembered, ConsOk, Faithful, Find, Holder, Cached, Run, Contiguous;
    Facts(s);
    CachedHolder(s.chain, s.q.t, s.prod.at + |s.prod.src|);
    forall p: nat | Beyond(s, p)
      ensures Beyond(s', p)
    {
    }
    assert Beyond(s', s.prod.at);
  }

  lemma FinishAheadKeeps(s: State, s': State)
    requires Inv(s) && FinishAhead(s, s')
    ensures Inv(s')
  {
    hide Listing, Reads, Holder, ConsOk, Faithful, Sound, Wrap, Looked;
    AheadTail(s.q, s'.q, s.prod.at, s.prod.src, s);
    ConsPut(s, s', s.prod.at, s.prod.src);
    StoredBytes(s, s', s.prod.at, s.prod.src);
    ListingTail(s, s');
    AheadLooked(s, s');
  }

  lemma AheadTail(q: Queue, r: Queue, at: nat, x: seq<byte>, s: State)
    requires Faithful(s) && q == s.q && Put(q, r, at, x) && q.t < at
    ensures r.t == q.t
  {
    assert q.t !in r.bytes;
  }

  lemma PublishTailKeeps(s: State, s': State)
    requires Inv(s) && PublishTail(s, s')
    ensures Inv(s')
  {
    hide Listing, Reads, ConsOk, Faithful, Sound, Wrap, Find, Contiguous, Looked, Holder;
    Facts(s);
    ConsPut(s, s', s.prod.at, s.prod.src);
    StoredBytes(s, s', s.prod.at, s.prod.src);
    ListingTail(s, s');
    PublishLooked(s, s');
  }

  lemma PublishLooked(s: State, s': State)
    requires Inv(s) && PublishTail(s, s')
    ensures Looked(s')
  {
    hide Listing, Owners, Words, Remembered, ConsOk, Faithful, Holder, Run, Find, Contiguous;
    forall p: nat | Beyond(s, p)
      ensures Beyond(s', p)
    {
    }
  }
}
