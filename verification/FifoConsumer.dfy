/**
 Every step of the consumer keeps the invariant of the fifo shared with a producer.
 */
module FifoConsumer {
  import opened Positions
  import opened Chunks
  import opened FifoLayout
  import opened FifoLookup
  import opened ByteQueue
  import opened FifoMachine
  import ChunkTree

  // ---- Steps that only change the consumer's own state ----

  lemma ConsLocal(s: State, s': State)
    requires Inv(s) && s' == s.(cons := s'.cons, start := s'.start, headChunk := s'.headChunk, pos := s'.pos)
    requires Dropped(s.cons) == Dropped(s'.cons) && Words(s') && Spots(s.chain, s'.pos, s.q.t, s.size)
    requires ConsOk(s') && Remembered(s')
    ensures Inv(s')
  {
    hide Chained, Holds, Spots, Lens, Holder, Wrap, ConsOk, Remembered, Reads, Sound, InFlight, Fresh, Dropped, Put,
         Looked, SameTracks;
    SameTracksMem(s, s');
    LookedSame(s, s');
    forall x: nat | x in s'.q.bytes
      ensures ByteAt(s', x)
    {
      assert ByteAt(s, x);
    }
  }

  lemma SpotsAt(s: State)
    requires Inv(s)
    ensures Spots(s.chain, s.pos, s.q.t, s.size)
    ensures forall p: nat :: s.pos <= p <= s.q.t && p <= s.chain[0].hi ==> Spots(s.chain, p, s.q.t, s.size)
  {
  }

  lemma LoadTailKeeps(s: State, s': State, len: nat)
    requires Inv(s) && LoadTail(s, s', len)
    ensures Inv(s')
  {
    hide Listing, Owners, Faithful, ProdOk, Find, Contiguous, Spots, Minus, Wrap, Holder;
    Facts(s);
    SpotsAt(s);
    ConsLocal(s, s');
  }

  lemma FindHeadKeeps(s: State, s': State)
    requires Inv(s) && FindHead(s, s')
    ensures Inv(s')
  {
    hide Listing, Owners, Faithful, ProdOk, Find, Contiguous, Spots, Minus, Wrap, IncludesPos;
    Facts(s);
    SpotsAt(s);
    HolderOf(s, s.q.h);
    Compared(s, s.cons.k, s.q.h);
    ConsLocal(s, s');
  }

  lemma ReadByteKeeps(s: State, s': State)
    requires Inv(s) && ReadByte(s, s')
    ensures Inv(s') && s.q.h + |s.cons.buf| < s.q.t
  {
    hide Listing, Owners, ProdOk, Find, Contiguous, Spots, Minus, Plus, Wrap, Holder, Reads;
    var p := s.q.h + |s.cons.buf|;
    Facts(s);
    SpotsAt(s);
    HolderOf(s, p);
    WrapSmall(|s.cons.buf|);
    WrapPlus(s.q.h, |s.cons.buf|);
    NotInFlight(s, p);
    assert ByteAt(s, p);
    ReadsMore(s.q, s.q.h, s.cons.buf, s.cells[p]);
    ConsLocal(s, s');
  }

  lemma ReadsMore(q: Queue, at: nat, buf: seq<byte>, b: byte)
    requires Reads(q, at, buf) && at + |buf| in q.bytes && b == q.bytes[at + |buf|]
    ensures Reads(q, at, buf + [b])
  {
    var more := buf + [b];
    forall i | 0 <= i < |more|
      ensures ReadAt(q, at, more, i)
    {
      assert i < |buf| ==> ReadAt(q, at, buf, i);
    }
  }

  /** Nothing below the tail is being rewritten. */
  lemma NotInFlight(s: State, p: nat)
    requires ProdOk(s) && p < s.q.t
    ensures !InFlight(s.prod, p)
  {
  }

  lemma ReadDoneKeeps(s: State, s': State)
    requires Inv(s) && ReadDone(s, s')
    ensures Inv(s')
  {
    hide Listing, Owners, Faithful, ProdOk, Find, Contiguous, Spots, Minus, Plus, Wrap, Holder, PosGeq, ChunkEnd;
    Facts(s);
    SpotsAt(s);
    WrapSmall(s.cons.n);
    WrapPlus(s.q.h, s.cons.n);
    Compared(s, 0, s.q.h + s.cons.n);
    ConsLocal(s, s');
  }

  lemma WalkOnKeeps(s: State, s': State)
    requires Inv(s) && WalkOn(s, s')
    ensures Inv(s')
  {
    hide Listing, Owners, Faithful, ProdOk, Find, Spots, Minus, Plus, Wrap, Holder, IncludesPos, Contiguous, Reads;
    var u, k := s.q.h + s.cons.n, s.cons.k;
    Facts(s);
    SpotsAt(s);
    WrapSmall(s.cons.n);
    WrapPlus(s.q.h, s.cons.n);
    Compared(s, k, u);
    if k + 1 < |s.chain| {
      Compared(s, k + 1, u);
      NextLo(s.chain, k);
    }
    ConsLocal(s, s');
  }

  lemma SwingKeeps(s: State, s': State)
    requires Inv(s) && Swing(s, s')
    ensures Inv(s')
  {
    hide Listing, Owners, Faithful, ProdOk, Contiguous, Spots, Holder, Wrap;
    Facts(s);
    SpotsAt(s);
    ConsLocal(s, s');
  }

  // ---- Steps on shared chunks ----

  lemma PtrsSplit(c: seq<Link>, k: nat)
    requires k <= |c| && DistinctPtrs(c)
    ensures Ptrs(c[..k]) !! Ptrs(c[k..]) && Ptrs(c) == Ptrs(c[..k]) + Ptrs(c[k..])
  {
    assert c == c[..k] + c[k..];
    PtrsUnion(c[..k], c[k..]);
    forall x | x in Ptrs(c[..k])
      ensures x !in Ptrs(c[k..])
    {
      var i :| 0 <= i < k && c[..k][i].ptr == x;
      assert forall j :: 0 <= j < |c| - k ==> c[k..][j].ptr == c[k + j].ptr != c[i].ptr;
    }
  }

  lemma CutListing(s: State, s': State)
    requires Inv(s) && Cut(s, s')
    ensures Listing(s') && s'.chain != [] && End(s'.chain) == End(s.chain)
    ensures s'.chain[|s'.chain| - 1] == s.chain[|s.chain| - 1]
    ensures s.prod.PPlaced? ==> Chained(s'.mem, s.prod.d)
    ensures s.chain[0].lo <= s'.chain[0].lo && s'.chain[0] == s.chain[s.cons.k]
  {
    hide Holds, Reads, Put, Wrap, Contiguous, Faithful, Remembered, Holder, Find;
    var c, k := s.chain, s.cons.k;
    Facts(s);
    InPtrs(c);
    CutKeeps(s, s');
    DropChain(s.mem, c, k, s'.mem, s.cells);
    assert LinkAt(s.mem, c, k);
    HeadedSpots(c, s.pos, s.q.t, s.size, s.q.h + s.cons.n, k);
    if s.prod.PPlaced? {
      ChainedFacts(s.mem, s.prod.d);
      InPtrs(s.prod.d);
      SameLinks(s.mem, s'.mem, s.prod.d);
    }
    Bounds(c, k);
  }

  lemma CutKeeps(s: State, s': State)
    requires Inv(s) && Cut(s, s')
    ensures Lens(s'.mem) && s.cons.k < |s.chain|
    ensures forall i ::
              s.cons.k <= i < |s.chain| ==>
                s.chain[i].ptr in s.mem && s.chain[i].ptr in s'.mem && s'.mem[s.chain[i].ptr] == s.mem[s.chain[i].ptr]
  {
    hide Holds, Reads, Put, Wrap, Contiguous, Faithful, Remembered, Holder, Find, Spots, LinkAt;
    ChainedFacts(s.mem, s.chain);
  }

  lemma CutKept(s: State, s': State, p: nat)
    requires Inv(s) && Cut(s, s') && s.q.h + s.cons.n <= p <= End(s.chain)
    ensures Holder(s'.chain, p) == Holder(s.chain, p) && s.cons.k <= Find(s.chain, p)
    ensures Find(s'.chain, p) == Find(s.chain, p) - s.cons.k
  {
    hide Holds, Reads, Put, Wrap, Contiguous, Faithful, Remembered, Holder, Find, Spots, Looked;
    Facts(s);
    HolderKept(s.chain, s.cons.k, p);
    FindDrop(s.chain, s.cons.k, p);
  }

  /** No tracked chunk is cut off. */
  lemma CutFrom(s: State, s': State)
    requires Inv(s) && Cut(s, s')
    ensures s.enq.from < s.enq.to ==> s.cons.k <= s.enq.from
  {
    hide Listing, Owners, Reads, Put, Wrap, Contiguous, Faithful, Remembered, Holder, Find, Run, Cached, Low;
    Facts(s);
    LowBound(s);
    CutKept(s, s', Low(s));
  }

  /** The tracked chunks are all kept. */
  lemma CutLooked(s: State, s': State)
    requires Inv(s) && Cut(s, s')
    ensures Looked(s')
  {
    hide Holds, Reads, Put, Wrap, Contiguous, Faithful, Remembered, Holder, Find, Spots, ChunkTree.Indexes, Listing,
         Owners, Cached, FlagAt;
    Facts(s);
    var k := s.cons.k;
    CutFlags(s, s');
    LowBound(s);
    CutKept(s, s', Tail(s));
    CutKept(s, s', Low(s));
    CachedDrop(s.chain, k, s.enq.cache, Find(s.chain, Tail(s)));
    if s.enq.from < s.enq.to {
      RunShift(s.mem, s'.mem, s.chain, s.enq.tree, s.enq.from, s.enq.to, true, k);
    } else {
      RunEmpty(s.mem, s.chain, s.enq.tree, s.enq.from, s.enq.to, true, k);
      RunShift(s.mem, s'.mem, s.chain, s.enq.tree, k, k, true, k);
    }
    CutBeyond(s, s');
  }

  lemma LowBound(s: State)
    requires Inv(s)
    ensures s.chain != [] && s.q.t <= Low(s) <= End(s.chain) && s.q.t <= Tail(s) <= End(s.chain)
  {
    hide Listing, Owners, ConsOk, Faithful, Remembered, Looked, Holder, Find, Put;
    Facts(s);
  }

  /** The bytes past the tail do not depend on the list. */
  lemma CutBeyond(s: State, s': State)
    requires Cut(s, s') && s.chain != [] && Looked(s) && s.enq.from <= s.enq.to <= |s.chain|
    requires s.enq.from < s.enq.to ==> s.cons.k <= s.enq.from
    ensures s.enq.from < s.enq.to ==>
              s'.enq.from < s'.enq.to <= |s'.chain| && s'.chain[s'.enq.to - 1] == s.chain[s.enq.to - 1]
    ensures s.enq.from == s.enq.to ==> s'.enq.from == s'.enq.to
    ensures forall p: nat :: Beyond(s', p) <==> Beyond(s, p)
  {
    hide Run, Find, Cached;
  }

  lemma CutFlags(s: State, s': State)
    requires Inv(s) && Cut(s, s')
    ensures s.cons.k < |s.chain|
    ensures forall i ::
              s.cons.k <= i < |s.chain| ==>
                && s.chain[i].ptr in s.mem && s.chain[i].ptr in s'.mem
                && Flag(s'.mem[s.chain[i].ptr], true) == Flag(s.mem[s.chain[i].ptr], true)
  {
    hide Holds, Reads, Put, Wrap, Contiguous, Faithful, Remembered, Holder, Find, Spots, Looked;
    CutKeeps(s, s');
  }

  lemma CachedDrop(c: seq<Link>, k: nat, x: Sptr, from: nat)
    requires Cached(c, x, from) && k <= from && k <= |c|
    ensures Cached(c[k..], x, from - k)
  {
    if x != 0 {
      var i :| from <= i < |c| && c[i].ptr == x;
      assert c[k..][i - k].ptr == x;
    }
  }

  lemma CutStepKeeps(s: State, s': State)
    requires Inv(s) && Cut(s, s')
    ensures Inv(s')
  {
    hide Listing, Chained, Holds, Holder, Wrap, Reads, Sound, Contiguous, Find, Ptrs, Put, Looked;
    Facts(s);
    CutListing(s, s');
    CutOwners(s, s');
    CutKept(s, s', s.q.t);
    CutKept(s, s', s.q.h + s.cons.n);
    CutProd(s, s');
    CutLooked(s, s');
    forall x: nat | x in s'.q.bytes
      ensures ByteAt(s', x)
    {
      assert ByteAt(s, x);
    }
  }

  lemma CutOwners(s: State, s': State)
    requires Inv(s) && Cut(s, s')
    ensures Owners(s')
  {
    hide Holds, Reads, Put, Wrap, Contiguous, Faithful, Remembered, Holder, Find, Spots, Ptrs;
    ChainedFacts(s.mem, s.chain);
    PtrsSplit(s.chain, s.cons.k);
    PtrsIn(s.mem, s.chain);
  }

  lemma CutProd(s: State, s': State)
    requires Inv(s) && Cut(s, s') && s'.chain != [] && End(s'.chain) == End(s.chain)
    requires s.prod.PPlaced? ==> Chained(s'.mem, s.prod.d)
    requires s'.chain[|s'.chain| - 1] == s.chain[|s.chain| - 1]
    ensures ProdOk(s')
  {
    hide Listing, Chained, Holds, Holder, Wrap, Reads, Sound, Contiguous, Find, Ptrs, Faithful, Remembered, Put, Looked,
         Owners, Lens;
    Facts(s);
    CutFrom(s, s');
    match s.prod
    case PTrack(at, src, c, p) =>
      CutKept(s, s', p);
      CutKept(s, s', at);
    case PSeek(at, src, c, p) => CutKept(s, s', p);
    case PCopy(at, src, i, c) => CutKept(s, s', at + i);
    case PClear(at, src, u, c, p) => CutKept(s, s', p);
    case PTail(at, src, u, c) => CutKept(s, s', u);
    case _ =>
  }

  lemma CollectListing(s: State, s': State)
    requires Inv(s) && Collect(s, s')
    ensures Listing(s') && Owners(s') && (s.prod.PPlaced? ==> Chained(s'.mem, s.prod.d))
  {
    hide Chained, Holds, Spots, Wrap, Ptrs, Faithful, Remembered, Holder, Put, Reads;
    Facts(s);
    InPtrs(s.chain);
    SameChain(s.mem, s.chain, s'.mem, s.cells);
    if s.prod.PPlaced? {
      ChainedFacts(s.mem, s.prod.d);
      InPtrs(s.prod.d);
      SameLinks(s.mem, s'.mem, s.prod.d);
    }
  }

  lemma SameTracksKept(s: State, s': State)
    requires Looked(s) && Collect(s, s')
    ensures SameTracks(s, s')
  {
    hide ChunkTree.Indexes, Find, Low, Beyond, Cached, Ptrs;
    SameTracksMem(s, s.(cons := s'.cons));
  }

  lemma CollectKeeps(s: State, s': State)
    requires Inv(s) && Collect(s, s')
    ensures Inv(s')
  {
    hide Listing, Owners, Chained, Holder, Wrap, Reads, Sound, Put, Ptrs, Looked, SameTracks;
    CollectListing(s, s');
    SameTracksKept(s, s');
    LookedSame(s, s');
    forall x: nat | x in s'.q.bytes
      ensures ByteAt(s', x)
    {
      assert ByteAt(s, x);
    }
  }

  lemma PublishHeadKeeps(s: State, s': State)
    requires Inv(s) && PublishHead(s, s')
    ensures Inv(s')
  {
    hide Listing, Chained, Holds, Holder, Wrap, Plus, Find, Ptrs, Contiguous, Put, Looked, SameTracks;
    Facts(s);
    WrapSmall(s.cons.n);
    WrapPlus(s.q.h, s.cons.n);
    DeliverMore(s.q, s.out, s.cons.buf);
    if s.prod.PClear? || s.prod.PTail? {
      PutHead(s, s');
    }
    ListingTail(s, s');
    SameTracksMem(s, s');
    LookedSame(s, s');
    forall x: nat | x in s'.q.bytes
      ensures ByteAt(s', x)
    {
      assert ByteAt(s, x);
    }
  }

  lemma DeliverMore(q: Queue, out: seq<byte>, buf: seq<byte>)
    requires |out| == q.h && Reads(q, 0, out) && Reads(q, q.h, buf)
    ensures Reads(q, 0, out + buf) && Reads(q.(h := q.h + |buf|), 0, out + buf)
  {
    var r, all := q.(h := q.h + |buf|), out + buf;
    forall i | 0 <= i < |all|
      ensures ReadAt(q, 0, all, i) && ReadAt(r, 0, all, i)
    {
      if i < |out| {
        assert ReadAt(q, 0, out, i);
      } else {
        assert ReadAt(q, q.h, buf, i - |out|);
      }
    }
  }

  /** A write in progress does not notice that the head moves. */
  lemma PutHead(s: State, s': State)
    requires ProdOk(s) && (s.prod.PClear? || s.prod.PTail?) && s'.q == s.q.(h := s'.q.h)
    ensures exists r :: Put(s'.q, r, s.prod.at, s.prod.src) && r.t == s.prod.u
  {
    var r :| Put(s.q, r, s.prod.at, s.prod.src) && r.t == s.prod.u;
    assert Put(s'.q, r.(h := s'.q.h), s.prod.at, s.prod.src);
  }
}
