/**
 The chunked byte fifo, run by one thread: in-order and out-of-order enqueue, dequeue,
 peek and drop over a list of chunks that grows and shrinks.
 */
module Fifos {
  import opened Positions
  import opened OutOfOrder
  import opened Chunks
  import opened SizeClasses
  import opened FreeLists
  import opened Allocation
  import opened AllocationLaws
  import opened Segments
  import opened ChunkTree
  import opened FifoLayout
  import opened FifoLookup
  import opened FifoState
  import opened ByteQueue

  const EFULL: int := -2
  const EEMPTY: int := -3
  const EGROW: int := -4

  /** What an in-order enqueue of src may do to a stream of capacity size, when n of its bytes are copied. */
  ghost predicate Enqueued(q: Queue, r: Queue, size: nat, src: seq<byte>, n: nat, result: int) {
    if q.t - q.h == size then result == EFULL && n == 0 && r == q
    else if n == 0 then result == EGROW && r == q
    else n <= |src| && n <= size - (q.t - q.h) && Put(q, r, q.t, src[..n]) && result == r.t - q.t
  }

  lemma EnqueuedFull(q: Queue, size: nat, src: seq<byte>)
    requires q.t - q.h == size
    ensures Enqueued(q, q, size, src, 0, EFULL)
  {
  }

  /** What copying n bytes to the tail amounts to; 0 if none could be copied. */
  lemma EnqueuedPart(q: Queue, r: Queue, size: nat, src: seq<byte>, n: nat, result: int)
    requires q.t - q.h < size && n <= |src| && n <= size - (q.t - q.h)
    requires if n == 0 then r == q && result == EGROW else Put(q, r, q.t, src[..n]) && result == r.t - q.t
    ensures Enqueued(q, r, size, src, n, result)
  {
    hide Put;
  }

  /**
   The outcome is determined by the stream, the bytes offered, the room behind the tail and what the segment has
   to offer: it does not matter which chunks the bytes lie in, nor in how many pieces they were handed over.
   */
  lemma EnqueuedUnique(q: Queue, r: Queue, s: Queue, src: seq<byte>, n: int, k: int, a: int, b: int,
                       u: Supply, minAlloc: nat, f: Shape, g: Shape)
    requires Alike(f, g) && n >= 0 && k >= 0
    requires n == Fit(u, minAlloc, f, Min(f.size - (f.t - f.h), |src|)) && Enqueued(q, r, f.size, src, n, a)
    requires k == Fit(u, minAlloc, g, Min(g.size - (g.t - g.h), |src|)) && Enqueued(q, s, g.size, src, k, b)
    ensures n == k && r == s && a == b
  {
    hide Put, Fit;
    GrowthAlike(u, minAlloc, f, g, Min(f.size - (f.t - f.h), |src|));
    if q.t - q.h != f.size && n != 0 {
      PutUnique(q, r, s, q.t, src[..n]);
    }
  }

  /** How many of len bytes are asked for when the window has room for free of them. */
  function Asked(len: nat, free: int, allowPartial: bool): int {
    if allowPartial then Min(free, len) else if len <= free then len else 0
  }

  /** The bytes of a list of segments, end to end. */
  function Flatten(segs: seq<seq<byte>>): seq<byte> {
    if segs == [] then [] else segs[0] + Flatten(segs[1..])
  }

  /** Segment number i is the part of the concatenation behind the first i segments. */
  lemma {:induction false} FlattenAt(segs: seq<seq<byte>>, i: nat)
    requires i <= |segs|
    ensures var src, a := Flatten(segs), |Flatten(segs[..i])|;
            && a <= |src| && (i == |segs| ==> a == |src|) && (i == 0 ==> a == 0)
            && (i < |segs| ==> |Flatten(segs[..i + 1])| == a + |segs[i]| <= |src| && src[a..a + |segs[i]|] == segs[i])
    decreases i
  {
    if i == 0 {
      if segs != [] {
        assert segs[..1][1..] == [];
        assert Flatten(segs[..1]) == segs[0];
      }
    } else {
      FlattenAt(segs[1..], i - 1);
      assert segs[..i][1..] == segs[1..][..i - 1];
      if i < |segs| {
        assert segs[..i + 1][1..] == segs[1..][..i];
        assert segs[1..][i - 1] == segs[i];
        SliceBehind(segs[0], Flatten(segs[1..]), |Flatten(segs[1..][..i - 1])|,
                    |Flatten(segs[1..][..i - 1])| + |segs[i]|);
      }
    }
  }

  method TotalLength(segs: seq<seq<byte>>) returns (len: nat)
    ensures len == |Flatten(segs)|
  {
    len := 0;
    FlattenAt(segs, 0);
    for i := 0 to |segs|
      invariant len == |Flatten(segs[..i])|
    {
      FlattenAt(segs, i);
      len := len + |segs[i]|;
    }
    FlattenAt(segs, |segs|);
  }

  /** The smallest number of bytes a fifo of the given size grows by: an eighth of the size, within 4 kB and 64 kB. */
  function MinAlloc(size: nat): (n: nat)
    ensures 4096 <= n <= 0x1_0000 && (size <= 0x8000 ==> n == 4096) && (0x8000 < size <= 0x8_0000 ==> n == size / 8)
    ensures size > 0x8_0000 ==> n == 0x1_0000
  {
    Min(if size > 0x8000 then size / 8 else 4096, 0x1_0000)
  }

  /** A piece of chunk data handed to the application: len bytes from off on. */
  datatype Piece = Piece(chunk: Sptr, off: nat, len: nat)

  ghost function PieceBytes(m: Memory, x: Piece): seq<byte> {
    if x.chunk in m && x.off + x.len <= |m[x.chunk].data| then m[x.chunk].data[x.off..x.off + x.len] else []
  }

  /** The bytes that a list of pieces denotes, end to end. */
  ghost function Denote(m: Memory, fs: seq<Piece>): seq<byte> {
    if fs == [] then [] else Denote(m, fs[..|fs| - 1]) + PieceBytes(m, fs[|fs| - 1])
  }

  lemma DenoteOne(m: Memory, x: Piece)
    ensures Denote(m, [x]) == PieceBytes(m, x)
  {
    DenoteMore(m, [], x);
    assert [] + [x] == [x];
  }

  lemma DenoteMore(m: Memory, fs: seq<Piece>, x: Piece)
    ensures Denote(m, fs + [x]) == Denote(m, fs) + PieceBytes(m, x)
  {
    assert (fs + [x])[..|fs|] == fs;
  }

  lemma TakeStep(q: Queue, dst: seq<byte>)
    requires q.h + |dst| <= q.t && Reads(q, q.h, dst)
    ensures ByteQueue.Step(q, Take(dst), q.(h := q.h + |dst|))
  {
  }

  class Fifo {
    const seg: Segment
    const ooo: OooList
    const slice: nat
    const size: nat
    const minAlloc: nat
    var startChunk: Sptr
    var endChunk: Sptr
    var headChunk: Sptr
    var tailChunk: Sptr
    var head: u32
    var tail: u32
    var enqInit: bool
    var deqInit: bool
    var enqTree: Tree
    var deqTree: Tree
    var oooEnq: Sptr
    var oooDeq: Sptr
    ghost var enqFrom: nat
    ghost var enqTo: nat
    ghost var deqTo: nat
    ghost var chain: seq<Link>
    ghost var cells: seq<byte>
    ghost var h: nat
    ghost var t: nat

    ghost function Sh(): Shape
      reads this`chain, this`cells, this`startChunk, this`endChunk, this`h, this`t
    {
      Shape(chain, cells, startChunk, endChunk, h, t, size, slice)
    }

    ghost function Lk(): Look
      reads this`enqTree, this`enqFrom, this`enqTo, this`oooEnq, this`enqInit
      reads this`deqTree, this`deqTo, this`oooDeq, this`deqInit
    {
      Look(enqTree, enqFrom, enqTo, oooEnq, enqInit, deqTree, deqTo, oooDeq, deqInit)
    }

    /** What the segment has to offer to this fifo. */
    ghost function Offer(): Supply
      reads seg`slices, seg`byteIndex, seg`maxByteIndex
    {
      OfferOf(seg, slice)
    }

    /** How many of len bytes are asked for: what the window has room for or, if all are needed, all or none. */
    ghost function Wants(len: nat, partial: bool): int
      reads this`h, this`t
    {
      Asked(len, size - (t - h), partial)
    }

    /** What making room for want bytes at the tail takes from the segment. */
    ghost function GrownBy(want: int): Outcome
      reads this`chain, this`cells, this`startChunk, this`endChunk, this`h, this`t, seg`slices, seg`byteIndex,
            seg`maxByteIndex
    {
      Growth(Offer(), minAlloc, Sh(), want)
    }

    /** How many of want bytes find room at the tail. */
    ghost function FitIn(want: int): int
      reads this`chain, this`cells, this`startChunk, this`endChunk, this`h, this`t, seg`slices, seg`byteIndex,
            seg`maxByteIndex
    {
      Fit(Offer(), minAlloc, Sh(), want)
    }

    /** How many chunks dequeueing up to len bytes gives back. */
    ghost function Passes(len: nat): (n: nat)
      reads this`chain, this`cells, this`startChunk, this`endChunk, this`h, this`t
      ensures n <= |chain|
    {
      PassedBy(Sh(), h + Min(t - h, len))
    }

    /** What returning the first n chunks gives back to the segment. */
    ghost function Returned(n: nat): Outcome
      reads this`chain, this`cells, this`startChunk, this`endChunk, this`h, this`t, seg`slices, seg`byteIndex,
            seg`maxByteIndex
    {
      Returning(Offer(), Sh(), n)
    }

    ghost predicate Base()
      reads this`chain, this`cells, this`startChunk, this`endChunk, this`h, this`t, seg
    {
      seg.Valid() && slice < |seg.slices| && Laid(seg.mem, seg.place, Sh())
    }

    /** The stored head, and the chunk the fifo remembers for it. */
    ghost predicate HeadWords()
      reads this`head, this`headChunk, this`h, this`chain
    {
      head == Wrap(h) && (headChunk == 0 || headChunk == Holder(chain, h)) && 0 < minAlloc <= 0x1_0000
    }

    /** The stored positions, and the chunks the fifo remembers for head and tail. */
    ghost predicate Words()
      reads this`head, this`headChunk, this`h, this`chain, this`tail, this`t, this`tailChunk
    {
      HeadWords() && tail == Wrap(t) && tailChunk == Holder(chain, t)
    }

    ghost predicate Valid()
      reads this, seg, ooo`pool, ooo`head, ooo`nodes
    {
      Base() && Words() && ooo.Valid() && Tracked(seg.mem, Sh(), Lk(), ooo.nodes)
    }

    constructor (seg: Segment, slice: nat, size: nat)
      ensures this.seg == seg && this.slice == slice && this.size == size
      ensures ooo.Valid() && ooo.nodes == [] && fresh(ooo)
      ensures minAlloc == MinAlloc(size)
      ensures enqTree == Leaf && deqTree == Leaf && !enqInit && !deqInit
    {
      this.seg := seg;
      this.ooo := new OooList();
      this.slice := slice;
      this.size := size;
      minAlloc := MinAlloc(size);
      startChunk, endChunk, headChunk, tailChunk := 0, 0, 0, 0;
      head, tail := 0, 0;
      enqInit, deqInit, enqTree, deqTree := false, false, Leaf, Leaf;
      oooEnq, oooDeq := 0, 0;
    }

    /** Gives the chunks of a freshly allocated list their positions; f is the shape of a new fifo over them. */
    method PlaceFirst(start: Sptr, ghost l: seq<Sptr>) returns (last: Sptr, ghost f: Shape)
      requires seg.Valid() && slice < |seg.slices| && Listed(seg.mem, l, start) && l != []
      requires forall i :: 0 <= i < |l| ==> seg.IsUsed(l[i], slice)
      requires 0 < size <= MAX_FIFO && Total(seg.mem, l) <= size + SLACK
      modifies seg`mem
      ensures seg.Valid() && Laid(seg.mem, seg.place, f)
      ensures Tracked(seg.mem, f, Look(Leaf, 0, 0, 0, enqInit, Leaf, 0, 0, deqInit), [])
      ensures f == Shape(f.c, f.cells, start, last, 0, 0, size, slice) && Holder(f.c, 0) == start
      ensures Contents(f, []) == Queue(0, 0, map[])
      ensures f.c != [] && Ptrs(f.c) == Elems(l) && End(f.c) == Total(old(seg.mem), l)
      ensures Only(old(seg.mem), seg.mem, f.c)
    {
      hide Laid, Tracked, Chained, MemOk, ListsOk, Regions, Counters, CarvedBytes, PlacedUpTo, Listed, LinksFrom, Total,
           Bytes, Holder, Contents, Only, Ptrs, Elems;
      ghost var m0 := seg.mem;
      UsedSizes(m0, seg.place, |seg.slices|, l);
      WrapSmall(0);
      LinksFacts(m0, l, 0);
      last := PlaceChunks(seg, start, 0, l, 0);
      ghost var d := LinksFrom(m0, l, 0);
      f := Shape(d, Bytes(seg.mem, d), start, last, 0, 0, size, slice);
      NewFifo(m0, seg.mem, seg.place, f, l, enqInit, deqInit);
      PlacedOnly(m0, seg.mem, d, l);
    }

    method Reset(start: Sptr, last: Sptr)
      modifies this`head, this`tail, this`startChunk, this`endChunk, this`headChunk, this`tailChunk, this`oooEnq,
               this`oooDeq
      ensures head == tail == 0 && startChunk == headChunk == tailChunk == start && endChunk == last
      ensures oooEnq == oooDeq == 0
    {
      head, tail := 0, 0;
      startChunk, endChunk, headChunk, tailChunk := start, last, start, start;
      oooEnq, oooDeq := 0, 0;
    }

    /** Takes over a freshly allocated chunk list. */
    method Init(start: Sptr, ghost l: seq<Sptr>)
      requires seg.Valid() && slice < |seg.slices| && Listed(seg.mem, l, start) && l != []
      requires forall i :: 0 <= i < |l| ==> seg.IsUsed(l[i], slice)
      requires 0 < size <= MAX_FIFO && Total(seg.mem, l) <= size + SLACK && 0 < minAlloc <= 0x1_0000
      requires ooo.Valid() && ooo.nodes == [] && enqTree == Leaf && deqTree == Leaf
      modifies this, seg`mem
      ensures Valid() && View() == Queue(0, 0, map[]) && enqInit == old(enqInit) && deqInit == old(deqInit)
      ensures chain != [] && Ptrs(chain) == Elems(l) && End(chain) == Total(old(seg.mem), l)
      ensures Only(old(seg.mem), seg.mem, chain)
    {
      hide Base, Laid, Tracked, MemOk, ListsOk, Regions, Counters, CarvedBytes, Listed, Total, Holder, Contents, Linked,
           Separated, Wrap, Only, Ptrs, Elems;
      var last: Sptr;
      ghost var f: Shape;
      WrapSmall(0);
      last, f := PlaceFirst(start, l);
      Reset(start, last);
      AdoptShape(f);
      AdoptLook(Look(Leaf, 0, 0, 0, enqInit, Leaf, 0, 0, deqInit));
      BaseIntro();
    }

    /** Switches tree lookup on for one side. */
    method InitLookup(enq: bool)
      requires Valid() && (if enq then !enqInit else !deqInit)
      modifies this`enqInit, this`deqInit
      ensures Valid() && View() == old(View())
      ensures enqInit == (old(enqInit) || enq) && deqInit == (old(deqInit) || !enq)
    {
      hide Base, Tracked, Holder, Contents, Linked, Separated, Wrap;
      TrackedInit(seg.mem, Sh(), Lk(), ooo.nodes);
      if enq {
        enqInit := true;
      } else {
        deqInit := true;
      }
    }

    ghost method AdoptShape(g: Shape)
      requires g == Sh().(c := g.c, cells := g.cells, h := g.h, t := g.t)
      modifies this`chain, this`cells, this`h, this`t
      ensures Sh() == g
    {
      chain, cells, h, t := g.c, g.cells, g.h, g.t;
    }

    ghost method AdoptLook(k: Look)
      requires k == Lk().(from := k.from, to := k.to, deqTo := k.deqTo)
      modifies this`enqFrom, this`enqTo, this`deqTo
      ensures Lk() == k
    {
      enqFrom, enqTo, deqTo := k.from, k.to, k.deqTo;
    }

    /** Writes bytes into chunk number i. */
    method Store(c: Sptr, off: nat, x: seq<byte>, ghost i: nat)
      requires Base() && i < |chain| && chain[i].ptr == c
      requires off + |x| <= chain[i].hi - chain[i].lo
      modifies seg`mem, this`cells
      ensures Base() && chain[i].lo + off + |x| <= |old(cells)| && cells == Overwrite(old(cells), chain[i].lo + off, x)
      ensures SameButData(old(seg.mem), seg.mem, chain)
    {
      hide Layout, Spots, Overwrite, MemOk, ListsOk, Regions, Counters, CarvedBytes, SameButData;
      StoreLayout(seg.mem, seg.place, |seg.slices|, slice, chain, cells, startChunk, endChunk, i, off, x,
                  seg.byteIndex);
      seg.mem := seg.mem[c := seg.mem[c].(data := Overwrite(seg.mem[c].data, off, x))];
      cells := Overwrite(cells, chain[i].lo + off, x);
    }

    /** What the code reads from the chunk that holds live position p. */
    lemma At(p: nat)
      requires Base() && chain != [] && chain[0].lo <= p < End(chain)
      ensures var i := Find(chain, p);
              && i < |chain| && Holder(chain, p) == chain[i].ptr != 0 && chain[i].ptr in seg.mem
              && chain[0].lo <= chain[i].lo <= p < chain[i].hi <= End(chain) == |cells|
              && chain[i].hi - chain[i].lo <= MAX_CHUNK
              && (var k := seg.mem[chain[i].ptr];
                  && k.length == chain[i].hi - chain[i].lo == |k.data| && k.start == Wrap(chain[i].lo)
                  && IncludesPos(k, Wrap(p)) && Minus(Wrap(p), k.start) == p - chain[i].lo
                  && k.next == PtrAt(chain, i + 1) == Holder(chain, chain[i].hi) && Find(chain, chain[i].hi) == i + 1
                  && k.data == cells[chain[i].lo..chain[i].hi])
    {
      hide *;
      BaseElim();
      HolderFacts(seg.mem, seg.place, slice, chain, cells, startChunk, endChunk, h, t, size, p);
    }

    lemma BaseElim()
      requires Base()
      ensures seg.Valid() && slice < |seg.slices| && Laid(seg.mem, seg.place, Sh())
      ensures Layout(seg.mem, seg.place, slice, chain, cells, startChunk, endChunk) && Spots(chain, h, t, size)
      ensures chain != [] && chain[0].lo <= h <= t <= End(chain) == |cells| && t <= h + size <= h + MAX_FIFO
    {
    }

    /** Room that is there need not be made. */
    lemma NoGrowth(want: int)
      requires Base() && chain != [] && t + want <= End(chain)
      ensures FitIn(want) == want && GrownBy(want).total == 0
      ensures Settles(seg.slices, seg.slices, slice, seg.byteIndex, GrownBy(want))
    {
      hide Laid, Segment.Valid, Fit, Growth, Settles, Stock;
      OfferOfFacts(seg, slice);
      FitAll(Offer(), minAlloc, Sh(), want);
    }

    lemma NoReturn()
      requires Base()
      ensures Settles(seg.slices, seg.slices, slice, seg.byteIndex, Returned(0))
    {
      hide Laid, Segment.Valid, Returning, Settles, Stock;
      OfferOfFacts(seg, slice);
      ReturningNone(Offer(), Sh());
    }

    /** No chunk in front of the head is kept, unless it is the last one. */
    ghost predicate Trimmed()
      reads this`chain, this`h
    {
      chain != [] && (|chain| == 1 || h < chain[0].hi)
    }

    lemma TrimmedAt(c: seq<Link>)
      requires c != [] && Contiguous(c) && c[0].lo <= h <= End(c) && chain == c[DropCount(c, h)..]
      ensures Trimmed()
    {
      hide DropCount;
      PassedExactly(c, h);
    }

    lemma ValidSegment()
      requires Valid()
      ensures seg.Valid() && slice < |seg.slices| && Base()
    {
      hide Laid, Tracked, Segment.Valid;
    }

    lemma BaseIntro()
      requires seg.Valid() && slice < |seg.slices| && Laid(seg.mem, seg.place, Sh())
      ensures Base()
    {
    }

    lemma Onward(p: nat, n: nat)
      requires Base() && chain != [] && chain[0].lo <= p < End(chain)
      ensures var i := Find(chain, p);
              && i < |chain| && chain[i].lo <= p < chain[i].hi <= End(chain)
              && (p + n < chain[i].hi ==> Holder(chain, p + n) == chain[i].ptr)
              && (p + n == chain[i].hi ==>
                    Holder(chain, p + n) == PtrAt(chain, i + 1) && (p + n < End(chain) ==> StartsAt(chain, p + n)))
    {
      hide Find, Holder, StartsAt, MemOk, ListsOk, Regions, CarvedBytes, Holds, AllUsed;
      Advance(chain, p, n);
    }

    /** The chunk reached by a copy that has just left its predecessor. */
    lemma CopyStep(c: Sptr, p: nat)
      requires Base() && chain != [] && chain[0].lo <= p < End(chain) && c == Holder(chain, p) && StartsAt(chain, p)
      ensures c in seg.mem && 0 < seg.mem[c].length
      ensures var i := Find(chain, p);
              && i < |chain| && c == chain[i].ptr && chain[i].lo == p
              && seg.mem[c].length == chain[i].hi - p == |seg.mem[c].data|
              && seg.mem[c].next == PtrAt(chain, i + 1)
    {
      hide Base, Find, Holder, IncludesPos, Minus, Wrap;
      At(p);
    }

    /**
     Copies src to position p, whose chunk is first; says whether the end of that chunk was reached and which chunk
     follows the copied bytes.
     */
    method CopyTo(first: Sptr, pos: u32, src: seq<byte>, ghost p: nat) returns (crossed: bool, last: Sptr)
      requires Base() && chain != [] && chain[0].lo <= p < End(chain) && p + |src| <= End(chain)
      requires first == Holder(chain, p) && pos == Wrap(p)
      modifies seg`mem, this`cells
      ensures Base() && p + |src| <= |old(cells)| && cells == Overwrite(old(cells), p, src)
      ensures SameButData(old(seg.mem), seg.mem, chain)
      ensures last == Holder(chain, p + |src|) && (!crossed ==> last == first)
    {
      hide Base, Find, Holder, StartsAt, Overwrite, SameButData, IncludesPos, Minus, Wrap;
      ghost var m0, cells0, i := seg.mem, cells, Find(chain, p);
      At(p);
      var c, off := first, Minus(pos, seg.mem[first].start);
      var nChunk := seg.mem[c].length - off;
      if nChunk <= |src| {
        Store(c, off, src[..nChunk], i);
        Onward(p, nChunk);
        SameButDataAt(m0, seg.mem, chain, c);
        c := seg.mem[c].next;
        var toCopy := |src| - nChunk;
        while toCopy != 0
          invariant Base() && 0 <= toCopy <= |src|
          invariant SameButData(m0, seg.mem, chain)
          invariant p + |src| <= |cells0| && cells == Overwrite(cells0, p, src[..|src| - toCopy])
          invariant c == Holder(chain, p + |src| - toCopy) && (toCopy > 0 ==> StartsAt(chain, p + |src| - toCopy))
        {
          ghost var done := |src| - toCopy;
          CopyStep(c, p + done);
          nChunk := Min(seg.mem[c].length, toCopy);
          ghost var m1 := seg.mem;
          OverwriteMore(cells0, p, src, done, done + nChunk);
          Store(c, 0, src[|src| - toCopy..|src| - toCopy + nChunk], Find(chain, p + done));
          SameButDataTwice(m0, m1, seg.mem, chain);
          SameButDataAt(m1, seg.mem, chain, c);
          Onward(p + done, nChunk);
          c := if seg.mem[c].length <= toCopy then seg.mem[c].next else c;
          toCopy := toCopy - nChunk;
        }
        assert src[..|src|] == src;
        return true, c;
      }
      Store(c, off, src, i);
      Onward(p, |src|);
      return false, first;
    }

    lemma Read(p: nat, n: nat)
      requires Base() && chain != [] && chain[0].lo <= p < End(chain)
      requires Find(chain, p) < |chain| && p + n <= chain[Find(chain, p)].hi
      ensures p + n <= |cells| && Holder(chain, p) in seg.mem && chain[Find(chain, p)].lo <= p
      ensures var k, off := seg.mem[Holder(chain, p)], p - chain[Find(chain, p)].lo;
              off + n <= |k.data| && k.data[off..off + n] == cells[p..p + n]
    {
      hide *;
      BaseElim();
      ReadFacts(seg.mem, seg.place, slice, chain, cells, startChunk, endChunk, h, t, size, p, n);
    }

    /** Copies len bytes from position p, whose chunk is first. */
    method CopyFrom(first: Sptr, pos: u32, len: nat, ghost p: nat) returns (dst: seq<byte>, crossed: bool, last: Sptr)
      requires Base() && chain != [] && chain[0].lo <= p < End(chain) && p + len <= End(chain)
      requires first == Holder(chain, p) && pos == Wrap(p)
      ensures SliceIs(dst, cells, p, p + len)
      ensures last == Holder(chain, p + len) && (!crossed ==> last == first)
    {
      hide Base, Find, Holder, StartsAt, IncludesPos, Minus, Wrap, SliceIs;
      At(p);
      var c, off := first, Minus(pos, seg.mem[first].start);
      var nChunk := seg.mem[c].length - off;
      if nChunk <= len {
        Read(p, nChunk);
        SliceIntro(cells, p, p + nChunk);
        dst := seg.mem[c].data[off..off + nChunk];
        Onward(p, nChunk);
        c := seg.mem[c].next;
        var toCopy := len - nChunk;
        while toCopy != 0
          invariant 0 <= toCopy <= len && SliceIs(dst, cells, p, p + len - toCopy)
          invariant c == Holder(chain, p + len - toCopy) && (toCopy > 0 ==> StartsAt(chain, p + len - toCopy))
        {
          ghost var q := p + len - toCopy;
          CopyStep(c, q);
          nChunk := Min(seg.mem[c].length, toCopy);
          Read(q, nChunk);
          SliceJoin(dst, cells[q..q + nChunk], cells, p, q, q + nChunk);
          dst := dst + seg.mem[c].data[0..nChunk];
          Onward(q, nChunk);
          c := if seg.mem[c].length <= toCopy then seg.mem[c].next else c;
          toCopy := toCopy - nChunk;
        }
        return dst, true, c;
      }
      Read(p, len);
      SliceIntro(cells, p, p + len);
      Onward(p, len);
      return seg.mem[c].data[off..off + len], false, first;
    }

    /** Chunk number i compared with position p, as the code compares them. */
    lemma Compare(i: nat, p: nat)
      requires Base() && i < |chain| && chain[0].lo <= p <= End(chain)
      ensures chain[i].ptr != 0 && chain[i].ptr in seg.mem
      ensures var k := seg.mem[chain[i].ptr];
              && k.next == PtrAt(chain, i + 1) && k.start == Wrap(chain[i].lo)
              && (IncludesPos(k, Wrap(p)) <==> Find(chain, p) == i)
              && (p < chain[i].lo <==> Find(chain, p) < i) && (chain[i].hi <= p <==> i < Find(chain, p))
              && Find(chain, p) <= |chain|
    {
      hide *;
      BaseElim();
      FindCompare(seg.mem, seg.place, slice, chain, cells, startChunk, endChunk, h, t, size, i, p);
    }

    /** The linear scan from chunk number a finds the chunk that holds p. */
    method FindChunk(start: Sptr, pos: u32, ghost a: nat, ghost p: nat) returns (c: Sptr)
      requires Base() && chain != [] && chain[0].lo <= p <= End(chain) && pos == Wrap(p)
      requires a <= Find(chain, p) && start == PtrAt(chain, a)
      ensures c == Holder(chain, p)
    {
      hide Base, Find, IncludesPos, Wrap;
      c := start;
      ghost var i := a;
      if a < |chain| {
        Compare(a, p);
      }
      while c != 0 && !IncludesPos(seg.mem[c], pos)
        invariant i <= Find(chain, p) && c == PtrAt(chain, i) && (i < |chain| ==> c != 0 && c in seg.mem)
        decreases |chain| - i
      {
        Compare(i, p);
        c, i := seg.mem[c].next, i + 1;
        if i < |chain| {
          Compare(i, p);
        }
      }
      if i < |chain| {
        Compare(i, p);
      }
    }

    // ---- Growth ----

    /** Places freshly granted chunks and links them behind the last chunk; g is the new shape. */
    method Link(first: Sptr, ghost got: seq<Sptr>, ghost m0: Memory, ghost w0: map<Sptr, Place>)
      returns (last: Sptr, ghost g: Shape)
      requires seg.Valid() && slice < |seg.slices| && Laid(m0, w0, Sh()) && Tracked(m0, Sh(), Lk(), ooo.nodes)
      requires Granted(m0, seg.mem, w0, seg.place, got, slice) && Listed(seg.mem, got, first) && got != []
      requires chain != [] && End(chain) + Total(seg.mem, got) <= h + size + SLACK
      modifies seg`mem
      ensures seg.Valid() && Laid(seg.mem, seg.place, g) && Tracked(seg.mem, g, Lk(), ooo.nodes)
      ensures g == Sh().(c := g.c, cells := g.cells, end := last) && chain <= g.c && cells <= g.cells
      ensures Apart(m0, seg.mem, w0, seg.place, chain, g.c)
      ensures g.c != [] && End(g.c) == End(chain) + Total(old(seg.mem), got)
      ensures Holder(chain, h) == 0 || Holder(g.c, h) == Holder(chain, h)
      ensures Holder(g.c, t) == if Holder(chain, t) == 0 then first else Holder(chain, t)
    {
      hide Laid, Tracked, Granted, Listed, Total, MemOk, ListsOk, Regions, Counters, CarvedBytes, Chained, LinksFrom,
           PlacedUpTo, Wrap, Plus, Bytes, Holder, Apart;
      ghost var m1, f := seg.mem, Sh();
      LaidElim(m0, w0, f);
      GrantSizes(m0, m1, w0, seg.place, |seg.slices|, got, slice);
      GrantEnd(m0, m1, w0, seg.place, got, slice, chain, cells, startChunk, endChunk);
      var start := Plus(seg.mem[endChunk].start, Wrap(seg.mem[endChunk].length));
      last := PlaceChunks(seg, first, start, got, End(chain));
      Grow(m0, m1, seg.mem, w0, seg.place, f, Lk(), ooo.nodes, got, first);
      GrowApart(m0, m1, seg.mem, w0, seg.place, f, got, first);
      RelinkMem(seg.mem, seg.place, |seg.slices|, seg.byteIndex, endChunk, first);
      seg.mem := seg.mem[endChunk := seg.mem[endChunk].(next := first)];
      g := GrownShape(f, m1, seg.mem, got);
      seg.mem := seg.mem[last := seg.mem[last].(next := 0)];
    }

    method Append(first: Sptr, ghost got: seq<Sptr>, ghost m0: Memory, ghost w0: map<Sptr, Place>)
      requires seg.Valid() && slice < |seg.slices| && Laid(m0, w0, Sh()) && Words() && ooo.Valid()
      requires Tracked(m0, Sh(), Lk(), ooo.nodes)
      requires Granted(m0, seg.mem, w0, seg.place, got, slice) && Listed(seg.mem, got, first) && got != []
      requires chain != [] && End(chain) + Total(seg.mem, got) <= h + size + SLACK
      modifies seg`mem, this`endChunk, this`tailChunk, this`chain, this`cells, this`h, this`t
      ensures Valid() && old(chain) <= chain && old(cells) <= cells && chain != []
      ensures End(chain) == old(End(chain) + Total(seg.mem, got))
      ensures Apart(m0, seg.mem, w0, seg.place, old(chain), chain)
      ensures h == old(h) && t == old(t)
      ensures old(tailChunk) != 0 ==> tailChunk == old(tailChunk)
    {
      hide Base, Laid, Tracked, Granted, Listed, Total, MemOk, ListsOk, Regions, Counters, CarvedBytes, Wrap, Holder,
           Linked, Separated, Apart;
      var last: Sptr;
      ghost var g: Shape;
      last, g := Link(first, got, m0, w0);
      endChunk := last;
      if tailChunk == 0 {
        tailChunk := first;
      }
      AdoptShape(g);
      BaseIntro();
    }

    /** Grows the chunk list so that it covers len bytes from the tail, or fails and leaves the fifo alone. */
    method TryChunkAlloc(len: nat) returns (ok: bool)
      requires Valid() && chain != [] && End(chain) < t + len <= h + size && t + len - End(chain) <= MAX_SIZE
      modifies seg, this`endChunk, this`tailChunk, this`chain, this`cells, this`h, this`t
      ensures h == old(h) && t == old(t)
      ensures Valid() && old(chain) <= chain && old(cells) <= cells && chain != []
      ensures Apart(old(seg.mem), seg.mem, old(seg.place), seg.place, old(chain), chain)
      ensures |seg.slices| == |old(seg.slices)|
      ensures ok <==> old(GrownBy(len)).total > 0
      ensures End(chain) == old(End(chain)) + old(GrownBy(len)).total && (ok ==> t + len <= End(chain))
      ensures Settles(old(seg.slices), seg.slices, slice, seg.byteIndex, old(GrownBy(len)))
      ensures seg.maxByteIndex == old(seg.maxByteIndex)
      ensures ok ==> End(chain) - old(End(chain)) >= Min(minAlloc, size - (t - h))
      ensures !ok ==> chain == old(chain) && cells == old(cells) && endChunk == old(endChunk)
      ensures old(tailChunk) != 0 ==> tailChunk == old(tailChunk)
    {
      hide Laid, Tracked, Granted, Listed, Total, MemOk, ListsOk, Regions, Counters, CarvedBytes, Wrap, Holder, Minus,
           ChunkEnd, IncludesPos, Apart, Growth, Fit, Settles, Leaves, Allocate, Stock, Serves, ClassFits,
           FreelistForSize, ChunkBytes, Plus, PosLt, PosLeq, PosGt, PosGeq;
      EndFacts(seg.mem, seg.place, Sh(), t + len);
      LaidElim(seg.mem, seg.place, Sh());
      var freeAlloced := Minus(ChunkEnd(seg.mem[endChunk]), tail);
      var allocSize := Max(Min(minAlloc, size - Minus(tail, head)), len - freeAlloced);
      ghost var m0, w0 := seg.mem, seg.place;
      OfferOfFacts(seg, slice);
      FitGrown(Offer(), minAlloc, Sh(), len);
      seg.StockCounted(slice);
      ghost var n := GrowthShare(Offer(), minAlloc, Sh(), len);
      var c: Sptr;
      ghost var got: seq<Sptr>;
      c, got := seg.AllocChunk(slice, allocSize);
      ListedNull(seg.mem, got, c);
      SettlesIntro(old(seg.slices), seg.slices, slice, seg.byteIndex, old(GrownBy(len)));
      if c == 0 {
        KeptApart(m0, seg.mem, w0, seg.place, got, Sh());
        Kept(m0, seg.mem, w0, seg.place, got, Sh(), Lk(), ooo.nodes);
        return false;
      }
      Append(c, got, m0, w0);
      return true;
    }

    // ---- Chunk lookup ----

    /** Adds the chunk behind the run to the tree. */
    method Track(enq: bool, tree0: Tree, c: Sptr, ghost a: nat, ghost e: nat) returns (tree: Tree)
      requires Base() && Run(seg.mem, chain, tree0, a, e, enq) && e < |chain| && c == chain[e].ptr
      modifies seg`mem
      ensures Base() && Run(seg.mem, chain, tree, a, e + 1, enq) && FlagsOnly(old(seg.mem), seg.mem, enq, chain)
    {
      hide Layout, Spots, Run, FlagsOnly, MemOk, ListsOk, Regions, Counters, CarvedBytes, Wrap, Insert, SetFlag,
           SameButFlags;
      ghost var m := seg.mem;
      TrackFacts(m, seg.place, |seg.slices|, Sh(), tree0, a, e, enq, seg.byteIndex);
      tree := Insert(tree0, seg.mem[c].start, c);
      seg.mem := seg.mem[c := SetFlag(seg.mem[c], enq, true)];
    }

    /** Removes the first chunk of the run from the tree. */
    method Untrack(enq: bool, tree0: Tree, c: Sptr, ghost a: nat, ghost e: nat) returns (tree: Tree)
      requires Base() && Run(seg.mem, chain, tree0, a, e, enq) && a < e <= |chain| && c == chain[a].ptr
      modifies seg`mem
      ensures Base() && Run(seg.mem, chain, tree, a + 1, e, enq) && FlagsOnly(old(seg.mem), seg.mem, enq, chain)
    {
      hide Layout, Spots, Run, FlagsOnly, MemOk, ListsOk, Regions, Counters, CarvedBytes, Wrap, Remove, SetFlag,
           SameButFlags;
      ghost var m := seg.mem;
      UntrackFacts(m, seg.place, |seg.slices|, Sh(), tree0, a, e, enq, seg.byteIndex);
      tree := Remove(tree0, seg.mem[c].start);
      seg.mem := seg.mem[c := SetFlag(seg.mem[c], enq, false)];
    }

    /** The tree walk finds the last tracked chunk at or before p. */
    method FindTracked(enq: bool, tree: Tree, pos: u32, ghost a: nat, ghost e: nat, ghost p: nat)
      returns (c: Sptr, ghost i: nat)
      requires Base() && Run(seg.mem, chain, tree, a, e, enq) && a < e <= |chain| && chain[a].lo <= p < End(chain)
      requires pos == Wrap(p)
      ensures a <= i < e && c == chain[i].ptr && i <= Find(chain, p) && (i + 1 < e ==> i == Find(chain, p))
    {
      hide Layout, Indexes, Ordered, Wrap, Find, IsFloor, MemOk, ListsOk, Regions, Counters, CarvedBytes;
      RunOrdered(chain, a, e, h, t, size);
      SpotsSpan(chain, h, t, size);
      assert chain[0].lo <= chain[a].lo;
      RunSpan(chain, a, e, h, t, size, p);
      var n: Tree;
      ghost var j: int;
      n, j := FindNode(tree, pos, chain[a..e], p);
      FloorHolds(chain, a, e, n, p, j);
      return n.chunk, a + j;
    }

    lemma InOrderOf(p: nat, q: nat)
      requires Base() && chain != [] && chain[0].lo <= p <= q <= End(chain)
      ensures Find(chain, p) <= Find(chain, q) <= |chain| && (p < End(chain) ==> Find(chain, p) < |chain|)
    {
      hide Find, MemOk, ListsOk, Regions, Counters, CarvedBytes, Holds, AllUsed;
      FindMonotone(chain, p, q);
      FindLocates(chain, p);
    }

    /** From tracked chunk number i on, tracks chunks up to the one that holds pe, and finds the one that holds p. */
    method ExtendRun(enq: bool, tree0: Tree, cache0: Sptr, c0: Sptr, start: u32, end: u32,
                     ghost a: nat, ghost e0: nat, ghost i0: nat, ghost p: nat, ghost pe: nat)
      returns (tree: Tree, cache: Sptr, ghost e: nat)
      requires Base() && Run(seg.mem, chain, tree0, a, e0, enq) && a <= i0 < e0 <= |chain| && c0 == chain[i0].ptr
      requires chain[0].lo <= p < End(chain) && p <= pe <= End(chain) && start == Wrap(p) && end == Wrap(pe)
      requires i0 <= Find(chain, p) && (i0 + 1 < e0 ==> i0 == Find(chain, p))
      modifies seg`mem
      ensures Base() && Run(seg.mem, chain, tree, a, e, enq) && FlagsOnly(old(seg.mem), seg.mem, enq, chain)
      ensures cache == Holder(chain, p) && e0 <= e <= |chain| && (e == e0 || chain[e - 1].lo <= pe)
    {
      hide Base, Run, FlagsOnly, Find, Wrap, IncludesPos, Flag;
      ghost var m0, i := seg.mem, i0;
      tree, cache, e := tree0, cache0, e0;
      var c := c0;
      InOrderOf(p, pe);
      Compare(i, p);
      Compare(i, pe);
      FlagsOnlyNone(m0, enq, chain);
      if IncludesPos(seg.mem[c], start) {
        cache := c;
      }
      if IncludesPos(seg.mem[c], end) {
        return;
      }
      while true
        invariant Base() && Run(seg.mem, chain, tree, a, e, enq) && FlagsOnly(m0, seg.mem, enq, chain)
        invariant a <= i < e && e0 <= e <= |chain| && c == chain[i].ptr && i < Find(chain, pe)
        invariant Find(chain, p) <= i ==> cache == Holder(chain, p)
        invariant i + 1 < e ==> Find(chain, p) <= i
        invariant e == e0 || chain[e - 1].lo <= pe
        decreases |chain| - i
      {
        Compare(i, p);
        c := seg.mem[c].next;
        if i + 1 < |chain| {
          Compare(i + 1, p);
          Compare(i + 1, pe);
          RunFlag(seg.mem, chain, tree, a, e, enq, i + 1);
        }
        if c == 0 || Flag(seg.mem[c], enq) {
          break;
        }
        ghost var m1 := seg.mem;
        tree := Track(enq, tree, c, a, e);
        FlagsOnlyTwice(m0, m1, seg.mem, enq, chain);
        i, e := i + 1, e + 1;
        Compare(i, p);
        Compare(i, pe);
        if IncludesPos(seg.mem[c], start) {
          cache := c;
        }
        if IncludesPos(seg.mem[c], end) {
          break;
        }
      }
    }

    /** Finds the chunk that holds p, indexing further chunks up to the one that holds the end of the range. */
    method UpdateLookup(enq: bool, init: bool, tree0: Tree, cache0: Sptr, first: Sptr, start: u32, end: u32,
                        ghost a0: nat, ghost a: nat, ghost e0: nat, ghost p: nat, ghost pe: nat)
      returns (tree: Tree, cache: Sptr, ghost e: nat)
      requires Base() && Run(seg.mem, chain, tree0, a, e0, enq) && a <= e0 <= |chain| && (a < e0 ==> a == a0)
      requires !init ==> a == e0
      requires chain != [] && chain[0].lo <= p < End(chain) && p <= pe <= End(chain) && start == Wrap(p)
      requires end == Wrap(pe)
      requires a0 <= Find(chain, p) && first == PtrAt(chain, a0)
      modifies seg`mem
      ensures Base() && Run(seg.mem, chain, tree, a0, e, enq) && FlagsOnly(old(seg.mem), seg.mem, enq, chain)
      ensures cache == Holder(chain, p) && (!init ==> e == a0)
      ensures a0 <= e <= |chain| && (a0 < e ==> (a < e0 && e == e0) || chain[e - 1].lo <= pe)
    {
      hide Base, Run, FlagsOnly, Find, Wrap, IncludesPos, Flag;
      InOrderOf(p, pe);
      Compare(a0, p);
      RunEmpty(seg.mem, chain, tree0, a, e0, enq, a0);
      FlagsOnlyNone(seg.mem, enq, chain);
      if !init {
        cache := FindChunk(first, start, a0, p);
        return tree0, cache, a0;
      }
      var c: Sptr;
      ghost var i: nat;
      ghost var m0 := seg.mem;
      tree, e := tree0, e0;
      if tree.Leaf? {
        c, i, e := first, a0, a0 + 1;
        tree := Track(enq, tree, c, a0, a0);
      } else {
        c, i := FindTracked(enq, tree, start, a0, e0, p);
      }
      ghost var m1 := seg.mem;
      tree, cache, e := ExtendRun(enq, tree, cache0, c, start, end, a0, e, i, p, pe);
      FlagsOnlyTwice(m0, m1, seg.mem, enq, chain);
    }

    /**
     Removes from the enqueue tree the chunks before the one that holds u, and that one too when no out-of-order data
     is left.
     */
    method ClearEnq(start: Sptr, end: u32, ghost a0: nat, ghost u: nat) returns (c: Sptr, tree: Tree, ghost a: nat)
      requires Base() && ooo.Valid() && Run(seg.mem, chain, enqTree, enqFrom, enqTo, true)
      requires enqFrom <= enqTo <= |chain|
      requires enqFrom < enqTo ==> enqFrom == a0 && (ooo.nodes == [] ==> chain[enqTo - 1].lo <= u)
      requires chain != [] && chain[0].lo <= u <= End(chain) && end == Wrap(u) && a0 <= Find(chain, u)
      requires start == PtrAt(chain, a0)
      modifies seg`mem
      ensures Base() && Run(seg.mem, chain, tree, a, enqTo, true) && FlagsOnly(old(seg.mem), seg.mem, true, chain)
      ensures c == Holder(chain, u) && a <= enqTo && (a < enqTo ==> a == Find(chain, u) && enqFrom < enqTo)
      ensures ooo.nodes == [] ==> a == enqTo
    {
      hide Base, Run, FlagsOnly, Find, Wrap, IncludesPos, Linked, Separated;
      ghost var m0, i := seg.mem, a0;
      c, tree, a := start, enqTree, enqFrom;
      FlagsOnlyNone(m0, true, chain);
      ooo.HeadNone();
      InOrderOf(u, u);
      if a0 < |chain| {
        Compare(a0, u);
      }
      while c != 0 && !IncludesPos(seg.mem[c], end)
        invariant Base() && Run(seg.mem, chain, tree, a, enqTo, true) && FlagsOnly(m0, seg.mem, true, chain)
        invariant i <= Find(chain, u) && c == PtrAt(chain, i) && (i < |chain| ==> c != 0 && c in seg.mem)
        invariant a <= enqTo && (a < enqTo ==> a == i && enqFrom < enqTo)
        decreases |chain| - i
      {
        Compare(i, u);
        RunFlag(seg.mem, chain, tree, a, enqTo, true, i);
        if seg.mem[c].inEnq {
          ghost var m1 := seg.mem;
          tree := Untrack(true, tree, c, a, enqTo);
          a := a + 1;
          FlagsOnlyTwice(m0, m1, seg.mem, true, chain);
          Compare(i, u);
        }
        c, i := seg.mem[c].next, i + 1;
        if i < |chain| {
          Compare(i, u);
        }
      }
      if i < |chain| {
        Compare(i, u);
        RunFlag(seg.mem, chain, tree, a, enqTo, true, i);
      }
      if ooo.head == NONE && c != 0 && seg.mem[c].inEnq {
        ghost var m1 := seg.mem;
        tree := Untrack(true, tree, c, a, enqTo);
        a := a + 1;
        FlagsOnlyTwice(m0, m1, seg.mem, true, chain);
        Compare(enqTo - 1, u);
      }
    }

    // ---- Producer ----

    /** The byte stream this fifo holds. */
    ghost function View(): Queue
      reads this`chain, this`cells, this`startChunk, this`endChunk, this`h, this`t, ooo`nodes
    {
      Contents(Sh(), ooo.nodes)
    }

    /** Finds the chunk of u, the tail that collecting nodes led to, and the enqueue run that starts there. */
    method FindCut(oldTail: Sptr, pos: u32, ghost nodes: seq<Node>, ghost n: nat, ghost u: nat)
      returns (c: Sptr, tree: Tree, ghost a: nat)
      requires Base() && ooo.Valid() && Tracked(seg.mem, Sh(), Lk(), nodes) && pos == Wrap(u)
      requires oldTail == Holder(chain, t)
      requires 0 < n && chain != [] && t + n <= u <= End(chain) && u <= h + size && nodes != []
      requires Collected(nodes, ooo.nodes, t + n, u)
      modifies seg`mem
      ensures Base() && c == Holder(chain, u) && Only(old(seg.mem), seg.mem, chain)
      ensures Tracked(seg.mem, Sh().(t := u), Lk().(enqTree := tree, from := a, oooEnq := 0), ooo.nodes)
    {
      hide Base, Laid, Tracked, Wrap, Holder, Find, Collected, Linked, Separated, Run, FlagsOnly, Layout, Spots, MemOk,
           ListsOk, Regions, Counters, CarvedBytes, Contiguous, Only, Segment.Valid, OooList.Valid;
      ghost var f, k, m := Sh(), Lk(), seg.mem;
      BaseElim();
      ClearFacts(m, seg.place, f, k, nodes, ooo.nodes, n, u);
      c, tree, a := ClearEnq(oldTail, pos, Find(chain, t), u);
      OnlyFlags(m, seg.mem, true, chain);
      TrackedCleared(m, seg.mem, f, k, nodes, ooo.nodes, f.t + n, u, tree, a, enqTo);
    }

    /** Cuts the enqueue run to start at u, the tail that collecting nodes led to, and finds its chunk. */
    method CutRun(oldTail: Sptr, pos: u32, ghost nodes: seq<Node>, ghost n: nat, ghost u: nat)
      requires Base() && ooo.Valid() && Tracked(seg.mem, Sh(), Lk(), nodes) && pos == Wrap(u)
      requires oldTail == Holder(chain, t)
      requires 0 < n && chain != [] && t + n <= u <= End(chain) && u <= h + size && nodes != []
      requires Collected(nodes, ooo.nodes, t + n, u)
      modifies seg`mem, this`tailChunk, this`oooEnq, this`enqTree, this`enqFrom
      ensures Base() && Tracked(seg.mem, Sh().(t := u), Lk(), ooo.nodes) && tailChunk == Holder(chain, u)
      ensures Only(old(seg.mem), seg.mem, chain)
    {
      hide Base, Tracked, Wrap, Holder, Collected, Only, Segment.Valid, OooList.Valid;
      var c: Sptr, tree: Tree;
      ghost var a: nat;
      c, tree, a := FindCut(oldTail, pos, nodes, n, u);
      tailChunk, oooEnq, enqTree, enqFrom := c, 0, tree, a;
    }

    /**
     Collects the out-of-order segments that n bytes copied at the tail reach, and cuts the enqueue run accordingly.
     */
    method CollectAhead(oldTail: Sptr, n: nat, pos0: u32) returns (pos: u32, bytes: nat, ghost u: nat)
      requires Base() && ooo.Valid() && Tracked(seg.mem, Sh(), Lk(), ooo.nodes) && pos0 == Wrap(t + n)
      requires 0 < n && chain != [] && t + n <= End(chain) && t + n <= h + size && ooo.nodes != []
      requires oldTail == Holder(chain, t)
      modifies seg`mem, ooo, this`tailChunk, this`oooEnq, this`enqTree, this`enqFrom
      ensures Base() && ooo.Valid() && Tracked(seg.mem, Sh().(t := u), Lk(), ooo.nodes)
      ensures Collected(old(ooo.nodes), ooo.nodes, t + n, u) && t + n <= u <= End(chain) && u <= h + size
      ensures Only(old(seg.mem), seg.mem, chain)
      ensures tailChunk == Holder(chain, u) && pos == Wrap(u) && bytes == u - (t + n)
    {
      hide Base, Laid, Tracked, Wrap, Plus, Holder, Collected, Linked, Separated, Layout, Spots, Future, MemOk, ListsOk,
           Regions, Counters, CarvedBytes, Only, Segment.Valid, OooList.Valid;
      ghost var nodes := ooo.nodes;
      BaseElim();
      FinishFacts(seg.mem, seg.place, Sh(), Lk(), nodes, n);
      bytes, pos, u := ooo.TryCollect(n, pos0, t + n);
      CollectedFuture(nodes, ooo.nodes, t, t + n, u, End(chain), h + size);
      CutRun(oldTail, pos, nodes, n, u);
    }

    /** Commits n bytes copied at the tail: collects out-of-order data they reach and publishes the new tail. */
    method Finish(oldTail: Sptr, n: nat) returns (len: nat)
      requires Base() && ooo.Valid() && Tracked(seg.mem, Sh(), Lk(), ooo.nodes) && HeadWords() && tail == Wrap(t)
      requires 0 < n && chain != [] && t + n <= End(chain) && t + n <= h + size && tailChunk == Holder(chain, t + n)
      requires ooo.nodes != [] ==> oldTail == Holder(chain, t)
      modifies seg`mem, ooo, this`tail, this`t, this`tailChunk, this`oooEnq, this`enqTree, this`enqFrom
      ensures Valid() && Collected(old(ooo.nodes), ooo.nodes, old(t) + n, t) && len == t - old(t)
      ensures t <= End(chain) && t <= h + size && Only(old(seg.mem), seg.mem, chain)
    {
      hide Base, Laid, Tracked, Wrap, Plus, Holder, Find, Collected, Linked, Separated, Layout, Spots, Future, MemOk,
           ListsOk, Regions, Counters, CarvedBytes, Only, Segment.Valid;
      ghost var f := Sh();
      BaseElim();
      FinishFacts(seg.mem, seg.place, f, Lk(), ooo.nodes, n);
      ooo.HeadNone();
      len := n;
      var pos := Plus(tail, n);
      ghost var u := t + n;
      if ooo.head != NONE {
        var bytes;
        pos, bytes, u := CollectAhead(oldTail, n, pos);
        len := len + bytes;
      } else {
        OnlyNone(seg.mem, chain);
        CollectedNothing(t + n);
        TrackedTail(seg.mem, f, Lk(), u);
      }
      BaseElim();
      LaidTail(seg.mem, seg.place, f, u);
      tail, t := pos, u;
      BaseIntro();
    }

    /** Makes room for want bytes at the tail; when the list cannot grow, what its chunks still hold. */
    method Reserve(want: nat) returns (n: nat)
      requires Valid() && chain != [] && 0 < want <= size - (t - h) && t + want <= End(chain) + MAX_SIZE
      modifies seg, this`endChunk, this`tailChunk, this`chain, this`cells, this`h, this`t
      ensures Valid() && chain != [] && t + n <= End(chain) && n <= want && View() == old(View())
      ensures Apart(old(seg.mem), seg.mem, old(seg.place), seg.place, old(chain), chain)
      ensures |seg.slices| == |old(seg.slices)|
      ensures h == old(h) && t == old(t)
      ensures n == old(FitIn(want)) && old(chain) <= chain && End(chain) == old(End(chain)) + old(GrownBy(want)).total
      ensures Settles(old(seg.slices), seg.slices, slice, seg.byteIndex, old(GrownBy(want)))
      ensures seg.maxByteIndex == old(seg.maxByteIndex)
      ensures n < want ==> chain == old(chain) && n == End(chain) - t
      ensures old(tailChunk) != 0 ==> tailChunk == old(tailChunk)
    {
      hide Base, Laid, Tracked, Wrap, Plus, Minus, PosGt, ChunkEnd, Holder, Find, Linked, Separated, Contents, Layout,
           Spots, Future, MemOk, ListsOk, Regions, Counters, CarvedBytes, Apart, Segment.Valid, Growth, Fit, Settles,
           Allocate, Stock, OooList.Valid;
      ghost var f := Sh();
      BaseElim();
      EndFacts(seg.mem, seg.place, f, t + want);
      WrapPlus(t, want);
      n := want;
      OfferOfFacts(seg, slice);
      ApartNone(seg.mem, seg.place, chain);
      if PosGt(Plus(tail, want), ChunkEnd(seg.mem[endChunk])) {
        FitGrown(Offer(), minAlloc, f, want);
        ViewGrown(seg.mem, seg.place, f, Lk(), ooo.nodes);
        var ok := TryChunkAlloc(want);
        BaseElim();
        if !ok {
          EndFacts(seg.mem, seg.place, Sh(), t + want);
          n := Minus(ChunkEnd(seg.mem[endChunk]), tail);
        }
      } else {
        FitAll(Offer(), minAlloc, f, want);
      }
    }

    /** Copies x, for which there is room, to the tail and commits it. */
    method PutAtTail(x: seq<byte>) returns (r: nat)
      requires Valid() && x != [] && chain != [] && t + |x| <= End(chain) && t + |x| <= h + size
      modifies seg`mem, ooo, this`cells, this`tail, this`t, this`tailChunk, this`oooEnq, this`enqTree, this`enqFrom
      ensures Valid() && Put(old(View()), View(), old(t), x) && r == t - old(t) && Only(old(seg.mem), seg.mem, chain)
    {
      hide Base, Laid, Tracked, Wrap, Plus, Minus, Holder, Find, Linked, Separated, Contents, Layout, Spots, Future,
           MemOk, ListsOk, Regions, Counters, CarvedBytes, Put, Overwrite, SameButData, Collected, Only, Segment.Valid,
           OooList.Valid;
      BaseElim();
      ghost var f, m, nodes := Sh(), seg.mem, ooo.nodes;
      var oldTail := tailChunk;
      var crossed, last := CopyTo(oldTail, tail, x, t);
      if crossed {
        tailChunk := last;
      }
      TrackedStored(m, seg.mem, f, Lk(), nodes, cells);
      ghost var m1 := seg.mem;
      OnlyData(m, m1, chain);
      r := Finish(oldTail, |x|);
      OnlyTwice(m, m1, seg.mem, chain);
      StoredAtTail(f, Sh(), nodes, ooo.nodes, x);
    }

    /** Forgets the newest out-of-order segment and returns the free space. */
    method StartEnqueue() returns (free: nat)
      requires Valid()
      modifies ooo`newest
      ensures Valid() && free == size - (t - h) && chain != [] && h <= t <= End(chain)
      ensures View().h == h && View().t == t && Apart(seg.mem, seg.mem, seg.place, seg.place, chain, chain)
    {
      hide Base, Laid, Tracked, Wrap, Minus, Holder, Contents, Apart, Segment.Valid, OooList.Valid, Plus, PosGt,
           ChunkEnd;
      BaseElim();
      EndFacts(seg.mem, seg.place, Sh(), t);
      ContentsEnds(Sh(), ooo.nodes);
      ApartNone(seg.mem, seg.place, chain);
      ooo.newest := NONE;
      free := size - Minus(tail, head);
    }

    /** Makes room for want bytes and copies as many of them as fit. */
    method TakeBytes(src: seq<byte>, want: nat) returns (r: int, n: nat)
      requires Valid() && chain != [] && 0 < want <= |src| && t + want <= h + size && t + want <= End(chain) + MAX_SIZE
      modifies this, seg, ooo
      ensures Valid() && old(chain) <= chain && chain != [] && End(chain) == old(End(chain)) + old(GrownBy(want)).total
      ensures h == old(h) && enqInit == old(enqInit) && deqInit == old(deqInit)
      ensures Apart(old(seg.mem), seg.mem, old(seg.place), seg.place, old(chain), chain)
      ensures |seg.slices| == |old(seg.slices)|
      ensures Settles(old(seg.slices), seg.slices, slice, seg.byteIndex, old(GrownBy(want)))
      ensures seg.maxByteIndex == old(seg.maxByteIndex)
      ensures n == old(FitIn(want)) <= want && (n < want ==> chain == old(chain) && old(t) + n == End(chain))
      ensures Enqueued(old(View()), View(), size, src, n, r)
    {
      hide Base, Laid, Tracked, Wrap, Minus, Holder, Linked, Separated, Contents, Layout, Spots, Future, MemOk, ListsOk,
           Regions, Counters, CarvedBytes, Put, Apart, Only, Segment.Valid, Settles, Fifo.Offer, Fifo.GrownBy,
           Fifo.FitIn, Plus, PosLt, PosLeq, PosGt, PosGeq, ChunkEnd, IncludesPos, OooList.Valid, Enqueued;
      ghost var q := View();
      ContentsEnds(Sh(), ooo.nodes);
      n := Reserve(want);
      if n == 0 {
        EnqueuedPart(q, View(), size, src, 0, EGROW);
        return EGROW, 0;
      }
      ghost var m1 := seg.mem;
      r := PutAtTail(src[..n]);
      ApartOnly(old(seg.mem), m1, seg.mem, old(seg.place), seg.place, old(chain), chain);
      ContentsEnds(Sh(), ooo.nodes);
      EnqueuedPart(q, View(), size, src, n, r);
    }

    /** Enqueues as much of src as fits and collects the out-of-order data it reaches. */
    method Enqueue(src: seq<byte>) returns (r: int, n: nat)
      requires Valid() && CanEnqueue(Sh(), |src|)
      modifies this, seg, ooo
      ensures Valid() && Enqueued(old(View()), View(), size, src, n, r)
      ensures h == old(h) && enqInit == old(enqInit) && deqInit == old(deqInit)
      ensures Apart(old(seg.mem), seg.mem, old(seg.place), seg.place, old(chain), chain)
      ensures |seg.slices| == |old(seg.slices)|
      ensures n == old(FitIn(Wants(|src|, true))) && old(chain) <= chain && chain != []
      ensures End(chain) == old(End(chain)) + old(GrownBy(Wants(|src|, true))).total
      ensures Settles(old(seg.slices), seg.slices, slice, seg.byteIndex, old(GrownBy(Wants(|src|, true))))
      ensures seg.maxByteIndex == old(seg.maxByteIndex)
      ensures n < Min(size - (old(t) - h), |src|) ==> chain == old(chain) && chain != [] && old(t) + n == End(chain)
    {
      hide Base, Laid, Tracked, Wrap, Minus, Holder, Linked, Separated, Contents, Layout, Spots, Future, MemOk, ListsOk,
           Regions, Counters, CarvedBytes, Put, Apart, Only, Segment.Valid, Settles, Fifo.Offer, Fifo.GrownBy,
           Fifo.FitIn, OooList.Valid, Enqueued;
      var freeCount := StartEnqueue();
      if freeCount == 0 {
        NoGrowth(0);
        EnqueuedFull(View(), size, src);
        return EFULL, 0;
      }
      r, n := TakeBytes(src, Min(freeCount, |src|));
    }

    /** Makes the cached chunk the one that holds p, where len bytes are about to be written. */
    method LocateEnq(pos: u32, len: nat, ghost p: nat)
      requires Base() && Words() && Tracked(seg.mem, Sh(), Lk(), ooo.nodes) && pos == Wrap(p) && chain != []
      requires t <= p < End(chain) && p + len <= End(chain) && p + len <= Furthest(ooo.nodes, t) && ooo.nodes != []
      requires 0 < len
      modifies seg`mem, this`oooEnq, this`enqTree, this`enqFrom, this`enqTo, this`deqTo
      ensures Base() && Tracked(seg.mem, Sh(), Lk(), ooo.nodes) && oooEnq == Holder(chain, p)
      ensures Only(old(seg.mem), seg.mem, chain)
    {
      hide Base, Laid, Tracked, Wrap, Plus, IncludesPos, Find, Layout, Spots, Future, MemOk, ListsOk, Regions, Counters,
           CarvedBytes, Run, FlagsOnly, Furthest, Contiguous, Holder, Only, Segment.Valid;
      ghost var f, k, m := Sh(), Lk(), seg.mem;
      BaseElim();
      OnlyNone(m, chain);
      EnqFacts(m, seg.place, f, k, ooo.nodes, p, len);
      if oooEnq == 0 || !IncludesPos(seg.mem[oooEnq], pos) {
        var tree: Tree, cache: Sptr;
        ghost var e: nat;
        tree, cache, e := UpdateLookup(true, enqInit, enqTree, oooEnq, tailChunk, pos, Plus(pos, len), Find(chain, t),
                                       enqFrom, enqTo, p, p + len);
        BaseElim();
        OnlyFlags(m, seg.mem, true, chain);
        TrackedEnq(m, seg.mem, f, k, ooo.nodes, tree, e, p, p + len);
        enqTree, oooEnq := tree, cache;
        AdoptLook(k.(enqTree := tree, from := Find(chain, t), to := e, oooEnq := cache));
        BaseIntro();
      }
    }

    /** Copies x to position p past the tail, found through the enqueue lookup. */
    method CopyAhead(pos: u32, x: seq<byte>, ghost p: nat)
      requires Base() && Words() && Tracked(seg.mem, Sh(), Lk(), ooo.nodes) && pos == Wrap(p) && chain != [] && x != []
      requires t <= p && p + |x| <= End(chain) && p + |x| <= Furthest(ooo.nodes, t) && ooo.nodes != []
      modifies seg`mem, this`cells, this`oooEnq, this`enqTree, this`enqFrom, this`enqTo, this`deqTo
      ensures Base() && Tracked(seg.mem, Sh(), Lk(), ooo.nodes) && Only(old(seg.mem), seg.mem, chain)
      ensures p + |x| <= |old(cells)| && cells == Overwrite(old(cells), p, x)
    {
      hide Base, Laid, Tracked, Wrap, Holder, Layout, Spots, MemOk, ListsOk, Regions, Counters, CarvedBytes, Overwrite,
           SameButData, Furthest, Contiguous, Only, Segment.Valid;
      BaseElim();
      LocateEnq(pos, |x|, p);
      ghost var m, f := seg.mem, Sh();
      var crossed, last := CopyTo(oooEnq, pos, x, p);
      OnlyData(m, seg.mem, chain);
      OnlyTwice(old(seg.mem), m, seg.mem, chain);
      TrackedStored(m, seg.mem, f, Lk(), ooo.nodes, cells);
      BaseElim();
      SpotsFacts(chain, h, t, size);
      TrackedCache(seg.mem, Sh(), Lk(), ooo.nodes, p + |x|);
      if crossed {
        oooEnq := last;
      }
    }

    /** Records [p, p + |x|) as written and copies x there. */
    method WriteAhead(offset: u32, x: seq<byte>, slot: int, ghost p: nat)
      requires Valid() && chain != [] && x != [] && p == t + offset && 0 < offset && p + |x| <= End(chain)
      requires p + |x| <= h + size
      requires slot >= 0 && slot !in ooo.pool
      modifies seg`mem, ooo, this`cells, this`oooEnq, this`enqTree, this`enqFrom, this`enqTo, this`deqTo
      ensures Valid() && Put(old(View()), View(), p, x) && t == old(t) && Only(old(seg.mem), seg.mem, chain)
      ensures Added(old(ooo.nodes), ooo.nodes, p, p + |x|, ooo.newest)
    {
      hide Base, Laid, Tracked, Wrap, Plus, Holder, Linked, Separated, Contents, Layout, Spots, MemOk, ListsOk, Regions,
           Counters, CarvedBytes, Put, Overwrite, Added, Within, Contiguous, Furthest, Only, Segment.Valid;
      BaseElim();
      ghost var f, nodes, m, k := Sh(), ooo.nodes, seg.mem, Lk();
      AheadFacts(m, seg.place, f, k, nodes, offset, x);
      ooo.Add(offset, tail, |x|, slot, t);
      AddedTracked(m, seg.place, f, k, nodes, ooo.nodes, p, x, ooo.newest);
      CopyAhead(Plus(tail, offset), x, p);
      StoredView(m, k, f, Sh(), nodes, ooo.nodes, p, x, ooo.newest);
    }

    /** Makes room for a future segment that fits the window, and writes it; nothing if there is no room to be had. */
    method TakeAhead(offset: u32, src: seq<byte>, slot: int) returns (r: int)
      requires Valid() && CanEnqueueAhead(Sh(), offset, |src|) && slot >= 0 && slot !in ooo.pool
      requires offset + |src| <= size - (t - h)
      modifies this, seg, ooo
      ensures Valid() && t == old(t) && h == old(h) && enqInit == old(enqInit) && deqInit == old(deqInit)
      ensures Apart(old(seg.mem), seg.mem, old(seg.place), seg.place, old(chain), chain)
      ensures |seg.slices| == |old(seg.slices)|
      ensures r == if old(FitIn(offset + |src|)) < offset + |src| then EGROW else 0
      ensures if r == 0 then Put(old(View()), View(), t + offset, src) else View() == old(View())
      ensures old(chain) <= chain && chain != []
      ensures End(chain) == old(End(chain)) + old(GrownBy(offset + |src|)).total
      ensures Settles(old(seg.slices), seg.slices, slice, seg.byteIndex, old(GrownBy(offset + |src|)))
      ensures seg.maxByteIndex == old(seg.maxByteIndex)
      ensures r == EGROW ==> chain == old(chain) && End(chain) < t + offset + |src|
      ensures r == 0 ==> Added(old(ooo.nodes), ooo.nodes, t + offset, t + offset + |src|, ooo.newest)
    {
      hide Base, Laid, Tracked, Wrap, Minus, Holder, Linked, Separated, Contents, Layout, Spots, Future, MemOk, ListsOk,
           Regions, Counters, CarvedBytes, Put, Added, Apart, Only, Segment.Valid, Settles, Fifo.Offer, Fifo.GrownBy,
           Fifo.FitIn, OooList.Valid;
      var n := Reserve(offset + |src|);
      if n < offset + |src| {
        return EGROW;
      }
      ghost var m1 := seg.mem;
      WriteAhead(offset, src, slot, t + offset);
      ApartOnly(old(seg.mem), m1, seg.mem, old(seg.place), seg.place, old(chain), chain);
      return 0;
    }

    /** Enqueues a future segment: all of it, or nothing when there is no room. */
    method EnqueueWithOffset(offset: u32, src: seq<byte>, slot: int) returns (r: int)
      requires Valid() && CanEnqueueAhead(Sh(), offset, |src|) && slot >= 0 && slot !in ooo.pool
      modifies this, seg, ooo
      ensures Valid() && t == old(t) && (r == EFULL || r == EGROW || r == 0)
      ensures h == old(h) && enqInit == old(enqInit) && deqInit == old(deqInit)
      ensures Apart(old(seg.mem), seg.mem, old(seg.place), seg.place, old(chain), chain)
      ensures |seg.slices| == |old(seg.slices)|
      ensures r == EFULL <==> offset + |src| > size - (t - h)
      ensures if r == 0 then Put(old(View()), View(), t + offset, src) else View() == old(View())
      ensures r == EGROW <==> offset + |src| <= size - (t - h) && old(FitIn(offset + |src|)) < offset + |src|
      ensures old(chain) <= chain && chain != []
      ensures End(chain)
              == old(End(chain)) + old(GrownBy(Wants(offset + |src|, false))).total
      ensures Settles(old(seg.slices), seg.slices, slice, seg.byteIndex,
                      old(GrownBy(Wants(offset + |src|, false))))
      ensures seg.maxByteIndex == old(seg.maxByteIndex)
      ensures r == EGROW ==> chain == old(chain) && chain != [] && End(chain) < t + offset + |src|
      ensures r == 0 ==> Added(old(ooo.nodes), ooo.nodes, t + offset, t + offset + |src|, ooo.newest)
    {
      hide Base, Laid, Tracked, Wrap, Minus, Holder, Linked, Separated, Contents, Layout, Spots, Future, MemOk, ListsOk,
           Regions, Counters, CarvedBytes, Put, Added, Apart, Only, Segment.Valid, Settles, Fifo.Offer, Fifo.GrownBy,
           Fifo.FitIn, OooList.Valid;
      var freeCount := StartEnqueue();
      if |src| + offset > freeCount {
        NoGrowth(0);
        return EFULL;
      }
      r := TakeAhead(offset, src, slot);
    }

    /** Copies the first n bytes of the segments to the tail, segment by segment. */
    method CopySegments(segs: seq<seq<byte>>, n: nat)
      requires Base() && n <= |Flatten(segs)| && chain != [] && t + n <= End(chain) && tail == Wrap(t)
      requires tailChunk == Holder(chain, t)
      requires forall i :: 0 <= i < |segs| ==> segs[i] != []
      modifies seg`mem, this`cells, this`tailChunk
      ensures Base() && SameButData(old(seg.mem), seg.mem, chain) && tailChunk == Holder(chain, t + n)
      ensures t + n <= |old(cells)| && cells == Overwrite(old(cells), t, Flatten(segs)[..n])
    {
      hide Base, Laid, Wrap, Plus, Holder, Find, Layout, Spots, MemOk, ListsOk, Regions, Counters, CarvedBytes,
           Overwrite, SameButData, Flatten, Segment.Valid;
      BaseElim();
      ghost var src, m0, cells0 := Flatten(segs), seg.mem, cells;
      var i, left, pos := 0, n, tail;
      OverwriteNone(cells, t);
      SameButDataNone(m0, chain);
      FlattenAt(segs, 0);
      while left != 0
        invariant Base() && SameButData(m0, seg.mem, chain) && 0 <= left <= n && i <= |segs|
        invariant left != 0 ==> n - left == |Flatten(segs[..i])|
        invariant pos == Wrap(t + n - left) && tailChunk == Holder(chain, t + n - left)
        invariant cells == Overwrite(cells0, t, src[..n - left])
      {
        FlattenAt(segs, i);
        var toCopy := Min(|segs[i]|, left);
        ghost var done, m1 := n - left, seg.mem;
        BaseElim();
        OverwriteMore(cells0, t, src, done, done + toCopy);
        SliceTake(src, done, |segs[i]|, toCopy);
        var crossed, last := CopyTo(tailChunk, pos, segs[i][..toCopy], t + done);
        SameButDataTwice(m0, m1, seg.mem, chain);
        if crossed {
          tailChunk := last;
        }
        WrapPlus(t + done, toCopy);
        left, pos, i := left - toCopy, Plus(pos, toCopy), i + 1;
      }
    }

    /** Copies the first n bytes of the segments to the tail and commits them. */
    method PutSegments(segs: seq<seq<byte>>, n: nat, oldTail: Sptr) returns (r: nat)
      requires Valid() && chain != [] && 0 < n <= |Flatten(segs)| && t + n <= End(chain) && t + n <= h + size
      requires forall i :: 0 <= i < |segs| ==> segs[i] != []
      requires ooo.nodes != [] ==> oldTail == tailChunk
      modifies seg`mem, ooo, this`cells, this`tail, this`t, this`tailChunk, this`oooEnq, this`enqTree, this`enqFrom
      ensures Valid() && Put(old(View()), View(), old(t), Flatten(segs)[..n]) && r == t - old(t)
      ensures Only(old(seg.mem), seg.mem, chain)
    {
      hide Base, Laid, Tracked, Wrap, Plus, Minus, Holder, Find, Linked, Separated, Contents, Layout, Spots, Future,
           MemOk, ListsOk, Regions, Counters, CarvedBytes, Put, Overwrite, SameButData, Collected, Flatten, Only,
           Segment.Valid, OooList.Valid;
      BaseElim();
      ghost var f, m, nodes := Sh(), seg.mem, ooo.nodes;
      CopySegments(segs, n);
      TrackedStored(m, seg.mem, f, Lk(), nodes, cells);
      ghost var m1 := seg.mem;
      OnlyData(m, m1, chain);
      r := Finish(oldTail, n);
      OnlyTwice(m, m1, seg.mem, chain);
      StoredAtTail(f, Sh(), nodes, ooo.nodes, Flatten(segs)[..n]);
    }

    /** Makes room for want bytes and copies as many of the segments' bytes as fit; fewer than least are not copied. */
    method TakeSegments(segs: seq<seq<byte>>, want: nat, least: nat) returns (r: int, n: nat)
      requires Valid() && chain != [] && 0 < least <= want <= |Flatten(segs)| && t + want <= h + size
      requires t + want <= End(chain) + MAX_SIZE && forall i :: 0 <= i < |segs| ==> segs[i] != []
      modifies this, seg, ooo
      ensures Valid() && old(chain) <= chain && chain != [] && End(chain) == old(End(chain)) + old(GrownBy(want)).total
      ensures h == old(h) && enqInit == old(enqInit) && deqInit == old(deqInit)
      ensures Apart(old(seg.mem), seg.mem, old(seg.place), seg.place, old(chain), chain)
      ensures |seg.slices| == |old(seg.slices)|
      ensures Settles(old(seg.slices), seg.slices, slice, seg.byteIndex, old(GrownBy(want)))
      ensures seg.maxByteIndex == old(seg.maxByteIndex)
      ensures 0 <= old(FitIn(want)) <= want && n == if old(FitIn(want)) < least then 0 else old(FitIn(want))
      ensures Enqueued(old(View()), View(), size, Flatten(segs), n, r)
      ensures if n == 0 then r == EGROW && View() == old(View()) else r >= 0
      ensures old(FitIn(want)) < want ==> chain == old(chain) && old(t) + old(FitIn(want)) == End(chain)
    {
      hide Base, Laid, Tracked, Wrap, Minus, Holder, Linked, Separated, Contents, Layout, Spots, Future, MemOk, ListsOk,
           Regions, Counters, CarvedBytes, Put, Flatten, Apart, Only, Segment.Valid, Settles, Fifo.Offer, Fifo.GrownBy,
           Fifo.FitIn, OooList.Valid, Enqueued;
      BaseElim();
      ghost var q := View();
      ContentsEnds(Sh(), ooo.nodes);
      var oldTail := tailChunk;
      TailNull(seg.mem, seg.place, Sh(), Lk(), ooo.nodes);
      var room := Reserve(want);
      if room < least {
        EnqueuedPart(q, View(), size, Flatten(segs), 0, EGROW);
        return EGROW, 0;
      }
      n := room;
      ghost var m1 := seg.mem;
      r := PutSegments(segs, n, oldTail);
      ApartOnly(old(seg.mem), m1, seg.mem, old(seg.place), seg.place, old(chain), chain);
      ContentsEnds(Sh(), ooo.nodes);
      EnqueuedPart(q, View(), size, Flatten(segs), n, r);
    }

    /** Enqueues a list of non-empty segments: as much as fits, or all or nothing. */
    method EnqueueSegments(segs: seq<seq<byte>>, allowPartial: bool) returns (r: int, n: nat)
      requires Valid() && segs != [] && (forall i :: 0 <= i < |segs| ==> segs[i] != [])
      requires CanEnqueue(Sh(), |Flatten(segs)|)
      modifies this, seg, ooo
      ensures Valid()
      ensures h == old(h) && enqInit == old(enqInit) && deqInit == old(deqInit)
      ensures Apart(old(seg.mem), seg.mem, old(seg.place), seg.place, old(chain), chain)
      ensures |seg.slices| == |old(seg.slices)|
      ensures var want := old(Wants(|Flatten(segs)|, allowPartial));
              && old(chain) <= chain && chain != [] && End(chain) == old(End(chain)) + old(GrownBy(want)).total
              && Settles(old(seg.slices), seg.slices, slice, seg.byteIndex, old(GrownBy(want)))
              && seg.maxByteIndex == old(seg.maxByteIndex)
      ensures allowPartial ==>
                && Enqueued(old(View()), View(), size, Flatten(segs), n, r)
                && n == old(FitIn(Wants(|Flatten(segs)|, true)))
      ensures allowPartial && n < Min(size - (old(t) - h), |Flatten(segs)|) ==>
                chain == old(chain) && old(t) + n == End(chain)
      ensures !allowPartial ==>
                && (r == EFULL <==> size - (old(t) - h) < |Flatten(segs)|)
                && (r == EGROW <==>
                      |Flatten(segs)| <= size - (old(t) - h) && old(FitIn(|Flatten(segs)|)) < |Flatten(segs)|)
                && if n == 0 then View() == old(View()) && (r == EFULL || r == EGROW)
                   else n == |Flatten(segs)| && Enqueued(old(View()), View(), size, Flatten(segs), n, r)
    {
      hide Base, Laid, Tracked, Wrap, Minus, Holder, Linked, Separated, Contents, Layout, Spots, Future, MemOk, ListsOk,
           Regions, Counters, CarvedBytes, Put, Flatten, Apart, Only, Segment.Valid, Settles, Fifo.Offer, Fifo.GrownBy,
           Fifo.FitIn, Plus, PosLt, PosLeq, PosGt, PosGeq, ChunkEnd, IncludesPos, OooList.Valid, Enqueued;
      var freeCount := StartEnqueue();
      NoGrowth(0);
      if freeCount == 0 {
        EnqueuedFull(View(), size, Flatten(segs));
        return EFULL, 0;
      }
      var len := TotalLength(segs);
      if !allowPartial {
        if freeCount < len {
          return EFULL, 0;
        }
      }
      r, n := TakeSegments(segs, Min(freeCount, len), if allowPartial then 1 else len);
    }

    // ---- Consumer ----

    /** Walks to the chunk that becomes the first one, taking the chunks passed out of the dequeue tree. */
    method WalkPassed(end: u32, maybeOoo: bool, ghost u: nat) returns (prev: Sptr, c: Sptr, tree: Tree, ghost a: nat)
      requires Base() && Run(seg.mem, chain, deqTree, 0, deqTo, false) && deqTo <= |chain|
      requires chain != [] && (!maybeOoo ==> deqTo == 0 || DropCount(chain, u) == 0)
      requires chain[0].lo <= u <= End(chain) && chain[0].hi <= u && end == Wrap(u) && startChunk == chain[0].ptr
      modifies seg`mem
      ensures Base() && FlagsOnly(old(seg.mem), seg.mem, false, chain)
      ensures Run(seg.mem, chain, tree, a, deqTo, false) && (a < deqTo ==> a == DropCount(chain, u))
      ensures !maybeOoo ==> a == 0
      ensures c == PtrAt(chain, DropCount(chain, u)) && prev == PtrAt(chain, DropCount(chain, u) - 1)
    {
      hide Base, Run, FlagsOnly, Find, Wrap, IncludesPos;
      ghost var m0, i := seg.mem, 0;
      tree, a := deqTree, 0;
      prev, c := 0, startChunk;
      FlagsOnlyNone(m0, false, chain);
      InOrderOf(u, u);
      Compare(0, u);
      while true
        invariant Base() && Run(seg.mem, chain, tree, a, deqTo, false) && FlagsOnly(m0, seg.mem, false, chain)
        invariant 0 <= i < |chain| && c == chain[i].ptr && prev == PtrAt(chain, i - 1) && i < Find(chain, u)
        invariant (a < deqTo ==> a == i) && (!maybeOoo ==> a == 0 && (deqTo == 0 || |chain| == 1))
        decreases |chain| - i
      {
        Compare(i, u);
        RunFlag(seg.mem, chain, tree, a, deqTo, false, i);
        if maybeOoo && seg.mem[c].inDeq {
          ghost var m1 := seg.mem;
          tree := Untrack(false, tree, c, a, deqTo);
          a := a + 1;
          FlagsOnlyTwice(m0, m1, seg.mem, false, chain);
          Compare(i, u);
        }
        if i + 1 < |chain| {
          Compare(i + 1, u);
        }
        if seg.mem[c].next == 0 {
          break;
        }
        prev, c, i := c, seg.mem[c].next, i + 1;
        Compare(i, u);
        if IncludesPos(seg.mem[c], end) {
          break;
        }
      }
    }

    /** Cuts the chunks before c off the list and gives them back to the segment. */
    method GiveBack(prev: Sptr, c: Sptr, ghost u: nat, ghost n: nat)
      requires Base() && h <= u <= t && chain != [] && n == DropCount(chain, u) && c == PtrAt(chain, n)
      requires prev == PtrAt(chain, n - 1)
      modifies seg, this`startChunk
      ensures seg.Valid() && slice < |seg.slices| && n < |chain| && Laid(seg.mem, seg.place, Headed(old(Sh()), u))
      ensures Apart(old(seg.mem), seg.mem, old(seg.place), seg.place, chain, chain[n..])
      ensures |seg.slices| == |old(seg.slices)|
      ensures Settles(old(seg.slices), seg.slices, slice, seg.byteIndex, old(Returned(n)))
      ensures seg.maxByteIndex == old(seg.maxByteIndex)
      ensures SameFrom(old(seg.mem), seg.mem, chain, n) && startChunk == c
    {
      hide Base, Laid, Find, DropCount, Layout, Spots, MemOk, ListsOk, Regions, Counters, CarvedBytes, SameFrom, Listed,
           Released, PtrsOf, Total, Apart, Settles, Returning, Restock, Leaves, SizesOf, Sizes, Stock;
      BaseElim();
      ghost var f, m, w := Sh(), seg.mem, seg.place;
      HeadedStart(f, u, m, w);
      OfferOfFacts(seg, slice);
      ReturningIs(Offer(), f, n);
      ghost var o := Returned(n);
      if prev != 0 {
        CutFacts(m, w, f, u, n, |seg.slices|, seg.byteIndex);
        seg.mem := seg.mem[prev := seg.mem[prev].(next := 0)];
        ghost var q := seg.mem;
        FewBytes(m, w, f, n, q);
        ChunkSizes(m, w, f, n, q);
        seg.Collect(slice, startChunk, PtrsOf(chain, n));
        SettlesIntro(old(seg.slices), seg.slices, slice, seg.byteIndex, o);
        LaidHeaded(m, q, seg.mem, w, seg.place, f, u);
        CutApart(m, q, seg.mem, w, seg.place, f, n);
      } else {
        ReturningNone(Offer(), f);
        LaidHeaded(m, m, m, w, w, f, u);
        ApartNone(m, w, chain);
        assert chain[0..] == chain;
      }
      startChunk := c;
    }

    /** Unlinks the chunks passed by a head at u and gives them back; says what the lookup state becomes. */
    method UnlinkChunks(end: u32, maybeOoo: bool, ghost u: nat)
      returns (tree: Tree, cache: Sptr, ghost g: Shape, ghost k: Look)
      requires Base() && Tracked(seg.mem, Sh(), Lk(), ooo.nodes) && chain != [] && chain[0].hi <= u && h <= u <= t
      requires end == Wrap(u)
      requires !maybeOoo ==> deqTo == 0 || DropCount(chain, u) == 0
      modifies seg, this`startChunk
      ensures seg.Valid() && slice < |seg.slices| && Laid(seg.mem, seg.place, g) && Tracked(seg.mem, g, k, ooo.nodes)
      ensures DropCount(chain, u) < |chain|
      ensures g == old(Sh()).(c := chain[DropCount(chain, u)..], start := startChunk, h := u)
      ensures Apart(old(seg.mem), seg.mem, old(seg.place), seg.place, chain, g.c) && |seg.slices| == |old(seg.slices)|
      ensures Settles(old(seg.slices), seg.slices, slice, seg.byteIndex, old(Returned(DropCount(chain, u))))
      ensures seg.maxByteIndex == old(seg.maxByteIndex)
      ensures k == Lk().(from := k.from, to := k.to, deqTree := tree, deqTo := k.deqTo, oooDeq := cache)
      ensures !maybeOoo ==> k.deqTo == deqTo
    {
      hide Base, Laid, Tracked, Wrap, Find, DropCount, Layout, Spots, Future, MemOk, ListsOk, Regions, Counters,
           CarvedBytes, Run, FlagsOnly, Cached, EnqSide, SameFrom, PosLt, ChunkEnd, Contiguous, Holder, Headed,
           HeadedLook, Apart, Only, Segment.Valid, Settles, Fifo.Offer, Fifo.Returned;
      ghost var f, k0, m0, n := Sh(), Lk(), seg.mem, DropCount(chain, u);
      BaseElim();
      WalkFacts(m0, seg.place, f, k0, ooo.nodes, u);
      PassedFacts(f, u, m0, seg.place);
      var prev: Sptr, c: Sptr;
      ghost var a: nat;
      prev, c, tree, a := WalkPassed(end, maybeOoo, u);
      BaseElim();
      ghost var m1, w := seg.mem, seg.place;
      OnlyFlags(m0, m1, false, chain);
      EnqFlags(m0, m1, f, k0, ooo.nodes);
      CachedNone(chain, n);
      cache := oooDeq;
      if cache != 0 {
        CacheKept(m1, w, f, cache, n);
        if !maybeOoo || PosLt(seg.mem[cache].start, ChunkEnd(seg.mem[c])) {
          cache := 0;
        }
      }
      GiveBack(prev, c, u, n);
      OnlyThenApart(m0, m1, seg.mem, w, seg.place, chain, chain[n..]);
      TrackedHeaded(m1, seg.mem, w, f, k0, ooo.nodes, u, tree, a, deqTo, cache);
      HeadedFacts(f, u, m1, w, k0, tree, a, deqTo, cache);
      g, k := Headed(f, u), HeadedLook(k0, n, tree, a, deqTo, cache);
    }

    /** Gives the chunks passed by a head at u back to the segment. */
    method DropChunks(end: u32, maybeOoo: bool, ghost u: nat) returns (ghost n: nat)
      requires Base() && Tracked(seg.mem, Sh(), Lk(), ooo.nodes) && chain != [] && chain[0].hi <= u && h <= u <= t
      requires end == Wrap(u)
      requires !maybeOoo ==> deqTo == 0 || DropCount(chain, u) == 0
      modifies seg, this`startChunk, this`oooDeq, this`deqTree, this`deqTo, this`enqFrom, this`enqTo, this`chain,
               this`h, this`cells, this`t
      ensures Base() && Tracked(seg.mem, Sh(), Lk(), ooo.nodes) && h == u && t == old(t) && cells == old(cells)
      ensures n == DropCount(old(chain), u) && n < |old(chain)| && chain == old(chain)[n..]
      ensures Apart(old(seg.mem), seg.mem, old(seg.place), seg.place, old(chain), chain)
      ensures |seg.slices| == |old(seg.slices)|
      ensures Settles(old(seg.slices), seg.slices, slice, seg.byteIndex, old(Returned(DropCount(chain, u))))
      ensures seg.maxByteIndex == old(seg.maxByteIndex)
      ensures !maybeOoo ==> deqTo == old(deqTo)
    {
      hide Base, Laid, Tracked, Wrap, DropCount, Layout, Spots, MemOk, ListsOk, Regions, Counters, CarvedBytes, Apart,
           Segment.Valid, Settles, Fifo.Offer, Fifo.Returned;
      n := DropCount(chain, u);
      var tree: Tree, cache: Sptr;
      ghost var g: Shape, k: Look;
      tree, cache, g, k := UnlinkChunks(end, maybeOoo, u);
      oooDeq, deqTree := cache, tree;
      AdoptShape(g);
      AdoptLook(k);
      BaseIntro();
    }

    /** Moves the head to u and gives the chunks it passed back. */
    method MoveHead(pos: u32, maybeOoo: bool, ghost u: nat) returns (dropped: bool, ghost n: nat)
      requires Base() && Tracked(seg.mem, Sh(), Lk(), ooo.nodes) && h <= u <= t && pos == Wrap(u)
      requires !maybeOoo ==> deqTo == 0 || (chain != [] && DropCount(chain, u) == 0)
      modifies seg, this`startChunk, this`oooDeq, this`deqTree, this`deqTo, this`enqFrom, this`enqTo, this`chain,
               this`h, this`cells, this`t
      ensures Base() && Tracked(seg.mem, Sh(), Lk(), ooo.nodes) && h == u && t == old(t) && cells == old(cells)
      ensures old(chain) != [] && n == DropCount(old(chain), u) && n < |old(chain)| && chain == old(chain)[n..]
      ensures Apart(old(seg.mem), seg.mem, old(seg.place), seg.place, old(chain), chain)
      ensures |seg.slices| == |old(seg.slices)|
      ensures Settles(old(seg.slices), seg.slices, slice, seg.byteIndex, old(Returned(DropCount(chain, u))))
      ensures seg.maxByteIndex == old(seg.maxByteIndex)
      ensures dropped <==> u >= old(chain)[0].hi
      ensures !maybeOoo ==> deqTo == old(deqTo)
    {
      hide Base, Laid, Tracked, Wrap, DropCount, Layout, Spots, MemOk, ListsOk, Regions, Counters, CarvedBytes, PosGeq,
           ChunkEnd, IncludesPos, Minus, Plus, Apart, Segment.Valid, Settles, Fifo.Offer, Fifo.Returned;
      BaseElim();
      HeadFacts(seg.mem, seg.place, Sh(), u);
      dropped := PosGeq(pos, ChunkEnd(seg.mem[startChunk]));
      if dropped {
        n := DropChunks(pos, maybeOoo, u);
      } else {
        HeadStays(seg.mem, seg.place, Sh(), Lk(), ooo.nodes, u);
        n := 0;
        NoReturn();
        ApartNone(seg.mem, seg.place, chain);
        assert chain[0..] == chain;
        AdoptShape(Sh().(h := u));
        BaseIntro();
      }
    }

    /** Moves the head over n bytes and publishes it. */
    method PassBytes(n: nat, maybeOoo: bool) returns (dropped: bool)
      requires Base() && Tracked(seg.mem, Sh(), Lk(), ooo.nodes) && h + n <= t && head == Wrap(h)
      requires tailChunk == Holder(chain, t)
      requires !maybeOoo ==> deqTo == 0 || (chain != [] && DropCount(chain, h + n) == 0)
      modifies seg, this`head, this`startChunk, this`oooDeq, this`deqTree, this`deqTo, this`enqFrom, this`enqTo,
               this`chain, this`h, this`cells, this`t
      ensures Base() && Tracked(seg.mem, Sh(), Lk(), ooo.nodes) && h == old(h) + n && t == old(t) && head == Wrap(h)
      ensures tailChunk == Holder(chain, t)
      ensures View() == old(View()).(h := h) && Holder(chain, h) == Holder(old(chain), h)
      ensures Apart(old(seg.mem), seg.mem, old(seg.place), seg.place, old(chain), chain)
      ensures |seg.slices| == |old(seg.slices)|
      ensures Trimmed()
      ensures old(chain) != [] && DropCount(old(chain), h) < |old(chain)|
      ensures chain == old(chain)[DropCount(old(chain), h)..]
      ensures Settles(old(seg.slices), seg.slices, slice, seg.byteIndex, old(Returned(DropCount(chain, h + n))))
      ensures seg.maxByteIndex == old(seg.maxByteIndex)
      ensures !dropped ==> chain == old(chain) && chain != [] && h < chain[0].hi
      ensures !maybeOoo ==> deqTo == old(deqTo)
    {
      hide Base, Laid, Tracked, Wrap, Plus, Holder, Contents, Layout, Spots, MemOk, ListsOk, Regions, Counters,
           CarvedBytes, DropCount, Fifo.Trimmed, Contiguous, Apart, Segment.Valid, Settles, Fifo.Offer, Fifo.Returned,
           PosGeq, ChunkEnd, IncludesPos, Minus, OooList.Valid;
      BaseElim();
      ghost var f, m, w, u := Sh(), seg.mem, seg.place, h + n;
      HeadFacts(m, w, f, u);
      var pos := Plus(head, n);
      ghost var k;
      dropped, k := MoveHead(pos, maybeOoo, u);
      HolderDrop(m, w, f, u, k);
      ContentsHead(f, ooo.nodes, Sh());
      LaidList(m, w, f);
      TrimmedAt(f.c);
      if !dropped {
        NothingDropped(f.c, u);
      }
      head := pos;
    }

    /** The chunk that holds the head, looked up when it is not remembered. */
    method HeadChunk() returns (c: Sptr)
      requires Base() && HeadWords() && h < t
      ensures c == Holder(chain, h) && chain != [] && chain[0].lo <= h < End(chain)
    {
      hide Base, Wrap, Find, Laid, Layout, Spots, MemOk, ListsOk, Regions, Counters, CarvedBytes, Segment.Valid;
      BaseElim();
      HeadFacts(seg.mem, seg.place, Sh(), h);
      c := headChunk;
      if c == 0 {
        c := FindChunk(startChunk, head, 0, h);
      }
    }

    /** Copies n bytes from the head and remembers the chunk that follows them. */
    method ReadHead(n: nat) returns (dst: seq<byte>)
      requires Base() && HeadWords() && h < t && h + n <= t
      modifies this`headChunk
      ensures |dst| == n && Reads(View(), h, dst) && headChunk == Holder(chain, h + n)
    {
      hide Base, Laid, Wrap, Holder, Find, Contents, Layout, Spots, MemOk, ListsOk, Regions, Counters, CarvedBytes,
           Contiguous, Reads, SliceIs, Segment.Valid;
      BaseElim();
      headChunk := HeadChunk();
      var crossed: bool, last: Sptr;
      dst, crossed, last := CopyFrom(headChunk, head, n, h);
      TakeFacts(seg.mem, seg.place, Sh(), ooo.nodes, h + n, dst);
      if crossed {
        headChunk := last;
      }
    }

    /** The number of bytes in the fifo. */
    method CurSize() returns (n: nat)
      requires Base() && Words()
      ensures n == t - h && chain != [] && h <= t
      ensures Apart(seg.mem, seg.mem, seg.place, seg.place, chain, chain)
    {
      hide Base, Laid, Wrap, Minus, Plus, PosGeq, ChunkEnd, IncludesPos, Apart, Segment.Valid;
      BaseElim();
      HeadFacts(seg.mem, seg.place, Sh(), h);
      ApartNone(seg.mem, seg.place, chain);
      n := Minus(tail, head);
    }

    /** Copies n bytes from the head and moves it over them. */
    method TakeHead(n: nat) returns (dst: seq<byte>)
      requires Base() && Tracked(seg.mem, Sh(), Lk(), ooo.nodes) && Words() && h < t && h + n <= t
      requires deqTo == 0 || (chain != [] && DropCount(chain, h + n) == 0)
      modifies seg, this`headChunk, this`head, this`startChunk, this`oooDeq, this`deqTree, this`deqTo, this`enqFrom,
               this`enqTo, this`chain, this`h, this`cells, this`t
      ensures Base() && Tracked(seg.mem, Sh(), Lk(), ooo.nodes) && Words() && h == old(h) + n && t == old(t)
      ensures View() == old(View()).(h := h) && |dst| == n && Reads(old(View()), old(h), dst)
      ensures Trimmed() && deqTo == old(deqTo)
      ensures Apart(old(seg.mem), seg.mem, old(seg.place), seg.place, old(chain), chain)
      ensures |seg.slices| == |old(seg.slices)|
      ensures old(chain) != [] && DropCount(old(chain), h) < |old(chain)|
      ensures chain == old(chain)[DropCount(old(chain), h)..]
      ensures Settles(old(seg.slices), seg.slices, slice, seg.byteIndex, old(Returned(DropCount(chain, h + n))))
      ensures seg.maxByteIndex == old(seg.maxByteIndex)
    {
      hide Base, Laid, Tracked, Wrap, Minus, Holder, Linked, Separated, Contents, Layout, Spots, MemOk, ListsOk,
           Regions, Counters, CarvedBytes, Reads, Apart, Segment.Valid, OooList.Valid, Settles, Fifo.Offer,
           Fifo.Returned, DropCount, Fifo.Trimmed, Plus, PosGeq, ChunkEnd, IncludesPos;
      dst := ReadHead(n);
      var dropped := PassBytes(n, false);
    }

    /** Takes up to len bytes from the head. A chunk tracked for peeking must not be unlinked. */
    method Dequeue(len: nat) returns (r: int, dst: seq<byte>)
      requires Valid() && CanDequeue(Sh(), deqTo, len)
      modifies seg, this`headChunk, this`head, this`startChunk, this`oooDeq, this`deqTree, this`deqTo, this`enqFrom,
               this`enqTo, this`chain, this`h, this`cells, this`t
      ensures Valid() && t == old(t) && deqTo == old(deqTo)
      ensures Apart(old(seg.mem), seg.mem, old(seg.place), seg.place, old(chain), chain)
      ensures |seg.slices| == |old(seg.slices)|
      ensures old(h) < t ==> Trimmed()
      ensures chain == old(chain)[old(Passes(len))..]
      ensures Settles(old(seg.slices), seg.slices, slice, seg.byteIndex, old(Returned(Passes(len))))
      ensures seg.maxByteIndex == old(seg.maxByteIndex)
      ensures if old(h) == t then r == EEMPTY && View() == old(View()) && dst == []
              else r == |dst| == Min(t - old(h), len) && ByteQueue.Step(old(View()), Take(dst), View())
    {
      hide Base, Laid, Tracked, Wrap, Minus, Holder, Linked, Separated, Contents, Layout, Spots, MemOk, ListsOk,
           Regions, Counters, CarvedBytes, Reads, Apart, Segment.Valid, OooList.Valid, Settles, Fifo.Offer,
           Fifo.Returned, DropCount, PassedBy, Fifo.Trimmed, ByteQueue.Step, Plus, PosGeq, ChunkEnd, IncludesPos;
      var cursize := CurSize();
      PassedByIs(Sh(), h + Min(t - h, len));
      if cursize == 0 {
        NoReturn();
        return EEMPTY, [];
      }
      var n := Min(cursize, len);
      ghost var q := View();
      ContentsEnds(Sh(), ooo.nodes);
      dst := TakeHead(n);
      TakeStep(q, dst);
      return n, dst;
    }

    /** Remembers the first chunk for the head if it holds it. */
    method RecallHead()
      requires Base() && head == Wrap(h)
      modifies this`headChunk
      ensures headChunk == 0 || headChunk == Holder(chain, h)
    {
      hide Base, Laid, Wrap, Minus, Plus, PosGeq, Holder, Find, Layout, Spots, MemOk, ListsOk, Regions, Counters,
           CarvedBytes, IncludesPos, ChunkEnd, Segment.Valid;
      BaseElim();
      HeadFacts(seg.mem, seg.place, Sh(), h);
      FirstHolds(chain, h);
      headChunk := if IncludesPos(seg.mem[startChunk], head) then startChunk else 0;
    }

    /** Moves the head over n bytes; the remembered chunk is forgotten unless the head is in the first chunk. */
    method DropHead(n: nat)
      requires Base() && Tracked(seg.mem, Sh(), Lk(), ooo.nodes) && Words() && h + n <= t
      modifies seg, this`headChunk, this`head, this`startChunk, this`oooDeq, this`deqTree, this`deqTo, this`enqFrom,
               this`enqTo, this`chain, this`h, this`cells, this`t
      ensures Base() && Tracked(seg.mem, Sh(), Lk(), ooo.nodes) && Words() && h == old(h) + n && t == old(t)
      ensures View() == old(View()).(h := h) && Trimmed()
      ensures Apart(old(seg.mem), seg.mem, old(seg.place), seg.place, old(chain), chain)
      ensures |seg.slices| == |old(seg.slices)|
      ensures old(chain) != [] && DropCount(old(chain), h) < |old(chain)|
      ensures chain == old(chain)[DropCount(old(chain), h)..]
      ensures Settles(old(seg.slices), seg.slices, slice, seg.byteIndex, old(Returned(DropCount(chain, h + n))))
      ensures seg.maxByteIndex == old(seg.maxByteIndex)
    {
      hide Base, Laid, Tracked, Wrap, Minus, Holder, Find, Linked, Separated, Contents, Layout, Spots, MemOk, ListsOk,
           Regions, Counters, CarvedBytes, IncludesPos, Apart, Segment.Valid, OooList.Valid, Settles, Fifo.Offer,
           Fifo.Returned, DropCount, Fifo.Trimmed, Fifo.View, Fifo.Lk, Plus, PosGeq, ChunkEnd;
      ghost var h0 := h;
      var dropped := PassBytes(n, true);
      FirstHolds(chain, h0);
      FirstHolds(chain, h);
      if dropped {
        RecallHead();
      }
    }

    /** Drops up to len bytes at the head. */
    method DequeueDrop(len: nat) returns (r: int)
      requires Valid() && len < TWO32
      modifies seg, this`headChunk, this`head, this`startChunk, this`oooDeq, this`deqTree, this`deqTo, this`enqFrom,
               this`enqTo, this`chain, this`h, this`cells, this`t
      ensures Valid() && t == old(t)
      ensures Apart(old(seg.mem), seg.mem, old(seg.place), seg.place, old(chain), chain)
      ensures |seg.slices| == |old(seg.slices)|
      ensures old(h) < t ==> Trimmed()
      ensures chain == old(chain)[old(Passes(len))..]
      ensures Settles(old(seg.slices), seg.slices, slice, seg.byteIndex, old(Returned(Passes(len))))
      ensures seg.maxByteIndex == old(seg.maxByteIndex)
      ensures if old(h) == t then r == EEMPTY && View() == old(View())
              else r == Min(t - old(h), len) && h == old(h) + r && View() == old(View()).(h := h)
    {
      hide Base, Laid, Tracked, Wrap, Minus, Holder, Find, Linked, Separated, Contents, Layout, Spots, MemOk, ListsOk,
           Regions, Counters, CarvedBytes, IncludesPos, Apart, Segment.Valid, OooList.Valid, Settles, Fifo.Offer,
           Fifo.Returned, DropCount, PassedBy, Fifo.Trimmed;
      var cursize := CurSize();
      PassedByIs(Sh(), h + Min(t - h, len));
      if cursize == 0 {
        NoReturn();
        return EEMPTY;
      }
      r := Min(cursize, len);
      DropHead(r);
    }

    /** Makes the cached chunk the one that holds p, where len bytes are about to be read. */
    method LocateDeq(pos: u32, len: nat, ghost p: nat)
      requires Base() && Tracked(seg.mem, Sh(), Lk(), ooo.nodes) && pos == Wrap(p) && chain != []
      requires h <= p < End(chain) && p + len <= t
      modifies seg`mem, this`oooDeq, this`deqTree, this`enqFrom, this`enqTo, this`deqTo
      ensures Base() && Tracked(seg.mem, Sh(), Lk(), ooo.nodes) && oooDeq == Holder(chain, p)
      ensures Only(old(seg.mem), seg.mem, chain)
    {
      hide Base, Laid, Tracked, Wrap, Plus, IncludesPos, Find, Layout, Spots, Future, MemOk, ListsOk, Regions, Counters,
           CarvedBytes, Run, FlagsOnly, Contiguous, Holder, Only, Segment.Valid;
      ghost var f, k, m := Sh(), Lk(), seg.mem;
      BaseElim();
      OnlyNone(m, chain);
      DeqFacts(m, seg.place, f, k, ooo.nodes, p, len);
      if oooDeq == 0 || !IncludesPos(seg.mem[oooDeq], pos) {
        var tree: Tree, cache: Sptr;
        ghost var e: nat;
        tree, cache, e := UpdateLookup(false, deqInit, deqTree, oooDeq, startChunk, pos, Plus(pos, len), 0, 0, deqTo, p,
                                       p + len);
        BaseElim();
        OnlyFlags(m, seg.mem, false, chain);
        TrackedDeq(m, seg.mem, f, k, ooo.nodes, tree, e, p);
        deqTree, oooDeq := tree, cache;
        AdoptLook(k.(deqTree := tree, deqTo := e, oooDeq := cache));
        BaseIntro();
      }
    }

    /** Reads up to len bytes from offset bytes behind the head, without consuming them. */
    method Peek(offset: nat, len: nat) returns (r: int, dst: seq<byte>)
      requires Valid() && CanPeek(Sh(), offset, len)
      modifies seg`mem, this`oooDeq, this`deqTree, this`enqFrom, this`enqTo, this`deqTo
      ensures Valid() && View() == old(View()) && Only(old(seg.mem), seg.mem, chain)
      ensures if t - h < offset then r == EEMPTY && dst == []
              else && r == |dst| == Min(t - h - offset, len)
                   && ByteQueue.Step(View(), ByteQueue.Peek(h + offset, dst), View())
    {
      hide Base, Laid, Tracked, Wrap, Minus, Plus, Holder, Find, Linked, Separated, Contents, Layout, Spots, Future,
           MemOk, ListsOk, Regions, Counters, CarvedBytes, Contiguous, Reads, SliceIs, IncludesPos, Only, Segment.Valid;
      BaseElim();
      HeadFacts(seg.mem, seg.place, Sh(), h);
      OnlyNone(seg.mem, chain);
      var cursize := Minus(tail, head);
      if cursize < offset {
        return EEMPTY, [];
      }
      var n := Min(cursize - offset, len);
      ghost var p := h + offset;
      HeadFacts(seg.mem, seg.place, Sh(), p);
      var pos := Plus(head, offset);
      LocateDeq(pos, n, p);
      var crossed: bool, last: Sptr;
      dst, crossed, last := CopyFrom(oooDeq, pos, n, p);
      BaseElim();
      PeekFacts(seg.mem, seg.place, Sh(), Lk(), ooo.nodes, p, n, dst);
      if crossed {
        oooDeq := last;
      }
      return n, dst;
    }

    /** A piece inside one chunk denotes the bytes at its positions. */
    lemma PieceRead(p: nat, n: nat)
      requires Base() && chain != [] && chain[0].lo <= p < End(chain)
      requires Find(chain, p) < |chain| && p + n <= chain[Find(chain, p)].hi
      ensures p + n <= |cells| && chain[Find(chain, p)].lo <= p
      ensures PieceBytes(seg.mem, Piece(Holder(chain, p), p - chain[Find(chain, p)].lo, n)) == cells[p..p + n]
    {
      hide Base, Find, Holder;
      Read(p, n);
    }

    /** Lists the pieces of chunks that hold up to want bytes from position p on, in at most nSegs pieces. */
    method Pieces(c0: Sptr, pos: u32, want: nat, nSegs: nat, ghost p: nat) returns (fs: seq<Piece>, n: nat)
      requires Base() && chain != [] && chain[0].lo <= p < End(chain) && p + want <= End(chain)
      requires c0 == Holder(chain, p) && pos == Wrap(p)
      ensures fs != [] && |fs| <= Max(1, nSegs) && n <= want && (n < want ==> |fs| >= nSegs)
      ensures SliceIs(Denote(seg.mem, fs), cells, p, p + n)
    {
      hide Base, Find, Holder, StartsAt, IncludesPos, Minus, Wrap, SliceIs, Denote, PieceBytes;
      At(p);
      var c, off := c0, Minus(pos, seg.mem[c0].start);
      n := Min(seg.mem[c].length - off, want);
      fs := [Piece(c, off, n)];
      PieceRead(p, n);
      SliceIntro(cells, p, p + n);
      DenoteOne(seg.mem, fs[0]);
      Onward(p, n);
      while n < want && |fs| < nSegs
        invariant fs != [] && |fs| <= Max(1, nSegs) && n <= want && SliceIs(Denote(seg.mem, fs), cells, p, p + n)
        invariant n < want ==> c in seg.mem && seg.mem[c].next == Holder(chain, p + n) && StartsAt(chain, p + n)
        decreases want - n
      {
        ghost var q := p + n;
        c := seg.mem[c].next;
        CopyStep(c, q);
        var len := Min(seg.mem[c].length, want - n);
        PieceRead(q, len);
        SliceJoin(Denote(seg.mem, fs), cells[q..q + len], cells, p, q, q + len);
        DenoteMore(seg.mem, fs, Piece(c, 0, len));
        Onward(q, len);
        fs, n := fs + [Piece(c, 0, len)], n + len;
      }
    }

    /** The pieces of chunks that hold up to maxBytes readable bytes from offset on. */
    method Segments(offset: nat, nSegs: nat, maxBytes: nat) returns (r: int, fs: seq<Piece>)
      requires Valid() && offset < TWO32
      modifies this`headChunk
      ensures Valid() && View() == old(View())
      ensures if t - h <= offset then r == EEMPTY && fs == []
              else && 0 <= r == |Denote(seg.mem, fs)| <= Min(t - h - offset, maxBytes)
                   && Reads(View(), h + offset, Denote(seg.mem, fs))
                   && 0 < |fs| <= Max(1, nSegs) && (r < Min(t - h - offset, maxBytes) ==> |fs| >= nSegs)
    {
      hide Base, Laid, Tracked, Wrap, Minus, Plus, Holder, Find, Linked, Separated, Contents, Layout, Spots, Future,
           MemOk, ListsOk, Regions, Counters, CarvedBytes, Contiguous, Reads, SliceIs, Denote, Segment.Valid;
      BaseElim();
      HeadFacts(seg.mem, seg.place, Sh(), h);
      var cursize := Minus(tail, head);
      if cursize == 0 || offset >= cursize {
        return EEMPTY, [];
      }
      var toRead := Min(cursize - offset, maxBytes);
      ghost var p := h + offset;
      HeadFacts(seg.mem, seg.place, Sh(), p);
      headChunk := HeadChunk();
      InOrderOf(h, p);
      HolderAt(chain, h);
      var c := FindChunk(headChunk, Plus(head, offset), Find(chain, h), p);
      var n;
      fs, n := Pieces(c, Plus(head, offset), toRead, nSegs, p);
      PeekFacts(seg.mem, seg.place, Sh(), Lk(), ooo.nodes, p, n, Denote(seg.mem, fs));
      return n, fs;
    }

    /** Makes sure that len bytes can be written at the tail and lists the pieces of chunks they will occupy. */
    method ProvisionChunks(len: nat, nSegs: nat) returns (r: int, fs: seq<Piece>, n: nat)
      requires Valid() && 0 < len && chain != [] && (len <= size - (t - h) ==> t + len <= End(chain) + MAX_SIZE)
      modifies seg, this`endChunk, this`tailChunk, this`chain, this`cells, this`h, this`t
      ensures Valid() && View() == old(View()) && h == old(h) && t == old(t)
      ensures Apart(old(seg.mem), seg.mem, old(seg.place), seg.place, old(chain), chain)
      ensures |seg.slices| == |old(seg.slices)|
      ensures r == EFULL <==> len > size - (t - h)
      ensures r == EFULL || r == EGROW || (r >= 0 && chain != [] && t + len <= End(chain))
      ensures r == EGROW <==> len <= size - (t - h) && old(FitIn(len)) < len
      ensures chain != []
      ensures End(chain) == old(End(chain)) + old(GrownBy(Wants(len, false))).total
      ensures Settles(old(seg.slices), seg.slices, slice, seg.byteIndex,
                      old(GrownBy(Wants(len, false))))
      ensures seg.maxByteIndex == old(seg.maxByteIndex)
      ensures r == EGROW ==> chain == old(chain) && chain != [] && End(chain) < t + len
      ensures r >= 0 ==> r == |fs| <= nSegs && (r == 0 <==> nSegs == 0)
      ensures r > 0 ==> n <= len && (n < len ==> |fs| == nSegs) && SliceIs(Denote(seg.mem, fs), cells, t, t + n)
    {
      hide Base, Laid, Tracked, Wrap, Minus, Holder, Find, Linked, Separated, Contents, Layout, Spots, Future, MemOk,
           ListsOk, Regions, Counters, CarvedBytes, Contiguous, SliceIs, Denote, Apart, Segment.Valid, Settles,
           Fifo.Offer, Fifo.GrownBy, Fifo.FitIn;
      BaseElim();
      ApartNone(seg.mem, seg.place, chain);
      EndFacts(seg.mem, seg.place, Sh(), t);
      if size - Minus(tail, head) < len {
        NoGrowth(0);
        return EFULL, [], 0;
      }
      var room := Reserve(len);
      if room < len {
        return EGROW, [], 0;
      }
      if nSegs == 0 {
        return 0, [], 0;
      }
      BaseElim();
      fs, n := Pieces(tailChunk, tail, len, nSegs, t);
      return |fs|, fs, n;
    }

    /** Grows the chunk list until it covers the whole capacity. */
    method FillChunkList() returns (r: int)
      requires Valid() && chain != [] && h + size <= End(chain) + MAX_SIZE
      modifies seg, this`endChunk, this`tailChunk, this`chain, this`cells, this`h, this`t
      ensures Valid() && View() == old(View()) && h == old(h) && t == old(t)
      ensures Apart(old(seg.mem), seg.mem, old(seg.place), seg.place, old(chain), chain)
      ensures |seg.slices| == |old(seg.slices)|
      ensures r == EGROW <==> old(FitIn(size - (t - h))) < size - (t - h)
      ensures chain != [] && End(chain) == old(End(chain)) + old(GrownBy(size - (t - h))).total
      ensures Settles(old(seg.slices), seg.slices, slice, seg.byteIndex, old(GrownBy(size - (t - h))))
      ensures seg.maxByteIndex == old(seg.maxByteIndex)
      ensures (r == 0 && chain != [] && h + size <= End(chain)) || (r == EGROW && chain == old(chain))
    {
      hide Base, Laid, Tracked, Wrap, Minus, ChunkEnd, Holder, Linked, Separated, Contents, Layout, Spots, Future,
           MemOk, ListsOk, Regions, Counters, CarvedBytes, Apart, Segment.Valid, Growth, Fit, Settles, Stock, Allocate;
      BaseElim();
      ApartNone(seg.mem, seg.place, chain);
      OfferOfFacts(seg, slice);
      EndFacts(seg.mem, seg.place, Sh(), t);
      Distance(End(chain), h);
      if Minus(ChunkEnd(seg.mem[endChunk]), head) >= size {
        FitAll(Offer(), minAlloc, Sh(), size - (t - h));
        return 0;
      }
      FitGrown(Offer(), minAlloc, Sh(), size - (t - h));
      ViewGrown(seg.mem, seg.place, Sh(), Lk(), ooo.nodes);
      var ok := TryChunkAlloc(size - Minus(tail, head));
      return if ok then 0 else EGROW;
    }

    // ---- What every reachable state guarantees ----

    /**
     The chunk list covers the window without gap, keeps at least one chunk, and the remembered chunks are the right
     ones.
     */
    lemma Coverage()
      requires Valid()
      ensures chain != [] && chain[0].lo <= h <= chain[0].hi && h <= t <= End(chain) && t - h <= size
      ensures forall i :: 0 < i < |chain| ==> chain[i - 1].hi == chain[i].lo
      ensures startChunk == chain[0].ptr && endChunk == chain[|chain| - 1].ptr
      ensures tailChunk == 0 <==> t == End(chain)
      ensures tailChunk != 0 ==> tailChunk in seg.mem && IncludesPos(seg.mem[tailChunk], tail)
      ensures headChunk != 0 ==> headChunk in seg.mem && IncludesPos(seg.mem[headChunk], head)
    {
      hide Base, Laid, Layout, Spots, Tracked, IncludesPos, Wrap, Minus, Find, Holder, Segment.Valid, OooList.Valid,
           Contiguous;
      BaseElim();
      LaidList(seg.mem, seg.place, Sh());
      TailNull(seg.mem, seg.place, Sh(), Lk(), ooo.nodes);
      if t < End(chain) {
        At(t);
      }
      if h < End(chain) {
        At(h);
      }
      HolderEnd(chain);
    }

    /**
     No chunk includes the end of the list: a peek with an offset of all the bytes, when they fill the list, has none
     to read.
     */
    lemma NothingAtEnd(i: nat)
      requires Valid() && t == End(chain) && i < |chain|
      ensures chain[i].ptr in seg.mem && !IncludesPos(seg.mem[chain[i].ptr], tail) && Holder(chain, t) == 0
    {
      hide Base, Laid, Tracked, IncludesPos, Wrap, Find, Segment.Valid, OooList.Valid, Contiguous;
      BaseElim();
      LaidElim(seg.mem, seg.place, Sh());
      Compare(i, t);
      HolderEnd(chain);
    }

    /**
     Stored positions of the live range compare like the positions they stand for, however often they have wrapped.
     */
    lemma LiveOrder(p: nat, q: nat)
      requires Base() && chain != [] && chain[0].lo <= p <= End(chain) && chain[0].lo <= q <= End(chain)
      ensures -TWO31 < p - q < TWO31
      ensures (PosLt(Wrap(p), Wrap(q)) <==> p < q) && (PosLeq(Wrap(p), Wrap(q)) <==> p <= q)
      ensures (PosGt(Wrap(p), Wrap(q)) <==> p > q) && (PosGeq(Wrap(p), Wrap(q)) <==> p >= q)
    {
      hide Laid, PosLt, PosLeq, PosGt, PosGeq, Wrap, MemOk, ListsOk, Regions, CarvedBytes, Counters;
      BaseElim();
      SpotsSpan(chain, h, t, size);
      Order(p, q);
    }

    /** The trees index runs of consecutive chunks, from the tail chunk and from the first chunk on. */
    lemma LookupState()
      requires Valid()
      ensures enqFrom <= enqTo <= |chain| && Indexes(enqTree, chain[enqFrom..enqTo])
      ensures enqFrom < enqTo ==> chain[enqFrom].ptr == tailChunk
      ensures ooo.nodes == [] ==> enqTree == Leaf && oooEnq == 0
      ensures deqTo <= |chain| && Indexes(deqTree, chain[..deqTo])
      ensures oooDeq != 0 ==> exists i :: 0 <= i < |chain| && chain[i].ptr == oooDeq
      ensures oooEnq != 0 ==> exists i :: 0 <= i < |chain| && chain[i].ptr == oooEnq
    {
      hide Base, Laid, Indexes, Wrap, Find, Linked, Separated;
      assert chain[0..deqTo] == chain[..deqTo];
      RunEmpty(seg.mem, chain, enqTree, enqFrom, enqTo, true, 0);
    }

    lemma ViewSound()
      requires Valid()
      ensures Sound(View())
    {
      hide Laid, Contents, EnqSide, DeqSide, Sound, Layout, Spots, Linked, Separated, Wrap, Holder, MemOk, ListsOk,
           Regions, CarvedBytes, Counters;
      BaseElim();
      ContentsSound(Sh(), ooo.nodes, End(chain), h + size);
    }
  }

  // ---- A list of segments and its concatenation ----

  /** Two fifos in the same state: stream, end of the chunk list and supply agree. Their chunks need not be the same. */
  ghost predicate Twins(f: Fifo, g: Fifo)
    reads f, f.seg, f.ooo, g, g.seg, g.ooo
  {
    f.View() == g.View() && Alike(f.Sh(), g.Sh()) && f.minAlloc == g.minAlloc && f.Offer() == g.Offer()
  }

  /** The supply after an operation is the outcome the operation promised. */
  lemma OfferSettled(f: Fifo, s0: seq<Slice>, o: Outcome)
    requires f.seg.Valid() && Settles(s0, f.seg.slices, f.slice, f.seg.byteIndex, o)
    ensures f.Offer() == Supply(o.stock, o.index, f.seg.maxByteIndex)
    ensures Settles(s0, f.seg.slices, f.slice, f.seg.byteIndex, Outcome(0, f.Offer().stock, f.Offer().index))
  {
    hide MemOk, ListsOk, Regions, Counters, CarvedBytes, Stock;
  }

  /**
   Enqueueing a list of segments and enqueueing its concatenation is the same: on fifos in the same state both
   answer the same, take the same number of bytes and leave fifos in the same state.
   */
  method EnqueueBothWays(f: Fifo, g: Fifo, segs: seq<seq<byte>>) returns (r: int, n: nat, s: int, k: nat)
    requires f.Valid() && g.Valid() && f != g && f.seg != g.seg && f.ooo != g.ooo && Twins(f, g)
    requires segs != [] && (forall i :: 0 <= i < |segs| ==> segs[i] != []) && CanEnqueue(f.Sh(), |Flatten(segs)|)
    modifies f, f.seg, f.ooo, g, g.seg, g.ooo
    ensures f.Valid() && g.Valid() && Twins(f, g) && r == s && n == k
  {
    hide Fifo.Valid, Enqueued, Settles, Flatten, Contents, Growth, Fit, Segment.Valid, Stock, Apart;
    ghost var want := Min(f.size - (f.t - f.h), |Flatten(segs)|);
    ghost var q, u, a, b := f.View(), f.Offer(), f.Sh(), g.Sh();
    ghost var o, s0, s1 := f.GrownBy(want), f.seg.slices, g.seg.slices;
    GrowthAlike(u, f.minAlloc, a, b, want);
    r, n := f.EnqueueSegments(segs, true);
    s, k := g.Enqueue(Flatten(segs));
    EnqueuedUnique(q, f.View(), g.View(), Flatten(segs), n, k, r, s, u, f.minAlloc, a, b);
    ContentsEnds(f.Sh(), f.ooo.nodes);
    ContentsEnds(g.Sh(), g.ooo.nodes);
    f.ValidSegment();
    g.ValidSegment();
    OfferSettled(f, s0, o);
    OfferSettled(g, s1, o);
  }

  // ---- Operations as steps of the byte stream ----

  /** An in-order enqueue that copies something is a write at the tail. */
  lemma EnqueueStep(q: Queue, r: Queue, size: nat, src: seq<byte>, n: nat, result: int)
    requires Enqueued(q, r, size, src, n, result)
    ensures result < 0 ==> r == q
    ensures result >= 0 ==> n <= |src| && ByteQueue.Step(q, Write(q.t, src[..n]), r) && result == r.t - q.t
    ensures result >= 0 && Sound(q) ==> result >= n > 0
  {
    if result >= 0 {
      assert forall p: nat :: q.t <= p < q.t + n ==> p in r.bytes;
    }
  }

  /** Dropping n bytes hands over exactly the n bytes at the head. */
  lemma DropStep(q: Queue, n: nat) returns (out: seq<byte>)
    requires Sound(q) && q.h + n <= q.t
    ensures |out| == n && ByteQueue.Step(q, Take(out), q.(h := q.h + n))
  {
    out := seq(n, i requires 0 <= i < n => q.bytes[q.h + i]);
  }
}
