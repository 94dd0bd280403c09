/**
 One producer and one consumer working on the same fifo at the same time. Every load and
 store of a shared word, every byte copied, every chunk link followed or written is a step
 of its own, and the steps of the two sides interleave freely. The abstract queue q changes
 only at publishing steps; the invariant ties it to the chunks in memory.
 */
module FifoMachine {
  import opened Positions
  import opened Chunks
  import opened FifoLayout
  import opened FifoLookup
  import opened ByteQueue
  import ChunkTree

  /** What the producer is doing. It writes src from position at on; in order when at is the tail. */
  datatype Prod =
    | PIdle
    | PLoaded(at: nat, src: seq<byte>)
    | PPlaced(at: nat, src: seq<byte>, d: seq<Link>)
    | PLinked(at: nat, src: seq<byte>, first: Sptr, last: Sptr)
    | PProbe(at: nat, src: seq<byte>)
    | PTrack(at: nat, src: seq<byte>, c: Sptr, p: nat)
    | PSeek(at: nat, src: seq<byte>, c: Sptr, p: nat)
    | PCopy(at: nat, src: seq<byte>, i: nat, c: Sptr)
    | PClear(at: nat, src: seq<byte>, u: nat, c: Sptr, p: nat)
    | PTail(at: nat, src: seq<byte>, u: nat, c: Sptr)

  /** What the consumer is doing: it takes n bytes from the head. */
  datatype Cons =
    | CIdle
    | CFind(n: nat, c: Sptr, k: nat)
    | CCopy(n: nat, buf: seq<byte>, c: Sptr)
    | CWalk(n: nat, buf: seq<byte>, hc: Sptr, prev: Sptr, c: Sptr, k: nat)
    | CCut(n: nat, buf: seq<byte>, hc: Sptr, prev: Sptr, c: Sptr, k: nat)
    | CSwing(n: nat, buf: seq<byte>, hc: Sptr, c: Sptr, drop: seq<Link>)
    | CCollect(n: nat, buf: seq<byte>, hc: Sptr, drop: seq<Link>)
    | CPublish(n: nat, buf: seq<byte>, hc: Sptr)

  /**
   What the producer keeps between its operations to find chunks past the tail: the chunk it wrote last and,
   if init, the tree. The tree holds the chunks from..to of the list.
   */
  datatype Enq = Enq(cache: Sptr, tree: ChunkTree.Tree, init: bool, from: nat, to: nat)

  /**
   mem, free, start, end, tailChunk, headChunk, head and tail are the shared state; free holds the chunks
   the segment may hand out; enq is the producer's own. chain, cells, pos and q describe them: the linked
   chunks, the bytes in them, the consumer's position and the stream.
   */
  datatype State = State(
    mem: Memory, free: set<Sptr>, start: Sptr, end: Sptr, tailChunk: Sptr, headChunk: Sptr, head: u32, tail: u32,
    size: nat, prod: Prod, cons: Cons, enq: Enq,
    chain: seq<Link>, cells: seq<byte>, pos: nat, q: Queue, out: seq<byte>)

  /** The end of the chunk that holds p. */
  ghost function After(c: seq<Link>, p: nat): nat {
    if Find(c, p) < |c| then c[Find(c, p)].hi else p
  }

  /** A position in the chunk x, not before t. */
  ghost function Spot(c: seq<Link>, x: Sptr, t: nat): nat {
    if exists i :: 0 <= i < |c| && c[i].ptr == x then
      var i :| 0 <= i < |c| && c[i].ptr == x; Max(t, c[i].lo)
    else t
  }

  /** Some byte past x is known. */
  ghost predicate KnownPast(q: Queue, x: nat) {
    exists p: nat :: p in q.bytes && x < p
  }

  ghost predicate Flagged(s: State, x: Sptr) {
    x in s.mem && s.mem[x].inEnq
  }

  /** Chunk x enters the tree, which then holds the chunks from..to. */
  ghost function Tracking(s: State, x: Sptr, from: nat, to: nat): State
    requires x in s.mem
  {
    s.(mem := s.mem[x := SetFlag(s.mem[x], true, true)],
       enq := s.enq.(tree := ChunkTree.Insert(s.enq.tree, s.mem[x].start, x), from := from, to := to))
  }

  /** Chunk x, the first one in the tree, leaves it. */
  ghost function Untracking(s: State, x: Sptr): State
    requires x in s.mem
  {
    s.(mem := s.mem[x := SetFlag(s.mem[x], true, false)],
       enq := s.enq.(tree := ChunkTree.Remove(s.enq.tree, s.mem[x].start), from := s.enq.from + 1))
  }

  // ---- Producer steps ----

  /** Loads the head and decides where to write: at the tail as much as fits, or ahead of it all of src. */
  ghost predicate Load(s: State, s': State, offset: nat, src: seq<byte>) {
    && s.prod.PIdle? && src != []
    && var room := s.size - Minus(s.tail, s.head);
       if offset == 0 then room > 0 && s' == s.(prod := PLoaded(s.q.t, src[..Min(room, |src|)]))
       else offset + |src| <= room && s' == s.(prod := PLoaded(s.q.t + offset, src))
  }

  /** In order the copy starts in the tail chunk; ahead of it the chunk must be found first. */
  ghost function Begin(s: State, src: seq<byte>): Prod
    requires !s.prod.PIdle?
  {
    if s.prod.at == s.q.t then PCopy(s.prod.at, src, 0, s.tailChunk) else PProbe(s.prod.at, src)
  }

  /** The chunk list is long enough. */
  ghost predicate NoGrow(s: State, s': State) {
    && s.prod.PLoaded? && s.end in s.mem
    && !PosGt(Wrap(s.prod.at + |s.prod.src|), ChunkEnd(s.mem[s.end]))
    && s' == s.(prod := Begin(s, s.prod.src))
  }

  /** The list is too short and cannot grow: write in order what still fits, ahead nothing. */
  ghost predicate GrowFails(s: State, s': State) {
    && s.prod.PLoaded? && s.end in s.mem
    && PosGt(Wrap(s.prod.at + |s.prod.src|), ChunkEnd(s.mem[s.end]))
    && var left := Minus(ChunkEnd(s.mem[s.end]), s.tail);
       if s.prod.at == s.q.t && 0 < left <= |s.prod.src| then s' == s.(prod := Begin(s, s.prod.src[..left]))
       else s' == s.(prod := PIdle)
  }

  /** Takes chunks from the segment and gives them the positions behind the list; nobody else sees them yet. */
  ghost predicate Place(s: State, s': State, d: seq<Link>) {
    && s.prod.PLoaded? && s.end in s.mem
    && PosGt(Wrap(s.prod.at + |s.prod.src|), ChunkEnd(s.mem[s.end]))
    && d != [] && Ptrs(d) <= s.free && s.chain != [] && d[0].lo == End(s.chain)
    && Chained(s'.mem, d) && s.prod.at + |s.prod.src| <= End(d) <= s.prod.at + |s.prod.src| + SLACK
    && (forall j :: 0 <= j < |d| ==> !Flagged(s', d[j].ptr))
    && s'.mem.Keys == s.mem.Keys && (forall x :: x in s.mem ==> s'.mem[x].length == s.mem[x].length)
    && (forall x :: x in s.mem && x !in Ptrs(d) ==> s'.mem[x] == s.mem[x])
    && s' == s.(mem := s'.mem, free := s.free - Ptrs(d), prod := PPlaced(s.prod.at, s.prod.src, d))
  }

  /** Links the new chunks behind the last one: from here on the consumer can reach them. */
  ghost predicate Attach(s: State, s': State) {
    && s.prod.PPlaced? && s.end in s.mem && s.prod.d != []
    && var d := s.prod.d;
       s' == s.(mem := s.mem[s.end := s.mem[s.end].(next := d[0].ptr)],
                chain := s.chain + d, cells := s.cells + Bytes(s'.mem, d),
                prod := PLinked(s.prod.at, s.prod.src, d[0].ptr, d[|d| - 1].ptr))
  }

  ghost predicate SetEnd(s: State, s': State) {
    && s.prod.PLinked?
    && var r := s.(end := s.prod.last, tailChunk := if s.tailChunk == 0 then s.prod.first else s.tailChunk);
       s' == r.(prod := Begin(r, s.prod.src))
  }

  /** Tries the cached chunk; failing that, starts the linear search or looks the position up in the tree. */
  ghost predicate Probe(s: State, s': State) {
    && s.prod.PProbe? && (s.enq.cache != 0 ==> s.enq.cache in s.mem)
    && var at, src := s.prod.at, s.prod.src;
       if s.enq.cache != 0 && IncludesPos(s.mem[s.enq.cache], Wrap(at)) then
         s' == s.(prod := PCopy(at, src, 0, s.enq.cache))
       else if !s.enq.init then s' == s.(prod := PSeek(at, src, s.tailChunk, s.q.t))
       else if s.enq.tree.Leaf? then
         && s.tailChunk in s.mem
         && var i := Find(s.chain, s.q.t);
            s' == Tracking(s, s.tailChunk, i, i + 1).(prod := PTrack(at, src, s.tailChunk, s.q.t))
       else
         && var n := ChunkTree.Floor(s.enq.tree, Wrap(at), ChunkTree.Leaf);
            n.Node? && s' == s.(prod := PTrack(at, src, n.chunk, Spot(s.chain, n.chunk, s.q.t)))
  }

  /** Remembers the chunk of the first byte and adds chunks to the tree up to the one behind the last byte. */
  ghost predicate Track(s: State, s': State) {
    && s.prod.PTrack? && s.prod.c in s.mem
    && var at, src, c := s.prod.at, s.prod.src, s.prod.c;
       var next := s.mem[c].next;
       var r := if IncludesPos(s.mem[c], Wrap(at)) then s.(enq := s.enq.(cache := c)) else s;
       if IncludesPos(s.mem[c], Wrap(at + |src|)) || next == 0 || Flagged(s, next)
       then s' == r.(prod := PCopy(at, src, 0, r.enq.cache))
       else && next in s.mem
            && s' == Tracking(r, next, r.enq.from, r.enq.to + 1).(
                       prod := PTrack(at, src, next, After(s.chain, s.prod.p)))
  }

  /** Follows links to the chunk that holds the first byte. */
  ghost predicate Seek(s: State, s': State) {
    && s.prod.PSeek? && s.prod.c in s.mem
    && if IncludesPos(s.mem[s.prod.c], Wrap(s.prod.at))
       then s' == s.(enq := s.enq.(cache := s.prod.c), prod := PCopy(s.prod.at, s.prod.src, 0, s.prod.c))
       else s' == s.(prod := PSeek(s.prod.at, s.prod.src, s.mem[s.prod.c].next, After(s.chain, s.prod.p)))
  }

  /** Copies one byte; at the end of the chunk follows its link. */
  ghost predicate WriteByte(s: State, s': State) {
    && s.prod.PCopy? && s.prod.i < |s.prod.src| && s.prod.c in s.mem
    && var c, p := s.prod.c, s.prod.at + s.prod.i;
       var off := Minus(Wrap(p), s.mem[c].start);
       && off < |s.mem[c].data| && p < |s.cells|
       && s' == s.(mem := s.mem[c := s.mem[c].(data := Overwrite(s.mem[c].data, off, [s.prod.src[s.prod.i]]))],
                   cells := Overwrite(s.cells, p, [s.prod.src[s.prod.i]]),
                   prod := PCopy(s.prod.at, s.prod.src, s.prod.i + 1,
                                 if off + 1 == s.mem[c].length then s.mem[c].next else c))
  }

  /** Bytes written ahead of the tail are complete; the chunk behind them is remembered. */
  ghost predicate FinishAhead(s: State, s': State) {
    && s.prod.PCopy? && s.prod.i == |s.prod.src| && s.prod.at != s.q.t
    && Put(s.q, s'.q, s.prod.at, s.prod.src)
    && s' == s.(enq := s.enq.(cache := s.prod.c), prod := PIdle, q := s'.q)
  }

  /**
   Bytes written at the tail are complete: the new tail u is the first position never written. Out-of-order
   bytes make the producer walk again from the old tail chunk.
   */
  ghost predicate FinishTail(s: State, s': State, u: nat) {
    && s.prod.PCopy? && s.prod.i == |s.prod.src| && s.prod.at == s.q.t
    && (exists r :: Put(s.q, r, s.prod.at, s.prod.src) && r.t == u)
    && s' == s.(prod := if KnownPast(s.q, s.q.t) then PClear(s.prod.at, s.prod.src, u, s.tailChunk, s.q.t)
                        else PTail(s.prod.at, s.prod.src, u, s.prod.c))
  }

  /** Passes one chunk on the way to the new tail; it leaves the tree. */
  ghost predicate Clear(s: State, s': State) {
    && s.prod.PClear? && s.prod.c != 0 && s.prod.c in s.mem && !IncludesPos(s.mem[s.prod.c], Wrap(s.prod.u))
    && var r := if Flagged(s, s.prod.c) then Untracking(s, s.prod.c) else s;
       s' == r.(prod := PClear(s.prod.at, s.prod.src, s.prod.u, s.mem[s.prod.c].next, After(s.chain, s.prod.p)))
  }

  /** The chunk of the new tail is reached; it leaves the tree too if no out-of-order bytes are left. */
  ghost predicate ClearEnd(s: State, s': State) {
    && s.prod.PClear? && (s.prod.c == 0 || (s.prod.c in s.mem && IncludesPos(s.mem[s.prod.c], Wrap(s.prod.u))))
    && var r := if !KnownPast(s.q,
                              s.prod.u) && s.prod.c != 0 && Flagged(s, s.prod.c) then Untracking(s, s.prod.c) else s;
       s' == r.(enq := r.enq.(cache := 0), prod := PTail(s.prod.at, s.prod.src, s.prod.u, s.prod.c))
  }

  /** Publishes the new tail: the bytes below it now belong to the consumer. */
  ghost predicate PublishTail(s: State, s': State) {
    && s.prod.PTail? && Put(s.q, s'.q, s.prod.at, s.prod.src) && s'.q.t == s.prod.u
    && s' == s.(tail := Wrap(s.prod.u), tailChunk := s.prod.c, prod := PIdle, q := s'.q)
  }

  // ---- Consumer steps ----

  ghost predicate LoadTail(s: State, s': State, len: nat) {
    && s.cons.CIdle? && Minus(s.tail, s.head) > 0
    && var n := Min(Minus(s.tail, s.head), len);
       s' == s.(cons := if s.headChunk == 0 then CFind(n, s.start, 0) else CCopy(n, [], s.headChunk))
  }

  ghost predicate FindHead(s: State, s': State) {
    && s.cons.CFind? && s.cons.c in s.mem
    && if IncludesPos(s.mem[s.cons.c], s.head) then s' == s.(headChunk := s.cons.c,
                                                             cons := CCopy(s.cons.n, [], s.cons.c))
       else s' == s.(cons := CFind(s.cons.n, s.mem[s.cons.c].next, s.cons.k + 1))
  }

  ghost predicate ReadByte(s: State, s': State) {
    && s.cons.CCopy? && |s.cons.buf| < s.cons.n && s.cons.c in s.mem
    && var c := s.cons.c;
       var off := Minus(Plus(s.head, Wrap(|s.cons.buf|)), s.mem[c].start);
       && off < |s.mem[c].data|
       && s' == s.(cons := CCopy(s.cons.n, s.cons.buf + [s.mem[c].data[off]],
                                 if off + 1 == s.mem[c].length then s.mem[c].next else c))
  }

  ghost predicate ReadDone(s: State, s': State) {
    && s.cons.CCopy? && |s.cons.buf| == s.cons.n && s.start in s.mem
    && if PosGeq(Plus(s.head, Wrap(s.cons.n)), ChunkEnd(s.mem[s.start]))
       then s' == s.(cons := CWalk(s.cons.n, s.cons.buf, s.cons.c, 0, s.start, 0))
       else s' == s.(pos := s.q.h + s.cons.n, cons := CPublish(s.cons.n, s.cons.buf, s.cons.c))
  }

  /** Follows one link on the way to the chunk that becomes the first; the last chunk is never passed. */
  ghost predicate WalkOn(s: State, s': State) {
    && s.cons.CWalk? && s.cons.c in s.mem
    && var next := s.mem[s.cons.c].next;
       if next == 0 then
         if s.cons.prev == 0 then s' == s.(pos := s.q.h + s.cons.n, cons := CPublish(s.cons.n, s.cons.buf, s.cons.hc))
         else s' == s.(cons := CCut(s.cons.n, s.cons.buf, s.cons.hc, s.cons.prev, s.cons.c, s.cons.k))
       else
         && next in s.mem
         && if IncludesPos(s.mem[next], Plus(s.head, Wrap(s.cons.n)))
            then s' == s.(cons := CCut(s.cons.n, s.cons.buf, s.cons.hc, s.cons.c, next, s.cons.k + 1))
            else s' == s.(cons := CWalk(s.cons.n, s.cons.buf, s.cons.hc, s.cons.c, next, s.cons.k + 1))
  }

  /** The same tree, its chunks counted in a list without its first k chunks. */
  ghost function Shifted(e: Enq, k: nat): Enq {
    if e.from < e.to && k <= e.from then e.(from := e.from - k, to := e.to - k) else e.(from := 0, to := 0)
  }

  /** Cuts the passed chunks off the list. */
  ghost predicate Cut(s: State, s': State) {
    && s.cons.CCut? && s.cons.prev in s.mem && s.cons.k <= |s.chain|
    && s' == s.(mem := s.mem[s.cons.prev := s.mem[s.cons.prev].(next := 0)],
                chain := s.chain[s.cons.k..], pos := s.q.h + s.cons.n, enq := Shifted(s.enq, s.cons.k),
                cons := CSwing(s.cons.n, s.cons.buf, s.cons.hc, s.cons.c, s.chain[..s.cons.k]))
  }

  ghost predicate Swing(s: State, s': State) {
    s.cons.CSwing? && s' == s.(start := s.cons.c, cons := CCollect(s.cons.n, s.cons.buf, s.cons.hc, s.cons.drop))
  }

  /** Gives the passed chunks back to the segment, which may hand them out again at once. */
  ghost predicate Collect(s: State, s': State) {
    && s.cons.CCollect? && (forall x :: x in s.mem && x !in Ptrs(s.cons.drop) ==> x in s'.mem && s'.mem[x] == s.mem[x])
    && s'.mem.Keys == s.mem.Keys && (forall x :: x in s.mem ==> s'.mem[x] == s.mem[x].(next := s'.mem[x].next))
    && s' == s.(mem := s'.mem, free := s.free + Ptrs(s.cons.drop), cons := CPublish(s.cons.n, s.cons.buf, s.cons.hc))
  }

  /** Publishes the new head: the space below it belongs to the producer again. */
  ghost predicate PublishHead(s: State, s': State) {
    && s.cons.CPublish?
    && s' == s.(head := Plus(s.head, Wrap(s.cons.n)), headChunk := s.cons.hc, q := s.q.(h := s.q.h + s.cons.n),
                out := s.out + s.cons.buf, cons := CIdle)
  }

  // ---- The invariant ----

  ghost predicate Lens(m: Memory) {
    forall x :: x in m ==> x != 0 && 0 < m[x].length == |m[x].data| <= MAX_CHUNK
  }

  /** The linked chunks hold the bytes of cells; the consumer's position lies in the first one. */
  ghost predicate Listing(s: State) {
    Chained(s.mem, s.chain) && Holds(s.mem, s.chain, s.cells) && Spots(s.chain, s.pos, s.q.t, s.size) && Lens(s.mem)
  }

  ghost function Fresh(p: Prod): set<Sptr> {
    if p.PPlaced? then Ptrs(p.d) else {}
  }

  ghost function Dropped(c: Cons): set<Sptr> {
    if c.CSwing? || c.CCollect? then Ptrs(c.drop) else {}
  }

  /** Every chunk is free, linked, new at the producer or dropped at the consumer, and only one of these. */
  ghost predicate Owners(s: State) {
    && s.mem.Keys == s.free + Ptrs(s.chain) + Fresh(s.prod) + Dropped(s.cons)
    && s.free !! Ptrs(s.chain) && s.free !! Fresh(s.prod) && s.free !! Dropped(s.cons)
    && Ptrs(s.chain) !! Fresh(s.prod) && Ptrs(s.chain) !! Dropped(s.cons) && Fresh(s.prod) !! Dropped(s.cons)
  }

  ghost predicate Words(s: State) {
    && s.head == Wrap(s.q.h) && s.tail == Wrap(s.q.t)
    && s.q.h <= s.pos <= s.q.t <= s.q.h + s.size
  }

  /** The remembered chunks; end lags behind right after linking, start right after cutting. */
  ghost predicate Remembered(s: State) {
    && s.chain != []
    && (!s.cons.CSwing? ==> s.start == s.chain[0].ptr)
    && (!s.prod.PLinked? ==> s.end == s.chain[|s.chain| - 1].ptr)
    && (|| s.tailChunk == Holder(s.chain, s.q.t)
        || (s.prod.PLinked? && s.tailChunk == 0 && s.prod.first == Holder(s.chain, s.q.t)))
    && (s.cons.CIdle? ==> s.headChunk == 0 || s.headChunk == Holder(s.chain, s.q.h))
  }

  /** The range being written lies past the tail, inside the window and, once grown, inside the list. */
  ghost predicate Range(s: State, at: nat, src: seq<byte>) {
    src != [] && s.q.t <= at && at + |src| <= s.q.h + s.size && s.chain != [] && at + |src| <= End(s.chain)
  }

  ghost predicate Stored(s: State, at: nat, src: seq<byte>, i: nat) {
    i <= |src| && at + i <= |s.cells| && forall j :: 0 <= j < i ==> s.cells[at + j] == src[j]
  }

  ghost predicate ProdOk(s: State) {
    match s.prod
    case PIdle => true
    case PLoaded(at, src) => src != [] && s.q.t <= at && at + |src| <= s.q.h + s.size
    case PPlaced(at, src, d) =>
      && src != [] && s.q.t <= at && at + |src| <= s.q.h + s.size
      && Chained(s.mem, d) && s.chain != [] && d[0].lo == End(s.chain)
      && at + |src| <= End(d) <= at + |src| + SLACK
      && (forall j :: 0 <= j < |d| ==> !Flagged(s, d[j].ptr))
    case PLinked(at, src, first, last) => Range(s, at, src) && last == s.chain[|s.chain| - 1].ptr
    case PProbe(at, src) => Range(s, at, src) && s.q.t < at
    case PTrack(at, src, c, p) =>
      && Range(s, at, src) && s.q.t < at && s.q.t <= p <= at + |src| && p < End(s.chain) && c == Holder(s.chain, p)
      && s.enq.init && s.enq.from < s.enq.to && Find(s.chain, p) < s.enq.to
      && (Find(s.chain, at) < Find(s.chain, p) ==> s.enq.cache == Holder(s.chain, at))
      && (Find(s.chain, p) + 1 < s.enq.to ==> Find(s.chain, at) <= Find(s.chain, p))
    case PSeek(at, src, c, p) => Range(s, at, src) && s.q.t <= p <= at && s.q.t < at && c == Holder(s.chain, p)
    case PCopy(at, src, i, c) => Range(s, at, src) && Stored(s, at, src, i) && c == Holder(s.chain, at + i)
    case PClear(at, src, u, c, p) =>
      && Range(s, at, src) && Stored(s, at, src, |src|) && at == s.q.t
      && at <= p <= u && at + |src| <= u <= End(s.chain) && u <= s.q.h + s.size && c == Holder(s.chain, p)
      && (exists r :: Put(s.q, r, at, src) && r.t == u)
    case PTail(at, src, u, c) =>
      && Range(s, at, src) && Stored(s, at, src, |src|) && at == s.q.t
      && at + |src| <= u <= End(s.chain) && u <= s.q.h + s.size && c == Holder(s.chain, u)
      && (exists r :: Put(s.q, r, at, src) && r.t == u)
  }

  /** The bytes taken so far, and the chunk that follows them once they are complete. */
  ghost predicate Taking(s: State, n: nat, buf: seq<byte>) {
    s.q.h + n <= s.q.t && |buf| <= n && Reads(s.q, s.q.h, buf)
  }

  ghost predicate Taken(s: State, n: nat, buf: seq<byte>, hc: Sptr) {
    Taking(s, n, buf) && |buf| == n && (hc == 0 || hc == Holder(s.chain, s.q.h + n))
  }

  ghost predicate ConsOk(s: State) {
    match s.cons
    case CIdle => s.pos == s.q.h
    case CFind(n, c, k) =>
      && s.pos == s.q.h && s.q.h + n <= s.q.t && s.q.h < s.q.t && k <= Find(s.chain, s.q.h) && k < |s.chain|
      && c == s.chain[k].ptr
    case CCopy(n, buf, c) =>
      && s.pos == s.q.h && Taking(s, n, buf)
      && (c == Holder(s.chain, s.q.h + |buf|) || (c == 0 && |buf| == n))
    case CWalk(n, buf, hc, prev, c, k) =>
      && s.pos == s.q.h && Taken(s, n, buf, hc) && k < |s.chain| && c == s.chain[k].ptr && prev == PtrAt(s.chain, k - 1)
      && s.chain[k].hi <= s.q.h + n
    case CCut(n, buf, hc, prev, c, k) =>
      && s.pos == s.q.h && Taken(s, n, buf, hc) && 0 < k < |s.chain| && c == s.chain[k].ptr
      && prev == s.chain[k - 1].ptr
      && s.chain[k].lo <= s.q.h + n <= s.chain[k].hi
    case CSwing(n, buf, hc, c, drop) =>
      s.pos == s.q.h + n && Taken(s, n, buf, hc) && s.chain != [] && c == s.chain[0].ptr
    case CCollect(n, buf, hc, drop) => s.pos == s.q.h + n && Taken(s, n, buf, hc)
    case CPublish(n, buf, hc) => s.pos == s.q.h + n && Taken(s, n, buf, hc)
  }

  /** p is being rewritten by the write in progress. */
  ghost predicate InFlight(p: Prod, x: int) {
    (p.PCopy? && p.at <= x < p.at + p.i) || ((p.PClear? || p.PTail?) && p.at <= x < p.at + |p.src|)
  }

  ghost predicate ByteAt(s: State, x: nat) {
    && x < |s.cells| && x < s.q.h + s.size
    && (s.chain != [] && s.chain[0].lo <= x && !InFlight(s.prod, x) ==> x in s.q.bytes && s.cells[x] == s.q.bytes[x])
  }

  /** The chunks hold the stream, and what was delivered is its beginning. */
  ghost predicate Faithful(s: State) {
    && Sound(s.q)
    && (forall x: nat :: x in s.q.bytes ==> ByteAt(s, x))
    && |s.out| == s.q.h && Reads(s.q, 0, s.out)
  }

  /** Where the tail is as far as the tree is concerned: on its way while chunks are being passed. */
  ghost function Low(s: State): nat {
    match s.prod
    case PClear(_, _, _, _, p) => p
    case PTail(_, _, u, _) => u
    case _ => s.q.t
  }

  /** The tail, or the one about to be published. */
  ghost function Tail(s: State): nat {
    if s.prod.PTail? then s.prod.u else s.q.t
  }

  /** A byte past the tail is known, or being written ahead of it. */
  ghost predicate Beyond(s: State, p: nat) {
    && Tail(s) < p
    && (p in s.q.bytes
        || ((s.prod.PProbe? || s.prod.PTrack? || s.prod.PSeek? || s.prod.PCopy?)
            && s.prod.at != s.q.t && s.prod.at <= p < s.prod.at + |s.prod.src|))
  }

  /**
   The producer's lookup state. The tree indexes a run of chunks that starts at the tail chunk and ends by the
   furthest byte; the cached chunk is not in front of the tail chunk; both are empty without out-of-order bytes.
   */
  ghost predicate Looked(s: State) {
    && Run(s.mem, s.chain, s.enq.tree, s.enq.from, s.enq.to, true)
    && (s.enq.from < s.enq.to ==>
          && s.enq.init && s.enq.from == Find(s.chain, Low(s))
          && exists p: nat :: Beyond(s, p) && s.chain[s.enq.to - 1].lo <= p + 1)
    && (s.enq.cache != 0 ==> exists p: nat :: Beyond(s, p))
    && Cached(s.chain, s.enq.cache, Find(s.chain, Tail(s)))
  }

  ghost predicate Inv(s: State) {
    Listing(s) && Owners(s) && Words(s) && Remembered(s) && ProdOk(s) && ConsOk(s) && Faithful(s) && Looked(s)
  }

  // ---- What the words and chunks read say about positions ----

  lemma Facts(s: State)
    requires Inv(s)
    ensures s.chain != [] && Contiguous(s.chain) && s.chain[0].lo <= s.pos <= s.chain[0].hi
    ensures s.pos <= s.q.t <= End(s.chain) == |s.cells|
    ensures s.q.h <= s.pos && s.q.t <= s.q.h + s.size && s.size <= MAX_FIFO
    ensures Minus(s.tail, s.head) == s.q.t - s.q.h
    ensures forall i :: 0 <= i < |s.chain| ==> s.chain[i].ptr != 0 && s.chain[i].ptr in s.mem
  {
    hide Wrap, Minus, Reads, Put;
    ChainedFacts(s.mem, s.chain);
    Distance(s.q.t, s.q.h);
  }

  /** The chunk that holds position p of the list, and what is read from it. */
  lemma HolderOf(s: State, p: nat)
    requires Inv(s) && s.chain != [] && s.chain[0].lo <= p < End(s.chain)
    ensures var i := Find(s.chain, p);
            && i < |s.chain| && Holder(s.chain, p) == s.chain[i].ptr != 0 && s.chain[i].ptr in s.mem
            && s.chain[i].lo <= p < s.chain[i].hi <= End(s.chain) == |s.cells|
            && After(s.chain, p) == s.chain[i].hi
            && (var k := s.mem[s.chain[i].ptr];
                && k.length == s.chain[i].hi - s.chain[i].lo == |k.data| && Minus(Wrap(p), k.start) == p - s.chain[i].lo
                && k.next == Holder(s.chain, s.chain[i].hi) && k.data[p - s.chain[i].lo] == s.cells[p]
                && (p + 1 < s.chain[i].hi ==> Holder(s.chain, p + 1) == s.chain[i].ptr))
  {
    hide Wrap, ChunkEnd, IncludesPos, PosGt, PosGeq, Minus, Reads, Put;
    var c := s.chain;
    FindLocates(c, p);
    var i := Find(c, p);
    LiveChunk(s.mem, c, s.pos, s.q.t, s.size, i, p);
    assert CellsAt(s.mem, c, s.cells, i);
    FindNext(c, i);
    Advance(c, p, 1);
    assert s.cells[c[i].lo..c[i].hi][p - c[i].lo] == s.cells[p];
  }

  /** Chunk number i compared with a live position. */
  lemma Compared(s: State, i: nat, p: nat)
    requires Inv(s) && i < |s.chain| && s.chain[0].lo <= p <= End(s.chain)
    ensures s.chain[i].ptr != 0 && s.chain[i].ptr in s.mem && s.mem[s.chain[i].ptr].next == PtrAt(s.chain, i + 1)
    ensures IncludesPos(s.mem[s.chain[i].ptr], Wrap(p)) <==> Find(s.chain, p) == i
    ensures (p < s.chain[i].lo <==> Find(s.chain, p) < i) && (s.chain[i].hi <= p <==> i < Find(s.chain, p))
    ensures Find(s.chain, p) <= |s.chain|
    ensures PosGeq(Wrap(p), ChunkEnd(s.mem[s.chain[i].ptr])) <==> p >= s.chain[i].hi
  {
    hide Wrap, ChunkEnd, IncludesPos, PosGt, PosGeq, Minus, Reads, Put, Holds;
    LiveChunk(s.mem, s.chain, s.pos, s.q.t, s.size, i, p);
    FindLocates(s.chain, p);
    if s.chain[i].lo <= p < s.chain[i].hi {
      FindIs(s.chain, p, i);
    }
  }

  /** The end of the list, read from its last chunk. */
  lemma EndOf(s: State, p: nat)
    requires Inv(s) && !s.prod.PLinked? && s.q.t <= p <= s.q.h + s.size
    ensures s.end in s.mem && s.chain != []
    ensures PosGt(Wrap(p), ChunkEnd(s.mem[s.end])) <==> p > End(s.chain)
    ensures Minus(ChunkEnd(s.mem[s.end]), s.tail) == End(s.chain) - s.q.t
  {
    hide Wrap, ChunkEnd, IncludesPos, PosGt, PosGeq, Minus, Reads, Put, Holds;
    var c := s.chain;
    LiveChunk(s.mem, c, s.pos, s.q.t, s.size, |c| - 1, s.q.t);
    Order(p, End(c));
  }

  /** The flags of the linked chunks are those of s. */
  ghost predicate SameTracks(s: State, s': State) {
    forall i :: 0 <= i < |s.chain| ==>
                  && s.chain[i].ptr in s.mem && s.chain[i].ptr in s'.mem
                  && Flagged(s', s.chain[i].ptr) == Flagged(s, s.chain[i].ptr)
  }

  /** Steps that keep flags, list, tail and lookup state keep the lookup invariant. */
  lemma LookedSame(s: State, s': State)
    requires Looked(s) && s'.chain == s.chain && s'.enq == s.enq && Tail(s') == Tail(s) && SameTracks(s, s')
    requires Low(s') == Low(s) && forall p: nat :: Beyond(s, p) ==> Beyond(s', p)
    ensures Looked(s')
  {
    hide ChunkTree.Indexes, Find, Low, Beyond, Cached;
    assert s.chain + [] == s.chain;
    RunJoin(s.mem, s'.mem, s.chain, [], s.enq.tree, s.enq.from, s.enq.to, true);
  }

  /** An unchanged memory keeps the flags. */
  lemma SameTracksMem(s: State, s': State)
    requires Looked(s) && s'.mem == s.mem
    ensures SameTracks(s, s')
  {
    hide ChunkTree.Indexes, Find, Low, Beyond, Cached;
    forall i | 0 <= i < |s.chain|
      ensures s.chain[i].ptr in s.mem
    {
      assert FlagAt(s.mem, s.chain, s.enq.from, s.enq.to, true, i);
    }
  }

  lemma RememberedSame(s: State, s': State)
    requires Remembered(s) && s'.chain == s.chain && s'.start == s.start && s'.end == s.end
    requires s'.tailChunk == s.tailChunk && s'.headChunk == s.headChunk
    requires s'.q == s.q && s'.cons == s.cons && !s.prod.PLinked? && !s'.prod.PLinked?
    ensures Remembered(s')
  {
  }

  lemma ConsSame(s: State, s': State)
    requires ConsOk(s) && s'.cons == s.cons && s'.chain == s.chain && s'.q == s.q && s'.pos == s.pos
    ensures ConsOk(s')
  {
    hide Reads;
  }

  lemma ListingTail(s: State, s': State)
    requires Listing(s) && s'.mem == s.mem && s'.chain == s.chain && s'.cells == s.cells && s'.pos == s.pos
    requires s'.size == s.size
    requires s.q.t <= s'.q.t <= End(s.chain) && s'.q.t <= s.pos + s.size
    ensures Listing(s')
  {
  }

  lemma PtrsIn(m: Memory, c: seq<Link>)
    requires Chained(m, c)
    ensures Ptrs(c) <= m.Keys
  {
    ChainedFacts(m, c);
  }
}
