/**
 Runs of one producer and one consumer on the same fifo: every interleaving of their steps is a run of the
 byte stream in which each write is one the producer was asked for, no side touches what belongs to the
 other, no chunk is given away while it can still be dereferenced, and neither side gets stuck.
 */
module FifoConcurrent {
  import opened Positions
  import opened Chunks
  import opened FifoLayout
  import opened FifoLookup
  import opened ByteQueue
  import opened FifoMachine
  import opened FifoProducer
  import opened FifoConsumer
  import ChunkTree

  /** A fresh fifo over the chunks of chain, both sides idle, nothing tracked. */
  ghost predicate Init(s: State) {
    && Chained(s.mem, s.chain) && Holds(s.mem, s.chain, s.cells) && Lens(s.mem)
    && s.chain[0].lo == 0 && 0 < s.size <= MAX_FIFO && End(s.chain) <= s.size + SLACK
    && s.mem.Keys == s.free + Ptrs(s.chain) && s.free !! Ptrs(s.chain)
    && s.start == s.headChunk == s.tailChunk == s.chain[0].ptr && s.end == s.chain[|s.chain| - 1].ptr
    && s.head == s.tail == 0 && s.pos == 0 && s.q == Queue(0, 0, map[]) && s.out == []
    && s.prod == PIdle && s.cons == CIdle && s.enq == Enq(0, ChunkTree.Leaf, s.enq.init, 0, 0)
    && (forall i :: 0 <= i < |s.chain| ==> !Flagged(s, s.chain[i].ptr))
  }

  datatype Event =
    | ELoad(offset: nat, src: seq<byte>) | ENoGrow | EGrowFails | EPlace(d: seq<Link>) | ELink | ESetEnd
    | EProbe | ETrack | ESeek | EWriteByte | EFinishAhead | EFinishTail(u: nat) | EClear | EClearEnd | EPublishTail
    | ELoadTail(len: nat) | EFindHead | EReadByte | EReadDone | EWalkOn | ECut | ESwing | ECollect | EPublishHead

  ghost predicate Next(s: State, e: Event, s': State) {
    match e
    case ELoad(offset, src) => Load(s, s', offset, src)
    case ENoGrow => NoGrow(s, s')
    case EGrowFails => GrowFails(s, s')
    case EPlace(d) => Place(s, s', d)
    case ELink => Attach(s, s')
    case ESetEnd => SetEnd(s, s')
    case EProbe => Probe(s, s')
    case ETrack => Track(s, s')
    case ESeek => Seek(s, s')
    case EWriteByte => WriteByte(s, s')
    case EFinishAhead => FinishAhead(s, s')
    case EFinishTail(u) => FinishTail(s, s', u)
    case EClear => Clear(s, s')
    case EClearEnd => ClearEnd(s, s')
    case EPublishTail => PublishTail(s, s')
    case ELoadTail(len) => LoadTail(s, s', len)
    case EFindHead => FindHead(s, s')
    case EReadByte => ReadByte(s, s')
    case EReadDone => ReadDone(s, s')
    case EWalkOn => WalkOn(s, s')
    case ECut => Cut(s, s')
    case ESwing => Swing(s, s')
    case ECollect => Collect(s, s')
    case EPublishHead => PublishHead(s, s')
  }

  /** There is a start for every size and every first chunk. */
  lemma InitExists(size: nat, data: seq<byte>, init: bool) returns (s: State)
    requires 0 < size <= MAX_FIFO && 0 < |data| <= MAX_CHUNK
    ensures Init(s) && s.size == size && s.cells == data && s.enq.init == init
  {
    var mem: Memory := map[1 := Chunk(0, |data|, 0, false, false, data)];
    s := State(mem, {}, 1, 1, 1, 1, 0, 0, size, PIdle, CIdle, Enq(0, ChunkTree.Leaf, init, 0, 0),
               [Link(1, 0, |data|)], data, 0, Queue(0, 0, map[]), []);
    assert LinkAt(mem, s.chain, 0);
  }

  lemma InitInv(s: State)
    requires Init(s)
    ensures Inv(s)
  {
    hide Holds, Lens, Looked;
    ChainedFacts(s.mem, s.chain);
    assert s.chain[0].hi <= End(s.chain);
    assert LinkAt(s.mem, s.chain, 0);
    FindIs(s.chain, 0, 0);
    InitLooked(s);
  }

  lemma InitLooked(s: State)
    requires Init(s)
    ensures Looked(s)
  {
    hide Holds, Lens, Find;
    ChainedFacts(s.mem, s.chain);
    forall i | 0 <= i < |s.chain|
      ensures FlagAt(s.mem, s.chain, 0, 0, true, i)
    {
      assert !Flagged(s, s.chain[i].ptr);
    }
  }

  /** Every step of either side keeps the invariant. */
  lemma NextKeeps(s: State, e: Event, s': State)
    requires Inv(s) && Next(s, e, s')
    ensures Inv(s')
  {
    hide Inv, Load, NoGrow, GrowFails, Place, Attach, SetEnd, Probe, Track, Seek, WriteByte, FinishAhead, FinishTail,
         Clear, ClearEnd, PublishTail, LoadTail, FindHead, ReadByte, ReadDone, WalkOn, Cut, Swing, Collect, PublishHead;
    match e
    case ELoad(offset, src) => LoadKeeps(s, s', offset, src);
    case ENoGrow => NoGrowKeeps(s, s');
    case EGrowFails => GrowFailsKeeps(s, s');
    case EPlace(d) => PlaceKeeps(s, s', d);
    case ELink => LinkKeeps(s, s');
    case ESetEnd => SetEndKeeps(s, s');
    case EProbe => ProbeKeeps(s, s');
    case ETrack => TrackKeeps(s, s');
    case ESeek => SeekKeeps(s, s');
    case EWriteByte => WriteByteKeeps(s, s');
    case EFinishAhead => FinishAheadKeeps(s, s');
    case EFinishTail(u) => FinishTailKeeps(s, s', u);
    case EClear => ClearKeeps(s, s');
    case EClearEnd => ClearEndKeeps(s, s');
    case EPublishTail => PublishTailKeeps(s, s');
    case ELoadTail(len) => LoadTailKeeps(s, s', len);
    case EFindHead => FindHeadKeeps(s, s');
    case EReadByte => ReadByteKeeps(s, s');
    case EReadDone => ReadDoneKeeps(s, s');
    case EWalkOn => WalkOnKeeps(s, s');
    case ECut => CutStepKeeps(s, s');
    case ESwing => SwingKeeps(s, s');
    case ECollect => CollectKeeps(s, s');
    case EPublishHead => PublishHeadKeeps(s, s');
  }

  ghost predicate Execution(es: seq<Event>, ss: seq<State>) {
    && |ss| == |es| + 1 && Init(ss[0])
    && (forall i :: 0 <= i < |es| ==> Next(ss[i], es[i], ss[i + 1]))
  }

  lemma {:induction false} ExecutionInv(es: seq<Event>, ss: seq<State>, i: nat)
    requires Execution(es, ss) && i <= |es|
    ensures Inv(ss[i])
    decreases i
  {
    hide Inv, Next, Init;
    if i == 0 {
      InitInv(ss[0]);
    } else {
      ExecutionInv(es, ss, i - 1);
      assert Next(ss[i - 1], es[i - 1], ss[i - 1 + 1]);
      NextKeeps(ss[i - 1], es[i - 1], ss[i]);
    }
  }

  /** No byte at or past the published tail is read, and none in front of it is overwritten. */
  lemma CopiesApart(es: seq<Event>, ss: seq<State>, i: nat)
    requires Execution(es, ss) && i < |es|
    ensures es[i].EReadByte? ==> ss[i].cons.CCopy? && ss[i].q.h <= ss[i].q.h + |ss[i].cons.buf| < ss[i].q.t
    ensures es[i].EWriteByte? ==>
              ss[i].prod.PCopy? && ss[i].q.t <= ss[i].prod.at + ss[i].prod.i < ss[i].q.h + ss[i].size
  {
    hide Listing, Owners, Remembered, Faithful, Init;
    ExecutionInv(es, ss, i);
    assert Next(ss[i], es[i], ss[i + 1]);
  }

  ghost function TreeChunks(t: ChunkTree.Tree): set<Sptr> {
    set i | 0 <= i < |ChunkTree.InOrder(t)| :: ChunkTree.InOrder(t)[i].chunk
  }

  /**
   The chunks the producer can still dereference before it looks one up again: the last chunk, the tail chunk,
   the cached chunk, every chunk in its tree, and the one it is at.
   */
  ghost function ProducerRefs(s: State): set<Sptr> {
    (if s.prod.PLinked? || s.tailChunk == 0 then {} else {s.tailChunk}) +
    (if s.enq.cache == 0 then {} else {s.enq.cache}) + TreeChunks(s.enq.tree) +
    match s.prod
    case PLinked(_, _, _, last) => {last}
    case PTrack(_, _, c, _) => {s.end, c}
    case PSeek(_, _, c, _) => {s.end, c}
    case PCopy(_, src, i, c) => {s.end} + if i < |src| then {c} else {}
    case PClear(_, _, _, c, _) => {s.end} + if c == 0 then {} else {c}
    case PTail(_, _, _, c) => {s.end} + if c == 0 then {} else {c}
    case _ => {s.end}
  }

  lemma HolderIn(s: State, p: nat)
    requires Inv(s) && s.chain != [] && s.chain[0].lo <= p <= End(s.chain)
    ensures Holder(s.chain, p) == 0 || Holder(s.chain, p) in Ptrs(s.chain)
    ensures Holder(s.chain, p) == 0 <==> p == End(s.chain)
  {
    hide Wrap, Minus, Reads, Put, Find;
    InPtrs(s.chain);
    if p < End(s.chain) {
      HolderOf(s, p);
    } else {
      Facts(s);
      FindEnd(s.chain);
    }
  }

  /** The cached chunk and the tracked chunks are linked, at or behind the tail chunk. */
  lemma LookupLinked(s: State)
    requires Inv(s)
    ensures s.enq.cache == 0 || s.enq.cache in Ptrs(s.chain)
    ensures forall x :: x in TreeChunks(s.enq.tree) ==> x in Ptrs(s.chain)
  {
    hide Listing, Faithful, ConsOk, Words, Owners, ProdOk, Remembered, Holder, Contiguous, Put, Find, FlagAt, Beyond,
         Low, Tail;
    InPtrs(s.chain);
    var t, run := s.enq.tree, s.chain[s.enq.from..s.enq.to];
    forall x | x in TreeChunks(t)
      ensures x in Ptrs(s.chain)
    {
      var i :| 0 <= i < |ChunkTree.InOrder(t)| && ChunkTree.InOrder(t)[i].chunk == x;
      assert run[i] == s.chain[s.enq.from + i];
    }
  }

  lemma RefsLinked(s: State)
    requires Inv(s)
    ensures forall x :: x in ProducerRefs(s) ==> x in Ptrs(s.chain)
  {
    hide Listing, Faithful, ConsOk, Words, Ptrs, Holder, Contiguous, Put, Looked, TreeChunks, Owners, Find;
    Facts(s);
    InPtrs(s.chain);
    HolderIn(s, s.q.t);
    LookupLinked(s);
    match s.prod
    case PTrack(at, src, c, p) => HolderIn(s, p);
    case PSeek(at, src, c, p) => HolderIn(s, p);
    case PCopy(at, src, i, c) => HolderIn(s, at + i);
    case PClear(at, src, u, c, p) => HolderIn(s, p);
    case PTail(at, src, u, c) => HolderIn(s, u);
    case _ =>
  }

  /** The chunks the consumer dereferences next. */
  ghost function ConsumerRefs(s: State): set<Sptr> {
    match s.cons
    case CIdle => {s.start}
    case CFind(_, c, _) => {c}
    case CCopy(n, buf, c) => {s.start} + if |buf| < n then {c} else {}
    case CWalk(_, _, _, _, c, _) => {c}
    case CCut(_, _, _, prev, c, _) => {prev, c}
    case CSwing(_, _, _, c, _) => {c}
    case CCollect(_, _, _, _) => {s.start}
    case CPublish(_, _, _) => {s.start}
  }

  lemma ConsumerLinked(s: State)
    requires Inv(s)
    ensures forall x :: x in ConsumerRefs(s) ==> x in Ptrs(s.chain)
  {
    hide Listing, Faithful, ProdOk, Words, Ptrs, Holder, Contiguous, Put;
    Facts(s);
    InPtrs(s.chain);
    if s.cons.CCopy? && |s.cons.buf| < s.cons.n {
      HolderIn(s, s.q.h + |s.cons.buf|);
    }
  }

  /** No chunk that either side can dereference is ever collected, nor, for the producer, on its way to be. */
  lemma NoDangling(es: seq<Event>, ss: seq<State>, i: nat)
    requires Execution(es, ss) && i <= |es|
    ensures var s := ss[i];
            && ProducerRefs(s) <= s.mem.Keys && ProducerRefs(s) !! s.free && ProducerRefs(s) !! Dropped(s.cons)
            && ConsumerRefs(s) <= s.mem.Keys && ConsumerRefs(s) !! s.free && ConsumerRefs(s) !! Fresh(s.prod)
  {
    hide Faithful, ConsOk, Words, ProdOk, Remembered, Looked, ProducerRefs, ConsumerRefs, Next, Init, Ptrs, Holds,
         Spots, Lens, Chained;
    ExecutionInv(es, ss, i);
    RefsLinked(ss[i]);
    ConsumerLinked(ss[i]);
    PtrsIn(ss[i].mem, ss[i].chain);
  }

  // ---- Refinement: every execution is a run of the byte stream ----

  /** The step completes a store. */
  ghost predicate Completes(s: State, e: Event) {
    (e.EFinishAhead? && s.prod.PCopy?) || (e.EPublishTail? && s.prod.PTail?)
  }

  /** What a step does to the byte stream: the store it completes or the bytes it hands over. */
  ghost function OpsOf(s: State, e: Event): seq<Op> {
    if Completes(s, e) then [Write(s.prod.at, s.prod.src)]
    else if e.EPublishHead? && s.cons.CPublish? then [Take(s.cons.buf)]
    else []
  }

  /** The stream operations of the first i steps. */
  ghost function Ops(es: seq<Event>, ss: seq<State>, i: nat): seq<Op>
    requires |ss| == |es| + 1 && i <= |es|
  {
    if i == 0 then [] else Ops(es, ss, i - 1) + OpsOf(ss[i - 1], es[i - 1])
  }

  ghost function Queues(es: seq<Event>, ss: seq<State>, i: nat): seq<Queue>
    requires |ss| == |es| + 1 && i <= |es|
  {
    if i == 0 then [ss[0].q] else Queues(es, ss, i - 1) + if OpsOf(ss[i - 1], es[i - 1]) == [] then [] else [ss[i].q]
  }

  /** A step that completes nothing leaves the stream and what was delivered. */
  lemma StepSilent(s: State, e: Event, s': State)
    requires Inv(s) && Next(s, e, s') && OpsOf(s, e) == []
    ensures s'.q == s.q && s'.out == s.out
  {
    hide Inv, Put, Holder, Find, IncludesPos, Wrap, Plus, Minus, PosGt, PosGeq, Overwrite, ChunkEnd, Bytes, Spot,
         ChunkTree.Floor, Flagged, KnownPast, Chained, Shifted;
  }

  lemma StepRefines(s: State, e: Event, s': State)
    requires Inv(s) && Next(s, e, s')
    ensures OpsOf(s, e) == [] ==> s'.q == s.q && s'.out == s.out
    ensures OpsOf(s, e) != [] ==>
              var op := OpsOf(s, e)[0];
              OpsOf(s, e) == [op] && ByteQueue.Step(s.q, op, s'.q) && s'.out == s.out + if op.Take? then op.out else []
  {
    hide Listing, Owners, Remembered, Faithful, Looked, Put, Reads, Holder, Find, Stored, Wrap, Plus, Load, NoGrow,
         GrowFails, Place, Attach, SetEnd, Probe, Track, Seek, WriteByte, FinishTail, Clear, ClearEnd, LoadTail,
         FindHead, ReadByte, ReadDone, WalkOn, Cut, Swing, Collect;
    if OpsOf(s, e) == [] {
      StepSilent(s, e, s');
    }
  }

  /**
   Whatever the interleaving, exactly its completed stores and hand-overs form a sequential run of the byte stream.
   */
  lemma {:induction false} ExecutionRefines(es: seq<Event>, ss: seq<State>, i: nat)
    requires Execution(es, ss) && i <= |es|
    ensures var ops, qs := Ops(es, ss, i), Queues(es, ss, i);
            Behaviour(ops, qs) && qs[|ops|] == ss[i].q && Delivered(ops) == ss[i].out
    decreases i
  {
    hide Inv, Next, ByteQueue.Step, Chained, Holds, Lens, Ptrs, OpsOf;
    if i > 0 {
      ExecutionRefines(es, ss, i - 1);
      ExecutionInv(es, ss, i - 1);
      assert Next(ss[i - 1], es[i - 1], ss[i - 1 + 1]);
      StepRefines(ss[i - 1], es[i - 1], ss[i]);
      if OpsOf(ss[i - 1], es[i - 1]) == [] {
        assert Ops(es, ss, i) == Ops(es, ss, i - 1) && Queues(es, ss, i) == Queues(es, ss, i - 1);
      } else {
        BehaviourMore(Ops(es, ss, i - 1), Queues(es, ss, i - 1), OpsOf(ss[i - 1], es[i - 1])[0], ss[i].q);
      }
    }
  }

  /**
   What the consumer has delivered is the stream up to the head: each byte the one most recently written for its
   position. Everything below the tail has been written.
   */
  lemma DeliveredPrefix(es: seq<Event>, ss: seq<State>, i: nat)
    requires Execution(es, ss) && i <= |es|
    ensures var s := ss[i];
            && |s.out| == s.q.h <= s.q.t
            && (forall p :: 0 <= p < |s.out| ==> LastWrite(Ops(es, ss, i), p) == Byte(s.out[p]))
            && (forall p: nat :: p < s.q.t ==> LastWrite(Ops(es, ss, i), p).Byte?)
  {
    hide Next, Init, Ops, Queues, ByteQueue.Step, LastWrite;
    ExecutionRefines(es, ss, i);
    DeliveredStream(Ops(es, ss, i), Queues(es, ss, i));
    LastWriteWins(Ops(es, ss, i), Queues(es, ss, i));
  }

  // ---- Where the written bytes come from ----

  ghost function Room(s: State): int {
    s.size - (s.q.t - s.q.h)
  }

  /** Steps j + 1 to k - 1 belong to the request of step j. */
  ghost predicate LastLoad(es: seq<Event>, j: nat, k: nat) {
    j < k <= |es| && es[j].ELoad? && forall l :: j < l < k ==> !es[l].ELoad?
  }

  /** Growth failed at step m, and what was left of the list is what is written. */
  ghost predicate CutAt(es: seq<Event>, ss: seq<State>, m: nat, n: nat) {
    m < |es| < |ss| && es[m].EGrowFails? && ss[m].chain != [] && n == End(ss[m].chain) - ss[m].q.t
  }

  /**
   The write in progress at step k is the request of step j: at the tail of that moment plus the offset; ahead of
   the tail all the bytes of the request; at the tail as many as the window had room for, unless growth failed.
   */
  ghost predicate Requested(es: seq<Event>, ss: seq<State>, k: nat, j: nat) {
    && |ss| == |es| + 1 && LastLoad(es, j, k) && !ss[k].prod.PIdle?
    && var at, src, e := ss[k].prod.at, ss[k].prod.src, es[j];
       && at == ss[j].q.t + e.offset && src <= e.src && ss[k].q.t == ss[j].q.t
       && (e.offset > 0 ==> src == e.src)
       && (e.offset == 0 ==> |src| == Min(|e.src|, Room(ss[j])) || exists m :: j < m < k && CutAt(es, ss, m, |src|))
  }

  lemma StepGoesOn(s: State, e: Event, s': State)
    requires Next(s, e, s') && !s'.prod.PIdle? && !e.ELoad? && !e.EGrowFails?
    ensures !s.prod.PIdle? && s'.prod.at == s.prod.at && s'.prod.src == s.prod.src && s'.q.t == s.q.t
  {
    hide Put, Holder, Find, IncludesPos, Wrap, Plus, Minus, PosGt, PosGeq, Overwrite, ChunkEnd, Bytes, Spot,
         ChunkTree.Floor, Flagged, KnownPast, Chained, Shifted;
  }

  /** What a step does to the write in progress. */
  lemma StepRequest(s: State, e: Event, s': State)
    requires Inv(s) && Next(s, e, s') && !s'.prod.PIdle?
    ensures s'.q.t == s.q.t
    ensures e.ELoad? ==>
              s'.prod.at == s.q.t + e.offset && s'.prod.src <= e.src && (e.offset > 0 ==> s'.prod.src == e.src)
                         && (e.offset == 0 ==> |s'.prod.src| == Min(|e.src|, Room(s)))
    ensures !e.ELoad? ==> !s.prod.PIdle? && s'.prod.at == s.prod.at && s'.prod.src <= s.prod.src
    ensures !e.ELoad? && !e.EGrowFails? ==> s'.prod.src == s.prod.src
    ensures e.EGrowFails? ==> s.prod.at == s.q.t && s.chain != [] && |s'.prod.src| == End(s.chain) - s.q.t
  {
    hide Listing, Owners, Remembered, Faithful, Looked, ConsOk, Words, Wrap, Minus, PosGt, ChunkEnd, NoGrow, Place,
         Attach, SetEnd, Probe, Track, Seek, WriteByte, FinishAhead, FinishTail, Clear, ClearEnd, PublishTail, LoadTail,
         FindHead, ReadByte, ReadDone, WalkOn, Cut, Swing, Collect, PublishHead;
    Facts(s);
    if e.EGrowFails? {
      EndOf(s, s.q.t);
    } else if !e.ELoad? {
      StepGoesOn(s, e, s');
    }
  }

  /** Every write in progress is a request made earlier, with no other request in between. */
  lemma {:induction false} Origin(es: seq<Event>, ss: seq<State>, k: nat) returns (j: nat)
    requires Execution(es, ss) && k <= |es| && !ss[k].prod.PIdle?
    ensures Requested(es, ss, k, j)
    decreases k
  {
    hide Inv, Next, Chained, Holds, Lens, Ptrs;
    var e, s := es[k - 1], ss[k - 1];
    assert Next(s, e, ss[k - 1 + 1]);
    ExecutionInv(es, ss, k - 1);
    StepRequest(s, e, ss[k]);
    if e.ELoad? {
      j := k - 1;
    } else {
      j := Origin(es, ss, k - 1);
      if e.EGrowFails? {
        assert CutAt(es, ss, k - 1, |ss[k].prod.src|);
      }
    }
  }

  ghost predicate Covering(es: seq<Event>, ss: seq<State>, k: int, p: nat) {
    0 <= k < |es| < |ss| && Completes(ss[k], es[k]) && ss[k].prod.at <= p < ss[k].prod.at + |ss[k].prod.src|
  }

  lemma OpsOfWrite(es: seq<Event>, ss: seq<State>, k: nat, p: nat)
    requires k < |es| < |ss|
    ensures var more := OpsOf(ss[k], es[k]);
            && |more| <= 1
            && (Covering(es, ss, k, p) <==> more != [] && more[0].Write? && more[0].at <= p < more[0].at + |more[0].x|)
            && (Covering(es, ss, k, p) ==> more[0] == Write(ss[k].prod.at, ss[k].prod.src))
  {
  }

  lemma NothingWritten(es: seq<Event>, ss: seq<State>, p: nat)
    requires |ss| == |es| + 1
    ensures LastWrite(Ops(es, ss, 0), p) == Never
  {
  }

  /** The step that wrote a position last. */
  lemma {:induction false} LastWriter(es: seq<Event>, ss: seq<State>, i: nat, p: nat) returns (k: nat)
    requires |ss| == |es| + 1 && i <= |es| && LastWrite(Ops(es, ss, i), p).Byte?
    ensures k < i && Covering(es, ss, k, p) && (forall l :: k < l < i ==> !Covering(es, ss, l, p))
    ensures LastWrite(Ops(es, ss, i), p) == Byte(ss[k].prod.src[p - ss[k].prod.at])
    decreases i
  {
    hide LastWrite, Completes, Covering, OpsOf;
    NothingWritten(es, ss, p);
    OpsOfWrite(es, ss, i - 1, p);
    LastWriteMore(Ops(es, ss, i - 1), OpsOf(ss[i - 1], es[i - 1]), p);
    if Covering(es, ss, i - 1, p) {
      k := i - 1;
    } else {
      k := LastWriter(es, ss, i - 1, p);
    }
  }

  /** Every delivered byte is one the producer was asked to write at that position, by the last write that covers it. */
  lemma DeliveredRequested(es: seq<Event>, ss: seq<State>, i: nat, p: nat) returns (k: nat, j: nat)
    requires Execution(es, ss) && i <= |es| && p < |ss[i].out|
    ensures k < i && Covering(es, ss, k, p) && (forall l :: k < l < i ==> !Covering(es, ss, l, p))
    ensures Requested(es, ss, k, j) && ss[j].q.t + es[j].offset <= p < ss[j].q.t + es[j].offset + |es[j].src|
    ensures ss[i].out[p] == es[j].src[p - ss[j].q.t - es[j].offset]
  {
    hide Next, Init, Ops, LastWrite;
    DeliveredPrefix(es, ss, i);
    k := LastWriter(es, ss, i, p);
    j := Origin(es, ss, k);
  }

  // ---- Progress: neither side ever misses what it needs ----

  ghost predicate ProducerEvent(e: Event) {
    || e.ENoGrow? || e.EGrowFails? || e.ELink? || e.ESetEnd? || e.EProbe? || e.ETrack? || e.ESeek?
    || e.EWriteByte? || e.EFinishAhead? || e.EFinishTail? || e.EClear? || e.EClearEnd? || e.EPublishTail?
  }

  /**
   A producer in the middle of an enqueue can always take its next step: every chunk it follows or writes is there.
   */
  lemma ProducerAdvances(s: State) returns (e: Event, s': State)
    requires Inv(s) && !s.prod.PIdle?
    ensures ProducerEvent(e) && Next(s, e, s')
  {
    hide Listing, Owners, Faithful, ConsOk, Words, Remembered, Looked, Put, Wrap, Minus, Plus, Find, Holder,
         IncludesPos, PosGt, ChunkEnd, Overwrite, Bytes;
    match s.prod
    case PLoaded(at, src) => e, s' := LoadedAdvances(s);
    case PPlaced(at, src, d) => e, s' := PlacedAdvances(s);
    case PLinked(at, src, first, last) =>
      var r := s.(end := last, tailChunk := if s.tailChunk == 0 then first else s.tailChunk);
      e, s' := ESetEnd, r.(prod := Begin(r, src));
    case PProbe(at, src) => e, s' := ProbeAdvances(s);
    case PTrack(at, src, c, p) => e, s' := TrackAdvances(s);
    case PSeek(at, src, c, p) => e, s' := SeekAdvances(s);
    case PCopy(at, src, i, c) => e, s' := CopyAdvances(s);
    case PClear(at, src, u, c, p) => e, s' := ClearAdvances(s);
    case PTail(at, src, u, c) =>
      var r :| Put(s.q, r, at, src) && r.t == u;
      e, s' := EPublishTail, s.(tail := Wrap(u), tailChunk := c, prod := PIdle, q := r);
  }

  lemma LoadedAdvances(s: State) returns (e: Event, s': State)
    requires Inv(s) && s.prod.PLoaded?
    ensures ProducerEvent(e) && Next(s, e, s')
  {
    hide Listing, Owners, Faithful, ConsOk, Words, Holder, Minus, PosGt, Wrap, ChunkEnd, Contiguous;
    EndOf(s, s.prod.at + |s.prod.src|);
    if PosGt(Wrap(s.prod.at + |s.prod.src|), ChunkEnd(s.mem[s.end])) {
      var left := Minus(ChunkEnd(s.mem[s.end]), s.tail);
      e := EGrowFails;
      s' := if s.prod.at == s.q.t && 0 < left <= |s.prod.src| then s.(prod := Begin(s, s.prod.src[..left]))
            else s.(prod := PIdle);
    } else {
      e, s' := ENoGrow, s.(prod := Begin(s, s.prod.src));
    }
  }

  lemma PlacedAdvances(s: State) returns (e: Event, s': State)
    requires Inv(s) && s.prod.PPlaced?
    ensures ProducerEvent(e) && Next(s, e, s')
  {
    hide Listing, Owners, Faithful, ConsOk, Words, Holder, Minus, PosGt, Wrap, ChunkEnd, Contiguous, Bytes;
    Facts(s);
    var d := s.prod.d;
    ChainedFacts(s.mem, d);
    var mem := s.mem[s.end := s.mem[s.end].(next := d[0].ptr)];
    e := ELink;
    s' := s.(mem := mem, chain := s.chain + d, cells := s.cells + Bytes(mem, d),
             prod := PLinked(s.prod.at, s.prod.src, d[0].ptr, d[|d| - 1].ptr));
  }

  lemma SeekAdvances(s: State) returns (e: Event, s': State)
    requires Inv(s) && s.prod.PSeek?
    ensures ProducerEvent(e) && Next(s, e, s')
  {
    hide Listing, Owners, Faithful, ConsOk, Words, Find, IncludesPos, Wrap, Contiguous, After;
    Facts(s);
    HolderOf(s, s.prod.p);
    e := ESeek;
    s' := if IncludesPos(s.mem[s.prod.c], Wrap(s.prod.at)) then
            s.(enq := s.enq.(cache := s.prod.c), prod := PCopy(s.prod.at, s.prod.src, 0, s.prod.c))
          else s.(prod := PSeek(s.prod.at, s.prod.src, s.mem[s.prod.c].next, After(s.chain, s.prod.p)));
  }

  lemma CopyAdvances(s: State) returns (e: Event, s': State)
    requires Inv(s) && s.prod.PCopy?
    ensures ProducerEvent(e) && Next(s, e, s')
  {
    hide Listing, Owners, Faithful, ConsOk, Words, Find, Holder, Wrap, Minus, Contiguous, Overwrite, Put;
    Facts(s);
    var at, src, i, c := s.prod.at, s.prod.src, s.prod.i, s.prod.c;
    if i < |src| {
      HolderOf(s, at + i);
      var off: nat := Minus(Wrap(at + i), s.mem[c].start);
      e := EWriteByte;
      s' := s.(mem := s.mem[c := s.mem[c].(data := Overwrite(s.mem[c].data, off, [src[i]]))],
               cells := Overwrite(s.cells, at + i, [src[i]]),
               prod := PCopy(at, src, i + 1, if off + 1 == s.mem[c].length then s.mem[c].next else c));
    } else {
      var r := PutExists(s.q, at, src);
      if at == s.q.t {
        e := EFinishTail(r.t);
        s' := s.(prod := if KnownPast(s.q, s.q.t) then PClear(at, src, r.t, s.tailChunk, s.q.t)
                         else PTail(at, src, r.t, c));
      } else {
        e, s' := EFinishAhead, s.(enq := s.enq.(cache := c), prod := PIdle, q := r);
      }
    }
  }

  lemma ProbeAdvances(s: State) returns (e: Event, s': State)
    requires Inv(s) && s.prod.PProbe?
    ensures ProducerEvent(e) && Next(s, e, s')
  {
    hide Listing, Owners, Faithful, ConsOk, Words, Find, Wrap, Contiguous, IncludesPos, Put, Looked, Spot,
         ChunkTree.Floor, Tracking;
    Facts(s);
    var at, src := s.prod.at, s.prod.src;
    e := EProbe;
    if s.enq.cache != 0 {
      CacheHit(s, at);
    }
    if s.enq.cache != 0 && IncludesPos(s.mem[s.enq.cache], Wrap(at)) {
      s' := s.(prod := PCopy(at, src, 0, s.enq.cache));
    } else if !s.enq.init {
      s' := s.(prod := PSeek(at, src, s.tailChunk, s.q.t));
    } else if s.enq.tree.Leaf? {
      HolderOf(s, s.q.t);
      var i := Find(s.chain, s.q.t);
      s' := Tracking(s, s.tailChunk, i, i + 1).(prod := PTrack(at, src, s.tailChunk, s.q.t));
    } else {
      var i := FloorFound(s, at);
      var n := ChunkTree.Floor(s.enq.tree, Wrap(at), ChunkTree.Leaf);
      s' := s.(prod := PTrack(at, src, n.chunk, Spot(s.chain, n.chunk, s.q.t)));
    }
  }

  lemma TrackAdvances(s: State) returns (e: Event, s': State)
    requires Inv(s) && s.prod.PTrack?
    ensures ProducerEvent(e) && Next(s, e, s')
  {
    hide Listing, Owners, Faithful, ConsOk, Words, Find, Wrap, Contiguous, IncludesPos, Put, Looked, After, Tracking,
         Flagged;
    Facts(s);
    TrackSpot(s);
    var at, src, next, r := s.prod.at, s.prod.src, s.mem[s.prod.c].next, Noted(s);
    e := ETrack;
    s' := if IncludesPos(s.mem[s.prod.c], Wrap(at + |src|)) || next == 0 || Flagged(s, next) then
            r.(prod := PCopy(at, src, 0, r.enq.cache))
          else Tracking(r, next, r.enq.from, r.enq.to + 1).(prod := PTrack(at, src, next, After(s.chain, s.prod.p)));
  }

  lemma ClearAdvances(s: State) returns (e: Event, s': State)
    requires Inv(s) && s.prod.PClear?
    ensures ProducerEvent(e) && Next(s, e, s')
  {
    hide Listing, Owners, Faithful, ConsOk, Words, Find, Wrap, Contiguous, IncludesPos, Put, Looked, After, Flagged,
         Untracking, KnownPast;
    Facts(s);
    ClearSpot(s);
    var at, src, u, c := s.prod.at, s.prod.src, s.prod.u, s.prod.c;
    if c != 0 && !IncludesPos(s.mem[c], Wrap(u)) {
      var r := if Flagged(s, c) then Untracking(s, c) else s;
      e, s' := EClear, r.(prod := PClear(at, src, u, s.mem[c].next, After(s.chain, s.prod.p)));
    } else {
      var r := if !KnownPast(s.q, u) && c != 0 && Flagged(s, c) then Untracking(s, c) else s;
      e, s' := EClearEnd, r.(enq := r.enq.(cache := 0), prod := PTail(at, src, u, c));
    }
  }

  ghost predicate ConsumerEvent(e: Event) {
    || e.EFindHead? || e.EReadByte? || e.EReadDone? || e.EWalkOn?
    || e.ECut? || e.ESwing? || e.ECollect? || e.EPublishHead?
  }

  /** A consumer in the middle of a dequeue can always take its next step. */
  lemma ConsumerAdvances(s: State) returns (e: Event, s': State)
    requires Inv(s) && !s.cons.CIdle?
    ensures ConsumerEvent(e) && Next(s, e, s')
  {
    hide Listing, Owners, Faithful, ProdOk, Words, Find, Holder, Wrap, Minus, Plus, Contiguous, IncludesPos, PosGeq,
         ChunkEnd, Reads, Put, Looked, Ptrs, Shifted;
    Facts(s);
    match s.cons
    case CFind(n, c, k) =>
      e := EFindHead;
      s' := if IncludesPos(s.mem[c], s.head) then s.(headChunk := c, cons := CCopy(n, [], c))
            else s.(cons := CFind(n, s.mem[c].next, k + 1));
    case CCopy(n, buf, c) => e, s' := ReadAdvances(s);
    case CWalk(n, buf, hc, prev, c, k) => e, s' := WalkAdvances(s);
    case CCut(n, buf, hc, prev, c, k) => e, s' := CutAdvances(s);
    case CSwing(n, buf, hc, c, drop) =>
      e, s' := ESwing, s.(start := c, cons := CCollect(n, buf, hc, drop));
    case CCollect(n, buf, hc, drop) =>
      e, s' := ECollect, s.(free := s.free + Ptrs(drop), cons := CPublish(n, buf, hc));
    case CPublish(n, buf, hc) =>
      e := EPublishHead;
      s' := s.(head := Plus(s.head, Wrap(n)), headChunk := hc, q := s.q.(h := s.q.h + n), out := s.out + buf,
               cons := CIdle);
  }

  lemma CutAdvances(s: State) returns (e: Event, s': State)
    requires Inv(s) && s.cons.CCut?
    ensures ConsumerEvent(e) && Next(s, e, s')
  {
    hide Listing, Owners, Faithful, ProdOk, Words, Find, Holder, Wrap, Minus, Plus, Contiguous;
    Facts(s);
    var n, buf, hc, prev, c, k := s.cons.n, s.cons.buf, s.cons.hc, s.cons.prev, s.cons.c, s.cons.k;
    e := ECut;
    s' := s.(mem := s.mem[prev := s.mem[prev].(next := 0)], chain := s.chain[k..], pos := s.q.h + n,
             enq := Shifted(s.enq, k), cons := CSwing(n, buf, hc, c, s.chain[..k]));
  }

  lemma ReadAdvances(s: State) returns (e: Event, s': State)
    requires Inv(s) && s.cons.CCopy?
    ensures ConsumerEvent(e) && Next(s, e, s')
  {
    hide Listing, Owners, Faithful, ProdOk, Find, Holder, Wrap, Minus, Plus, Contiguous, IncludesPos, PosGeq, ChunkEnd,
         Reads, Put;
    Facts(s);
    var n, buf, c := s.cons.n, s.cons.buf, s.cons.c;
    if |buf| < n {
      HolderOf(s, s.q.h + |buf|);
      WrapSmall(|buf|);
      WrapPlus(s.q.h, |buf|);
      var off: nat := Minus(Plus(s.head, Wrap(|buf|)), s.mem[c].start);
      e := EReadByte;
      s' := s.(cons := CCopy(n, buf + [s.mem[c].data[off]], if off + 1 == s.mem[c].length then s.mem[c].next else c));
    } else {
      e := EReadDone;
      s' := if PosGeq(Plus(s.head, Wrap(n)), ChunkEnd(s.mem[s.start])) then s.(cons := CWalk(n, buf, c, 0, s.start, 0))
            else s.(pos := s.q.h + n, cons := CPublish(n, buf, c));
    }
  }

  lemma WalkAdvances(s: State) returns (e: Event, s': State)
    requires Inv(s) && s.cons.CWalk?
    ensures ConsumerEvent(e) && Next(s, e, s')
  {
    hide Listing, Owners, Faithful, ProdOk, Words, Find, Holder, Wrap, Minus, Plus, Contiguous, IncludesPos, Reads, Put;
    Facts(s);
    var n, buf, hc, prev, c, k := s.cons.n, s.cons.buf, s.cons.hc, s.cons.prev, s.cons.c, s.cons.k;
    Compared(s, k, s.q.h + n);
    var next := s.mem[c].next;
    e := EWalkOn;
    s' := if next == 0 then
            if prev == 0 then s.(pos := s.q.h + n, cons := CPublish(n, buf, hc))
            else s.(cons := CCut(n, buf, hc, prev, c, k))
          else if IncludesPos(s.mem[next], Plus(s.head, Wrap(n))) then s.(cons := CCut(n, buf, hc, c, next, k + 1))
          else s.(cons := CWalk(n, buf, hc, c, next, k + 1));
  }
}
