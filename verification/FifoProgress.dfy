/**
 What becomes of the requests of producer and consumer in every interleaving: when an operation can start,
 how many bytes a dequeue delivers, that every enqueue is written unless its growth failed with no room left,
 and that either side ends its operation after a bounded number of its own steps.
 */
module FifoProgress {
  import opened Positions
  import opened Chunks
  import opened FifoLayout
  import opened FifoLookup
  import opened ByteQueue
  import opened FifoMachine
  import opened FifoConcurrent
  import ChunkTree

  // ---- When an operation can start ----

  /** An enqueue starts exactly when the window has room: for some of the bytes at the tail, for all ahead of it. */
  lemma EnqueueStartsIff(s: State, offset: nat, src: seq<byte>)
    requires Inv(s)
    ensures (exists s' :: Next(s, ELoad(offset, src), s'))
            <==> && s.prod.PIdle? && src != []
                 && if offset == 0 then Room(s) > 0 else offset + |src| <= Room(s)
  {
    hide Inv, Minus;
    Facts(s);
    if s.prod.PIdle? && src != [] {
      if offset == 0 && Room(s) > 0 {
        assert Next(s, ELoad(offset, src), s.(prod := PLoaded(s.q.t, src[..Min(Room(s), |src|)])));
      } else if 0 < offset && offset + |src| <= Room(s) {
        assert Next(s, ELoad(offset, src), s.(prod := PLoaded(s.q.t + offset, src)));
      }
    }
  }

  /** A dequeue starts exactly when there are bytes below the published tail. */
  lemma DequeueStartsIff(s: State, len: nat)
    requires Inv(s)
    ensures (exists s' :: Next(s, ELoadTail(len), s')) <==> s.cons.CIdle? && s.q.h < s.q.t
  {
    hide Inv, Minus;
    Facts(s);
    if s.cons.CIdle? && s.q.h < s.q.t {
      var n := Min(s.q.t - s.q.h, len);
      assert Next(s, ELoadTail(len), s.(cons := if s.headChunk == 0 then CFind(n, s.start, 0)
                                                else CCopy(n, [], s.headChunk)));
    }
  }

  // ---- What a dequeue delivers ----

  /** Steps j + 1 to k - 1 belong to the dequeue of step j. */
  ghost predicate LastLoadTail(es: seq<Event>, j: nat, k: nat) {
    j < k <= |es| && es[j].ELoadTail? && forall l :: j < l < k ==> !es[l].ELoadTail?
  }

  /** The dequeue in progress at step k is the one of step j, for as many bytes as there were then, up to its length. */
  ghost predicate TakeRequested(es: seq<Event>, ss: seq<State>, k: nat, j: nat) {
    && |ss| == |es| + 1 && LastLoadTail(es, j, k) && !ss[k].cons.CIdle?
    && ss[k].cons.n == Min(ss[j].q.t - ss[j].q.h, es[j].len) && ss[k].q.h == ss[j].q.h
  }

  lemma TakingGoesOn(s: State, e: Event, s': State)
    requires Next(s, e, s') && ConsumerEvent(e) && !s'.cons.CIdle?
    ensures !s.cons.CIdle? && s'.cons.n == s.cons.n && s'.q.h == s.q.h
  {
    hide Load, NoGrow, GrowFails, Place, Attach, SetEnd, Probe, Track, Seek, WriteByte, FinishAhead, FinishTail, Clear,
         ClearEnd, PublishTail, Holder, Find, IncludesPos, Wrap, Plus, Minus, PosGt, PosGeq, Overwrite, ChunkEnd, Bytes,
         Spot, ChunkTree.Floor, Flagged, KnownPast, Chained, Shifted, Ptrs;
  }

  lemma StepTaking(s: State, e: Event, s': State)
    requires Inv(s) && Next(s, e, s') && !s'.cons.CIdle?
    ensures s'.q.h == s.q.h
    ensures e.ELoadTail? ==> s'.cons.n == Min(s.q.t - s.q.h, e.len)
    ensures !e.ELoadTail? ==> !s.cons.CIdle? && s'.cons.n == s.cons.n
  {
    hide Inv, ProducerStep, ConsumerEvent, Minus, Load, NoGrow, GrowFails, Place, Attach, SetEnd, Probe, Track, Seek,
         WriteByte, FinishAhead, FinishTail, Clear, ClearEnd, PublishTail, FindHead, ReadByte, ReadDone, WalkOn, Cut,
         Swing, Collect, PublishHead;
    Facts(s);
    StepKinds(e);
    StepSides(s, e, s');
    if ConsumerEvent(e) {
      TakingGoesOn(s, e, s');
    }
  }

  /** Every dequeue in progress was started earlier, with no other in between. */
  lemma {:induction false} TakeOrigin(es: seq<Event>, ss: seq<State>, k: nat) returns (j: nat)
    requires Execution(es, ss) && k <= |es| && !ss[k].cons.CIdle?
    ensures TakeRequested(es, ss, k, j)
    decreases k
  {
    hide Inv, Next, Chained, Holds, Lens, Ptrs;
    var e, s := es[k - 1], ss[k - 1];
    assert Next(s, e, ss[k - 1 + 1]);
    ExecutionInv(es, ss, k - 1);
    StepTaking(s, e, ss[k]);
    if e.ELoadTail? {
      j := k - 1;
    } else {
      j := TakeOrigin(es, ss, k - 1);
    }
  }

  /**
   A dequeue hands over all the bytes there were when it started, up to its length; they are appended to what was
   delivered before, and the head moves over exactly these.
   */
  lemma DequeueDelivers(es: seq<Event>, ss: seq<State>, k: nat) returns (j: nat)
    requires Execution(es, ss) && k < |es| && es[k].EPublishHead?
    ensures TakeRequested(es, ss, k, j) && ss[k].cons.CPublish?
    ensures |ss[k].cons.buf| == Min(ss[j].q.t - ss[j].q.h, es[j].len)
    ensures ss[k + 1].out == ss[k].out + ss[k].cons.buf && ss[k + 1].q.h == ss[j].q.h + |ss[k].cons.buf|
  {
    hide Listing, Owners, Words, Remembered, ProdOk, Faithful, Looked, Init, Reads, Holder, Plus, Wrap;
    assert Next(ss[k], es[k], ss[k + 1]);
    j := TakeOrigin(es, ss, k);
    ExecutionInv(es, ss, k);
  }

  // ---- What becomes of an enqueue ----

  /** Growth failed and nothing could be written: the write was ahead of the tail, or the tail the end of the list. */
  ghost predicate GaveUp(s: State, e: Event) {
    && e.EGrowFails? && s.prod.PLoaded? && s.chain != [] && End(s.chain) < s.prod.at + |s.prod.src|
    && (s.q.t < s.prod.at || End(s.chain) == s.q.t)
  }

  lemma GrowFailsEnds(s: State, s': State)
    requires Inv(s) && GrowFails(s, s') && s'.prod.PIdle?
    ensures GaveUp(s, EGrowFails)
  {
    hide Listing, Owners, Words, Remembered, ConsOk, Faithful, Looked, Wrap, Minus, PosGt, ChunkEnd;
    Facts(s);
    EndOf(s, s.prod.at + |s.prod.src|);
  }

  /** An enqueue ends by completing its write, or because growth failed with no room left. */
  lemma StepEnds(s: State, e: Event, s': State)
    requires Inv(s) && Next(s, e, s') && !s.prod.PIdle? && s'.prod.PIdle?
    ensures Completes(s, e) || GaveUp(s, e)
  {
    hide Inv, GaveUp, GrowFails, Put, Holder, Find, IncludesPos, Wrap, Plus, Minus, PosGt, PosGeq, Overwrite, ChunkEnd,
         Bytes, Spot, ChunkTree.Floor, Flagged, KnownPast, Chained, Shifted, Tracking, Untracking;
    if e.EGrowFails? {
      GrowFailsEnds(s, s');
    }
  }

  /** An idle producer stays idle until the next request. */
  lemma StepIdle(s: State, e: Event, s': State)
    requires Next(s, e, s')
    ensures s.prod.PIdle? && !e.ELoad? ==> s'.prod.PIdle?
    ensures e.ELoad? ==> s.prod.PIdle? && !s'.prod.PIdle?
  {
    hide Put, Holder, Find, IncludesPos, Wrap, Plus, Minus, PosGt, PosGeq, Overwrite, ChunkEnd, Bytes, Spot,
         ChunkTree.Floor, Flagged, KnownPast, Chained, Shifted, Tracking, Untracking;
  }

  /**
   Once the producer is idle again after a request, the request was written, by exactly one step, or it was given up
   because growth failed with no room left.
   */
  lemma {:induction false} EnqueueOutcome(es: seq<Event>, ss: seq<State>, j: nat, k: nat) returns (m: nat)
    requires Execution(es, ss) && j < k <= |es| && LastLoad(es, j, k) && ss[k].prod.PIdle?
    ensures j < m < k && Requested(es, ss, m, j) && (Completes(ss[m], es[m]) || GaveUp(ss[m], es[m]))
    ensures forall l :: j < l < k && l != m ==> !Completes(ss[l], es[l])
    decreases k
  {
    hide Inv, Next, Chained, Holds, Lens, Ptrs, Completes, GaveUp, Requested;
    assert Next(ss[k - 1], es[k - 1], ss[k - 1 + 1]);
    StepIdle(ss[k - 1], es[k - 1], ss[k]);
    ExecutionInv(es, ss, k - 1);
    assert k - 1 != j;
    if ss[k - 1].prod.PIdle? {
      m := EnqueueOutcome(es, ss, j, k - 1);
      IdleCompletes(ss[k - 1], es[k - 1]);
    } else {
      m := k - 1;
      StepEnds(ss[m], es[m], ss[k]);
      var i := Origin(es, ss, m);
      SameLoad(es, ss, i, j, m);
      BusySince(es, ss, j, m);
    }
  }

  lemma IdleCompletes(s: State, e: Event)
    requires s.prod.PIdle?
    ensures !Completes(s, e)
  {
  }

  lemma SameLoad(es: seq<Event>, ss: seq<State>, i: nat, j: nat, m: nat)
    requires Requested(es, ss, m, i) && LastLoad(es, j, m)
    ensures i == j
  {
  }

  /** A producer that is still busy has completed nothing since its request. */
  lemma {:induction false} BusySince(es: seq<Event>, ss: seq<State>, j: nat, m: nat)
    requires Execution(es, ss) && LastLoad(es, j, m) && !ss[m].prod.PIdle?
    ensures forall l :: j < l < m ==> !Completes(ss[l], es[l])
    decreases m
  {
    hide Inv, Next, Chained, Holds, Lens, Ptrs, Completes;
    if m - 1 > j {
      assert Next(ss[m - 1], es[m - 1], ss[m - 1 + 1]);
      StepIdle(ss[m - 1], es[m - 1], ss[m]);
      if Completes(ss[m - 1], es[m - 1]) {
        CompletingIdles(ss[m - 1], es[m - 1], ss[m]);
      }
      BusySince(es, ss, j, m - 1);
    }
  }

  lemma CompletingIdles(s: State, e: Event, s': State)
    requires Next(s, e, s') && Completes(s, e)
    ensures s'.prod.PIdle?
  {
    hide Put, KnownPast;
  }

  // ---- Every operation ends ----

  ghost predicate ProducerStep(e: Event) {
    ProducerEvent(e) || e.EPlace?
  }

  /** A bound on the steps the producer still has to take; the consumer has no part in it. */
  ghost function ProdWork(s: State): int {
    match s.prod
    case PIdle => 0
    case PLoaded(_, src) => 2 * s.size + |src| + 9
    case PPlaced(_, src, _) => 2 * s.size + |src| + 8
    case PLinked(_, src, _, _) => 2 * s.size + |src| + 7
    case PProbe(_, src) => 2 * s.size + |src| + 6
    case PTrack(at, src, _, p) => (at + |src| - p) + |src| + s.size + 4
    case PSeek(at, src, _, p) => (at - p) + |src| + s.size + 4
    case PCopy(_, src, i, _) => (|src| - i) + s.size + 3
    case PClear(_, _, u, _, p) => (u - p) + 2
    case PTail(_, _, _, _) => 1
  }

  /** Where the producer is, in positions. */
  ghost predicate ProdRange(s: State) {
    && s.q.h <= s.q.t
    && match s.prod {
         case PIdle => true
         case PTrack(at, src, _, p) => s.q.t <= at && s.q.t <= p <= at + |src| <= s.q.h + s.size
         case PSeek(at, src, _, p) => s.q.t <= p <= at && at + |src| <= s.q.h + s.size
         case PCopy(at, src, i, _) => i <= |src| && s.q.t <= at && at + |src| <= s.q.h + s.size
         case PClear(at, src, u, _, p) => s.q.t <= p <= u <= s.q.h + s.size
         case PTail(_, _, _, _) => true
         case _ => s.q.t <= s.prod.at && s.prod.at + |s.prod.src| <= s.q.h + s.size
       }
  }

  lemma ProdRangeOf(s: State)
    requires Inv(s)
    ensures ProdRange(s)
  {
    hide Listing, Owners, Remembered, ConsOk, Faithful, Looked, Put, Holder, Find, Wrap, Chained, Flagged;
  }

  lemma ProdWorkBounds(s: State)
    requires ProdRange(s)
    ensures 0 <= ProdWork(s) <= 3 * s.size + 9 && (ProdWork(s) == 0 <==> s.prod.PIdle?)
  {
  }

  lemma GrowWorks(s: State, e: Event, s': State)
    requires ProdRange(s) && ProdRange(s') && Next(s, e, s')
    requires e.ENoGrow? || e.EGrowFails? || e.EPlace? || e.ELink? || e.ESetEnd?
    ensures ProdWork(s') < ProdWork(s)
  {
    hide Wrap, Chained, Flagged, Minus, PosGt, ChunkEnd, Bytes, Ptrs;
  }

  lemma CopyWorks(s: State, e: Event, s': State)
    requires ProdRange(s) && ProdRange(s') && Next(s, e, s')
    requires e.EWriteByte? || e.EFinishAhead? || e.EFinishTail? || e.EClearEnd? || e.EPublishTail?
    ensures ProdWork(s') < ProdWork(s)
  {
    hide Put, Wrap, Flagged, IncludesPos, Minus, Overwrite, KnownPast;
  }

  /** Every link followed leads to a later position. */
  lemma SearchWorks(s: State, e: Event, s': State)
    requires ProdRange(s) && ProdRange(s') && Next(s, e, s') && (e.EProbe? || e.ETrack? || e.ESeek? || e.EClear?)
    requires (s.prod.PTrack? || s.prod.PSeek? || s.prod.PClear?) && s.prod.c != 0 ==>
               s.prod.p < After(s.chain, s.prod.p)
    requires s.prod.PTrack? || s.prod.PSeek? ==> s.prod.c != 0
    ensures ProdWork(s') < ProdWork(s)
  {
    hide Put, Wrap, Flagged, IncludesPos, ChunkTree.Floor, Spot, After, Find, SetFlag, ChunkTree.Insert,
         ChunkTree.Remove;
  }

  /** The next chunk lies behind the one the producer is at. */
  lemma SearchAhead(s: State)
    requires Inv(s) && (s.prod.PTrack? || s.prod.PSeek? || s.prod.PClear?)
    ensures s.prod.c != 0 ==> s.prod.p < After(s.chain, s.prod.p)
    ensures s.prod.PTrack? || s.prod.PSeek? ==> s.prod.c != 0
  {
    hide Listing, Owners, Remembered, ConsOk, Faithful, Looked, Put, Holder, Find, Wrap, Chained, Flagged, After;
    Facts(s);
    OnwardFrom(s, s.prod.p);
  }

  /**
   Each step of the producer brings it closer to the end of its operation; the consumer's steps do not matter to it.
   */
  lemma ProducerWorks(s: State, e: Event, s': State)
    requires Inv(s) && Next(s, e, s')
    ensures 0 <= ProdWork(s) <= 3 * s.size + 9 && (ProdWork(s) == 0 <==> s.prod.PIdle?)
    ensures s'.size == s.size && (ProducerStep(e) ==> ProdWork(s') < ProdWork(s))
    ensures !ProducerStep(e) && !e.ELoad? ==> ProdWork(s') == ProdWork(s)
  {
    hide Inv, Next, ProdRange, ProdWork, After;
    NextKeeps(s, e, s');
    ProdRangeOf(s);
    ProdRangeOf(s');
    ProdWorkBounds(s);
    StepSides(s, e, s');
    if ProducerStep(e) {
      if e.EProbe? || e.ETrack? || e.ESeek? || e.EClear? {
        if s.prod.PTrack? || s.prod.PSeek? || s.prod.PClear? {
          SearchAhead(s);
        }
        SearchWorks(s, e, s');
      } else if e.EWriteByte? || e.EFinishAhead? || e.EFinishTail? || e.EClearEnd? || e.EPublishTail? {
        CopyWorks(s, e, s');
      } else {
        GrowWorks(s, e, s');
      }
    } else if !e.ELoad? {
      ProdWorkSame(s, s');
    }
  }

  lemma ProdWorkSame(s: State, s': State)
    requires s'.prod == s.prod && s'.size == s.size
    ensures ProdWork(s') == ProdWork(s)
  {
  }

  lemma ProducerSide(s: State, e: Event, s': State)
    requires Next(s, e, s') && (ProducerStep(e) || e.ELoad?)
    ensures s'.size == s.size && s'.cons == s.cons && s.chain <= s'.chain && s'.q.h == s.q.h
  {
    hide LoadTail, FindHead, ReadByte, ReadDone, WalkOn, Cut, Swing, Collect, PublishHead, Holder, Find, IncludesPos,
         Wrap, Plus, Minus, PosGt, PosGeq, Overwrite, ChunkEnd, Bytes, Spot, ChunkTree.Floor, Flagged, KnownPast,
         Chained, Shifted, Ptrs;
  }

  lemma ConsumerSide(s: State, e: Event, s': State)
    requires Next(s, e, s') && (ConsumerEvent(e) || e.ELoadTail?)
    ensures s'.size == s.size && s'.prod == s.prod
  {
    hide Load, NoGrow, GrowFails, Place, Attach, SetEnd, Probe, Track, Seek, WriteByte, FinishAhead, FinishTail, Clear,
         ClearEnd, PublishTail, Holder, Find, IncludesPos, Wrap, Plus, Minus, PosGt, PosGeq, Overwrite, ChunkEnd, Bytes,
         Spot, ChunkTree.Floor, Flagged, KnownPast, Chained, Shifted, Ptrs;
  }

  lemma StepKinds(e: Event)
    ensures ConsumerEvent(e) || ProducerStep(e) || e.ELoad? || e.ELoadTail?
    ensures !((ConsumerEvent(e) || e.ELoadTail?) && (ProducerStep(e) || e.ELoad?))
  {
  }

  /** The steps of one side leave the other side's progress alone. */
  lemma StepSides(s: State, e: Event, s': State)
    requires Next(s, e, s')
    ensures s'.size == s.size
    ensures !ProducerStep(e) && !e.ELoad? ==> s'.prod == s.prod
    ensures ProducerStep(e) || e.ELoad? ==> s'.cons == s.cons && s.chain <= s'.chain && s'.q.h == s.q.h
  {
    hide Next, ProducerStep, ConsumerEvent;
    StepKinds(e);
    if ProducerStep(e) || e.ELoad? {
      ProducerSide(s, e, s');
    } else {
      ConsumerSide(s, e, s');
    }
  }

  ghost function ProdSteps(es: seq<Event>, a: nat, b: nat): nat
    requires b <= |es|
  {
    if b <= a then 0 else ProdSteps(es, a, b - 1) + if ProducerStep(es[b - 1]) then 1 else 0
  }

  /**
   An enqueue takes at most 3 * size + 9 steps of the producer, however many steps the consumer takes in between;
   when it has taken as many as it can, it has ended.
   */
  lemma {:induction false} EnqueueEnds(es: seq<Event>, ss: seq<State>, j: nat, k: nat)
    requires Execution(es, ss) && LastLoad(es, j, k)
    ensures ProdSteps(es, j + 1, k) + ProdWork(ss[k]) <= 3 * ss[k].size + 9
    ensures 0 <= ProdWork(ss[k]) && (ProdWork(ss[k]) == 0 <==> ss[k].prod.PIdle?)
    decreases k
  {
    hide Inv, Next, Init, ProdWork, ProducerStep;
    ExecutionInv(es, ss, k);
    ProdRangeOf(ss[k]);
    ProdWorkBounds(ss[k]);
    if j + 1 < k {
      EnqueueEnds(es, ss, j, k - 1);
      ExecutionInv(es, ss, k - 1);
      assert Next(ss[k - 1], es[k - 1], ss[k - 1 + 1]);
      ProducerWorks(ss[k - 1], es[k - 1], ss[k]);
    }
  }

  lemma OnwardFrom(s: State, p: nat)
    requires Inv(s) && s.chain != [] && s.chain[0].lo <= p <= End(s.chain)
    ensures p < End(s.chain) ==> After(s.chain, p) > p
    ensures Holder(s.chain, p) == 0 <==> p == End(s.chain)
  {
    hide Inv, Holder, Find, After;
    HolderIn(s, p);
    if p < End(s.chain) {
      HolderOf(s, p);
    }
  }

  // ---- The consumer's side ----

  /** How far chunk number k starts in front of position p. */
  ghost function Ahead(s: State, p: nat, k: nat): int {
    if k < |s.chain| then p - s.chain[k].lo else 0
  }

  /** A bound on the steps the consumer still has to take; the producer has no part in it. */
  ghost function ConsWork(s: State): int {
    match s.cons
    case CIdle => 0
    case CFind(n, _, k) => Ahead(s, s.q.h, k) + Ahead(s, s.q.h + n, 0) + n + 7
    case CCopy(n, buf, _) => (n - |buf|) + Ahead(s, s.q.h + n, 0) + 6
    case CWalk(n, _, _, _, _, k) => Ahead(s, s.q.h + n, k) + 5
    case CCut(_, _, _, _, _, _) => 4
    case CSwing(_, _, _, _, _) => 3
    case CCollect(_, _, _, _) => 2
    case CPublish(_, _, _) => 1
  }

  /** Where the consumer is, in positions. */
  ghost predicate ConsRange(s: State) {
    && s.chain != [] && Contiguous(s.chain) && s.q.h <= s.q.t <= s.q.h + s.size
    && match s.cons {
         case CIdle => true
         case CFind(n, _, k) =>
           && k < |s.chain| && s.chain[k].lo <= s.q.h <= s.chain[0].hi && s.q.h + n <= s.q.t
           && s.chain[0].hi <= s.chain[0].lo + MAX_CHUNK
         case CCopy(n, buf, _) =>
           && |buf| <= n && s.chain[0].lo <= s.q.h <= s.chain[0].hi && s.q.h + n <= s.q.t
           && s.chain[0].hi <= s.chain[0].lo + MAX_CHUNK
         case CWalk(n, _, _, _, _, k) =>
           && k < |s.chain| && s.chain[k].hi <= s.q.h + n <= s.q.t && s.chain[0].lo <= s.q.h <= s.chain[0].hi
           && s.chain[0].hi <= s.chain[0].lo + MAX_CHUNK
         case _ => true
       }
  }

  lemma ConsRangeOf(s: State)
    requires Inv(s)
    ensures ConsRange(s)
  {
    hide Holds, Owners, Remembered, ProdOk, Faithful, Looked, Put, Reads, Holder, Find, Wrap, Flagged, Lens;
    Facts(s);
    if s.cons.CFind? {
      Compared(s, s.cons.k, s.q.h);
    }
  }

  lemma ConsWorkBounds(s: State)
    requires ConsRange(s)
    ensures 0 <= ConsWork(s) <= 2 * s.size + 2 * MAX_CHUNK + 7 && (ConsWork(s) == 0 <==> s.cons.CIdle?)
  {
    if s.cons.CWalk? || s.cons.CFind? {
      assert s.chain[0].lo <= s.chain[s.cons.k].lo;
    }
  }

  lemma FindWorks(s: State, s': State)
    requires ConsRange(s) && ConsRange(s') && FindHead(s, s')
    ensures ConsWork(s') < ConsWork(s)
  {
    hide Wrap, Flagged, IncludesPos, Contiguous;
    NextLater(s.chain, s.cons.k);
  }

  lemma NextLater(c: seq<Link>, k: nat)
    requires Contiguous(c)
    ensures (k < |c| ==> c[k].lo < c[k].hi) && (k + 1 < |c| ==> c[k].lo < c[k + 1].lo)
  {
  }

  lemma ReadWorks(s: State, s': State)
    requires ConsRange(s) && ConsRange(s') && (ReadByte(s, s') || ReadDone(s, s'))
    ensures ConsWork(s') < ConsWork(s)
  {
    hide Wrap, Flagged, Plus, Minus, PosGeq, ChunkEnd, Contiguous;
  }

  lemma WalkWorks(s: State, s': State)
    requires ConsRange(s) && ConsRange(s') && WalkOn(s, s')
    ensures ConsWork(s') < ConsWork(s)
  {
    hide Wrap, Flagged, IncludesPos, Plus, Contiguous;
    NextLater(s.chain, s.cons.k);
  }

  lemma GiveWorks(s: State, e: Event, s': State)
    requires ConsRange(s) && ConsRange(s') && Next(s, e, s')
    requires e.ECut? || e.ESwing? || e.ECollect? || e.EPublishHead?
    ensures ConsWork(s') < ConsWork(s)
  {
    hide ConsRange, Wrap, Flagged, Plus, Shifted, Ptrs, Ahead;
  }

  lemma TakeWorks(s: State, e: Event, s': State)
    requires ConsRange(s) && ConsRange(s') && Next(s, e, s')
    requires e.EFindHead? || e.EReadByte? || e.EReadDone? || e.EWalkOn?
    ensures ConsWork(s') < ConsWork(s)
  {
    hide ConsRange, ConsWork, FindHead, ReadByte, ReadDone, WalkOn;
    if e.EFindHead? {
      FindWorks(s, s');
    } else if e.EWalkOn? {
      WalkWorks(s, s');
    } else {
      ReadWorks(s, s');
    }
  }

  lemma ConsWorkSame(s: State, s': State)
    requires ConsRange(s) && s'.cons == s.cons && s.chain <= s'.chain && s'.q.h == s.q.h
    ensures ConsWork(s') == ConsWork(s)
  {
  }

  /**
   Each step of the consumer brings it closer to the end of its operation; the producer's steps do not matter to it.
   */
  lemma ConsumerWorks(s: State, e: Event, s': State)
    requires Inv(s) && Next(s, e, s')
    ensures 0 <= ConsWork(s) <= 2 * s.size + 2 * MAX_CHUNK + 7 && (ConsWork(s) == 0 <==> s.cons.CIdle?)
    ensures s'.size == s.size && (ConsumerEvent(e) ==> ConsWork(s') < ConsWork(s))
    ensures ProducerStep(e) || e.ELoad? ==> ConsWork(s') == ConsWork(s)
  {
    hide Inv, Next, ConsRange, ConsWork;
    NextKeeps(s, e, s');
    ConsRangeOf(s);
    ConsRangeOf(s');
    ConsWorkBounds(s);
    StepSides(s, e, s');
    if e.EFindHead? || e.EReadByte? || e.EReadDone? || e.EWalkOn? {
      TakeWorks(s, e, s');
    } else if ConsumerEvent(e) {
      GiveWorks(s, e, s');
    } else if !e.ELoadTail? {
      ConsWorkSame(s, s');
    }
  }

  ghost function ConsSteps(es: seq<Event>, a: nat, b: nat): nat
    requires b <= |es|
  {
    if b <= a then 0 else ConsSteps(es, a, b - 1) + if ConsumerEvent(es[b - 1]) then 1 else 0
  }

  /** A dequeue takes at most 2 * size + 2 * 4 MB + 7 steps of the consumer, whatever the producer does in between. */
  lemma {:induction false} DequeueEnds(es: seq<Event>, ss: seq<State>, j: nat, k: nat)
    requires Execution(es, ss) && LastLoadTail(es, j, k)
    ensures ConsSteps(es, j + 1, k) + ConsWork(ss[k]) <= 2 * ss[k].size + 2 * MAX_CHUNK + 7
    ensures 0 <= ConsWork(ss[k]) && (ConsWork(ss[k]) == 0 <==> ss[k].cons.CIdle?)
    decreases k
  {
    hide Inv, Next, Init, ConsWork, ConsumerEvent;
    ExecutionInv(es, ss, k);
    ConsRangeOf(ss[k]);
    ConsWorkBounds(ss[k]);
    if j + 1 < k {
      DequeueEnds(es, ss, j, k - 1);
      ExecutionInv(es, ss, k - 1);
      assert Next(ss[k - 1], es[k - 1], ss[k - 1 + 1]);
      ConsumerWorks(ss[k - 1], es[k - 1], ss[k]);
      StepKinds(es[k - 1]);
    }
  }

  // ---- No chunk is lost ----

  lemma ProducerChunks(s: State, e: Event, s': State)
    requires Next(s, e, s') && (ProducerStep(e) || e.ELoad?)
    ensures s'.mem.Keys == s.mem.Keys
  {
    hide LoadTail, FindHead, ReadByte, ReadDone, WalkOn, Cut, Swing, Collect, PublishHead, Holder, Find, IncludesPos,
         Wrap, Plus, Minus, PosGt, PosGeq, Overwrite, ChunkEnd, Bytes, Spot, ChunkTree.Floor, KnownPast, Chained,
         Shifted, Ptrs, Put;
  }

  lemma ConsumerChunks(s: State, e: Event, s': State)
    requires Next(s, e, s') && (ConsumerEvent(e) || e.ELoadTail?)
    ensures s'.mem.Keys == s.mem.Keys
  {
    hide Load, NoGrow, GrowFails, Place, Attach, SetEnd, Probe, Track, Seek, WriteByte, FinishAhead, FinishTail, Clear,
         ClearEnd, PublishTail, Holder, Find, IncludesPos, Wrap, Plus, Minus, PosGt, PosGeq, Overwrite, ChunkEnd, Bytes,
         Spot, ChunkTree.Floor, KnownPast, Chained, Shifted, Ptrs;
  }

  /** Every step keeps the chunks there are. */
  lemma StepChunks(s: State, e: Event, s': State)
    requires Next(s, e, s')
    ensures s'.mem.Keys == s.mem.Keys
  {
    hide Next, ProducerStep, ConsumerEvent;
    StepKinds(e);
    if ProducerStep(e) || e.ELoad? {
      ProducerChunks(s, e, s');
    } else {
      ConsumerChunks(s, e, s');
    }
  }

  /** In every run each chunk is free, linked, new at the producer or dropped at the consumer, and only one of these. */
  lemma {:induction false} ChunksConserved(es: seq<Event>, ss: seq<State>, i: nat)
    requires Execution(es, ss) && i <= |es|
    ensures var s := ss[i];
            && ss[0].mem.Keys == s.mem.Keys == s.free + Ptrs(s.chain) + Fresh(s.prod) + Dropped(s.cons)
            && s.free !! Ptrs(s.chain) !! Fresh(s.prod) !! Dropped(s.cons)
            && (s.prod.PIdle? && s.cons.CIdle? ==> s.mem.Keys == s.free + Ptrs(s.chain))
    decreases i
  {
    hide Listing, Words, Remembered, ProdOk, ConsOk, Faithful, Looked, Next, Init, Ptrs;
    ExecutionInv(es, ss, i);
    if i > 0 {
      ChunksConserved(es, ss, i - 1);
      ExecutionInv(es, ss, i - 1);
      assert Next(ss[i - 1], es[i - 1], ss[i - 1 + 1]);
      StepChunks(ss[i - 1], es[i - 1], ss[i]);
    }
  }

  // ---- When the list can grow ----

  /** Free chunks, each once, that hold at least the bytes missing, and not many more. */
  ghost predicate Enough(s: State, l: seq<Sptr>) {
    && l != [] && NoDup(l) && (forall i :: 0 <= i < |l| ==> l[i] in s.free && l[i] in s.mem)
    && s.prod.PLoaded? && s.chain != []
    && s.prod.at + |s.prod.src| <= End(s.chain) + Total(s.mem, l) <= s.prod.at + |s.prod.src| + SLACK
  }

  /** The memory after the chunks of d, which were those of l, got their places and links. */
  ghost function PlacedMem(m: Memory, d: seq<Link>): Memory {
    map x | x in m :: if exists i :: 0 <= i < |d| && d[i].ptr == x then
                        var i :| 0 <= i < |d| && d[i].ptr == x;
                        PlacedChunk(m[x], d[i].lo).(next := PtrAt(d, i + 1))
                      else m[x]
  }

  lemma PlacedMemAt(m: Memory, d: seq<Link>, i: nat)
    requires DistinctPtrs(d) && i < |d| && d[i].ptr in m
    ensures d[i].ptr in PlacedMem(m, d)
    ensures PlacedMem(m, d)[d[i].ptr] == PlacedChunk(m[d[i].ptr], d[i].lo).(next := PtrAt(d, i + 1))
  {
    var x := d[i].ptr;
    assert exists j :: 0 <= j < |d| && d[j].ptr == x;
  }

  lemma PlacedMemChained(m: Memory, l: seq<Sptr>, lo: nat)
    requires l != [] && NoDup(l)
    requires forall i :: 0 <= i < |l| ==> l[i] in m && l[i] != 0 && 0 < m[l[i]].length == |m[l[i]].data| <= MAX_CHUNK
    ensures var d := LinksFrom(m, l, lo);
            && Chained(PlacedMem(m, d), d) && d[0].lo == lo && End(d) == lo + Total(m, l)
            && (forall j :: 0 <= j < |d| ==> d[j].ptr in m && !PlacedMem(m, d)[d[j].ptr].inEnq)
            && (forall x :: x in Ptrs(d) ==> x in l)
  {
    hide LinksFrom, PlacedMem, Total, Wrap, Contiguous;
    LinksFacts(m, l, lo);
    var d := LinksFrom(m, l, lo);
    forall i | 0 <= i < |d|
      ensures LinkAt(PlacedMem(m, d), d, i) && !PlacedMem(m, d)[d[i].ptr].inEnq
    {
      PlacedMemAt(m, d, i);
    }
  }

  lemma PlacedMemRest(m: Memory, d: seq<Link>)
    ensures PlacedMem(m, d).Keys == m.Keys
    ensures forall x :: x in m && x !in Ptrs(d) ==> PlacedMem(m, d)[x] == m[x]
    ensures forall x :: x in m ==> PlacedMem(m, d)[x].length == m[x].length
  {
    InPtrs(d);
  }

  /** Free chunks that hold the bytes missing can be placed. */
  lemma GrowPossible(s: State, l: seq<Sptr>)
    requires Inv(s) && Enough(s, l) && End(s.chain) < s.prod.at + |s.prod.src|
    ensures exists d, s' :: Next(s, EPlace(d), s')
  {
    hide Holds, Spots, Owners, Words, Remembered, ConsOk, Faithful, Looked, LinksFrom, PlacedMem, Total, Wrap, PosGt,
         ChunkEnd, Chained, Ptrs;
    EndOf(s, s.prod.at + |s.prod.src|);
    var d := LinksFrom(s.mem, l, End(s.chain));
    PlacedMemChained(s.mem, l, End(s.chain));
    PlacedMemRest(s.mem, d);
    var mem := PlacedMem(s.mem, d);
    assert d != [] by {
      LinksFacts(s.mem, l, End(s.chain));
    }
    var s' := s.(mem := mem, free := s.free - Ptrs(d), prod := PPlaced(s.prod.at, s.prod.src, d));
    assert Next(s, EPlace(d), s');
  }

  /** A chained list holds the bytes of its range, in any memory with the same chunk sizes. */
  lemma ChainHolds(m: Memory, q: Memory, d: seq<Link>)
    requires Chained(q, d) && m.Keys == q.Keys && forall x :: x in m ==> q[x].length == m[x].length
    ensures var l := PtrsOf(d, |d|);
            && l != [] && NoDup(l) && Total(m, l) == End(d) - d[0].lo
            && forall i :: 0 <= i < |l| ==> l[i] in m && l[i] in Ptrs(d)
  {
    hide Total, Contiguous, Wrap;
    InPtrs(d);
    forall i | 0 <= i < |d|
      ensures d[i].ptr in m
    {
      assert LinkAt(q, d, i);
    }
    ChainTotal(q, d, |d|, PtrsOf(d, |d|));
    TotalSame(m, q, PtrsOf(d, |d|));
  }

  lemma GrownEnough(s: State, d: seq<Link>, s': State)
    requires Inv(s) && Place(s, s', d)
    ensures Enough(s, PtrsOf(d, |d|)) && End(s.chain) < s.prod.at + |s.prod.src|
  {
    hide Listing, Words, Remembered, ConsOk, Faithful, Looked, Total, Wrap, PosGt, ChunkEnd, Owners, Chained, PtrsOf,
         Ptrs, NoDup, Flagged;
    EndOf(s, s.prod.at + |s.prod.src|);
    ChainHolds(s.mem, s'.mem, d);
  }

  /** The list can grow exactly when it is too short and free chunks hold the bytes missing. */
  lemma GrowsIff(s: State)
    requires Inv(s)
    ensures (exists d, s' :: Next(s, EPlace(d), s'))
            <==> s.prod.PLoaded? && s.chain != [] && End(s.chain) < s.prod.at + |s.prod.src| && exists l :: Enough(s, l)
  {
    hide Inv, Enough, Place;
    if exists d, s' :: Next(s, EPlace(d), s') {
      var d, s' :| Next(s, EPlace(d), s');
      GrownEnough(s, d, s');
      EnoughLoaded(s, PtrsOf(d, |d|));
    }
    if s.prod.PLoaded? && s.chain != [] && End(s.chain) < s.prod.at + |s.prod.src| {
      if exists l :: Enough(s, l) {
        var l :| Enough(s, l);
        GrowPossible(s, l);
      }
    }
  }

  lemma EnoughLoaded(s: State, l: seq<Sptr>)
    requires Enough(s, l)
    ensures s.prod.PLoaded? && s.chain != []
  {
  }
}
