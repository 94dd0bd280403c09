/**
 Runs over one segment: fifos are created, used by enqueues, dequeues and peeks, and freed in any order
 and number. Whatever the run, every fifo stays valid, no chunk belongs to two of them, the counters of the
 segment account for every chunk, and each command answers and does what its state before determines.
 */
module SegmentRuns {
  import opened Positions
  import opened Chunks
  import opened SizeClasses
  import opened FreeLists
  import opened Allocation
  import opened Segments
  import opened FifoLayout
  import opened FifoState
  import opened Fifos
  import opened SegmentFifos
  import opened FifoLookup
  import OutOfOrder
  import ByteQueue

  const EREFUSED: int := -100
  const ENOFIFO: int := -101

  datatype Command =
    | Create(slice: nat, size: nat, pct: nat, max: nat)
    | Enqueue(i: nat, src: seq<byte>)
    | EnqueueAhead(i: nat, offset: nat, src: seq<byte>)
    | Dequeue(i: nat, len: nat)
    | Drop(i: nat, len: nat)
    | Peek(i: nat, offset: nat, len: nat)
    | Track(i: nat, enq: bool)
    | Free(i: nat)

  ghost function Shapes(fs: seq<Fifo>): seq<Shape>
    reads fs
  {
    seq(|fs|, i requires 0 <= i < |fs| reads fs => fs[i].Sh())
  }

  ghost predicate Distinct(fs: seq<Fifo>) {
    forall i, j :: 0 <= i < j < |fs| ==> fs[i] != fs[j] && fs[i].ooo != fs[j].ooo
  }

  /** The segment with the fifos in use: all valid, and together they hold exactly the chunks handed out. */
  ghost predicate Crew(seg: Segment, fs: seq<Fifo>)
    reads seg, fs, set i | 0 <= i < |fs| :: fs[i].ooo
  {
    && seg.Valid() && Distinct(fs)
    && (forall i :: 0 <= i < |fs| ==> fs[i].seg == seg && fs[i].Valid())
    && Fleet(seg.mem, seg.place, Shapes(fs))
  }

  /** How many of the fifos belong to slice s. */
  ghost function InSlice(fs: seq<Fifo>, s: nat): int {
    if fs == [] then 0 else InSlice(fs[..|fs| - 1], s) + if fs[|fs| - 1].slice == s then 1 else 0
  }

  lemma {:induction false} InSliceWithout(fs: seq<Fifo>, i: nat, s: nat)
    requires i < |fs|
    ensures InSlice(fs[..i] + fs[i + 1..], s) == InSlice(fs, s) - if fs[i].slice == s then 1 else 0
    decreases |fs|
  {
    var n := |fs| - 1;
    var gs := fs[..i] + fs[i + 1..];
    if i == n {
      assert gs == fs[..n];
    } else {
      InSliceWithout(fs[..n], i, s);
      assert gs[..|gs| - 1] == fs[..n][..i] + fs[..n][i + 1..];
    }
  }

  /** In every slice the headers ever carved are the free ones and those of the fifos in use. */
  ghost predicate HeadersMatch(pool: HeaderPool, seg: Segment, fs: seq<Fifo>)
    reads pool, seg
  {
    pool.Valid(seg) && forall s :: 0 <= s < |pool.free| ==> pool.made[s] == pool.free[s] + InSlice(fs, s)
  }

  /** What an untouched fifo keeps: its own words, and a lookup state that was right for the segment memory m. */
  ghost predicate Aside(f: Fifo, m: Memory, g: Shape, n: nat)
    reads f, f.ooo
  {
    f.Sh() == g && f.slice < n && f.Words() && f.ooo.Valid() && Tracked(m, g, f.Lk(), f.ooo.nodes)
  }

  lemma CrewAside(seg: Segment, fs: seq<Fifo>)
    requires Crew(seg, fs)
    ensures forall i :: 0 <= i < |fs| ==> Aside(fs[i], seg.mem, Shapes(fs)[i], |seg.slices|)
  {
    hide Laid, Tracked, Segment.Valid, OutOfOrder.OooList.Valid, Holder, Wrap, Fleet;
  }

  /** An untouched fifo stays valid when the segment changes apart from it. */
  lemma Bystander(seg: Segment, f: Fifo, m: Memory, w: map<Sptr, Place>, g: Shape, c: seq<Link>, d: seq<Link>)
    requires f.seg == seg && seg.Valid() && Aside(f, m, g, |seg.slices|) && Laid(m, w, g)
    requires Apart(m, seg.mem, w, seg.place, c, d) && Ptrs(g.c) !! Ptrs(c)
    ensures f.Valid() && f.Sh() == g
  {
    hide Laid, Tracked, Apart, Ptrs, Segment.Valid, OutOfOrder.OooList.Valid, Holder, Wrap;
    OthersIntact(m, seg.mem, w, seg.place, c, d, g, f.Lk(), f.ooo.nodes);
  }

  lemma FleetApart(m: Memory, w: map<Sptr, Place>, a: seq<Shape>, i: nat, j: nat)
    requires Fleet(m, w, a) && i < |a| && j < |a| && i != j
    ensures Ptrs(a[j].c) !! Ptrs(a[i].c) && Laid(m, w, a[j])
  {
    hide Laid, Ptrs;
    Disjoint(a, j, i);
  }

  lemma ValidLaid(f: Fifo)
    requires f.Valid()
    ensures Laid(f.seg.mem, f.seg.place, f.Sh()) && f.seg.Valid()
  {
    hide Laid, Tracked, Segment.Valid, OutOfOrder.OooList.Valid, Holder, Wrap;
  }

  /** After an operation on fifo i the crew is complete again; m, w and a are what was before. */
  lemma CrewStep(seg: Segment, fs: seq<Fifo>, i: nat, m: Memory, w: map<Sptr, Place>, a: seq<Shape>)
    requires i < |fs| == |a| && Distinct(fs) && Fleet(m, w, a) && seg.Valid() && fs[i].Valid()
    requires forall j :: 0 <= j < |fs| ==> fs[j].seg == seg && (j != i ==> Aside(fs[j], m, a[j], |seg.slices|))
    requires Apart(m, seg.mem, w, seg.place, a[i].c, fs[i].chain)
    ensures Crew(seg, fs)
  {
    hide Laid, Apart, Ptrs, Segment.Valid, Fifo.Valid, Fleet, Aside;
    forall j | 0 <= j < |fs| && j != i
      ensures fs[j].Valid() && fs[j].Sh() == a[j]
    {
      FleetApart(m, w, a, i, j);
      Bystander(seg, fs[j], m, w, a[j], a[i].c, fs[i].chain);
    }
    ValidLaid(fs[i]);
    FleetStep(m, seg.mem, w, seg.place, a, i, fs[i].Sh());
    assert Shapes(fs) == a[i := fs[i].Sh()];
  }

  /** A new fifo joins. */
  lemma CrewJoin(seg: Segment, fs: seq<Fifo>, f: Fifo, m: Memory, w: map<Sptr, Place>, a: seq<Shape>)
    requires |fs| == |a| && Distinct(fs + [f]) && Fleet(m, w, a) && seg.Valid() && f.Valid() && f.seg == seg
    requires forall j :: 0 <= j < |fs| ==> fs[j].seg == seg && Aside(fs[j], m, a[j], |seg.slices|)
    requires Apart(m, seg.mem, w, seg.place, [], f.chain)
    ensures Crew(seg, fs + [f])
  {
    hide Laid, Apart, Ptrs, Segment.Valid, Fifo.Valid, Fleet, Aside;
    forall j | 0 <= j < |fs|
      ensures fs[j].Valid() && fs[j].Sh() == a[j]
    {
      FleetLaid(m, w, a, j);
      Bystander(seg, fs[j], m, w, a[j], [], f.chain);
    }
    ValidLaid(f);
    FleetAlloc(m, seg.mem, w, seg.place, a, f.Sh());
    assert Shapes(fs + [f]) == a + [f.Sh()];
  }

  lemma FleetLaid(m: Memory, w: map<Sptr, Place>, a: seq<Shape>, j: nat)
    requires Fleet(m, w, a) && j < |a|
    ensures Laid(m, w, a[j]) && Ptrs(a[j].c) !! Ptrs([])
  {
    hide Laid;
  }

  /** A fifo whose chunks were given back leaves. */
  lemma CrewLeave(seg: Segment, fs: seq<Fifo>, i: nat, m: Memory, w: map<Sptr, Place>, a: seq<Shape>)
    requires i < |fs| == |a| && Distinct(fs) && Fleet(m, w, a) && seg.Valid()
    requires forall j :: 0 <= j < |fs| ==> fs[j].seg == seg && (j != i ==> Aside(fs[j], m, a[j], |seg.slices|))
    requires Apart(m, seg.mem, w, seg.place, a[i].c, [])
    ensures Crew(seg, fs[..i] + fs[i + 1..])
  {
    hide Laid, Apart, Ptrs, Segment.Valid, Fifo.Valid, Fleet, Aside;
    var gs, b := fs[..i] + fs[i + 1..], a[..i] + a[i + 1..];
    forall j | 0 <= j < |fs| && j != i
      ensures fs[j].Valid() && fs[j].Sh() == a[j]
    {
      FleetApart(m, w, a, i, j);
      Bystander(seg, fs[j], m, w, a[j], a[i].c, []);
    }
    FleetOrder(m, w, a, i);
    FleetFree(m, seg.mem, w, seg.place, b, a[i]);
    forall j | 0 <= j < |gs|
      ensures gs[j].seg == seg && gs[j].Valid() && gs[j].Sh() == b[j]
    {
      assert gs[j] == fs[if j < i then j else j + 1];
    }
    assert Shapes(gs) == b;
  }

  /** Nobody yet. */
  lemma CrewNone(seg: Segment)
    requires seg.Valid() && forall p :: p in seg.place ==> !seg.place[p].used
    ensures Crew(seg, [])
  {
    hide Segment.Valid;
  }

  // ---- What commands do to the byte stream of a fifo ----

  /** The stream operation that a command with result r and bytes dst stands for; none when it failed. */
  ghost predicate Answers(cmd: Command, r: int, dst: seq<byte>, q: ByteQueue.Queue, op: ByteQueue.Op) {
    match cmd
    case Enqueue(_, src) => r > 0 && dst == [] && exists n :: 0 < n <= |src| && op == ByteQueue.Write(q.t, src[..n])
    case EnqueueAhead(_, offset, src) => r == 0 && dst == [] && op == ByteQueue.Write(q.t + offset, src)
    case Dequeue(_, len) => r == |dst| == Min(q.t - q.h, len) && op == ByteQueue.Take(dst)
    case Drop(_, len) => r == Min(q.t - q.h, len) && dst == [] && op.Take? && |op.out| == r
    case Peek(_, offset, len) => r == |dst| == Min(q.t - q.h - offset, len) && op == ByteQueue.Peek(q.h + offset, dst)
    case _ => false
  }

  /** A command performed: its result, the bytes it handed out, its stream operation if any, and the stream after it. */
  datatype Turn = Turn(cmd: Command, r: int, dst: seq<byte>, ops: seq<ByteQueue.Op>, q: ByteQueue.Queue)

  ghost predicate Performed(before: ByteQueue.Queue, t: Turn) {
    if t.ops == [] then t.q == before && t.dst == [] && (t.r < 0 || t.cmd.Track?)
    else
      && |t.ops| == 1 && Answers(t.cmd, t.r, t.dst, before, t.ops[0]) && ByteQueue.Step(before, t.ops[0], t.q)
      && (t.cmd.Enqueue? ==> t.r == t.q.t - before.t)
  }

  ghost function StreamOf(tr: seq<Turn>): ByteQueue.Queue {
    if tr == [] then ByteQueue.Queue(0, 0, map[]) else tr[|tr| - 1].q
  }

  /** Every turn of the trace did to the stream what its command stands for. */
  ghost predicate Traced(tr: seq<Turn>) {
    forall k :: 0 <= k < |tr| ==> Performed(StreamOf(tr[..k]), tr[k])
  }

  lemma TracedMore(tr: seq<Turn>, t: Turn)
    requires Traced(tr) && Performed(StreamOf(tr), t)
    ensures Traced(tr + [t]) && StreamOf(tr + [t]) == t.q
  {
    hide Performed;
    var all := tr + [t];
    forall k | 0 <= k < |all|
      ensures Performed(StreamOf(all[..k]), all[k])
    {
      if k < |tr| {
        assert all[..k] == tr[..k];
        assert Performed(StreamOf(tr[..k]), tr[k]);
      } else {
        assert all[..k] == tr;
      }
    }
  }

  ghost function Ops(tr: seq<Turn>): seq<ByteQueue.Op> {
    if tr == [] then [] else Ops(tr[..|tr| - 1]) + tr[|tr| - 1].ops
  }

  ghost function Queues(tr: seq<Turn>): seq<ByteQueue.Queue> {
    if tr == [] then [StreamOf([])]
    else Queues(tr[..|tr| - 1]) + if tr[|tr| - 1].ops == [] then [] else [tr[|tr| - 1].q]
  }

  /** A trace is a run of the byte stream. */
  lemma {:induction false} TraceRuns(tr: seq<Turn>)
    requires Traced(tr)
    ensures ByteQueue.Behaviour(Ops(tr), Queues(tr)) && Queues(tr)[|Ops(tr)|] == StreamOf(tr)
    decreases |tr|
  {
    hide ByteQueue.Step, Answers;
    if tr != [] {
      var n := |tr| - 1;
      var a := tr[..n];
      TracedPrefix(tr, n);
      TraceRuns(a);
      assert Performed(StreamOf(tr[..n]), tr[n]);
      if tr[n].ops == [] {
        assert Ops(tr) == Ops(a) && Queues(tr) == Queues(a);
      } else {
        assert tr[n].ops == [tr[n].ops[0]];
        ByteQueue.BehaviourMore(Ops(a), Queues(a), tr[n].ops[0], tr[n].q);
      }
    }
  }

  lemma TracedPrefix(tr: seq<Turn>, n: nat)
    requires Traced(tr) && n <= |tr|
    ensures Traced(tr[..n])
  {
    hide Performed;
    forall k | 0 <= k < n
      ensures Performed(StreamOf(tr[..n][..k]), tr[..n][k])
    {
      assert tr[..n][..k] == tr[..k];
      assert Performed(StreamOf(tr[..k]), tr[k]);
    }
  }

  /**
   Every byte a dequeue or a peek hands out is the one most recently written for its position by the commands before.
   */
  lemma HandsOutLastWritten(tr: seq<Turn>, k: nat, i: nat)
    requires Traced(tr) && k < |tr| && i < |tr[k].dst|
    ensures tr[k].cmd.Dequeue? || tr[k].cmd.Peek?
    ensures var q := StreamOf(tr[..k]);
            var p := q.h + (if tr[k].cmd.Peek? then tr[k].cmd.offset else 0) + i;
            p < q.t && ByteQueue.LastWrite(Ops(tr[..k]), p) == ByteQueue.Byte(tr[k].dst[i])
  {
    hide ByteQueue.LastWrite, ByteQueue.Behaviour, ByteQueue.Put, ByteQueue.Reads, Ops, Queues;
    TracedPrefix(tr, k);
    TraceRuns(tr[..k]);
    var q, t := StreamOf(tr[..k]), tr[k];
    assert Performed(q, t);
    ByteQueue.ReadsLastWritten(Ops(tr[..k]), Queues(tr[..k]), q.h + if t.cmd.Peek? then t.cmd.offset else 0, t.dst, i);
  }

  // ---- What is known of a run at each of its points ----

  /** A fifo in use: its chunks and window, its settings, and the commands performed on it so far. */
  datatype Line = Line(f: Shape, minAlloc: nat, enqInit: bool, deqInit: bool, tr: seq<Turn>)

  /** The free chunks of every slice, the byte index and its limit, the free headers, and the fifos in use. */
  datatype Snap = Snap(stocks: seq<seq<nat>>, index: nat, max: nat, headers: seq<nat>, lines: seq<Line>)

  /** What a command answered. */
  datatype Reply = Reply(r: int, dst: seq<byte>)

  ghost function Window(f: Shape): int {
    f.size - (f.t - f.h)
  }

  /**
   The command is one its operation is defined for: its precondition holds, for a dequeue whatever the lookup tree
   for peeking may hold.
   */
  ghost predicate Allowed(l: Line, cmd: Command) {
    && l.f.c != []
    && match cmd {
         case Enqueue(_, src) => CanEnqueue(l.f, |src|)
         case EnqueueAhead(_, offset, src) => CanEnqueueAhead(l.f, offset, |src|)
         case Dequeue(_, len) => forall tracked: nat :: l.deqInit || tracked == 0 ==> CanDequeue(l.f, tracked, len)
         case Drop(_, len) => len < TWO32
         case Peek(_, offset, len) => CanPeek(l.f, offset, len)
         case Track(_, enq) => if enq then !l.enqInit else !l.deqInit
         case Free(_) => true
         case Create(_, _, _, _) => false
       }
  }

  ghost predicate InDomain(a: Snap, cmd: Command) {
    if cmd.Create? then cmd.slice < |a.stocks| && 0 < cmd.size <= MAX_FIFO && cmd.pct < 256
    else cmd.i < |a.lines| && Allowed(a.lines[cmd.i], cmd)
  }

  /** The chunk list grew by an allocation with outcome o, or by nothing. */
  ghost predicate Grew(u: Supply, f: Shape, o: Outcome, v: Supply, g: Shape) {
    && f.c != [] && g.c != [] && f.c <= g.c && End(g.c) == End(f.c) + o.total && g.h == f.h
    && v == Supply(o.stock, o.index, u.max)
  }

  /** The chunks a head at f.h + n has passed went back to the segment. */
  ghost predicate Shrank(u: Supply, f: Shape, n: int, v: Supply, g: Shape) {
    var k := PassedBy(f, f.h + n);
    g.c == f.c[k..] && v == Supply(Returning(u, f, k).stock, u.index, u.max)
  }

  ghost predicate Enqueues(u: Supply, l: Line, src: seq<byte>, t: Turn, v: Supply, g: Shape) {
    var want := Min(Window(l.f), |src|);
    var n := Fit(u, l.minAlloc, l.f, want);
    && Grew(u, l.f, Growth(u, l.minAlloc, l.f, want), v, g)
    && (t.r == if Window(l.f) == 0 then EFULL else if n == 0 then EGROW else g.t - l.f.t)
    && (t.r >= 0 ==> 0 < n <= |src| && t.ops == [ByteQueue.Write(l.f.t, src[..n])])
    && (t.r < 0 <==> t.ops == [])
  }

  ghost predicate EnqueuesAhead(u: Supply, l: Line, offset: nat, src: seq<byte>, t: Turn, v: Supply, g: Shape) {
    var len := offset + |src|;
    var want := if len <= Window(l.f) then len else 0;
    && Grew(u, l.f, Growth(u, l.minAlloc, l.f, want), v, g)
    && (t.r == if len > Window(l.f) then EFULL else if Fit(u, l.minAlloc, l.f, len) < len then EGROW else 0)
    && t.ops == if t.r < 0 then [] else [ByteQueue.Write(l.f.t + offset, src)]
  }

  ghost predicate Dequeues(u: Supply, l: Line, len: nat, t: Turn, v: Supply, g: Shape) {
    && Shrank(u, l.f, Min(l.f.t - l.f.h, len), v, g)
    && (t.r == if l.f.h == l.f.t then EEMPTY else Min(l.f.t - l.f.h, len))
    && (t.r < 0 <==> t.ops == [])
  }

  ghost predicate Peeks(u: Supply, l: Line, offset: nat, len: nat, t: Turn, v: Supply, g: Shape) {
    && v == u && g.c == l.f.c
    && (t.r == if l.f.t - l.f.h < offset then EEMPTY else Min(l.f.t - l.f.h - offset, len))
    && (t.r < 0 <==> t.ops == [])
  }

  /** What a command on a fifo answers and does to it and to the free chunks of its slice. */
  ghost predicate Did(u: Supply, l: Line, cmd: Command, t: Turn, v: Supply, g: Shape) {
    match cmd
    case Enqueue(_, src) => Enqueues(u, l, src, t, v, g)
    case EnqueueAhead(_, offset, src) => EnqueuesAhead(u, l, offset, src, t, v, g)
    case Dequeue(_, len) => Dequeues(u, l, len, t, v, g)
    case Drop(_, len) => Dequeues(u, l, len, t, v, g)
    case Peek(_, offset, len) => Peeks(u, l, offset, len, t, v, g)
    case Track(_, _) => t.r == 0 && t.ops == [] && v == u && g.c == l.f.c
    case _ => false
  }

  ghost predicate Effect(u: Supply, l: Line, cmd: Command, x: Reply, v: Supply, k: Line) {
    && |k.tr| == |l.tr| + 1 && k.tr[..|l.tr|] == l.tr
    && k.minAlloc == l.minAlloc && k.f.size == l.f.size && k.f.slice == l.f.slice
    && (k.enqInit <==> l.enqInit || (cmd.Track? && cmd.enq)) && (k.deqInit <==> l.deqInit || (cmd.Track? && !cmd.enq))
    && var t := k.tr[|l.tr|];
       && t.cmd == cmd && x == Reply(t.r, t.dst) && Did(u, l, cmd, t, v, k.f)
       && Performed(StreamOf(l.tr), t) && k.f.h == t.q.h && k.f.t == t.q.t
  }

  lemma EffectOf(u: Supply, l: Line, t: Turn, v: Supply, k: Line)
    requires Did(u, l, t.cmd, t, v, k.f) && Performed(StreamOf(l.tr), t)
    requires k.tr == l.tr + [t] && k.f.h == t.q.h && k.f.t == t.q.t
    requires k.minAlloc == l.minAlloc && k.f.size == l.f.size && k.f.slice == l.f.slice
    requires k.enqInit <==> l.enqInit || (t.cmd.Track? && t.cmd.enq)
    requires k.deqInit <==> l.deqInit || (t.cmd.Track? && !t.cmd.enq)
    ensures Effect(u, l, t.cmd, Reply(t.r, t.dst), v, k)
  {
    hide Did, Performed, StreamOf;
  }

  ghost function SupplyAt(a: Snap, s: nat): Supply {
    Supply(if s < |a.stocks| then a.stocks[s] else [], a.index, a.max)
  }

  /** The state and the answer after a command, given the state before: creating a fifo. */
  ghost predicate Creates(a: Snap, cmd: Command, x: Reply, b: Snap)
    requires cmd.Create?
  {
    && cmd.slice < |a.stocks| == |a.headers|
    && var u, s := SupplyAt(a, cmd.slice), cmd.slice;
       var o := Founding(u, a.headers[s], cmd.size, cmd.pct, cmd.max);
       var n := HeadersLeft(u, a.headers[s], cmd.size, cmd.pct, cmd.max);
       && n >= 0 && x == Reply(if o.total == 0 then ENOFIFO else 0, [])
       && b == Snap(a.stocks[s := o.stock], o.index, a.max, a.headers[s := n], b.lines)
       && if o.total == 0 then b.lines == a.lines
          else && |b.lines| == |a.lines| + 1 && b.lines[..|a.lines|] == a.lines
               && Newborn(b.lines[|a.lines|], cmd, o.total)
  }

  /** A new fifo: empty, without a past, with the chunks of its first allocation. */
  ghost predicate Newborn(l: Line, cmd: Command, total: nat)
    requires cmd.Create?
  {
    && l.f.c != [] && End(l.f.c) == total && l.f.h == l.f.t == 0 && l.f.size == cmd.size && l.f.slice == cmd.slice
    && l.minAlloc == MinAlloc(cmd.size) && !l.enqInit && !l.deqInit && l.tr == []
  }

  /** Freeing a fifo. */
  ghost predicate Frees(a: Snap, i: nat, x: Reply, b: Snap)
    requires i < |a.lines|
  {
    var f := a.lines[i].f;
    && f.slice < |a.stocks| == |a.headers| && x == Reply(0, [])
    && b == Snap(a.stocks[f.slice := Returning(SupplyAt(a, f.slice), f, |f.c|).stock], a.index, a.max,
                 a.headers[f.slice := a.headers[f.slice] + 1], a.lines[..i] + a.lines[i + 1..])
  }

  /** Using a fifo. */
  ghost predicate Uses(a: Snap, i: nat, cmd: Command, x: Reply, b: Snap)
    requires i < |a.lines|
  {
    var s := a.lines[i].f.slice;
    && |b.stocks| == |a.stocks| && s < |a.stocks| && |b.lines| == |a.lines|
    && b == Snap(a.stocks[s := b.stocks[s]], b.index, a.max, a.headers, a.lines[i := b.lines[i]])
    && Effect(SupplyAt(a, s), a.lines[i], cmd, x, SupplyAt(b, s), b.lines[i])
  }

  /** A command leads from a to b with answer x. Exactly the commands outside their domain are refused. */
  ghost predicate Follows(a: Snap, cmd: Command, x: Reply, b: Snap) {
    if !InDomain(a, cmd) then x == Reply(EREFUSED, []) && b == a
    else if cmd.Create? then Creates(a, cmd, x, b)
    else if cmd.Free? then Frees(a, cmd.i, x, b)
    else Uses(a, cmd.i, cmd, x, b)
  }

  ghost function Stocks(slices: seq<Slice>): seq<seq<nat>> {
    seq(|slices|, s requires 0 <= s < |slices| => Stock(slices[s].free))
  }

  /** The line describes the fifo as it is. */
  ghost predicate LineOf(f: Fifo, l: Line)
    reads f, f.ooo
  {
    && l.f == f.Sh() && l.minAlloc == f.minAlloc && l.enqInit == f.enqInit && l.deqInit == f.deqInit
    && Traced(l.tr) && f.View() == StreamOf(l.tr)
  }

  /** The record describes the segment, the headers and the fifos as they are. */
  ghost predicate Recorded(seg: Segment, pool: HeaderPool, fs: seq<Fifo>, a: Snap)
    reads seg, pool, fs, set i | 0 <= i < |fs| :: fs[i].ooo
  {
    && a == Snap(Stocks(seg.slices), seg.byteIndex, seg.maxByteIndex, pool.free, a.lines)
    && |a.lines| == |fs| && forall i :: 0 <= i < |fs| ==> LineOf(fs[i], a.lines[i])
  }

  lemma StocksSettled(s0: seq<Slice>, s1: seq<Slice>, s: nat, index: nat, o: Outcome)
    requires Settles(s0, s1, s, index, o)
    ensures s < |s0| == |s1| == |Stocks(s0)| == |Stocks(s1)|
    ensures Stocks(s1) == Stocks(s0)[s := o.stock] && index == o.index
  {
    var a, b := Stocks(s1), Stocks(s0)[s := o.stock];
    forall i | 0 <= i < |s1|
      ensures a[i] == b[i]
    {
      assert i != s ==> s1[i] == s0[i];
    }
  }

  // ---- One command ----

  lemma ValidEnds(f: Fifo)
    requires f.Valid()
    ensures f.chain != [] && f.h <= f.t <= End(f.chain) && f.t <= f.h + f.size && Minus(f.tail, f.head) == f.t - f.h
    ensures f.endChunk in f.seg.mem && Minus(ChunkEnd(f.seg.mem[f.endChunk]), f.tail) == End(f.chain) - f.t
    ensures !f.deqInit ==> f.deqTo == 0
  {
    hide Laid, Segment.Valid, OutOfOrder.OooList.Valid, Holder, Wrap, Minus, ChunkEnd, EnqSide, Run;
    LaidElim(f.seg.mem, f.seg.place, f.Sh());
    HeadFacts(f.seg.mem, f.seg.place, f.Sh(), f.t);
    EndFacts(f.seg.mem, f.seg.place, f.Sh(), f.t);
  }

  /** What a command did, seen from the rest of the segment. */
  twostate predicate Kept(f: Fifo)
    reads f, f.seg, f.ooo
  {
    && f.Valid() && |f.seg.slices| == |old(f.seg.slices)| && f.seg.maxByteIndex == old(f.seg.maxByteIndex)
    && Apart(old(f.seg.mem), f.seg.mem, old(f.seg.place), f.seg.place, old(f.chain), f.chain)
  }

  /** Whether a command is one its operation is defined for. */
  method Admits(f: Fifo, cmd: Command, ghost l: Line) returns (ok: bool)
    requires f.Valid() && LineOf(f, l)
    ensures ok <==> Allowed(l, cmd)
  {
    hide Segment.Valid, Fifo.Valid, OutOfOrder.OooList.Valid, Wrap, Minus, Contents, Traced, StreamOf, ChunkEnd;
    ValidEnds(f);
    var used := Minus(f.tail, f.head);
    var left := Minus(ChunkEnd(f.seg.mem[f.endChunk]), f.tail);
    match cmd {
      case Enqueue(_, src) => ok := 0 < |src| < TWO32 && Min(f.size - used, |src|) <= left + MAX_SIZE;
      case EnqueueAhead(_, offset, src) =>
        var len := offset + |src|;
        ok := 0 < offset && src != [] && len < TWO32 && (len <= f.size - used ==> len <= left + MAX_SIZE);
      case Dequeue(_, len) =>
        ok := len < TWO32 && !f.deqInit;
        assert !CanDequeue(l.f, 2, len) && (len < TWO32 <==> CanDequeue(l.f, 0, len));
      case Drop(_, len) => ok := len < TWO32;
      case Peek(_, offset, len) => ok := offset < TWO32 && len < TWO32 && (offset <= used ==> offset < used + left);
      case Track(_, enq) => ok := if enq then !f.enqInit else !f.deqInit;
      case Free(_) => ok := true;
      case Create(_, _, _, _) => ok := false;
    }
  }

  /** The command was carried out on fifo f, which l described before it; t says what was done. */
  twostate predicate Dealt(f: Fifo, l: Line, cmd: Command, t: Turn)
    reads f, f.seg, f.ooo
  {
    && Kept(f) && f.enqInit == (old(f.enqInit) || (cmd.Track? && cmd.enq))
    && f.deqInit == (old(f.deqInit) || (cmd.Track? && !cmd.enq))
    && t == Turn(cmd, t.r, t.dst, t.ops, f.View()) && Performed(StreamOf(l.tr), t)
    && Did(old(f.Offer()), l, cmd, t, f.Offer(), f.Sh())
    && Settles(old(f.seg.slices), f.seg.slices, f.slice, f.seg.byteIndex, Outcome(0, f.Offer().stock, f.Offer().index))
  }

  /** A line says what its fifo would ask the segment for. */
  lemma LineAsks(f: Fifo, l: Line, want: int)
    requires LineOf(f, l)
    ensures f.Sh() == l.f
    ensures forall len: nat, partial: bool :: f.Wants(len, partial) == Asked(len, Window(l.f), partial)
    ensures f.GrownBy(want) == Growth(f.Offer(), l.minAlloc, l.f, want)
    ensures f.FitIn(want) == Fit(f.Offer(), l.minAlloc, l.f, want)
    ensures f.View() == StreamOf(l.tr) && f.View().h == l.f.h == f.h && f.View().t == l.f.t == f.t && l.f.c == f.chain
    ensures l.f.size == f.size && l.f.slice == f.slice && l.minAlloc == f.minAlloc && l.enqInit == f.enqInit
    ensures l.deqInit == f.deqInit
  {
    hide Traced, StreamOf, Growth, Fit;
  }

  lemma OfferIndex(f: Fifo)
    ensures f.Offer().index == f.seg.byteIndex && f.Offer().max == f.seg.maxByteIndex
  {
  }

  lemma LineGives(f: Fifo, l: Line, len: nat)
    requires LineOf(f, l)
    ensures f.Sh() == l.f
    ensures var n := f.Passes(len);
            n == PassedBy(l.f, l.f.h + Min(l.f.t - l.f.h, len)) && f.Returned(n) == Returning(f.Offer(), l.f, n)
    ensures f.View() == StreamOf(l.tr) && f.View().h == l.f.h == f.h && f.View().t == l.f.t == f.t && l.f.c == f.chain
    ensures l.f.size == f.size && l.f.slice == f.slice && l.minAlloc == f.minAlloc && l.enqInit == f.enqInit
    ensures l.deqInit == f.deqInit
  {
    hide Traced, StreamOf, Returning, PassedBy;
  }

  lemma GrewIntro(u: Supply, f: Shape, o: Outcome, v: Supply, g: Shape)
    requires f.c != [] && g.c != [] && f.c <= g.c && End(g.c) == End(f.c) + o.total && g.h == f.h
    requires v == Supply(o.stock, o.index, u.max)
    ensures Grew(u, f, o, v, g)
  {
  }

  lemma EnqueueTurn(u: Supply, l: Line, cmd: Command, r: ByteQueue.Queue, n: nat, result: int, v: Supply, g: Shape)
    returns (t: Turn)
    requires var q := StreamOf(l.tr);
             && ByteQueue.Sound(q) && q.h == l.f.h && q.t == l.f.t && cmd.Enqueue? && r.t == g.t
             && Enqueued(q, r, l.f.size, cmd.src, n, result)
             && n == Fit(u, l.minAlloc, l.f, Min(Window(l.f), |cmd.src|))
             && Grew(u, l.f, Growth(u, l.minAlloc, l.f, Min(Window(l.f), |cmd.src|)), v, g)
    ensures t == Turn(cmd, result, [], t.ops, r) && Performed(StreamOf(l.tr), t) && Did(u, l, cmd, t, v, g)
  {
    hide ByteQueue.Put, ByteQueue.Sound, StreamOf, Growth, Fit, Grew;
    var q := StreamOf(l.tr);
    EnqueueStep(q, r, l.f.size, cmd.src, n, result);
    t := Turn(cmd, result, [], if result < 0 then [] else [ByteQueue.Write(q.t, cmd.src[..n])], r);
  }

  method RunEnqueue(f: Fifo, cmd: Command, ghost l: Line) returns (r: int, ghost t: Turn)
    requires f.Valid() && LineOf(f, l) && cmd.Enqueue? && Allowed(l, cmd)
    modifies f, f.seg, f.ooo
    ensures Dealt(f, l, cmd, t) && t.r == r && t.dst == []
  {
    hide Apart, Segment.Valid, OutOfOrder.OooList.Valid, Contents, Fifo.Valid, Settles, Growth, Fit, Enqueued, LineOf,
         ByteQueue.Sound, StreamOf, Performed, Did, Fifo.Offer, Fifo.GrownBy, Fifo.FitIn, Wrap, Plus, Minus, ChunkEnd,
         PosGt, Fifo.Wants, Grew, CanEnqueue;
    ghost var want := f.Wants(|cmd.src|, true);
    ValidEnds(f);
    f.ViewSound();
    LineAsks(f, l, want);
    OfferIndex(f);
    ghost var s0, u, o := f.seg.slices, f.Offer(), f.GrownBy(want);
    var n;
    r, n := f.Enqueue(cmd.src);
    ContentsEnds(f.Sh(), f.ooo.nodes);
    f.ValidSegment();
    OfferSettled(f, s0, o);
    GrewIntro(u, l.f, o, f.Offer(), f.Sh());
    t := EnqueueTurn(u, l, cmd, f.View(), n, r, f.Offer(), f.Sh());
  }

  lemma Pick<T>(ks: set<T>) returns (x: T)
    requires ks != {}
    ensures x in ks
  {
    x :| x in ks;
  }

  /** A bound on finitely many slots. */
  lemma Unused(ks: set<int>) returns (s: int)
    ensures 0 <= s && forall x :: x in ks ==> x < s
  {
    s := 0;
    if ks != {} {
      var x := Pick(ks);
      var r := Unused(ks - {x});
      s := Max(r, x + 1);
      forall y | y in ks
        ensures y < s
      {
        assert y != x ==> y in ks - {x};
      }
    }
  }

  /** A pool slot for the out-of-order segment that an enqueue ahead may add. */
  method FreshSlot(pool: OutOfOrder.Pool) returns (slot: int)
    ensures slot >= 0 && slot !in pool
  {
    ghost var free := Unused(pool.Keys);
    assert free !in pool;
    slot :| slot >= 0 && slot !in pool;
  }

  lemma AheadTurn(u: Supply, l: Line, cmd: Command, r: ByteQueue.Queue, result: int, v: Supply, g: Shape)
    returns (t: Turn)
    requires cmd.EnqueueAhead? && cmd.src != []
    requires var q, len := StreamOf(l.tr), cmd.offset + |cmd.src|;
             && q.h == l.f.h && q.t == l.f.t
             && (result == if len > Window(l.f) then EFULL else if Fit(u, l.minAlloc, l.f, len) < len then EGROW else 0)
             && (if result == 0 then ByteQueue.Put(q, r, q.t + cmd.offset, cmd.src) else r == q)
             && Grew(u, l.f, Growth(u, l.minAlloc, l.f, if len <= Window(l.f) then len else 0), v, g)
    ensures t == Turn(cmd, result, [], t.ops, r) && Performed(StreamOf(l.tr), t) && Did(u, l, cmd, t, v, g)
  {
    hide ByteQueue.Put, StreamOf, Growth, Fit, Grew;
    t := Turn(cmd, result, [], if result < 0 then [] else [ByteQueue.Write(l.f.t + cmd.offset, cmd.src)], r);
  }

  lemma AheadAllowed(l: Line, cmd: Command)
    requires cmd.EnqueueAhead? && Allowed(l, cmd)
    ensures CanEnqueueAhead(l.f, cmd.offset, |cmd.src|) && cmd.src != [] && cmd.offset < TWO32
  {
  }

  /** Enqueues ahead of the tail with a slot of its own choice; says what is offered to the fifo afterwards. */
  method WriteAhead(f: Fifo, offset: u32, src: seq<byte>) returns (r: int)
    requires f.Valid() && CanEnqueueAhead(f.Sh(), offset, |src|)
    modifies f, f.seg, f.ooo
    ensures Kept(f) && f.h == old(f.h) && f.t == old(f.t) && f.enqInit == old(f.enqInit) && f.deqInit == old(f.deqInit)
    ensures r == if offset + |src| > f.size - (f.t - f.h) then EFULL
                 else if old(f.FitIn(offset + |src|)) < offset + |src| then EGROW else 0
    ensures if r == 0 then ByteQueue.Put(old(f.View()), f.View(), f.t + offset, src) else f.View() == old(f.View())
    ensures var o := old(f.GrownBy(f.Wants(offset + |src|, false)));
            && old(f.chain) <= f.chain && old(f.chain) != [] && f.chain != []
            && End(f.chain) == old(End(f.chain)) + o.total
            && f.Offer() == Supply(o.stock, o.index, old(f.Offer()).max)
    ensures Settles(old(f.seg.slices), f.seg.slices, f.slice, f.seg.byteIndex,
                    Outcome(0, f.Offer().stock, f.Offer().index))
  {
    hide Apart, Segment.Valid, OutOfOrder.OooList.Valid, Contents, Fifo.Valid, Settles, ByteQueue.Put, OutOfOrder.Added,
         Fifo.Offer, Fifo.GrownBy, Fifo.FitIn, Fifo.Wants, Wrap, Plus, Minus, ChunkEnd, PosGt, PosGeq, IncludesPos,
         CanEnqueueAhead;
    ValidEnds(f);
    OfferIndex(f);
    ghost var s0, o := f.seg.slices, f.GrownBy(f.Wants(offset + |src|, false));
    var slot := FreshSlot(f.ooo.pool);
    r := f.EnqueueWithOffset(offset, src, slot);
    f.ValidSegment();
    OfferSettled(f, s0, o);
    OfferIndex(f);
  }

  method RunAhead(f: Fifo, cmd: Command, ghost l: Line) returns (r: int, ghost t: Turn)
    requires f.Valid() && LineOf(f, l) && cmd.EnqueueAhead? && Allowed(l, cmd)
    modifies f, f.seg, f.ooo
    ensures Dealt(f, l, cmd, t) && t.r == r && t.dst == []
  {
    hide Kept, Contents, Fifo.Valid, Settles, Growth, Fit, ByteQueue.Put, LineOf, StreamOf, Performed, Did, Fifo.Offer,
         Fifo.GrownBy, Fifo.FitIn, Fifo.Wants, Grew, CanEnqueueAhead, Allowed;
    ghost var len := cmd.offset + |cmd.src|;
    LineAsks(f, l, f.Wants(len, false));
    LineAsks(f, l, len);
    AheadAllowed(l, cmd);
    ghost var u, o := f.Offer(), f.GrownBy(f.Wants(len, false));
    r := WriteAhead(f, cmd.offset, cmd.src);
    GrewIntro(u, l.f, o, f.Offer(), f.Sh());
    t := AheadTurn(u, l, cmd, f.View(), r, f.Offer(), f.Sh());
  }

  method RunTrack(f: Fifo, cmd: Command, ghost l: Line) returns (r: int, ghost t: Turn)
    requires f.Valid() && LineOf(f, l) && cmd.Track? && Allowed(l, cmd)
    modifies f, f.seg, f.ooo
    ensures Dealt(f, l, cmd, t) && t.r == r && t.dst == []
  {
    hide Apart, Segment.Valid, OutOfOrder.OooList.Valid, Contents, Fifo.Valid, Settles, Traced, StreamOf, Wrap, Plus,
         Minus, ChunkEnd, PosGt;
    f.ValidSegment();
    OfferOfFacts(f.seg, f.slice);
    ApartNone(f.seg.mem, f.seg.place, f.chain);
    f.InitLookup(cmd.enq);
    r := 0;
    t := Turn(cmd, r, [], [], f.View());
  }

  lemma ShrankIntro(u: Supply, f: Shape, n: int, v: Supply, g: Shape)
    requires g.c == f.c[PassedBy(f, f.h + n)..]
    requires v == Supply(Returning(u, f, PassedBy(f, f.h + n)).stock, u.index, u.max)
    ensures Shrank(u, f, n, v, g)
  {
  }

  lemma DequeueTurn(u: Supply, l: Line, cmd: Command, r: ByteQueue.Queue, result: int, dst: seq<byte>, v: Supply,
                    g: Shape)
    returns (t: Turn)
    requires var q := StreamOf(l.tr);
             && cmd.Dequeue? && q.h == l.f.h && q.t == l.f.t && q.h <= q.t
             && Shrank(u, l.f, Min(l.f.t - l.f.h, cmd.len), v, g)
             && if q.h == q.t then result == EEMPTY && r == q && dst == []
                else result == |dst| == Min(q.t - q.h, cmd.len) && ByteQueue.Step(q, ByteQueue.Take(dst), r)
    ensures t == Turn(cmd, result, dst, t.ops, r) && Performed(StreamOf(l.tr), t) && Did(u, l, cmd, t, v, g)
  {
    hide StreamOf, Shrank, ByteQueue.Step;
    t := Turn(cmd, result, dst, if result < 0 then [] else [ByteQueue.Take(dst)], r);
  }

  lemma DropTurn(u: Supply, l: Line, cmd: Command, r: ByteQueue.Queue, result: int, v: Supply, g: Shape)
    returns (t: Turn)
    requires var q := StreamOf(l.tr);
             && cmd.Drop? && ByteQueue.Sound(q) && q.h == l.f.h && q.t == l.f.t && q.h <= q.t
             && Shrank(u, l.f, Min(l.f.t - l.f.h, cmd.len), v, g)
             && if q.h == q.t then result == EEMPTY && r == q
                else result == Min(q.t - q.h, cmd.len) && r == q.(h := q.h + result)
    ensures t == Turn(cmd, result, [], t.ops, r) && Performed(StreamOf(l.tr), t) && Did(u, l, cmd, t, v, g)
  {
    hide StreamOf, Shrank, ByteQueue.Step, ByteQueue.Sound;
    t := Turn(cmd, result, [], [], r);
    if result >= 0 {
      var out := DropStep(StreamOf(l.tr), result);
      t := Turn(cmd, result, [], [ByteQueue.Take(out)], r);
    }
  }

  lemma DequeueAllowed(l: Line, cmd: Command)
    requires cmd.Dequeue? && Allowed(l, cmd)
    ensures CanDequeue(l.f, 0, cmd.len) && !l.deqInit
  {
    assert !CanDequeue(l.f, 2, cmd.len);
  }

  /** Dequeues; says what is offered to the fifo afterwards. */
  method TakeBytes(f: Fifo, len: nat) returns (r: int, dst: seq<byte>)
    requires f.Valid() && CanDequeue(f.Sh(), f.deqTo, len)
    modifies f, f.seg, f.ooo
    ensures Kept(f) && f.t == old(f.t) && old(f.h) <= f.t && f.enqInit == old(f.enqInit) && f.deqInit == old(f.deqInit)
    ensures f.chain == old(f.chain)[old(f.Passes(len))..]
    ensures var o := old(f.Returned(f.Passes(len)));
            f.Offer() == Supply(o.stock, o.index, old(f.Offer()).max)
    ensures Settles(old(f.seg.slices), f.seg.slices, f.slice, f.seg.byteIndex,
                    Outcome(0, f.Offer().stock, f.Offer().index))
    ensures if old(f.h) == f.t then r == EEMPTY && f.View() == old(f.View()) && dst == []
            else && r == |dst| == Min(f.t - old(f.h), len)
                 && ByteQueue.Step(old(f.View()), ByteQueue.Take(dst), f.View())
  {
    hide Apart, Segment.Valid, OutOfOrder.OooList.Valid, Contents, Fifo.Valid, Settles, ByteQueue.Step, Fifo.Offer,
         Fifo.Returned, Fifo.Passes, Wrap, Plus, Minus, ChunkEnd, PosGt, PosGeq, PosLt, IncludesPos, CanDequeue;
    ValidEnds(f);
    OfferIndex(f);
    ghost var s0, o := f.seg.slices, f.Returned(f.Passes(len));
    r, dst := f.Dequeue(len);
    f.ValidSegment();
    OfferSettled(f, s0, o);
    OfferIndex(f);
  }

  method RunDequeue(f: Fifo, cmd: Command, ghost l: Line) returns (r: int, dst: seq<byte>, ghost t: Turn)
    requires f.Valid() && LineOf(f, l) && cmd.Dequeue? && Allowed(l, cmd)
    modifies f, f.seg, f.ooo
    ensures Dealt(f, l, cmd, t) && t.r == r && t.dst == dst
  {
    hide Kept, Contents, Fifo.Valid, Settles, Returning, PassedBy, LineOf, StreamOf, ByteQueue.Step, Did, Performed,
         Shrank, Fifo.Offer, Fifo.Returned, Fifo.Passes, CanDequeue, Minus, ChunkEnd;
    ValidEnds(f);
    LineGives(f, l, cmd.len);
    DequeueAllowed(l, cmd);
    OfferIndex(f);
    ghost var u := f.Offer();
    r, dst := TakeBytes(f, cmd.len);
    ShrankIntro(u, l.f, Min(l.f.t - l.f.h, cmd.len), f.Offer(), f.Sh());
    t := DequeueTurn(u, l, cmd, f.View(), r, dst, f.Offer(), f.Sh());
  }

  /** Drops bytes; says what is offered to the fifo afterwards. */
  method DropBytes(f: Fifo, len: nat) returns (r: int)
    requires f.Valid() && len < TWO32
    modifies f, f.seg, f.ooo
    ensures Kept(f) && f.t == old(f.t) && old(f.h) <= f.t && f.enqInit == old(f.enqInit) && f.deqInit == old(f.deqInit)
    ensures f.chain == old(f.chain)[old(f.Passes(len))..]
    ensures var o := old(f.Returned(f.Passes(len)));
            f.Offer() == Supply(o.stock, o.index, old(f.Offer()).max)
    ensures Settles(old(f.seg.slices), f.seg.slices, f.slice, f.seg.byteIndex,
                    Outcome(0, f.Offer().stock, f.Offer().index))
    ensures if old(f.h) == f.t then r == EEMPTY && f.View() == old(f.View())
            else r == Min(f.t - old(f.h), len) && f.h == old(f.h) + r && f.View() == old(f.View()).(h := f.h)
  {
    hide Apart, Segment.Valid, OutOfOrder.OooList.Valid, Contents, Fifo.Valid, Settles, ByteQueue.Step, Fifo.Offer,
         Fifo.Returned, Fifo.Passes, Wrap, Plus, Minus, ChunkEnd, PosGt, PosGeq, PosLt, IncludesPos, CanDequeue;
    ValidEnds(f);
    OfferIndex(f);
    ghost var s0, o := f.seg.slices, f.Returned(f.Passes(len));
    r := f.DequeueDrop(len);
    f.ValidSegment();
    OfferSettled(f, s0, o);
    OfferIndex(f);
  }

  method RunDrop(f: Fifo, cmd: Command, ghost l: Line) returns (r: int, ghost t: Turn)
    requires f.Valid() && LineOf(f, l) && cmd.Drop? && Allowed(l, cmd)
    modifies f, f.seg, f.ooo
    ensures Dealt(f, l, cmd, t) && t.r == r && t.dst == []
  {
    hide Kept, Contents, Fifo.Valid, Settles, Returning, PassedBy, LineOf, StreamOf, ByteQueue.Sound, Did, Performed,
         Shrank, Fifo.Offer, Fifo.Returned, Fifo.Passes, Minus, ChunkEnd;
    ValidEnds(f);
    f.ViewSound();
    LineGives(f, l, cmd.len);
    OfferIndex(f);
    ghost var u := f.Offer();
    r := DropBytes(f, cmd.len);
    ShrankIntro(u, l.f, Min(l.f.t - l.f.h, cmd.len), f.Offer(), f.Sh());
    t := DropTurn(u, l, cmd, f.View(), r, f.Offer(), f.Sh());
  }

  method RunPeek(f: Fifo, cmd: Command, ghost l: Line) returns (r: int, dst: seq<byte>, ghost t: Turn)
    requires f.Valid() && LineOf(f, l) && cmd.Peek? && Allowed(l, cmd)
    modifies f, f.seg, f.ooo
    ensures Dealt(f, l, cmd, t) && t.r == r && t.dst == dst
  {
    hide Apart, Only, Segment.Valid, OutOfOrder.OooList.Valid, Contents, Fifo.Valid, Settles, Traced, StreamOf,
         ByteQueue.Step, Wrap, Plus, Minus, ChunkEnd, PosGt;
    ValidEnds(f);
    f.ValidSegment();
    OfferOfFacts(f.seg, f.slice);
    ContentsEnds(f.Sh(), f.ooo.nodes);
    ghost var q := f.View();
    r, dst := f.Peek(cmd.offset, cmd.len);
    OnlyApart(old(f.seg.mem), f.seg.mem, f.seg.place, f.chain);
    t := Turn(cmd, r, dst, if r < 0 then [] else [ByteQueue.Peek(q.h + cmd.offset, dst)], f.View());
  }

  // ---- Commands on the crew ----

  /** The line of a fifo after one more turn. */
  ghost function NextLine(f: Fifo, l: Line, t: Turn): Line
    reads f
  {
    Line(f.Sh(), f.minAlloc, f.enqInit, f.deqInit, l.tr + [t])
  }

  lemma NextLineOf(f: Fifo, l: Line, t: Turn)
    requires Traced(l.tr) && Performed(StreamOf(l.tr), t) && t.q == f.View()
    ensures LineOf(f, NextLine(f, l, t))
  {
    hide Performed, Traced, StreamOf, Contents;
    TracedMore(l.tr, t);
  }

  /** Performs a command its operation is defined for. */
  method Act(f: Fifo, cmd: Command, ghost l: Line) returns (x: Reply, ghost t: Turn)
    requires f.Valid() && LineOf(f, l) && !cmd.Free? && Allowed(l, cmd)
    modifies f, f.seg, f.ooo
    ensures Dealt(f, l, cmd, t) && x == Reply(t.r, t.dst)
  {
    hide Dealt, LineOf, Fifo.Valid;
    var r, dst := 0, [];
    match cmd {
      case Enqueue(_, _) => r, t := RunEnqueue(f, cmd, l);
      case EnqueueAhead(_, _, _) => r, t := RunAhead(f, cmd, l);
      case Dequeue(_, _) => r, dst, t := RunDequeue(f, cmd, l);
      case Drop(_, _) => r, t := RunDrop(f, cmd, l);
      case Peek(_, _, _) => r, dst, t := RunPeek(f, cmd, l);
      case Track(_, _) => r, t := RunTrack(f, cmd, l);
    }
    x := Reply(r, dst);
  }

  /** The command was carried out on fifo f, which l described before it and k describes now. */
  twostate predicate Done(f: Fifo, l: Line, cmd: Command, x: Reply, k: Line)
    reads f, f.seg, f.ooo
  {
    && Kept(f) && LineOf(f, k) && Effect(old(f.Offer()), l, cmd, x, f.Offer(), k)
    && Settles(old(f.seg.slices), f.seg.slices, f.slice, f.seg.byteIndex, Outcome(0, f.Offer().stock, f.Offer().index))
  }

  method Advance(f: Fifo, cmd: Command, ghost l: Line) returns (x: Reply, ghost k: Line)
    requires f.Valid() && LineOf(f, l) && !cmd.Free? && Allowed(l, cmd)
    modifies f, f.seg, f.ooo
    ensures Done(f, l, cmd, x, k)
  {
    hide Effect, Did, Kept, Settles, Contents, Traced, StreamOf, Performed, Fifo.Valid, Allowed, Fifo.Offer;
    ghost var t: Turn;
    x, t := Act(f, cmd, l);
    NextLineOf(f, l, t);
    k := NextLine(f, l, t);
    ContentsEnds(f.Sh(), f.ooo.nodes);
    EffectOf(old(f.Offer()), l, t, f.Offer(), k);
  }

  /** The record after fifo i, now described by k, was used. */
  ghost function UsedSnap(seg: Segment, a: Snap, i: nat, k: Line): Snap
    requires i < |a.lines|
    reads seg
  {
    Snap(Stocks(seg.slices), seg.byteIndex, seg.maxByteIndex, a.headers, a.lines[i := k])
  }

  lemma UsesIntro(a: Snap, i: nat, cmd: Command, x: Reply, b: Snap, s0: seq<Slice>, s1: seq<Slice>, v: Supply, k: Line)
    requires i < |a.lines| && a.stocks == Stocks(s0)
    requires b == Snap(Stocks(s1), v.index, a.max, a.headers, a.lines[i := k])
    requires Settles(s0, s1, a.lines[i].f.slice, v.index, Outcome(0, v.stock, v.index)) && v.max == a.max
    requires Effect(SupplyAt(a, a.lines[i].f.slice), a.lines[i], cmd, x, v, k)
    ensures Uses(a, i, cmd, x, b)
  {
    hide Effect, Settles, Stocks;
    StocksSettled(s0, s1, a.lines[i].f.slice, v.index, Outcome(0, v.stock, v.index));
  }

  /** What fifo i is offered, by the record. */
  lemma OfferRecorded(seg: Segment, pool: HeaderPool, fs: seq<Fifo>, a: Snap, i: nat)
    requires Recorded(seg, pool, fs, a) && i < |fs| && fs[i].seg == seg
    ensures SupplyAt(a, a.lines[i].f.slice) == fs[i].Offer() && LineOf(fs[i], a.lines[i])
    ensures a.lines[i].f.slice == fs[i].slice && a.lines[i].f == fs[i].Sh()
  {
    hide Traced, StreamOf, Contents, Stock;
  }

  /** Performs a command on fifo i of the crew. */
  method Operate(seg: Segment, pool: HeaderPool, fs: seq<Fifo>, i: nat, cmd: Command, ghost a: Snap)
    returns (x: Reply, ghost b: Snap)
    requires Crew(seg, fs) && Recorded(seg, pool, fs, a) && i < |fs| && !cmd.Free? && Allowed(a.lines[i], cmd)
    modifies seg, fs[i], fs[i].ooo
    ensures Crew(seg, fs) && |seg.slices| == |old(seg.slices)| && Recorded(seg, pool, fs, b) && Uses(a, i, cmd, x, b)
  {
    hide Laid, Apart, Ptrs, Segment.Valid, Fifo.Valid, Fleet, Aside, Effect, Allowed, LineOf, Settles, Stocks, Uses;
    CrewAside(seg, fs);
    OfferRecorded(seg, pool, fs, a, i);
    ghost var m, w, shapes, s0 := seg.mem, seg.place, Shapes(fs), seg.slices;
    ghost var k: Line;
    x, k := Advance(fs[i], cmd, a.lines[i]);
    ValidLaid(fs[i]);
    CrewStep(seg, fs, i, m, w, shapes);
    b := UsedSnap(seg, a, i, k);
    UsesIntro(a, i, cmd, x, b, s0, seg.slices, fs[i].Offer(), k);
    RecordedUse(seg, pool, fs, a, i, b, k);
  }

  lemma RecordedUse(seg: Segment, pool: HeaderPool, fs: seq<Fifo>, a: Snap, i: nat, b: Snap, k: Line)
    requires i < |fs| == |a.lines| && b == UsedSnap(seg, a, i, k) && a.headers == pool.free && LineOf(fs[i], k)
    requires forall j :: 0 <= j < |fs| && j != i ==> LineOf(fs[j], a.lines[j])
    ensures Recorded(seg, pool, fs, b)
  {
    hide LineOf, Stocks;
  }

  /** A failed allocation may have carved chunks; the crew does not notice. */
  lemma CrewSame(seg: Segment, fs: seq<Fifo>, m: Memory, w: map<Sptr, Place>, a: seq<Shape>)
    requires |fs| == |a| && Distinct(fs) && Fleet(m, w, a) && seg.Valid()
    requires forall j :: 0 <= j < |fs| ==> fs[j].seg == seg && Aside(fs[j], m, a[j], |seg.slices|)
    requires Apart(m, seg.mem, w, seg.place, [], [])
    ensures Crew(seg, fs)
  {
    hide Laid, Ptrs, Segment.Valid, Fifo.Valid, Aside, Apart, Fleet;
    forall j | 0 <= j < |fs|
      ensures fs[j].Valid() && fs[j].Sh() == a[j]
    {
      FleetLaid(m, w, a, j);
      Bystander(seg, fs[j], m, w, a[j], [], []);
    }
    FleetSame(m, seg.mem, w, seg.place, a);
    assert Shapes(fs) == a;
  }

  lemma FleetSame(m: Memory, q: Memory, w: map<Sptr, Place>, v: map<Sptr, Place>, a: seq<Shape>)
    requires Fleet(m, w, a) && Apart(m, q, w, v, [], [])
    ensures Fleet(q, v, a)
  {
    hide Laid;
    forall j | 0 <= j < |a|
      ensures Laid(q, v, a[j])
    {
      ListIntact(m, q, w, v, [], [], a[j]);
    }
  }

  /** A new fifo's line. */
  lemma NewbornLine(f: Fifo, cmd: Command, total: nat) returns (l: Line)
    requires cmd.Create? && f.View() == ByteQueue.Queue(0, 0, map[]) && f.chain != [] && End(f.chain) == total
    requires f.size == cmd.size && f.slice == cmd.slice && f.minAlloc == MinAlloc(cmd.size) && !f.enqInit && !f.deqInit
    ensures LineOf(f, l) && Newborn(l, cmd, total)
  {
    hide Contents, MinAlloc;
    ContentsEnds(f.Sh(), f.ooo.nodes);
    l := Line(f.Sh(), f.minAlloc, f.enqInit, f.deqInit, []);
  }

  lemma CreatesIntro(a: Snap, cmd: Command, x: Reply, b: Snap, s0: seq<Slice>, s1: seq<Slice>, o: Outcome, n: int)
    requires cmd.Create? && a.stocks == Stocks(s0) && cmd.slice < |s0| == |a.headers|
    requires o == Founding(SupplyAt(a, cmd.slice), a.headers[cmd.slice], cmd.size, cmd.pct, cmd.max)
    requires n == HeadersLeft(SupplyAt(a, cmd.slice), a.headers[cmd.slice], cmd.size, cmd.pct, cmd.max) >= 0
    requires Settles(s0, s1, cmd.slice, o.index, o)
    requires b == Snap(Stocks(s1), o.index, a.max, a.headers[cmd.slice := n], b.lines)
    requires x == Reply(if o.total == 0 then ENOFIFO else 0, [])
    requires if o.total == 0 then b.lines == a.lines
             else && |b.lines| == |a.lines| + 1 && b.lines[..|a.lines|] == a.lines
                  && Newborn(b.lines[|a.lines|], cmd, o.total)
    ensures Creates(a, cmd, x, b)
  {
    hide Stocks, Settles, Founding, HeadersLeft, Newborn;
    StocksSettled(s0, s1, cmd.slice, o.index, o);
  }

  lemma HeadersJoin(fs: seq<Fifo>, f: Fifo, s: nat)
    ensures InSlice(fs + [f], s) == InSlice(fs, s) + if f.slice == s then 1 else 0
  {
    assert (fs + [f])[..|fs|] == fs;
  }

  /** A new fifo for the crew, if the segment has room for it. */
  method Enlist(seg: Segment, pool: HeaderPool, fs: seq<Fifo>, cmd: Command, ghost a: Snap)
    returns (gs: seq<Fifo>, x: Reply, ghost b: Snap)
    requires Crew(seg, fs) && HeadersMatch(pool, seg, fs) && Recorded(seg, pool, fs, a) && cmd.Create?
    requires InDomain(a, cmd)
    modifies seg, pool
    ensures Crew(seg, gs) && HeadersMatch(pool, seg, gs) && |seg.slices| == |old(seg.slices)|
    ensures gs == fs || (|gs| == |fs| + 1 && gs[..|fs|] == fs && fresh(gs[|fs|]) && fresh(gs[|fs|].ooo))
    ensures Recorded(seg, pool, gs, b) && Creates(a, cmd, x, b)
  {
    hide Laid, Apart, Ptrs, Segment.Valid, Fifo.Valid, Fleet, Aside, FirstAlloc, Founding, HeadersLeft, Settles, LineOf,
         Newborn, MinAlloc, Creates, InSlice, Contents, Stock;
    CrewAside(seg, fs);
    ghost var m, w, shapes, s0 := seg.mem, seg.place, Shapes(fs), seg.slices;
    ghost var o := Founding(OfferOf(seg, cmd.slice), pool.free[cmd.slice], cmd.size, cmd.pct, cmd.max);
    ghost var n := HeadersLeft(OfferOf(seg, cmd.slice), pool.free[cmd.slice], cmd.size, cmd.pct, cmd.max);
    gs := fs;
    ghost var lines := a.lines;
    var f := AllocFifo(seg, pool, cmd.slice, cmd.size, cmd.pct, cmd.max);
    if f == null {
      CrewSame(seg, fs, m, w, shapes);
      x := Reply(ENOFIFO, []);
    } else {
      CrewJoin(seg, fs, f, m, w, shapes);
      ghost var l := NewbornLine(f, cmd, o.total);
      gs, x, lines := fs + [f], Reply(0, []), a.lines + [l];
      forall s
        ensures InSlice(gs, s) == InSlice(fs, s) + if cmd.slice == s then 1 else 0
      {
        HeadersJoin(fs, f, s);
      }
    }
    b := Snap(Stocks(seg.slices), seg.byteIndex, seg.maxByteIndex, pool.free, lines);
    StocksSettled(s0, seg.slices, cmd.slice, seg.byteIndex, o);
    CreatesIntro(a, cmd, x, b, s0, seg.slices, o, n);
  }

  lemma FreesIntro(a: Snap, i: nat, x: Reply, b: Snap, s0: seq<Slice>, s1: seq<Slice>, o: Outcome)
    requires i < |a.lines| && a.stocks == Stocks(s0) && x == Reply(0, []) && |a.headers| == |s0|
    requires var f := a.lines[i].f;
             && f.slice < |s0| && o == Returning(SupplyAt(a, f.slice), f, |f.c|) && Settles(s0, s1, f.slice, a.index, o)
             && b == Snap(Stocks(s1), a.index, a.max, a.headers[f.slice := a.headers[f.slice] + 1],
                          a.lines[..i] + a.lines[i + 1..])
    ensures Frees(a, i, x, b)
  {
    hide Stocks, Settles, Returning;
    StocksSettled(s0, s1, a.lines[i].f.slice, a.index, o);
  }

  /** Fifo i gives its chunks and its header back and leaves. */
  method Dismiss(seg: Segment, pool: HeaderPool, fs: seq<Fifo>, i: nat, ghost a: Snap)
    returns (gs: seq<Fifo>, x: Reply, ghost b: Snap)
    requires Crew(seg, fs) && HeadersMatch(pool, seg, fs) && Recorded(seg, pool, fs, a) && i < |fs|
    modifies seg, pool
    ensures Crew(seg, gs) && HeadersMatch(pool, seg, gs) && |seg.slices| == |old(seg.slices)|
    ensures gs == fs[..i] + fs[i + 1..] && Recorded(seg, pool, gs, b) && Frees(a, i, x, b)
  {
    hide Laid, Apart, Ptrs, Segment.Valid, Fifo.Valid, Fleet, Aside, InSlice, LineOf, Settles, Returning, Frees,
         Contents;
    CrewAside(seg, fs);
    OfferRecorded(seg, pool, fs, a, i);
    ghost var m, w, shapes, s0, o := seg.mem, seg.place, Shapes(fs), seg.slices, fs[i].Returned(|fs[i].chain|);
    fs[i].ValidSegment();
    FreeFifo(fs[i], pool);
    CrewLeave(seg, fs, i, m, w, shapes);
    gs, x := fs[..i] + fs[i + 1..], Reply(0, []);
    forall s
      ensures InSlice(gs, s) == InSlice(fs, s) - if fs[i].slice == s then 1 else 0
    {
      InSliceWithout(fs, i, s);
    }
    b := Snap(Stocks(seg.slices), seg.byteIndex, seg.maxByteIndex, pool.free, a.lines[..i] + a.lines[i + 1..]);
    StocksSettled(s0, seg.slices, fs[i].slice, seg.byteIndex, o);
    FreesIntro(a, i, x, b, s0, seg.slices, o);
  }

  /** The counters of the segment account for every chunk: on a free list, or linked in one of the fifos. */
  ghost predicate Accounted(seg: Segment, fs: seq<Fifo>)
    reads seg, fs
  {
    && (forall s, k :: 0 <= s < |seg.slices| && 0 <= k < N_CLASSES ==> AccountedAt(seg, fs, s, k))
    && seg.cachedBytes == TotalFree(seg.slices, |seg.slices|)
  }

  ghost predicate AccountedAt(seg: Segment, fs: seq<Fifo>, s: nat, k: nat)
    reads seg, fs
  {
    && s < |seg.slices| && k < N_CLASSES == |seg.slices[s].free| == |seg.slices[s].numChunks|
    && seg.slices[s].numChunks[k] == |seg.slices[s].free[k]| + |Linked(seg.place, Shapes(fs), s, k)|
    && seg.slices[s].flBytes == FreeBytes(seg.slices[s].free, N_CLASSES)
  }

  lemma CrewAccounted(seg: Segment, fs: seq<Fifo>)
    requires Crew(seg, fs)
    ensures Accounted(seg, fs)
  {
    hide Segment.Valid, Fifo.Valid, Fleet, Linked, FreeBytes, TotalFree;
    forall s, k | 0 <= s < |seg.slices| && 0 <= k < N_CLASSES
      ensures AccountedAt(seg, fs, s, k)
    {
      FleetConserves(seg, Shapes(fs), s, k);
    }
    seg.CachedTotal();
  }

  /** Performs one command on the crew. */
  method Perform(seg: Segment, pool: HeaderPool, fs: seq<Fifo>, cmd: Command, ghost a: Snap)
    returns (gs: seq<Fifo>, x: Reply, ghost b: Snap)
    requires Crew(seg, fs) && HeadersMatch(pool, seg, fs) && Recorded(seg, pool, fs, a)
    modifies seg, pool, fs, set i | 0 <= i < |fs| :: fs[i].ooo
    ensures Crew(seg, gs) && HeadersMatch(pool, seg, gs) && |seg.slices| == |old(seg.slices)|
    ensures Recorded(seg, pool, gs, b) && Follows(a, cmd, x, b)
    ensures forall i ::
              0 <= i < |gs| ==>
                && (gs[i] in fs || fresh(gs[i]))
                && (fresh(gs[i].ooo) || exists j :: 0 <= j < |fs| && fs[j].ooo == gs[i].ooo)
  {
    hide Segment.Valid, LineOf, Contents, Allowed, Creates, Frees, Uses, Fifo.Valid, Fleet, Laid, Stock;
    gs, x, b := fs, Reply(EREFUSED, []), a;
    if cmd.Create? {
      if cmd.slice < |seg.slices| && 0 < cmd.size <= MAX_FIFO && cmd.pct < 256 {
        gs, x, b := Enlist(seg, pool, fs, cmd, a);
      }
    } else if cmd.i < |fs| {
      var ok := Admits(fs[cmd.i], cmd, a.lines[cmd.i]);
      if ok {
        if cmd.Free? {
          gs, x, b := Dismiss(seg, pool, fs, cmd.i, a);
        } else {
          x, b := Operate(seg, pool, fs, cmd.i, cmd, a);
        }
      }
    }
  }

  /**
   From a segment without chunks in use on, performs any commands in any order. hist records the state before the
   first and after each command: the free chunks and headers, and every fifo in use with the commands performed on
   it so far. The first record is the segment as it was, the last one the segment and the fifos as they are, and
   each command leads from one record to the next as its operation prescribes: refused exactly outside its domain,
   full, empty or short of chunks exactly when the record before says so. In the end every fifo is valid, the fifos
   together hold exactly the chunks handed out, each in one of them, and the counters and the headers match.
   */
  method Drive(seg: Segment, cmds: seq<Command>)
    returns (fs: seq<Fifo>, pool: HeaderPool, xs: seq<Reply>, ghost hist: seq<Snap>)
    requires seg.Valid() && forall p :: p in seg.place ==> !seg.place[p].used
    modifies seg
    ensures Crew(seg, fs) && Accounted(seg, fs) && HeadersMatch(pool, seg, fs) && |seg.slices| == |old(seg.slices)|
    ensures |xs| == |cmds| && |hist| == |cmds| + 1 && Recorded(seg, pool, fs, hist[|cmds|])
    ensures hist[0] == old(Snap(Stocks(seg.slices), seg.byteIndex, seg.maxByteIndex, seq(|seg.slices|, _ => 0), []))
    ensures forall n :: 0 <= n < |cmds| ==> Follows(hist[n], cmds[n], xs[n], hist[n + 1])
  {
    hide Crew, Accounted, Segment.Valid, LineOf, Follows, Stock;
    CrewNone(seg);
    CrewAccounted(seg, []);
    fs, xs := [], [];
    pool := new HeaderPool(|seg.slices|);
    ghost var start := Snap(Stocks(seg.slices), seg.byteIndex, seg.maxByteIndex, pool.free, []);
    hist := [start];
    for n := 0 to |cmds|
      invariant Crew(seg, fs) && Accounted(seg, fs) && HeadersMatch(pool, seg, fs)
      invariant |seg.slices| == |old(seg.slices)| && fresh(pool)
      invariant |xs| == n && |hist| == n + 1 && hist[0] == start && Recorded(seg, pool, fs, hist[n])
      invariant forall k :: 0 <= k < n ==> Follows(hist[k], cmds[k], xs[k], hist[k + 1])
      invariant forall i :: 0 <= i < |fs| ==> fresh(fs[i]) && fresh(fs[i].ooo)
    {
      var x;
      ghost var b;
      fs, x, b := Perform(seg, pool, fs, cmds[n], hist[n]);
      CrewAccounted(seg, fs);
      xs, hist := xs + [x], hist + [b];
    }
  }
}
