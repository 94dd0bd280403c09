/**
 What a fifo is for: a byte stream with absolute positions. Bytes below the tail are
 committed, bytes above it may be known already, and reading consumes from the head.
 */
module ByteQueue {
  import opened Positions

  /** Bytes known so far, the next position to read and the first position never written. */
  datatype Queue = Queue(h: nat, t: nat, bytes: map<nat, byte>)

  ghost predicate Sound(q: Queue) {
    && q.h <= q.t
    && (forall p: nat :: p < q.t ==> p in q.bytes)
    && q.t !in q.bytes
  }

  /** The bytes of x were stored at position at, and the tail moved to the first position never written. */
  ghost predicate Put(q: Queue, r: Queue, at: nat, x: seq<byte>) {
    && r.h == q.h && q.t <= r.t
    && (forall p: nat :: p in r.bytes <==> p in q.bytes || at <= p < at + |x|)
    && (forall p: nat :: p in r.bytes ==> r.bytes[p] == if at <= p < at + |x| then x[p - at] else q.bytes[p])
    && (forall p: nat :: q.t <= p < r.t ==> p in r.bytes)
    && r.t !in r.bytes
  }

  /** out is what the stream holds from position at on. */
  ghost predicate Reads(q: Queue, at: nat, out: seq<byte>) {
    forall i :: 0 <= i < |out| ==> ReadAt(q, at, out, i)
  }

  ghost predicate ReadAt(q: Queue, at: nat, out: seq<byte>, i: int) {
    0 <= i < |out| && at + i in q.bytes && out[i] == q.bytes[at + i]
  }

  /** Reading the same number of bytes at the same position gives the same bytes. */
  lemma ReadsUnique(q: Queue, at: nat, a: seq<byte>, b: seq<byte>)
    requires Reads(q, at, a) && Reads(q, at, b)
    ensures |a| == |b| <==> a == b
  {
    if |a| == |b| {
      forall i | 0 <= i < |a|
        ensures a[i] == b[i]
      {
        assert ReadAt(q, at, a, i) && ReadAt(q, at, b, i);
      }
    }
  }

  /** Storing is determined by the queue, the position and the bytes. */
  lemma PutUnique(q: Queue, r: Queue, s: Queue, at: nat, x: seq<byte>)
    requires Put(q, r, at, x) && Put(q, s, at, x)
    ensures r == s
  {
    assert r.t == s.t by {
      assert forall p: nat :: q.t <= p < r.t ==> p in s.bytes;
      assert forall p: nat :: q.t <= p < s.t ==> p in r.bytes;
    }
    assert r.bytes.Keys == s.bytes.Keys;
    assert r.bytes == s.bytes;
  }

  /** The first position at or past t that is not known. */
  lemma FirstGap(bytes: map<nat, byte>, t: nat) returns (u: nat)
    ensures t <= u && u !in bytes && forall p: nat :: t <= p < u ==> p in bytes
  {
    u := t;
    while u in bytes
      invariant t <= u && forall p: nat :: t <= p < u ==> p in bytes
      decreases set p | p in bytes && p >= u
    {
      ghost var before := set p | p in bytes && p >= u;
      u := u + 1;
      assert (set p | p in bytes && p >= u) == before - {u - 1};
    }
  }

  /** Every store has an outcome. */
  lemma PutExists(q: Queue, at: nat, x: seq<byte>) returns (r: Queue)
    ensures Put(q, r, at, x)
  {
    var bytes: map<nat, byte> := q.bytes;
    for i := 0 to |x|
      invariant forall p: nat :: p in bytes <==> p in q.bytes || at <= p < at + i
      invariant forall p: nat :: p in bytes ==> bytes[p] == if at <= p < at + i then x[p - at] else q.bytes[p]
    {
      bytes := bytes[at + i := x[i]];
    }
    var u := FirstGap(bytes, q.t);
    r := Queue(q.h, u, bytes);
  }

  /** An operation of a run: a store at or past the tail, a read that consumes, a read that does not. */
  datatype Op = Write(at: nat, x: seq<byte>) | Take(out: seq<byte>) | Peek(at: nat, out: seq<byte>)

  ghost predicate Step(q: Queue, op: Op, r: Queue) {
    match op
    case Write(at, x) => q.t <= at && Put(q, r, at, x)
    case Take(out) => q.h + |out| <= q.t && Reads(q, q.h, out) && r == q.(h := q.h + |out|)
    case Peek(at, out) => q.h <= at && at + |out| <= q.t && Reads(q, at, out) && r == q
  }

  /** The queue passes from the empty stream through the states of qs by the operations of ops. */
  ghost predicate Behaviour(ops: seq<Op>, qs: seq<Queue>) {
    && |qs| == |ops| + 1 && qs[0] == Queue(0, 0, map[])
    && (forall i :: 0 <= i < |ops| ==> Step(qs[i], ops[i], qs[i + 1]))
  }

  datatype Last = Never | Byte(b: byte)

  /** The byte most recently written for a position. */
  ghost function LastWrite(ops: seq<Op>, p: nat): Last {
    if ops == [] then Never
    else
      var op := ops[|ops| - 1];
      if op.Write? && op.at <= p < op.at + |op.x| then Byte(op.x[p - op.at]) else LastWrite(ops[..|ops| - 1], p)
  }

  lemma LastWriteMore(ops: seq<Op>, more: seq<Op>, p: nat)
    requires |more| <= 1
    ensures LastWrite(ops + more, p) ==
            if more != [] && more[0].Write? && more[0].at <= p < more[0].at + |more[0].x| then
              Byte(more[0].x[p - more[0].at])
            else LastWrite(ops, p)
  {
    if more == [] {
      assert ops + more == ops;
    } else {
      assert (ops + more)[..|ops|] == ops;
    }
  }

  /** Everything handed out by consuming reads, in order. */
  ghost function Delivered(ops: seq<Op>): seq<byte> {
    if ops == [] then [] else Delivered(ops[..|ops| - 1]) + if ops[|ops| - 1].Take? then ops[|ops| - 1].out else []
  }

  ghost predicate Remembers(ops: seq<Op>, q: Queue) {
    forall p: nat ::
        (p in q.bytes <==> LastWrite(ops, p).Byte?) && (p in q.bytes ==> LastWrite(ops, p) == Byte(q.bytes[p]))
  }

  lemma BehaviourPrefix(ops: seq<Op>, qs: seq<Queue>)
    requires Behaviour(ops, qs) && ops != []
    ensures Behaviour(ops[..|ops| - 1], qs[..|ops|])
    ensures Step(qs[|ops| - 1], ops[|ops| - 1], qs[|ops|])
  {
    var a, b := ops[..|ops| - 1], qs[..|ops|];
    forall i | 0 <= i < |a|
      ensures Step(b[i], a[i], b[i + 1])
    {
      assert Step(qs[i], ops[i], qs[i + 1]);
    }
  }

  lemma BehaviourMore(ops: seq<Op>, qs: seq<Queue>, op: Op, r: Queue)
    requires Behaviour(ops, qs) && Step(qs[|ops|], op, r)
    ensures Behaviour(ops + [op], qs + [r]) && Delivered(ops + [op]) == Delivered(ops) + if op.Take? then op.out else []
  {
    hide Step;
    var a, b := ops + [op], qs + [r];
    forall i | 0 <= i < |a|
      ensures Step(b[i], a[i], b[i + 1])
    {
      assert i < |ops| ==> Step(qs[i], ops[i], qs[i + 1]);
    }
    assert a[..|ops|] == ops;
  }

  /** In every run the queue holds, at each position, exactly the byte most recently written there. */
  lemma {:induction false} LastWriteWins(ops: seq<Op>, qs: seq<Queue>)
    requires Behaviour(ops, qs)
    ensures Remembers(ops, qs[|ops|]) && Sound(qs[|ops|])
    decreases |ops|
  {
    if ops != [] {
      BehaviourPrefix(ops, qs);
      LastWriteWins(ops[..|ops| - 1], qs[..|ops|]);
      var q, r := qs[|ops| - 1], qs[|ops|];
      assert qs[..|ops|][|ops| - 1] == q;
      forall p: nat
        ensures (p in r.bytes <==> LastWrite(ops, p).Byte?) && (p in r.bytes ==> LastWrite(ops, p) == Byte(r.bytes[p]))
      {
        assert p in q.bytes <==> LastWrite(ops[..|ops| - 1], p).Byte?;
      }
    }
  }

  /** What a read returns is what was written last. */
  lemma ReadsLastWritten(ops: seq<Op>, qs: seq<Queue>, at: nat, out: seq<byte>, i: nat)
    requires Behaviour(ops, qs) && Reads(qs[|ops|], at, out) && i < |out|
    ensures LastWrite(ops, at + i) == Byte(out[i])
  {
    hide Step, LastWrite;
    LastWriteWins(ops, qs);
    assert ReadAt(qs[|ops|], at, out, i);
  }

  lemma DeliveredMore(q: Queue, op: Op, r: Queue, out: seq<byte>)
    requires Step(q, op, r) && Sound(q) && |out| == q.h && Reads(q, 0, out)
    ensures var more := out + if op.Take? then op.out else []; |more| == r.h && Reads(r, 0, more)
  {
    var more := out + if op.Take? then op.out else [];
    forall i | 0 <= i < r.h
      ensures ReadAt(r, 0, more, i)
    {
      if i < q.h {
        assert ReadAt(q, 0, out, i);
      } else {
        assert ReadAt(q, q.h, op.out, i - q.h);
      }
    }
  }

  lemma {:induction false} DeliveredReads(ops: seq<Op>, qs: seq<Queue>)
    requires Behaviour(ops, qs)
    ensures |Delivered(ops)| == qs[|ops|].h && Reads(qs[|ops|], 0, Delivered(ops))
    decreases |ops|
  {
    hide Step, Sound, Remembers, Reads;
    if ops == [] {
      ReadsNothing(qs[0]);
    } else {
      BehaviourPrefix(ops, qs);
      var a, b := ops[..|ops| - 1], qs[..|ops|];
      DeliveredReads(a, b);
      LastWriteWins(a, b);
      assert b[|a|] == qs[|ops| - 1];
      DeliveredMore(qs[|ops| - 1], ops[|ops| - 1], qs[|ops|], Delivered(a));
    }
  }

  lemma ReadsNothing(q: Queue)
    ensures Reads(q, 0, [])
  {
  }

  /** What a run has delivered is exactly the stream up to the head, each byte the last one written for its position. */
  lemma DeliveredStream(ops: seq<Op>, qs: seq<Queue>)
    requires Behaviour(ops, qs)
    ensures |Delivered(ops)| == qs[|ops|].h
    ensures forall i :: 0 <= i < |Delivered(ops)| ==> LastWrite(ops, i) == Byte(Delivered(ops)[i])
  {
    DeliveredReads(ops, qs);
    LastWriteWins(ops, qs);
    var q, out := qs[|ops|], Delivered(ops);
    forall i | 0 <= i < |out|
      ensures LastWrite(ops, i) == Byte(out[i])
    {
      assert ReadAt(q, 0, out, i);
    }
  }

  /** Committed bytes never change again. */
  lemma {:induction false} CommittedStable(ops: seq<Op>, qs: seq<Queue>, i: nat, j: nat, p: nat)
    requires Behaviour(ops, qs) && i <= j <= |ops| && p < qs[i].t
    ensures qs[i].t <= qs[j].t && qs[i].h <= qs[j].h
    ensures p in qs[i].bytes && p in qs[j].bytes && qs[j].bytes[p] == qs[i].bytes[p]
    decreases j
  {
    if i == j {
      SoundAt(ops, qs, i);
    } else {
      CommittedStable(ops, qs, i, j - 1, p);
      assert Step(qs[j - 1], ops[j - 1], qs[j - 1 + 1]);
    }
  }

  lemma SoundAt(ops: seq<Op>, qs: seq<Queue>, i: nat)
    requires Behaviour(ops, qs) && i <= |ops|
    ensures Sound(qs[i])
  {
    var a, b := ops[..i], qs[..i + 1];
    forall k | 0 <= k < |a|
      ensures Step(b[k], a[k], b[k + 1])
    {
      assert Step(qs[k], ops[k], qs[k + 1]);
    }
    LastWriteWins(a, b);
  }
}
