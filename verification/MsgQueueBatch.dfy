/**
 Taking descriptors off the message queue, one at a time or many at once across the wrap.
 */
module MsgQueueBatch {
  import opened Positions
  import opened MsgQueueOrder
  import opened MsgQueueLayout

  /** The descriptor queue as a value. */
  datatype Queue = Queue(data: seq<Msg>, head: nat, size: nat, max: nat)

  ghost predicate Ok(q: Queue) {
    0 < q.max == |q.data| && q.head < q.max && q.size <= q.max
  }

  lemma SlotIn(h: nat, c: nat, n: nat)
    requires n > 0
    ensures Slot(h, c, n) < n
  {
  }

  lemma SlotNext(h: nat, c: nat, n: nat)
    requires h < n && c < n
    ensures Slot(Slot(h, 1, n), c, n) == Slot(h, c + 1, n) && Slot(h, 0, n) == h
  {
    SlotShift(h, c, n);
    SlotOnce(h, 0, n);
  }

  /** What one take leaves. */
  ghost function Rest(q: Queue): Queue
    requires Ok(q) && q.size > 0
  {
    q.(head := Slot(q.head, 1, q.max), size := q.size - 1)
  }

  lemma RestOk(q: Queue)
    requires Ok(q) && q.size > 0
    ensures Ok(Rest(q))
  {
    SlotOnce(q.head, 1, q.max);
  }

  /** What k takes in a row leave, and the messages they return. */
  ghost function Takes(q: Queue, k: nat): (Queue, seq<Msg>)
    requires Ok(q) && k <= q.size
    decreases k
  {
    if k == 0 then (q, [])
    else
      RestOk(q);
      var r := Takes(Rest(q), k - 1);
      (r.0, [q.data[q.head]] + r.1)
  }

  lemma TakeOne(q: Queue)
    requires Ok(q) && q.size > 0
    ensures Takes(q, 1) == (Rest(q), [q.data[q.head]])
  {
    RestOk(q);
    assert Takes(Rest(q), 0) == (Rest(q), []);
    assert [q.data[q.head]] + [] == [q.data[q.head]];
  }

  ghost function Window(q: Queue, k: nat): seq<Msg>
    requires Ok(q)
  {
    seq(k, j requires 0 <= j < k => (SlotIn(q.head, j, q.max); q.data[Slot(q.head, j, q.max)]))
  }

  /** A window is the first descriptor and the window of what one take leaves. */
  lemma WindowNext(q: Queue, k: nat)
    requires Ok(q) && 0 < k <= q.size
    ensures Ok(Rest(q)) && Window(q, k) == [q.data[q.head]] + Window(Rest(q), k - 1)
  {
    hide Slot;
    RestOk(q);
    var w, v := Window(q, k), [q.data[q.head]] + Window(Rest(q), k - 1);
    forall j | 0 <= j < k
      ensures w[j] == v[j]
    {
      SlotNext(q.head, if j == 0 then 0 else j - 1, q.max);
    }
  }

  /** Repeated takes move the head by their number and return the descriptors in ring order. */
  lemma {:induction false} TakesAre(q: Queue, k: nat)
    requires Ok(q) && k <= q.size
    ensures Takes(q, k) == (q.(head := Slot(q.head, k, q.max), size := q.size - k), Window(q, k))
    decreases k
  {
    hide Window, Slot;
    if k == 0 {
      SlotNext(q.head, 0, q.max);
      WindowNone(q);
    } else {
      WindowNext(q, k);
      TakesAre(Rest(q), k - 1);
      SlotNext(q.head, k - 1, q.max);
    }
  }

  lemma WindowNone(q: Queue)
    requires Ok(q)
    ensures Window(q, 0) == []
  {
  }

  /** A window is one piece of the ring, or its end followed by its start. */
  lemma WindowPieces(q: Queue, k: nat)
    requires Ok(q) && k <= q.size
    ensures q.head + k < q.max ==> Window(q, k) == q.data[q.head..q.head + k]
    ensures q.head + k >= q.max ==> Window(q, k) == q.data[q.head..q.max] + q.data[..q.head + k - q.max]
  {
    var w := Window(q, k);
    forall j | 0 <= j < k
      ensures w[j] == q.data[if q.head + j < q.max then q.head + j else q.head + j - q.max]
    {
      SlotOnce(q.head, j, q.max);
    }
  }

  /** The 32-bit test whether a batch stays in front of the end of the ring. */
  predicate StaysInFront(max: nat, head: nat, k: nat) {
    Wrap(head + k) < max
  }

  /**
   The test is right for every head and every batch if and only if the queue has at most 2^31 descriptors. A queue
   whose size fits its 32-bit field is far from that: it has fewer than 2^29.
   */
  lemma TestExactIff(max: u32)
    requires max > 0
    ensures (forall head: nat, k: nat ::
               head < max && k <= max ==> (StaysInFront(max, head, k) <==> head + k < max)) <==> max <= TWO31
    ensures forall cfg: Cfg :: Fits(cfg) && cfg.qItems == max ==> max < TWO31
  {
    hide Wrap;
    forall cfg: Cfg | Fits(cfg) && cfg.qItems == max
      ensures max < TWO31
    {
      FitsSmall(cfg);
    }
    if max <= TWO31 {
      forall head: nat, k: nat | head < max && k <= max
        ensures StaysInFront(max, head, k) <==> head + k < max
      {
        WrapSmall(head + k);
      }
    } else {
      var head: nat, k: nat := max - 1, TWO32 - (max - 1);
      WrapOver(head + k);
      assert k <= max && StaysInFront(max, head, k) && head + k >= max;
    }
  }

  class MsgQueue {
    const cfg: Cfg
    const max: nat
    var data: seq<Msg>
    var head: nat
    var size: nat

    ghost function Q(): Queue
      reads this
    {
      Queue(data, head, size, max)
    }

    /** The ring is intact, and it is one that was laid out without cutting its size. */
    ghost predicate Valid()
      reads this
    {
      Ok(Q()) && Fits(cfg) && max == cfg.qItems
    }

    constructor (cfg: Cfg, data: seq<Msg>, head: nat, size: nat)
      requires Fits(cfg) && 0 < cfg.qItems == |data| && head < cfg.qItems && size <= cfg.qItems
      ensures Valid() && Q() == Queue(data, head, size, cfg.qItems)
    {
      this.cfg := cfg;
      this.max := cfg.qItems;
      this.data := data;
      this.head := head;
      this.size := size;
    }

    method SubRaw() returns (m: Msg)
      requires Valid() && size > 0
      modifies this`head, this`size
      ensures Valid() && (Q(), [m]) == Takes(old(Q()), 1)
    {
      RestOk(Q());
      TakeOne(Q());
      m := data[head];
      head := (head + 1) % max;
      size := size - 1;
    }

    /** Takes up to n messages at once; the outcome is that of as many single takes. */
    method SubRawBatch(n: nat) returns (msgs: seq<Msg>)
      requires Valid() && size > 0
      modifies this`head, this`size
      ensures |msgs| == Min(n, old(size)) && Valid() && (Q(), msgs) == Takes(old(Q()), |msgs|)
    {
      hide Takes, Window, Wrap;
      FitsSmall(cfg);
      var k: nat := Min(size, n);
      WrapSmall(head + k);
      TakesAre(Q(), k);
      WindowPieces(Q(), k);
      SlotOnce(head, k, max);
      if StaysInFront(max, head, k) {
        msgs := data[head..head + k];
        head := head + k;
      } else {
        var first := max - head;
        msgs := data[head..head + first] + data[..k - first];
        head := (head + k) % max;
      }
      size := size - k;
    }
  }
}
