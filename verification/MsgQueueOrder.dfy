/**
 The message queue and its data rings: producers take turns under the lock to allocate a
 ring slot and add its descriptor, while the single consumer, without the lock, takes
 descriptors and frees their slots in the order it took them. Index moves and size
 updates are separate steps, so each side may see the other half-way.
 */
module MsgQueueOrder {
  import opened Positions

  datatype Msg = Msg(ring: nat, elt: nat)

  datatype Ring = Ring(nitems: u32, head: nat, tail: nat, cursize: int)

  /** The producer that holds the lock, and how far it got. */
  datatype Holder =
    | Nobody
    | Locked
    | Checked(r: nat)
    | Allocated(m: Msg)
    | Counted(m: Msg)
    | Slotted
    | Added

  datatype Cons = CIdle | CRead | CFreed(m: Msg)

  /**
   rings, head, tail, size and data are shared memory, held the messages the consumer has not freed yet.
   log lists all messages in allocation order; the first added of them have been added, the first subbed taken,
   the first freed freed. out lists what the consumer has taken.
   */
  datatype State = State(
    rings: seq<Ring>, head: nat, tail: nat, size: int, max: nat, data: seq<Msg>, lock: Holder, cons: Cons,
    held: seq<Msg>, log: seq<Msg>, added: nat, subbed: nat, freed: nat, out: seq<Msg>)

  // ---- Producer steps ----

  ghost predicate Lock(s: State, s': State) {
    s.lock.Nobody? && s' == s.(lock := Locked)
  }

  /** The test of the allocating code: the queue or the ring is full. */
  ghost predicate IsFull(s: State, r: nat)
    requires r < |s.rings|
  {
    s.size == s.max || s.rings[r].cursize >= s.rings[r].nitems
  }

  /** The queue or the ring is full: give the lock up, to wait or to fail. */
  ghost predicate GiveUp(s: State, s': State, r: nat) {
    s.lock.Locked? && r < |s.rings| && IsFull(s, r) && s' == s.(lock := Nobody)
  }

  ghost predicate Check(s: State, s': State, r: nat) {
    s.lock.Locked? && r < |s.rings| && !IsFull(s, r) && s' == s.(lock := Checked(r))
  }

  ghost predicate AllocTail(s: State, s': State) {
    && s.lock.Checked? && s.lock.r < |s.rings| && s.rings[s.lock.r].nitems > 0
    && var r := s.lock.r;
       var m := Msg(r, s.rings[r].tail);
       s' == s.(rings := s.rings[r := s.rings[r].(tail := (s.rings[r].tail + 1) % s.rings[r].nitems)],
                lock := Allocated(m), log := s.log + [m])
  }

  ghost predicate AllocCount(s: State, s': State) {
    && s.lock.Allocated? && s.lock.m.ring < |s.rings|
    && var r := s.lock.m.ring;
       s' == s.(rings := s.rings[r := s.rings[r].(cursize := s.rings[r].cursize + 1)], lock := Counted(s.lock.m))
  }

  ghost predicate AddSlot(s: State, s': State) {
    && s.lock.Counted? && s.tail < |s.data| && s.max > 0
    && s' == s.(data := s.data[s.tail := s.lock.m], tail := (s.tail + 1) % s.max, lock := Slotted, added := s.added + 1)
  }

  ghost predicate AddCount(s: State, s': State) {
    s.lock.Slotted? && s' == s.(size := s.size + 1, lock := Added)
  }

  ghost predicate Unlock(s: State, s': State) {
    s.lock.Added? && s' == s.(lock := Nobody)
  }

  // ---- Consumer steps ----

  ghost predicate SubRead(s: State, s': State) {
    && s.cons.CIdle? && s.size > 0 && s.head < |s.data| && s.max > 0
    && s' == s.(head := (s.head + 1) % s.max, cons := CRead, held := s.held + [s.data[s.head]], subbed := s.subbed + 1,
                out := s.out + [s.data[s.head]])
  }

  ghost predicate SubCount(s: State, s': State) {
    s.cons.CRead? && s' == s.(size := s.size - 1, cons := CIdle)
  }

  /** Frees the oldest message taken; only reached when it is at the head of its ring. */
  ghost predicate FreeHead(s: State, s': State) {
    && s.cons.CIdle? && s.held != [] && s.held[0].ring < |s.rings| && InOrder(s)
    && var m := s.held[0];
       var ring := s.rings[m.ring];
       && ring.nitems > 0
       && s' == s.(rings := s.rings[m.ring := ring.(head := (ring.head + 1) % ring.nitems)],
                   cons := CFreed(m), held := s.held[1..], freed := s.freed + 1)
  }

  ghost predicate FreeCount(s: State, s': State) {
    && s.cons.CFreed? && s.cons.m.ring < |s.rings|
    && var r := s.cons.m.ring;
       s' == s.(rings := s.rings[r := s.rings[r].(cursize := s.rings[r].cursize - 1)], cons := CIdle)
  }

  /** The test of the freeing code; its other branch reports a message out of order. */
  ghost predicate InOrder(s: State) {
    s.held != [] && s.held[0].ring < |s.rings| && s.held[0].elt == s.rings[s.held[0].ring].head
  }

  datatype Event =
    | ELock | EGiveUp(r: nat) | ECheck(r: nat) | EAllocTail | EAllocCount | EAddSlot | EAddCount | EUnlock
    | ESubRead | ESubCount | EFreeHead | EFreeCount

  ghost predicate Next(s: State, e: Event, s': State) {
    match e
    case ELock => Lock(s, s')
    case EGiveUp(r) => GiveUp(s, s', r)
    case ECheck(r) => Check(s, s', r)
    case EAllocTail => AllocTail(s, s')
    case EAllocCount => AllocCount(s, s')
    case EAddSlot => AddSlot(s, s')
    case EAddCount => AddCount(s, s')
    case EUnlock => Unlock(s, s')
    case ESubRead => SubRead(s, s')
    case ESubCount => SubCount(s, s')
    case EFreeHead => FreeHead(s, s')
    case EFreeCount => FreeCount(s, s')
  }

  // ---- Counting the messages of a ring ----

  ghost function Count(log: seq<Msg>, r: nat, a: nat, b: nat): nat
    requires b <= |log|
  {
    if b <= a then 0 else Count(log, r, a, b - 1) + if log[b - 1].ring == r then 1 else 0
  }

  lemma {:induction false} CountFirst(log: seq<Msg>, r: nat, a: nat, b: nat)
    requires a < b <= |log|
    ensures Count(log, r, a, b) == Count(log, r, a + 1, b) + if log[a].ring == r then 1 else 0
    decreases b
  {
    if b > a + 1 {
      CountFirst(log, r, a, b - 1);
    }
  }

  lemma {:induction false} CountMore(log: seq<Msg>, m: Msg, r: nat, a: nat, b: nat)
    requires b <= |log|
    ensures Count(log + [m], r, a, b) == Count(log, r, a, b)
    decreases b
  {
    if a < b {
      CountMore(log, m, r, a, b - 1);
    }
  }

  lemma {:induction false} CountMonotone(log: seq<Msg>, r: nat, a: nat, b: nat, c: nat)
    requires b <= c <= |log|
    ensures Count(log, r, a, b) <= Count(log, r, a, c)
    ensures a <= b < c && log[b].ring == r ==> Count(log, r, a, b) < Count(log, r, a, c)
    decreases c
  {
    if b < c {
      CountMonotone(log, r, a, b, c - 1);
    }
  }

  /** The slot c places after h in a ring of n slots. */
  function Slot(h: nat, c: nat, n: nat): nat
    requires n > 0
  {
    (h + c) % n
  }

  lemma SlotOnce(h: nat, c: nat, n: nat)
    requires h < n && c <= n
    ensures Slot(h, c, n) == (if h + c < n then h + c else h + c - n) < n
  {
    var x := h + c;
    var q, r := x / n, x % n;
    assert x == n * q + r;
    assert q >= 2 ==> n * q >= n * 2;
    assert q == 0 || q == 1;
  }

  /** Moving the head by one brings every slot one place closer. */
  lemma SlotShift(h: nat, c: nat, n: nat)
    requires h < n && c < n
    ensures Slot((h + 1) % n, c, n) == Slot(h, c + 1, n) && (h + 1) % n < n
    ensures (Slot(h, c, n) + 1) % n == Slot(h, c + 1, n)
  {
    SlotOnce(h, 1, n);
    SlotOnce(h, c, n);
    SlotOnce(h, c + 1, n);
    SlotOnce((h + 1) % n, c, n);
    SlotOnce(Slot(h, c, n), 1, n);
  }

  lemma SlotDistinct(h: nat, a: nat, b: nat, n: nat)
    requires h < n && a < b < n
    ensures Slot(h, a, n) != Slot(h, b, n)
  {
    SlotOnce(h, a, n);
    SlotOnce(h, b, n);
  }

  // ---- The invariant ----

  ghost function Holding(s: State): nat {
    if s.lock.Allocated? || s.lock.Counted? then 1 else 0
  }

  /** The four stages of a message and what the consumer has seen of them. */
  ghost predicate Books(s: State) {
    && s.freed <= s.subbed <= s.added <= |s.log| && |s.log| == s.added + Holding(s)
    && (Holding(s) == 1 ==> s.lock.m == s.log[s.added])
    && s.held == s.log[s.freed..s.subbed] && s.out == s.log[..s.subbed]
  }

  ghost function Reading(s: State): nat {
    if s.cons.CRead? then 1 else 0
  }

  ghost predicate DescAt(s: State, j: int) {
    && 0 <= j && s.subbed + j < |s.log| && s.max > 0 && Slot(s.head, j, s.max) < |s.data|
    && s.data[Slot(s.head, j, s.max)] == s.log[s.subbed + j]
  }

  /** The descriptors between head and tail are the messages added and not yet taken, in order. */
  ghost predicate Descriptors(s: State) {
    && 0 < s.max == |s.data| && s.head < s.max && s.subbed <= s.added
    && s.added - s.subbed + Reading(s) <= s.max
    && s.size == s.added - s.subbed + Reading(s) - (if s.lock.Slotted? then 1 else 0)
    && s.tail == Slot(s.head, s.added - s.subbed, s.max)
    && (s.lock.Checked? || Holding(s) == 1 ==> s.added - s.subbed + Reading(s) < s.max)
    && (forall j :: 0 <= j < s.added - s.subbed ==> DescAt(s, j))
  }

  ghost function Freeing(s: State, r: nat): nat {
    if s.cons.CFreed? && s.cons.m.ring == r then 1 else 0
  }

  ghost function Live(s: State, r: nat): nat {
    Count(s.log, r, s.freed, |s.log|)
  }

  /** Ring r: its tail lies as many slots past its head as it has live messages. */
  ghost predicate RingAt(s: State, r: nat) {
    && r < |s.rings| && s.rings[r].nitems > 0 && s.rings[r].head < s.rings[r].nitems
    && Live(s, r) + Freeing(s, r) <= s.rings[r].nitems
    && s.rings[r].tail == Slot(s.rings[r].head, Live(s, r), s.rings[r].nitems)
    && s.rings[r].cursize == Live(s, r) + Freeing(s, r) - (if s.lock.Allocated? && s.lock.m.ring == r then 1 else 0)
    && (s.lock == Checked(r) ==> Live(s, r) + Freeing(s, r) < s.rings[r].nitems)
  }

  /** Message number n sits as many slots past its ring's head as live messages of that ring came before it. */
  ghost predicate MsgAt(s: State, n: nat) {
    && s.freed <= n < |s.log| && s.log[n].ring < |s.rings| && s.rings[s.log[n].ring].nitems > 0
    && s.log[n].elt == Slot(s.rings[s.log[n].ring].head, Count(s.log, s.log[n].ring, s.freed, n),
                            s.rings[s.log[n].ring].nitems)
  }

  /** The rings asked for and freed in are there. */
  ghost predicate Named(s: State) {
    (s.lock.Checked? ==> s.lock.r < |s.rings|) && (s.cons.CFreed? ==> s.cons.m.ring < |s.rings|)
  }

  ghost predicate Inv(s: State) {
    && Books(s) && Descriptors(s) && Named(s)
    && (forall r: nat :: r < |s.rings| ==> RingAt(s, r))
    && (forall n: nat :: s.freed <= n < |s.log| ==> MsgAt(s, n))
  }

  /** Live messages of one ring occupy different slots. */
  lemma LiveApart(s: State, a: nat, b: nat)
    requires Inv(s) && s.freed <= a < b < |s.log| && s.log[a].ring == s.log[b].ring
    ensures s.log[a].elt != s.log[b].elt
  {
    hide Slot, Books, Descriptors;
    var r := s.log[a].ring;
    assert MsgAt(s, a) && MsgAt(s, b);
    assert RingAt(s, r);
    CountMonotone(s.log, r, s.freed, a, b);
    CountMonotone(s.log, r, s.freed, b, |s.log|);
    SlotDistinct(s.rings[r].head, Count(s.log, r, s.freed, a), Count(s.log, r, s.freed, b), s.rings[r].nitems);
  }

  /** The slot about to be allocated is not in use. */
  lemma TailFree(s: State, n: nat)
    requires Inv(s) && s.lock.Checked? && s.lock.r < |s.rings| && s.freed <= n < |s.log| && s.log[n].ring == s.lock.r
    ensures s.log[n].elt != s.rings[s.lock.r].tail
  {
    hide Slot, Books, Descriptors;
    var r := s.lock.r;
    assert MsgAt(s, n) && RingAt(s, r);
    CountMonotone(s.log, r, s.freed, n, |s.log|);
    SlotDistinct(s.rings[r].head, Count(s.log, r, s.freed, n), Live(s, r), s.rings[r].nitems);
  }

  /** The oldest message taken is always at the head of its ring. */
  lemma NextInOrder(s: State)
    requires Inv(s) && s.held != []
    ensures InOrder(s)
  {
    hide Slot, Descriptors;
    assert MsgAt(s, s.freed);
    var r := s.log[s.freed].ring;
    assert RingAt(s, r);
    SlotOnce(s.rings[r].head, 0, s.rings[r].nitems);
  }

  // ---- Every step keeps it ----

  /** Steps that move neither a ring nor the log. */
  lemma LockKeeps(s: State, s': State, r: nat)
    requires Inv(s) && (Lock(s, s') || GiveUp(s, s', r) || Unlock(s, s') || AddCount(s, s'))
    ensures Inv(s')
  {
    hide Slot;
    Same(s, s');
    forall j | 0 <= j < s'.added - s'.subbed
      ensures DescAt(s', j)
    {
      assert DescAt(s, j);
    }
    forall k: nat | k < |s'.rings|
      ensures RingAt(s', k)
    {
      assert RingAt(s, k);
    }
  }

  lemma Same(s: State, s': State)
    requires Inv(s) && s'.log == s.log && s'.freed == s.freed && s'.rings == s.rings
    ensures forall n: nat :: s'.freed <= n < |s'.log| ==> MsgAt(s', n)
  {
    hide Slot, Count;
    forall n: nat | s'.freed <= n < |s'.log|
      ensures MsgAt(s', n)
    {
      assert MsgAt(s, n);
    }
  }

  lemma CheckKeeps(s: State, s': State, r: nat)
    requires Inv(s) && Check(s, s', r)
    ensures Inv(s')
  {
    hide Slot;
    Same(s, s');
    forall j | 0 <= j < s'.added - s'.subbed
      ensures DescAt(s', j)
    {
      assert DescAt(s, j);
    }
    forall k: nat | k < |s'.rings|
      ensures RingAt(s', k)
    {
      assert RingAt(s, k);
    }
  }

  lemma AllocTailKeeps(s: State, s': State)
    requires Inv(s) && AllocTail(s, s')
    ensures Inv(s')
  {
    hide Slot;
    var r, m := s.lock.r, s'.lock.m;
    assert RingAt(s, r);
    var len := |s.log|;
    SlotShift(s.rings[r].head, Live(s, r), s.rings[r].nitems);
    forall k: nat | k < |s'.rings|
      ensures RingAt(s', k)
    {
      assert RingAt(s, k);
      CountMore(s.log, m, k, s.freed, len);
    }
    forall n: nat | s'.freed <= n < |s'.log|
      ensures MsgAt(s', n)
    {
      if n < len {
        assert MsgAt(s, n);
        CountMore(s.log, m, s.log[n].ring, s.freed, n);
      } else {
        CountMore(s.log, m, r, s.freed, len);
      }
    }
    forall j | 0 <= j < s'.added - s'.subbed
      ensures DescAt(s', j)
    {
      assert DescAt(s, j);
    }
  }

  lemma AllocCountKeeps(s: State, s': State)
    requires Inv(s) && AllocCount(s, s')
    ensures Inv(s')
  {
    hide Slot, Count;
    forall k: nat | k < |s'.rings|
      ensures RingAt(s', k)
    {
      assert RingAt(s, k);
    }
    forall n: nat | s'.freed <= n < |s'.log|
      ensures MsgAt(s', n)
    {
      assert MsgAt(s, n);
    }
    forall j | 0 <= j < s'.added - s'.subbed
      ensures DescAt(s', j)
    {
      assert DescAt(s, j);
    }
  }

  lemma AddSlotKeeps(s: State, s': State)
    requires Inv(s) && AddSlot(s, s')
    ensures Inv(s')
  {
    hide Slot, Count;
    var live := s.added - s.subbed;
    SlotShift(s.head, live, s.max);
    SlotOnce(s.head, live, s.max);
    Same(s, s');
    forall k: nat | k < |s'.rings|
      ensures RingAt(s', k)
    {
      assert RingAt(s, k);
    }
    forall j | 0 <= j < s'.added - s'.subbed
      ensures DescAt(s', j)
    {
      if j < live {
        assert DescAt(s, j);
        SlotDistinct(s.head, j, live, s.max);
      }
    }
  }

  lemma SubReadDescriptors(s: State, s': State)
    requires Inv(s) && SubRead(s, s')
    ensures Descriptors(s') && s.subbed < s.added && s.data[s.head] == s.log[s.subbed]
  {
    hide Slot, Count, Books;
    SlotOnce(s.head, 0, s.max);
    assert DescAt(s, 0);
    SlotShift(s.head, s.added - s.subbed - 1, s.max);
    forall j | 0 <= j < s'.added - s'.subbed
      ensures DescAt(s', j)
    {
      assert DescAt(s, j + 1);
      SlotShift(s.head, j, s.max);
    }
  }

  lemma SubReadKeeps(s: State, s': State)
    requires Inv(s) && SubRead(s, s')
    ensures Inv(s')
  {
    hide Slot, Count, Descriptors;
    SubReadDescriptors(s, s');
    Same(s, s');
    TakeOneMore(s.log, s.freed, s.subbed);
    forall k: nat | k < |s'.rings|
      ensures RingAt(s', k)
    {
      assert RingAt(s, k);
    }
  }

  lemma TakeOneMore(log: seq<Msg>, a: nat, b: nat)
    requires a <= b < |log|
    ensures log[a..b] + [log[b]] == log[a..b + 1] && log[..b] + [log[b]] == log[..b + 1]
  {
  }

  lemma SubCountKeeps(s: State, s': State)
    requires Inv(s) && SubCount(s, s')
    ensures Inv(s')
  {
    hide Slot, Count;
    Same(s, s');
    forall k: nat | k < |s'.rings|
      ensures RingAt(s', k)
    {
      assert RingAt(s, k);
    }
    forall j | 0 <= j < s'.added - s'.subbed
      ensures DescAt(s', j)
    {
      assert DescAt(s, j);
    }
  }

  lemma FreeHeadKeeps(s: State, s': State)
    requires Inv(s) && FreeHead(s, s')
    ensures Inv(s')
  {
    hide Slot, Count;
    var m := s.held[0];
    assert m == s.log[s.freed];
    forall k: nat | k < |s'.rings|
      ensures RingAt(s', k)
    {
      assert RingAt(s, k);
      CountFirst(s.log, k, s.freed, |s.log|);
      if k == m.ring {
        SlotShift(s.rings[k].head, Live(s, k) - 1, s.rings[k].nitems);
      }
    }
    forall n: nat | s'.freed <= n < |s'.log|
      ensures MsgAt(s', n)
    {
      FreeHeadMsg(s, s', n);
    }
    forall j | 0 <= j < s'.added - s'.subbed
      ensures DescAt(s', j)
    {
      assert DescAt(s, j);
    }
  }

  lemma FreeHeadMsg(s: State, s': State, n: nat)
    requires Inv(s) && FreeHead(s, s') && s'.freed <= n < |s'.log|
    ensures MsgAt(s', n)
  {
    hide Slot, Count, Descriptors;
    assert MsgAt(s, n);
    var k := s.log[n].ring;
    assert RingAt(s, k);
    CountFirst(s.log, k, s.freed, n);
    if k == s.held[0].ring {
      CountMonotone(s.log, k, s.freed, n, |s.log|);
      SlotShift(s.rings[k].head, Count(s.log, k, s.freed + 1, n), s.rings[k].nitems);
    }
  }

  lemma FreeCountKeeps(s: State, s': State)
    requires Inv(s) && FreeCount(s, s')
    ensures Inv(s')
  {
    hide Slot, Count;
    forall k: nat | k < |s'.rings|
      ensures RingAt(s', k)
    {
      assert RingAt(s, k);
    }
    forall n: nat | s'.freed <= n < |s'.log|
      ensures MsgAt(s', n)
    {
      assert MsgAt(s, n);
    }
    forall j | 0 <= j < s'.added - s'.subbed
      ensures DescAt(s', j)
    {
      assert DescAt(s, j);
    }
  }

  lemma NextKeeps(s: State, e: Event, s': State)
    requires Inv(s) && Next(s, e, s')
    ensures Inv(s')
  {
    hide Inv, Lock, GiveUp, Check, AllocTail, AllocCount, AddSlot, AddCount, Unlock, SubRead, SubCount, FreeHead,
         FreeCount;
    match e
    case ELock => LockKeeps(s, s', 0);
    case EGiveUp(r) => LockKeeps(s, s', r);
    case ECheck(r) => CheckKeeps(s, s', r);
    case EAllocTail => AllocTailKeeps(s, s');
    case EAllocCount => AllocCountKeeps(s, s');
    case EAddSlot => AddSlotKeeps(s, s');
    case EAddCount => LockKeeps(s, s', 0);
    case EUnlock => LockKeeps(s, s', 0);
    case ESubRead => SubReadKeeps(s, s');
    case ESubCount => SubCountKeeps(s, s');
    case EFreeHead => FreeHeadKeeps(s, s');
    case EFreeCount => FreeCountKeeps(s, s');
  }

  // ---- Runs ----

  ghost predicate Init(s: State) {
    && s.size == 0 && s.head == s.tail == 0 && 0 < s.max == |s.data|
    && (forall r :: 0 <= r < |s.rings| ==> s.rings[r].nitems > 0 && s.rings[r] == Ring(s.rings[r].nitems, 0, 0, 0))
    && s.lock == Nobody && s.cons == CIdle && s.held == s.log == s.out == [] && s.added == s.subbed == s.freed == 0
  }

  lemma InitInv(s: State)
    requires Init(s)
    ensures Inv(s)
  {
    forall r: nat | r < |s.rings|
      ensures RingAt(s, r)
    {
    }
  }

  ghost predicate Execution(es: seq<Event>, ss: seq<State>) {
    && |ss| == |es| + 1 && Init(ss[0])
    && (forall i :: 0 <= i < |es| ==> Next(ss[i], es[i], ss[i + 1]))
  }

  lemma {:induction false} ExecutionInv(es: seq<Event>, ss: seq<State>, i: nat)
    requires Execution(es, ss) && i <= |es|
    ensures Inv(ss[i])
    decreases i
  {
    hide Inv, Next, Init;
    if i == 0 {
      InitInv(ss[0]);
    } else {
      ExecutionInv(es, ss, i - 1);
      assert Next(ss[i - 1], es[i - 1], ss[i - 1 + 1]);
      NextKeeps(ss[i - 1], es[i - 1], ss[i]);
    }
  }

  /** Messages come out once each and in allocation order, and the out-of-order branch is never taken. */
  lemma DeliveredInOrder(es: seq<Event>, ss: seq<State>, i: nat)
    requires Execution(es, ss) && i <= |es|
    ensures ss[i].freed <= |ss[i].out| && ss[i].out <= ss[i].log && ss[i].held == ss[i].out[ss[i].freed..]
    ensures ss[i].held != [] ==> InOrder(ss[i])
  {
    hide Next, Init, Descriptors;
    ExecutionInv(es, ss, i);
    var s := ss[i];
    assert s.log[s.freed..s.subbed] == s.log[..s.subbed][s.freed..];
    if s.held != [] {
      NextInOrder(s);
    }
  }

  /** No slot of a message that is still being written, queued or read is handed out again. */
  lemma NoLiveReuse(es: seq<Event>, ss: seq<State>, i: nat, n: nat)
    requires Execution(es, ss) && i < |es| && es[i].EAllocTail? && ss[i].freed <= n < |ss[i].log|
    ensures ss[i + 1].log == ss[i].log + [ss[i + 1].lock.m] && ss[i + 1].lock.m != ss[i].log[n]
  {
    hide Inv, Init;
    ExecutionInv(es, ss, i);
    assert Next(ss[i], es[i], ss[i + 1]);
    if ss[i].log[n].ring == ss[i].lock.r {
      TailFree(ss[i], n);
    }
  }

  // ---- The validity test of a message ----

  /** Distance of slot x from head h as the code computes it, in 32 bits before the remainder is taken. */
  function Dist(n: u32, x: nat, h: nat): nat
    requires n > 0
  {
    Wrap(n + x - h) % n
  }

  /** Whether the code takes slot elt for one between the ring's head and tail. */
  predicate Accepts(k: Ring, elt: nat)
    requires k.nitems > 0
  {
    Dist(k.nitems, elt, k.head) <
      if k.tail == k.head then (if k.cursize == 0 then 0 else k.nitems) else Dist(k.nitems, k.tail, k.head)
  }

  predicate IsValid(rings: seq<Ring>, m: Msg)
    requires forall r :: 0 <= r < |rings| ==> rings[r].nitems > 0
  {
    m.ring < |rings| && Accepts(rings[m.ring], m.elt)
  }

  lemma Remainder(x: nat, n: nat)
    requires 0 < n && x < 2 * n
    ensures x % n == if x < n then x else x - n
  {
    hide Slot;
    SlotOnce(if x < n then x else x - n, if x < n then 0 else n, n);
    SlotSum(if x < n then x else x - n, if x < n then 0 else n, n);
  }

  lemma SlotSum(h: nat, c: nat, n: nat)
    requires n > 0
    ensures Slot(h, c, n) == (h + c) % n
  {
  }

  /** The distance computed: exact, unless the sum overflows. */
  lemma DistIs(n: u32, x: nat, h: nat)
    requires h < n && x < n
    ensures h > x || n + x - h < TWO32 ==> Dist(n, x, h) == if h <= x then x - h else n + x - h
    ensures h <= x && n + x - h >= TWO32 ==> Dist(n, x, h) == n + x - h - TWO32
  {
    hide Wrap;
    var d := n + x - h;
    if d < TWO32 {
      WrapSmall(d);
      Remainder(d, n);
    } else {
      WrapOver(d);
      Remainder(d - TWO32, n);
    }
  }

  /** How far slot x lies past head h. */
  lemma SlotDistance(h: nat, x: nat, n: nat)
    requires h < n && x < n
    ensures var d := if h <= x then x - h else n + x - h;
            d < n && Slot(h, d, n) == x && forall c :: 0 <= c < n && Slot(h, c, n) == x ==> c == d
  {
    var d := if h <= x then x - h else n + x - h;
    SlotOnce(h, d, n);
    forall c | 0 <= c < n && Slot(h, c, n) == x
      ensures c == d
    {
      SlotOnce(h, c, n);
    }
  }

  /** A ring with live messages in the slots from its head on and nobody half-way. */
  ghost predicate Settled(k: Ring, live: nat) {
    0 < k.nitems && k.head < k.nitems && live <= k.nitems && k.tail == Slot(k.head, live, k.nitems) && k.cursize == live
  }

  ghost predicate LiveIn(k: Ring, live: nat, elt: nat)
    requires k.nitems > 0
  {
    exists c :: 0 <= c < live && Slot(k.head, c, k.nitems) == elt
  }

  /**
   In rings of at most 2^31 slots the test tells whether the slot lies in front of the tail, if it takes the ring for
   full or empty rightly.
   */
  lemma AcceptsNarrow(k: Ring, live: nat, elt: nat)
    requires 0 < k.nitems <= TWO31 && k.head < k.nitems && elt < k.nitems && live <= k.nitems
    requires k.tail == Slot(k.head, live, k.nitems)
    ensures live == k.nitems ==> (Accepts(k, elt) <==> k.cursize != 0) && LiveIn(k, live, elt)
    ensures live == 0 ==> (Accepts(k, elt) <==> k.cursize != 0) && !LiveIn(k, live, elt)
    ensures 0 < live < k.nitems ==> (Accepts(k, elt) <==> LiveIn(k, live, elt))
  {
    hide Slot, Dist;
    var h, n := k.head, k.nitems;
    SlotOnce(h, live, n);
    DistIs(n, elt, h);
    DistIs(n, k.tail, h);
    SlotDistance(h, elt, n);
    SlotDistance(h, k.tail, n);
    var d := if h <= elt then elt - h else n + elt - h;
    assert LiveIn(k, live, elt) <==> d < live;
  }

  /** The test is exact for a settled ring. */
  ghost predicate Exact(k: Ring, live: nat)
    requires k.nitems > 0
  {
    forall elt: nat :: elt < k.nitems ==> (Accepts(k, elt) <==> LiveIn(k, live, elt))
  }

  /**
   With one live message at slot 0, a ring of more than 2^31 slots accepts a slot too many, or rejects the live one.
   */
  lemma WideFails(n: u32)
    requires n > TWO31
    ensures var k := Ring(n, 0, 1, 1); Settled(k, 1) && !Exact(k, 1)
  {
    hide Slot, Dist;
    var k := Ring(n, 0, 1, 1);
    SlotOnce(0, 1, n);
    SlotOnce(0, 0, n);
    DistIs(n, 1, 0);
    if n < TWO32 - 1 {
      var elt := TWO32 - n;
      DistIs(n, elt, 0);
      assert Accepts(k, elt) && !LiveIn(k, 1, elt);
    } else {
      DistIs(n, 0, 0);
      assert Slot(0, 0, n) == 0 && LiveIn(k, 1, 0) && !Accepts(k, 0);
    }
  }

  /** The test is exact for every settled state of a ring if and only if the ring has at most 2^31 slots. */
  lemma ExactIffNarrow(n: u32)
    requires n > 0
    ensures (forall k: Ring, live: nat :: k.nitems == n && Settled(k, live) ==> Exact(k, live)) <==> n <= TWO31
  {
    hide Accepts, LiveIn, Slot;
    if n <= TWO31 {
      forall k: Ring, live: nat | k.nitems == n && Settled(k, live)
        ensures Exact(k, live)
      {
        forall elt: nat | elt < k.nitems
          ensures Accepts(k, elt) <==> LiveIn(k, live, elt)
        {
          AcceptsNarrow(k, live, elt);
        }
      }
    } else {
      WideFails(n);
    }
  }

  /** A message that is live, and rejected: 2^30 messages in a ring of 3 * 2^30 slots. */
  lemma LiveRejected()
    ensures var k := Ring(0xC000_0000, 0, 0x4000_0000, 0x4000_0000);
            Settled(k, 0x4000_0000) && LiveIn(k, 0x4000_0000, 0x3FFF_FFFF) && !Accepts(k, 0x3FFF_FFFF)
  {
    hide Dist;
    var k := Ring(0xC000_0000, 0, 0x4000_0000, 0x4000_0000);
    DistIs(k.nitems, k.tail, 0);
    assert Slot(0, 0x3FFF_FFFF, k.nitems) == 0x3FFF_FFFF;
  }

  // ---- The test in every state of a run ----

  ghost predicate LiveMsg(s: State, m: Msg) {
    exists n: nat :: s.freed <= n < |s.log| && s.log[n] == m
  }

  /** Every place among the messages of a ring is taken by one of them. */
  lemma {:induction false} CountHits(log: seq<Msg>, r: nat, a: nat, b: nat, c: nat) returns (n: nat)
    requires b <= |log| && c < Count(log, r, a, b)
    ensures a <= n < b && log[n].ring == r && Count(log, r, a, n) == c
    decreases b
  {
    if log[b - 1].ring == r && Count(log, r, a, b - 1) == c {
      n := b - 1;
    } else {
      n := CountHits(log, r, a, b - 1, c);
    }
  }

  /** A live message sits in one of the slots from its ring's head on, and each of those holds one. */
  lemma LiveSlots(s: State, r: nat, elt: nat)
    requires Inv(s) && r < |s.rings|
    ensures s.rings[r].nitems > 0 && (LiveMsg(s, Msg(r, elt)) <==> LiveIn(s.rings[r], Live(s, r), elt))
  {
    hide Slot, Books, Descriptors;
    assert RingAt(s, r);
    var k := s.rings[r];
    if LiveMsg(s, Msg(r, elt)) {
      var n: nat :| s.freed <= n < |s.log| && s.log[n] == Msg(r, elt);
      assert MsgAt(s, n);
      CountMonotone(s.log, r, s.freed, n, |s.log|);
      assert LiveIn(k, Live(s, r), elt);
    }
    if LiveIn(k, Live(s, r), elt) {
      var c: nat :| 0 <= c < Live(s, r) && Slot(k.head, c, k.nitems) == elt;
      var n := CountHits(s.log, r, s.freed, |s.log|, c);
      assert MsgAt(s, n);
      assert s.log[n] == Msg(r, elt);
    }
  }

  /** The consumer has freed the last message of the ring and not counted it yet. */
  ghost predicate HalfFreed(s: State, r: nat) {
    Freeing(s, r) == 1 && Live(s, r) == 0
  }

  /** The only slot of the ring is allocated and not counted yet. */
  ghost predicate HalfAllocated(s: State, r: nat) {
    r < |s.rings| && s.rings[r].nitems == 1 && s.lock.Allocated? && s.lock.m.ring == r
  }

  ghost predicate RingsUsed(s: State) {
    forall r :: 0 <= r < |s.rings| ==> s.rings[r].nitems > 0
  }

  lemma RingsUsedInv(s: State)
    requires Inv(s)
    ensures RingsUsed(s)
  {
    forall r | 0 <= r < |s.rings|
      ensures s.rings[r].nitems > 0
    {
      assert RingAt(s, r);
    }
  }

  /** What the test says about slot elt of ring r, in every state of every run. */
  lemma ValidAt(s: State, r: nat, elt: nat)
    requires Inv(s) && RingsUsed(s) && r < |s.rings| && elt < s.rings[r].nitems <= TWO31
    ensures HalfFreed(s, r) ==> IsValid(s.rings, Msg(r, elt)) && !LiveMsg(s, Msg(r, elt))
    ensures HalfAllocated(s, r) ==> !IsValid(s.rings, Msg(r, elt)) && LiveMsg(s, Msg(r, elt))
    ensures !HalfFreed(s, r) && !HalfAllocated(s, r) ==> (IsValid(s.rings, Msg(r, elt)) <==> LiveMsg(s, Msg(r, elt)))
  {
    hide Slot, Books, Descriptors, LiveIn, LiveMsg, Accepts;
    assert RingAt(s, r);
    if Holding(s) == 1 {
      AllocatedLive(s);
    }
    LiveSlots(s, r, elt);
    AcceptsNarrow(s.rings[r], Live(s, r), elt);
  }

  /** A message being allocated is live. */
  lemma AllocatedLive(s: State)
    requires Inv(s) && Holding(s) == 1
    ensures s.lock.m.ring < |s.rings| && Live(s, s.lock.m.ring) > 0
  {
    hide Slot, Descriptors;
    assert MsgAt(s, s.added);
    CountMonotone(s.log, s.lock.m.ring, s.freed, s.added, |s.log|);
  }

  /**
   In every state of every run the test accepts exactly the live messages of a ring of at most 2^31 slots, if and
   only if its last message is not half-way freed and its only slot not half-way allocated.
   */
  lemma ValidIffLive(es: seq<Event>, ss: seq<State>, i: nat, r: nat)
    requires Execution(es, ss) && i <= |es| && r < |ss[i].rings| && ss[i].rings[r].nitems <= TWO31
    ensures RingsUsed(ss[i])
    ensures (forall elt: nat :: elt < ss[i].rings[r].nitems ==>
               (IsValid(ss[i].rings, Msg(r, elt)) <==> LiveMsg(ss[i], Msg(r, elt))))
            <==> !HalfFreed(ss[i], r) && !HalfAllocated(ss[i], r)
  {
    hide Next, Init, Slot, Books, Descriptors, LiveMsg, IsValid, HalfFreed, HalfAllocated;
    var s := ss[i];
    ExecutionInv(es, ss, i);
    RingsUsedInv(s);
    forall elt: nat | elt < s.rings[r].nitems
      ensures HalfFreed(s, r) || HalfAllocated(s, r) ==> !(IsValid(s.rings, Msg(r, elt)) <==> LiveMsg(s, Msg(r, elt)))
      ensures !HalfFreed(s, r) && !HalfAllocated(s, r) ==> (IsValid(s.rings, Msg(r, elt)) <==> LiveMsg(s, Msg(r, elt)))
    {
      ValidAt(s, r, elt);
    }
    if HalfFreed(s, r) || HalfAllocated(s, r) {
      assert !(IsValid(s.rings, Msg(r, 0)) <==> LiveMsg(s, Msg(r, 0)));
    }
  }

  /** The 32-bit sum of slots and messages overflows to exactly zero. */
  predicate SumsToZero(k: Ring) {
    k.tail > k.head && k.nitems + (k.tail - k.head) == TWO32
  }

  lemma LastAccepted(k: Ring, live: nat, elt: nat)
    requires 0 < k.nitems && k.head < k.nitems && 0 < live <= k.nitems && k.tail == Slot(k.head, live, k.nitems)
    requires k.cursize != 0
    requires elt == Slot(k.head, live - 1, k.nitems)
    ensures Accepts(k, elt) <==> !SumsToZero(k)
  {
    hide Slot, Dist;
    var h, n := k.head, k.nitems;
    SlotOnce(h, live, n);
    SlotOnce(h, live - 1, n);
    DistIs(n, elt, h);
    DistIs(n, k.tail, h);
  }

  /** In every run the message about to be added passes the test, unless slots and messages sum to 2^32. */
  lemma AddedValid(es: seq<Event>, ss: seq<State>, i: nat)
    requires Execution(es, ss) && i <= |es| && ss[i].lock.Counted?
    ensures RingsUsed(ss[i]) && ss[i].lock.m.ring < |ss[i].rings|
    ensures IsValid(ss[i].rings, ss[i].lock.m) <==> !SumsToZero(ss[i].rings[ss[i].lock.m.ring])
  {
    hide Next, Init, Slot, Descriptors;
    var s := ss[i];
    ExecutionInv(es, ss, i);
    RingsUsedInv(s);
    AllocatedLive(s);
    var n, r := s.added, s.lock.m.ring;
    assert MsgAt(s, n) && RingAt(s, r);
    LastAccepted(s.rings[r], Live(s, r), s.lock.m.elt);
  }
}
