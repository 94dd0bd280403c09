/**
 When the steps of the message queue are possible: allocating a message succeeds exactly when queue and ring have
 room, whoever is half-way through a step finds the next one possible, and every turn at the lock ends.
 */
module MsgQueueProgress {
  import opened MsgQueueOrder

  /** The queue has room for one more descriptor and ring r for one more message, those half-way out included. */
  ghost predicate HasRoom(s: State, r: nat) {
    && s.added - s.subbed + Reading(s) < s.max
    && r < |s.rings| && Live(s, r) + Freeing(s, r) < s.rings[r].nitems
  }

  /** What the test for a full queue or ring says while the lock is held for an allocation. */
  lemma FullIff(s: State, r: nat)
    requires Inv(s) && s.lock.Locked? && r < |s.rings|
    ensures IsFull(s, r) <==> !HasRoom(s, r)
  {
    hide Books, DescAt, Live, Freeing, Slot;
    assert RingAt(s, r);
  }

  /**
   In every state of every run: under the lock an allocation from ring r goes ahead exactly when the messages added
   and not yet taken are fewer than the queue holds and the live ones of the ring fewer than its slots, counting
   those being taken or freed; exactly otherwise it is given up.
   */
  lemma AllocatesIff(es: seq<Event>, ss: seq<State>, i: nat, r: nat)
    requires Execution(es, ss) && i <= |es|
    ensures (exists s' :: Next(ss[i], ECheck(r), s')) <==> ss[i].lock.Locked? && HasRoom(ss[i], r)
    ensures (exists s' :: Next(ss[i], EGiveUp(r), s'))
            <==> ss[i].lock.Locked? && r < |ss[i].rings| && !HasRoom(ss[i], r)
  {
    hide Inv, Init, HasRoom, IsFull;
    var s := ss[i];
    ExecutionInv(es, ss, i);
    RoomRing(s, r);
    if s.lock.Locked? && r < |s.rings| {
      FullIff(s, r);
      if HasRoom(s, r) {
        assert Next(s, ECheck(r), s.(lock := Checked(r)));
      } else {
        assert Next(s, EGiveUp(r), s.(lock := Nobody));
      }
    }
  }

  lemma RoomRing(s: State, r: nat)
    ensures HasRoom(s, r) ==> r < |s.rings|
  {
  }

  /** The consumer takes a message exactly when one has been added and counted. */
  lemma TakesIff(es: seq<Event>, ss: seq<State>, i: nat)
    requires Execution(es, ss) && i <= |es|
    ensures (exists s' :: Next(ss[i], ESubRead, s'))
            <==> ss[i].cons.CIdle? && ss[i].subbed + (if ss[i].lock.Slotted? then 1 else 0) < ss[i].added
  {
    hide Books, Init, Slot, DescAt, RingAt, MsgAt;
    var s := ss[i];
    ExecutionInv(es, ss, i);
    if s.cons.CIdle? && s.size > 0 {
      assert Next(s, ESubRead, s.(head := (s.head + 1) % s.max, cons := CRead, held := s.held + [s.data[s.head]],
                                  subbed := s.subbed + 1, out := s.out + [s.data[s.head]]));
    }
  }

  /** It frees a message exactly when it holds one, and never finds it out of order. */
  lemma FreesIff(es: seq<Event>, ss: seq<State>, i: nat)
    requires Execution(es, ss) && i <= |es|
    ensures (exists s' :: Next(ss[i], EFreeHead, s')) <==> ss[i].cons.CIdle? && ss[i].freed < ss[i].subbed
  {
    hide Descriptors, Init, Slot, Count;
    var s := ss[i];
    ExecutionInv(es, ss, i);
    if s.cons.CIdle? && s.held != [] {
      NextInOrder(s);
      var m := s.held[0];
      assert RingAt(s, m.ring);
      var ring := s.rings[m.ring];
      assert Next(s, EFreeHead, s.(rings := s.rings[m.ring := ring.(head := (ring.head + 1) % ring.nitems)],
                                   cons := CFreed(m), held := s.held[1..], freed := s.freed + 1));
    }
  }

  ghost predicate ProducerEvent(e: Event) {
    e.EGiveUp? || e.ECheck? || e.EAllocTail? || e.EAllocCount? || e.EAddSlot? || e.EAddCount? || e.EUnlock?
  }

  /** Whoever holds the lock, for whatever ring it asked, can take the next step; a free lock can be taken. */
  lemma ProducerAdvances(s: State, r: nat) returns (e: Event, s': State)
    requires Inv(s) && r < |s.rings|
    ensures Next(s, e, s') && if s.lock.Nobody? then e.ELock? else ProducerEvent(e)
    ensures s.lock.Locked? ==> e == ECheck(r) || e == EGiveUp(r)
  {
    hide Slot, Count;
    match s.lock
    case Nobody => e, s' := ELock, s.(lock := Locked);
    case Locked =>
      if IsFull(s, r) {
        e, s' := EGiveUp(r), s.(lock := Nobody);
      } else {
        e, s' := ECheck(r), s.(lock := Checked(r));
      }
    case Checked(k) => e, s' := AllocAdvances(s);
    case Allocated(m) =>
      assert MsgAt(s, s.added);
      e := EAllocCount;
      s' := s.(rings := s.rings[m.ring := s.rings[m.ring].(cursize := s.rings[m.ring].cursize + 1)],
               lock := Counted(m));
    case Counted(m) =>
      SlotOnce(s.head, s.added - s.subbed, s.max);
      e := EAddSlot;
      s' := s.(data := s.data[s.tail := m], tail := (s.tail + 1) % s.max, lock := Slotted, added := s.added + 1);
    case Slotted => e, s' := EAddCount, s.(size := s.size + 1, lock := Added);
    case Added => e, s' := EUnlock, s.(lock := Nobody);
  }

  lemma AllocAdvances(s: State) returns (e: Event, s': State)
    requires Inv(s) && s.lock.Checked?
    ensures e.EAllocTail? && Next(s, e, s')
  {
    hide Books, Descriptors, Slot, Count;
    var k := s.lock.r;
    assert RingAt(s, k);
    var m := Msg(k, s.rings[k].tail);
    e := EAllocTail;
    s' := s.(rings := s.rings[k := s.rings[k].(tail := (s.rings[k].tail + 1) % s.rings[k].nitems)],
             lock := Allocated(m), log := s.log + [m]);
  }

  /** A consumer that has read or freed a message can count it. */
  lemma ConsumerAdvances(s: State) returns (e: Event, s': State)
    requires Inv(s) && !s.cons.CIdle?
    ensures (e.ESubCount? || e.EFreeCount?) && Next(s, e, s')
  {
    hide Slot, Count;
    if s.cons.CRead? {
      e, s' := ESubCount, s.(size := s.size - 1, cons := CIdle);
    } else {
      e := EFreeCount;
      var k := s.cons.m.ring;
      s' := s.(rings := s.rings[k := s.rings[k].(cursize := s.rings[k].cursize - 1)], cons := CIdle);
    }
  }

  /** How many steps the turn at the lock still takes at most. */
  function LockWork(h: Holder): nat {
    match h
    case Nobody => 0
    case Locked => 6
    case Checked(_) => 5
    case Allocated(_) => 4
    case Counted(_) => 3
    case Slotted => 2
    case Added => 1
  }

  /** Every step of the holder shortens its turn, and nobody else's step touches it. */
  lemma TurnEnds(s: State, e: Event, s': State)
    requires Next(s, e, s')
    ensures ProducerEvent(e) ==> LockWork(s'.lock) < LockWork(s.lock)
    ensures !ProducerEvent(e) && !e.ELock? ==> s'.lock == s.lock
    ensures e.ELock? ==> s.lock.Nobody?
  {
  }

  // ---- What the books count ----

  /** How often e occurs among the first i events. */
  ghost function Steps(es: seq<Event>, e: Event, i: nat): nat
    requires i <= |es|
  {
    if i == 0 then 0 else Steps(es, e, i - 1) + if es[i - 1] == e then 1 else 0
  }

  lemma StepCounts(s: State, e: Event, s': State)
    requires Next(s, e, s')
    ensures |s'.log| == |s.log| + (if e == EAllocTail then 1 else 0)
    ensures s'.added == s.added + if e == EAddSlot then 1 else 0
    ensures s'.subbed == s.subbed + (if e == ESubRead then 1 else 0)
    ensures s'.freed == s.freed + if e == EFreeHead then 1 else 0
  {
  }

  /** The numbers in the books are the numbers of allocations, additions, takes and frees made so far. */
  lemma {:induction false} BooksCount(es: seq<Event>, ss: seq<State>, i: nat)
    requires Execution(es, ss) && i <= |es|
    ensures |ss[i].log| == Steps(es, EAllocTail, i) && ss[i].added == Steps(es, EAddSlot, i)
    ensures ss[i].subbed == Steps(es, ESubRead, i) && ss[i].freed == Steps(es, EFreeHead, i)
    decreases i
  {
    hide Next;
    if i > 0 {
      BooksCount(es, ss, i - 1);
      assert Next(ss[i - 1], es[i - 1], ss[i - 1 + 1]);
      StepCounts(ss[i - 1], es[i - 1], ss[i]);
    }
  }
}
