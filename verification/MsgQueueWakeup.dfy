/**
 Blocking on the message queue with its mutex and condition variable: any number of
 producers that wait while the queue is full, one consumer that waits while it is empty.
 A wait releases the mutex and parks in one step; a broadcast wakes every parked thread,
 which then takes the mutex again; a parked thread may also wake by itself.
 */
module MsgQueueWakeup {

  datatype Prod =
    | PIdle          // outside the queue
    | PWantLock      // about to take the mutex
    | PCheck         // holds the mutex, about to test whether the queue is full
    | PSawFull       // holds the mutex, found the queue full, about to wait
    | PParked        // waits on the condition variable
    | PWoken         // woken, about to take the mutex again
    | PReady         // holds the mutex, found room, about to add
    | PAdded(was: nat)  // holds the mutex, has added; was is the size before
    | PUnlock        // holds the mutex, about to release it

  datatype Cons =
    | CIdle          // has not looked at the queue
    | CWantLock
    | CCheck         // holds the mutex, about to test whether the queue is empty
    | CSawEmpty      // holds the mutex, found the queue empty, about to wait
    | CParked
    | CWoken
    | CUnlock        // holds the mutex, found a message, about to release the mutex
    | CReady         // knows that there is a message, about to take it
    | CTaken(was: nat)  // has taken a message without the mutex; was is the size before
    | CSignal        // holds the mutex, about to broadcast
    | CSignalled     // holds the mutex, about to release it

  datatype Owner = None | Producer(i: nat) | Consumer

  datatype State = State(size: nat, max: nat, mutex: Owner, prods: seq<Prod>, cons: Cons)

  ghost function Woken(ps: seq<Prod>): seq<Prod> {
    seq(|ps|, i requires 0 <= i < |ps| => if ps[i].PParked? then PWoken else ps[i])
  }

  /** A broadcast wakes every parked thread. */
  ghost function Broadcast(s: State): State {
    s.(prods := Woken(s.prods), cons := if s.cons.CParked? then CWoken else s.cons)
  }

  ghost function SetProd(s: State, i: nat, p: Prod): State
    requires i < |s.prods|
  {
    s.(prods := s.prods[i := p])
  }

  // ---- Steps of producer i ----

  ghost predicate ProdStep(s: State, s': State, i: nat) {
    && i < |s.prods|
    && match s.prods[i]
       case PIdle => s' == SetProd(s, i, PWantLock)
       case PWantLock => s.mutex == None && s' == SetProd(s, i, PCheck).(mutex := Producer(i))
       case PCheck => s' == SetProd(s, i, if s.size == s.max then PSawFull else PReady)
       case PSawFull => s' == SetProd(s, i, PParked).(mutex := None)
       case PParked => s' == SetProd(s, i, PWoken)
       case PWoken => s.mutex == None && s' == SetProd(s, i, PCheck).(mutex := Producer(i))
       case PReady => s' == SetProd(s, i, PAdded(s.size)).(size := s.size + 1)
       case PAdded(was) =>
         if was == 0 then s' == SetProd(Broadcast(s), i, PUnlock) else s' == SetProd(s, i, PUnlock)
       case PUnlock => s' == SetProd(s, i, PIdle).(mutex := None)
  }

  // ---- Steps of the consumer ----

  ghost predicate ConsStep(s: State, s': State) {
    match s.cons
    case CIdle => s' == s.(cons := if s.size == 0 then CWantLock else CReady)
    case CWantLock => s.mutex == None && s' == s.(cons := CCheck, mutex := Consumer)
    case CCheck => s' == s.(cons := if s.size == 0 then CSawEmpty else CUnlock)
    case CSawEmpty => s' == s.(cons := CParked, mutex := None)
    case CParked => s' == s.(cons := CWoken)
    case CWoken => s.mutex == None && s' == s.(cons := CCheck, mutex := Consumer)
    case CUnlock => s' == s.(cons := CReady, mutex := None)
    case CReady => s.size > 0 && s' == s.(cons := CTaken(s.size), size := s.size - 1)
    case CTaken(was) =>
      if was == s.max then s.mutex == None && s' == s.(cons := CSignal, mutex := Consumer) else s' == s.(cons := CIdle)
    case CSignal => s' == Broadcast(s).(cons := CSignalled)
    case CSignalled => s' == s.(cons := CIdle, mutex := None)
  }

  datatype Event = EProd(i: nat) | ECons

  ghost predicate Next(s: State, e: Event, s': State) {
    match e
    case EProd(i) => ProdStep(s, s', i)
    case ECons => ConsStep(s, s')
  }

  // ---- The invariant ----

  ghost predicate ProdHolds(p: Prod) {
    p.PCheck? || p.PSawFull? || p.PReady? || p.PAdded? || p.PUnlock?
  }

  ghost predicate ConsHolds(c: Cons) {
    c.CCheck? || c.CSawEmpty? || c.CUnlock? || c.CSignal? || c.CSignalled?
  }

  /** The mutex is held by exactly the thread that believes it holds it. */
  ghost predicate Exclusive(s: State) {
    && (forall i :: 0 <= i < |s.prods| ==> (ProdHolds(s.prods[i]) <==> s.mutex == Producer(i)))
    && (ConsHolds(s.cons) <==> s.mutex == Consumer)
    && (s.mutex.Producer? ==> s.mutex.i < |s.prods|)
  }

  /**
   A thread is bound to broadcast: a producer that filled an empty queue, or the consumer that took from a full one.
   */
  ghost predicate ProdPending(s: State) {
    exists i :: 0 <= i < |s.prods| && s.prods[i] == PAdded(0)
  }

  ghost predicate ConsPending(s: State) {
    s.cons == CTaken(s.max) || s.cons.CSignal?
  }

  ghost predicate Pending(s: State) {
    ProdPending(s) || ConsPending(s)
  }

  ghost predicate ProdOk(s: State, i: nat) {
    && i < |s.prods|
    && (s.prods[i].PParked? ==> s.size == s.max || Pending(s))
    && (s.prods[i].PSawFull? ==> s.size == s.max || ConsPending(s))
    && (s.prods[i].PReady? ==> s.size < s.max)
  }

  ghost predicate ConsOk(s: State) {
    && (s.cons.CParked? ==> s.size == 0 || ProdPending(s))
    && (s.cons.CSawEmpty? ==> s.size == 0)
    && (s.cons.CUnlock? || s.cons.CReady? ==> s.size > 0)
    && (s.cons.CTaken? ==> s.cons.was <= s.max)
  }

  ghost predicate Inv(s: State) {
    && 0 < s.max && s.size <= s.max && Exclusive(s) && ConsOk(s)
    && (forall i :: 0 <= i < |s.prods| ==> ProdOk(s, i))
  }

  lemma ProdKeeps(s: State, s': State, i: nat)
    requires Inv(s) && ProdStep(s, s', i)
    ensures Inv(s')
  {
    assert ProdOk(s, i);
    ProdExclusive(s, s', i);
    if s.prods[i] == PAdded(0) {
      assert forall k :: 0 <= k < |s'.prods| ==> !s'.prods[k].PParked?;
    } else {
      ProdPendingKept(s, s', i);
    }
    forall k | 0 <= k < |s'.prods|
      ensures ProdOk(s', k)
    {
      assert ProdOk(s, k);
      assert ProdHolds(s.prods[k]) ==> k == i || !ProdHolds(s.prods[i]);
    }
  }

  lemma ProdExclusive(s: State, s': State, i: nat)
    requires Inv(s) && ProdStep(s, s', i)
    ensures Exclusive(s')
  {
    assert ProdOk(s, i);
  }

  /** A pending broadcast of another producer stays pending; an add to an empty queue makes one pending. */
  lemma ProdPendingKept(s: State, s': State, i: nat)
    requires Inv(s) && ProdStep(s, s', i) && s.prods[i] != PAdded(0)
    ensures ProdPending(s) ==> ProdPending(s')
    ensures ConsPending(s) ==> ConsPending(s')
    ensures s.prods[i].PReady? && s.size == 0 ==> ProdPending(s')
  {
    if ProdPending(s) {
      var k :| 0 <= k < |s.prods| && s.prods[k] == PAdded(0);
      assert s'.prods[k] == PAdded(0);
    }
    if s.prods[i].PReady? && s.size == 0 {
      assert s'.prods[i] == PAdded(0);
    }
  }

  lemma ConsKeeps(s: State, s': State)
    requires Inv(s) && ConsStep(s, s')
    ensures Inv(s')
  {
    if s.cons.CSignal? {
      assert forall k :: 0 <= k < |s'.prods| ==> !s'.prods[k].PParked?;
      assert forall k :: 0 <= k < |s'.prods| ==> (ProdHolds(s'.prods[k]) <==> ProdHolds(s.prods[k]));
      assert forall k :: 0 <= k < |s'.prods| ==> s'.prods[k] == s.prods[k] || s'.prods[k].PWoken?;
    } else {
      assert ProdPending(s) <==> ProdPending(s');
    }
    forall k | 0 <= k < |s'.prods|
      ensures ProdOk(s', k)
    {
      assert ProdOk(s, k);
    }
  }

  // ---- Runs ----

  ghost predicate Init(s: State) {
    s.size == 0 && 0 < s.max && s.mutex == None && s.cons.CIdle? && forall i :: 0 <= i < |s.prods| ==> s.prods[i].PIdle?
  }

  ghost predicate Execution(es: seq<Event>, ss: seq<State>) {
    && |ss| == |es| + 1 && Init(ss[0])
    && (forall i :: 0 <= i < |es| ==> Next(ss[i], es[i], ss[i + 1]))
  }

  lemma {:induction false} ExecutionInv(es: seq<Event>, ss: seq<State>, i: nat)
    requires Execution(es, ss) && i <= |es|
    ensures Inv(ss[i])
    decreases i
  {
    if i > 0 {
      hide Inv, ProdStep, ConsStep, Init;
      ExecutionInv(es, ss, i - 1);
      assert Next(ss[i - 1], es[i - 1], ss[i - 1 + 1]);
      match es[i - 1]
      case EProd(k) => ProdKeeps(ss[i - 1], ss[i], k);
      case ECons => ConsKeeps(ss[i - 1], ss[i]);
    }
  }

  /** No wakeup is lost, the queue never over- or underflows, and the threads never all sleep. */
  lemma NoLostWakeup(es: seq<Event>, ss: seq<State>, i: nat)
    requires Execution(es, ss) && i <= |es|
    ensures var s := ss[i];
            && s.size <= s.max
            && (forall k :: 0 <= k < |s.prods| && s.prods[k].PParked? ==> s.size == s.max || Pending(s))
            && (s.cons.CParked? ==> s.size == 0 || ProdPending(s))
            && (s.cons.CReady? ==> s.size > 0)
            && !(s.cons.CParked? && s.prods != [] && forall k :: 0 <= k < |s.prods| ==> s.prods[k].PParked?)
  {
    hide Next;
    ExecutionInv(es, ss, i);
    var s := ss[i];
    forall k | 0 <= k < |s.prods| && s.prods[k].PParked?
      ensures s.size == s.max || Pending(s)
    {
      assert ProdOk(s, k);
    }
    if s.prods != [] && s.cons.CParked? {
      assert s.prods[0].PParked? ==> s.size == s.max || Pending(s);
    }
  }

  // ---- What the size counts ----

  /** The step adds a message; it takes one. */
  ghost predicate Adding(s: State, e: Event) {
    e.EProd? && e.i < |s.prods| && s.prods[e.i].PReady?
  }

  ghost predicate Taking(s: State, e: Event) {
    e.ECons? && s.cons.CReady?
  }

  ghost function Adds(es: seq<Event>, ss: seq<State>, i: nat): nat
    requires |ss| == |es| + 1 && i <= |es|
  {
    if i == 0 then 0 else Adds(es, ss, i - 1) + if Adding(ss[i - 1], es[i - 1]) then 1 else 0
  }

  ghost function Takes(es: seq<Event>, ss: seq<State>, i: nat): nat
    requires |ss| == |es| + 1 && i <= |es|
  {
    if i == 0 then 0 else Takes(es, ss, i - 1) + if Taking(ss[i - 1], es[i - 1]) then 1 else 0
  }

  lemma StepSize(s: State, e: Event, s': State)
    requires Next(s, e, s')
    ensures s'.size == s.size + (if Adding(s, e) then 1 else 0) - (if Taking(s, e) then 1 else 0) && s'.max == s.max
  {
  }

  /** In every run the size is the number of messages added less the number taken. */
  lemma {:induction false} SizeCounts(es: seq<Event>, ss: seq<State>, i: nat)
    requires Execution(es, ss) && i <= |es|
    ensures ss[i].size == Adds(es, ss, i) - Takes(es, ss, i) && ss[i].max == ss[0].max
    decreases i
  {
    hide Next, Adding, Taking;
    if i > 0 {
      SizeCounts(es, ss, i - 1);
      assert Next(ss[i - 1], es[i - 1], ss[i - 1 + 1]);
      StepSize(ss[i - 1], es[i - 1], ss[i]);
    }
  }

  // ---- Who can go on ----

  /** A thread that needs the mutex while another holds it. */
  ghost predicate ProdBlocked(s: State, i: nat)
    requires i < |s.prods|
  {
    (s.prods[i].PWantLock? || s.prods[i].PWoken?) && s.mutex != None
  }

  ghost predicate ConsBlocked(s: State) {
    (s.cons.CWantLock? || s.cons.CWoken? || s.cons == CTaken(s.max)) && s.mutex != None
  }

  /** Nothing but the mutex ever stops a thread. */
  lemma ProdGoesOn(s: State, i: nat)
    requires i < |s.prods|
    ensures (exists s' :: Next(s, EProd(i), s')) <==> !ProdBlocked(s, i)
  {
    if !ProdBlocked(s, i) {
      var s' := match s.prods[i]
        case PIdle => SetProd(s, i, PWantLock)
        case PWantLock => SetProd(s, i, PCheck).(mutex := Producer(i))
        case PCheck => SetProd(s, i, if s.size == s.max then PSawFull else PReady)
        case PSawFull => SetProd(s, i, PParked).(mutex := None)
        case PParked => SetProd(s, i, PWoken)
        case PWoken => SetProd(s, i, PCheck).(mutex := Producer(i))
        case PReady => SetProd(s, i, PAdded(s.size)).(size := s.size + 1)
        case PAdded(was) => if was == 0 then SetProd(Broadcast(s), i, PUnlock) else SetProd(s, i, PUnlock)
        case PUnlock => SetProd(s, i, PIdle).(mutex := None);
      assert Next(s, EProd(i), s');
    }
  }

  lemma ConsGoesOn(s: State)
    requires Inv(s)
    ensures (exists s' :: Next(s, ECons, s')) <==> !ConsBlocked(s)
  {
    if !ConsBlocked(s) {
      var s' := match s.cons
        case CIdle => s.(cons := if s.size == 0 then CWantLock else CReady)
        case CWantLock => s.(cons := CCheck, mutex := Consumer)
        case CCheck => s.(cons := if s.size == 0 then CSawEmpty else CUnlock)
        case CSawEmpty => s.(cons := CParked, mutex := None)
        case CParked => s.(cons := CWoken)
        case CWoken => s.(cons := CCheck, mutex := Consumer)
        case CUnlock => s.(cons := CReady, mutex := None)
        case CReady => s.(cons := CTaken(s.size), size := s.size - 1)
        case CTaken(was) => if was == s.max then s.(cons := CSignal, mutex := Consumer) else s.(cons := CIdle)
        case CSignal => Broadcast(s).(cons := CSignalled)
        case CSignalled => s.(cons := CIdle, mutex := None);
      assert Next(s, ECons, s');
    }
  }

  /** The thread that takes the step is not asleep. */
  ghost predicate Awake(s: State, e: Event) {
    match e
    case EProd(i) => i < |s.prods| && !s.prods[i].PParked?
    case ECons => !s.cons.CParked?
  }

  /** In every state of every run with a producer, some thread that is awake can take a step. */
  lemma NeverStuck(es: seq<Event>, ss: seq<State>, i: nat) returns (e: Event, s': State)
    requires Execution(es, ss) && i <= |es| && ss[i].prods != []
    ensures Awake(ss[i], e) && Next(ss[i], e, s')
  {
    hide Next, Init;
    var s := ss[i];
    ExecutionInv(es, ss, i);
    NoLostWakeup(es, ss, i);
    ConsGoesOn(s);
    if s.mutex.Producer? {
      e := EProd(s.mutex.i);
      ProdGoesOn(s, s.mutex.i);
    } else if !s.cons.CParked? {
      e := ECons;
    } else {
      var k :| 0 <= k < |s.prods| && !s.prods[k].PParked?;
      e := EProd(k);
      ProdGoesOn(s, k);
    }
    s' :| Next(s, e, s');
  }
}
