/**
 The free list of a size class: a lock-free stack whose head word carries a 16-bit tag
 above a 48-bit chunk offset. Any number of threads interleave the loads, the link writes
 and the compare-and-swaps of push, push-list and pop, and rewrite the links of chunks
 they hold in between.
 */
module FreeListStack {
  import opened Chunks

  const TAGS: nat := 0x1_0000
  const TINC: nat := 0x1_0000_0000_0000
  const WORD: nat := 0x1_0000_0000_0000_0000

  /** The offset in a head word. */
  function Ptr(w: nat): Sptr {
    w % TINC
  }

  /** The tag in a head word. */
  function Tag(w: nat): nat {
    w / TINC
  }

  /** The word that replaces w: offset p under the next tag, in 64-bit arithmetic. */
  function NewHead(p: Sptr, w: nat): nat {
    p + ((w + TINC) % WORD) / TINC * TINC
  }

  lemma NewHeadParts(p: Sptr, w: nat)
    requires p < TINC && w < WORD
    ensures NewHead(p, w) < WORD && Ptr(NewHead(p, w)) == p && Tag(NewHead(p, w)) == (Tag(w) + 1) % TAGS
  {
    if Tag(w) + 1 < TAGS {
      assert (w + TINC) % WORD == w + TINC;
    } else {
      assert (w + TINC) % WORD == w + TINC - WORD;
    }
  }

  /** A thread's progress: the chunks to push, the head word it saw and the number of swaps made when it loaded it. */
  datatype Op =
    | Idle
    | PushLoaded(l: seq<Sptr>, seen: nat, v: nat)
    | PushLinked(l: seq<Sptr>, seen: nat, v: nat)
    | PopLoaded(seen: nat, v: nat)
    | PopRead(seen: nat, v: nat, n: Sptr)

  datatype Thread = Thread(held: set<Sptr>, op: Op)

  /** head and next are shared memory; list, owner and swaps describe it. */
  datatype State = State(
    head: nat, next: map<Sptr, Sptr>, threads: seq<Thread>, list: seq<Sptr>, owner: map<Sptr, Owner>, swaps: nat)

  datatype Owner = OnList | By(thread: nat)

  ghost function Sets(s: State, i: nat, t: Thread): State
    requires i < |s.threads|
  {
    s.(threads := s.threads[i := t])
  }

  // ---- Steps of thread i ----

  /** Consecutive chunks of l are linked. */
  ghost predicate Strung(next: map<Sptr, Sptr>, l: seq<Sptr>) {
    forall j :: 0 <= j < |l| - 1 ==> l[j] in next && next[l[j]] == l[j + 1]
  }

  ghost predicate StartPush(s: State, s': State, i: nat, l: seq<Sptr>) {
    && i < |s.threads| && s.threads[i].op.Idle?
    && l != [] && NoDup(l) && Strung(s.next, l) && (forall x :: x in l ==> x in s.threads[i].held)
    && s' == Sets(s, i, s.threads[i].(op := PushLoaded(l, s.head, s.swaps)))
  }

  ghost predicate LinkPush(s: State, s': State, i: nat) {
    && i < |s.threads| && s.threads[i].op.PushLoaded? && s.threads[i].op.l != []
    && var op := s.threads[i].op;
       s' == Sets(s.(next := s.next[op.l[|op.l| - 1] := Ptr(op.seen)]), i,
                  s.threads[i].(op := PushLinked(op.l, op.seen, op.v)))
  }

  ghost predicate SwapPush(s: State, s': State, i: nat) {
    && i < |s.threads| && s.threads[i].op.PushLinked? && s.threads[i].op.l != []
    && var t := s.threads[i];
       var op := t.op;
       if s.head == op.seen then
         s' == Sets(s, i, Thread(t.held - (set x | x in op.l), Idle)).(
                 head := NewHead(op.l[0], op.seen), list := op.l + s.list, swaps := s.swaps + 1,
                 owner := map x | x in s.owner :: if x in op.l then OnList else s.owner[x])
       else s' == Sets(s, i, t.(op := PushLoaded(op.l, s.head, s.swaps)))
  }

  ghost predicate StartPop(s: State, s': State, i: nat) {
    && i < |s.threads| && s.threads[i].op.Idle?
    && s' == Sets(s, i, s.threads[i].(op := PopLoaded(s.head, s.swaps)))
  }

  ghost predicate ReadNext(s: State, s': State, i: nat) {
    && i < |s.threads| && s.threads[i].op.PopLoaded?
    && var op := s.threads[i].op;
       if Ptr(op.seen) == 0 then s' == Sets(s, i, s.threads[i].(op := Idle))
       else && Ptr(op.seen) in s.next
            && s' == Sets(s, i, s.threads[i].(op := PopRead(op.seen, op.v, s.next[Ptr(op.seen)])))
  }

  ghost predicate SwapPop(s: State, s': State, i: nat) {
    && i < |s.threads| && s.threads[i].op.PopRead?
    && var t := s.threads[i];
       var op := t.op;
       if s.head == op.seen then
         s' == Sets(s, i, Thread(t.held + {Ptr(op.seen)}, Idle)).(
                 head := NewHead(op.n, op.seen), list := if s.list == [] then [] else s.list[1..], swaps := s.swaps + 1,
                 owner := s.owner[Ptr(op.seen) := By(i)])
       else s' == Sets(s, i, t.(op := PopLoaded(s.head, s.swaps)))
  }

  /** A thread uses a chunk it holds: it may link it anywhere. */
  ghost predicate Use(s: State, s': State, i: nat, c: Sptr, x: Sptr) {
    && i < |s.threads| && s.threads[i].op.Idle? && c in s.threads[i].held && x < TINC
    && s' == s.(next := s.next[c := x])
  }

  datatype Event =
    | EStartPush(i: nat, l: seq<Sptr>) | ELinkPush(i: nat) | ESwapPush(i: nat)
    | EStartPop(i: nat) | EReadNext(i: nat) | ESwapPop(i: nat) | EUse(i: nat, c: Sptr, x: Sptr)

  ghost predicate Next(s: State, e: Event, s': State) {
    match e
    case EStartPush(i, l) => StartPush(s, s', i, l)
    case ELinkPush(i) => LinkPush(s, s', i)
    case ESwapPush(i) => SwapPush(s, s', i)
    case EStartPop(i) => StartPop(s, s', i)
    case EReadNext(i) => ReadNext(s, s', i)
    case ESwapPop(i) => SwapPop(s, s', i)
    case EUse(i, c, x) => Use(s, s', i, c, x)
  }

  /** Fewer than 2^16 swaps happened since the thread that now swaps loaded the head. */
  ghost predicate Timely(s: State, e: Event) {
    (e.ESwapPush? || e.ESwapPop?) && e.i < |s.threads| && !s.threads[e.i].op.Idle? ==>
        s.swaps - s.threads[e.i].op.v < TAGS
  }

  // ---- The invariant ----

  ghost predicate OwnerAt(s: State, x: Sptr) {
    && x in s.owner && x in s.next && 0 < x < TINC && s.next[x] < TINC
    && (x in s.list <==> s.owner[x].OnList?)
    && (forall i :: 0 <= i < |s.threads| ==> (x in s.threads[i].held <==> s.owner[x] == By(i)))
    && (s.owner[x].By? ==> s.owner[x].thread < |s.threads|)
  }

  ghost predicate Owned(s: State) {
    && s.owner.Keys == s.next.Keys
    && (forall x :: x in s.owner ==> OwnerAt(s, x))
    && (forall x :: x in s.list ==> x in s.owner)
    && (forall i, x :: 0 <= i < |s.threads| && x in s.threads[i].held ==> x in s.owner)
  }

  ghost predicate LinkedAt(s: State, j: int) {
    0 <= j < |s.list| && s.list[j] in s.next && s.next[s.list[j]] == if j + 1 < |s.list| then s.list[j + 1] else 0
  }

  /** The head word names the first chunk, the links name the others, and none occurs twice. */
  ghost predicate Stacked(s: State) {
    && s.head < WORD && Ptr(s.head) == (if s.list == [] then 0 else s.list[0]) && Tag(s.head) == s.swaps % TAGS
    && NoDup(s.list) && (forall j :: 0 <= j < |s.list| ==> LinkedAt(s, j))
  }

  /** The word a thread saw: it is the current one if nobody swapped since. */
  ghost predicate Seen(s: State, w: nat, v: nat) {
    && w < WORD && v <= s.swaps && Tag(w) == v % TAGS && (v == s.swaps ==> w == s.head)
    && (Ptr(w) != 0 ==> Ptr(w) in s.next)
  }

  ghost predicate Pushing(s: State, i: nat, l: seq<Sptr>) {
    i < |s.threads| && l != [] && NoDup(l) && Strung(s.next, l) && (forall x :: x in l ==> x in s.threads[i].held)
  }

  ghost predicate ThreadOk(s: State, i: nat) {
    i < |s.threads| &&
    match s.threads[i].op
    case Idle => true
    case PushLoaded(l, seen, v) => Seen(s, seen, v) && Pushing(s, i, l)
    case PushLinked(l, seen, v) =>
      Seen(s, seen, v) && Pushing(s, i, l) && l[|l| - 1] in s.next && s.next[l[|l| - 1]] == Ptr(seen)
    case PopLoaded(seen, v) => Seen(s, seen, v)
    case PopRead(seen, v, n) =>
      Seen(s, seen, v) && Ptr(seen) in s.next && n < TINC && (v == s.swaps ==> n == s.next[Ptr(seen)])
  }

  ghost predicate Inv(s: State) {
    Owned(s) && Stacked(s) && forall i :: 0 <= i < |s.threads| ==> ThreadOk(s, i)
  }

  /** A swap that succeeds in time found the stack exactly as its load left it. */
  lemma SwapFresh(s: State, w: nat, v: nat)
    requires Stacked(s) && Seen(s, w, v) && s.swaps - v < TAGS && s.head == w
    ensures v == s.swaps
  {
  }

  lemma StartPushKeeps(s: State, s': State, i: nat, l: seq<Sptr>)
    requires Inv(s) && StartPush(s, s', i, l)
    ensures Inv(s')
  {
    hide NoDup, Strung;
    SameStack(s, s', i);
  }

  /** Steps that only change a thread's own progress. */
  lemma SameStack(s: State, s': State, i: nat)
    requires Inv(s) && i < |s.threads| && |s'.threads| == |s.threads|
    requires s' == Sets(s, i, s.threads[i].(op := s'.threads[i].op)) && ThreadOk(s', i)
    ensures Inv(s')
  {
    hide NoDup, Strung, Ptr, Tag;
    forall x | x in s'.owner
      ensures OwnerAt(s', x)
    {
      assert OwnerAt(s, x);
    }
    forall j | 0 <= j < |s'.list|
      ensures LinkedAt(s', j)
    {
      assert LinkedAt(s, j);
    }
    forall k | 0 <= k < |s'.threads|
      ensures ThreadOk(s', k)
    {
      assert ThreadOk(s, k);
    }
  }

  lemma StartPopKeeps(s: State, s': State, i: nat)
    requires Inv(s) && StartPop(s, s', i)
    ensures Inv(s')
  {
    hide NoDup, Strung;
    if s.list != [] {
      assert LinkedAt(s, 0);
    }
    SameStack(s, s', i);
  }

  lemma ReadNextKeeps(s: State, s': State, i: nat)
    requires Inv(s) && ReadNext(s, s', i)
    ensures Inv(s')
  {
    hide NoDup, Strung, Ptr, Tag;
    assert ThreadOk(s, i);
    var c := Ptr(s.threads[i].op.seen);
    if c != 0 {
      assert OwnerAt(s, c);
    }
    SameStack(s, s', i);
  }

  lemma SwapFailKeeps(s: State, s': State, i: nat)
    requires Inv(s) && (SwapPush(s, s', i) || SwapPop(s, s', i)) && s.head != s.threads[i].op.seen
    ensures Inv(s')
  {
    hide NoDup, Strung;
    assert ThreadOk(s, i);
    if s.list != [] {
      assert LinkedAt(s, 0);
    }
    SameStack(s, s', i);
  }

  /** Rewriting the link of a chunk that thread i holds disturbs neither the stack nor the other threads. */
  lemma LinkHeld(s: State, s': State, i: nat, c: Sptr, x: Sptr)
    requires Inv(s) && i < |s.threads| && c in s.threads[i].held && x < TINC
    requires |s'.threads| == |s.threads|
    requires s' == Sets(s.(next := s.next[c := x]), i, s.threads[i].(op := s'.threads[i].op))
    ensures Owned(s') && Stacked(s')
    ensures forall k :: 0 <= k < |s.threads| && k != i ==> ThreadOk(s', k)
  {
    hide NoDup, Tag, Seen;
    assert OwnerAt(s, c);
    forall y | y in s'.owner
      ensures OwnerAt(s', y)
    {
      assert OwnerAt(s, y);
    }
    forall j | 0 <= j < |s'.list|
      ensures LinkedAt(s', j)
    {
      assert LinkedAt(s, j);
      assert s.list[j] in s.list;
    }
    forall k | 0 <= k < |s.threads| && k != i
      ensures ThreadOk(s', k)
    {
      LinkHeldOther(s, s', i, k, c, x);
    }
  }

  lemma LinkHeldOther(s: State, s': State, i: nat, k: nat, c: Sptr, x: Sptr)
    requires Inv(s) && i < |s.threads| && c in s.threads[i].held && k < |s.threads| && k != i
    requires |s'.threads| == |s.threads|
    requires s' == Sets(s.(next := s.next[c := x]), i, s.threads[i].(op := s'.threads[i].op))
    ensures ThreadOk(s', k)
  {
    hide NoDup, Tag;
    assert OwnerAt(s, c);
    assert ThreadOk(s, k);
    var op := s.threads[k].op;
    if op.PushLoaded? || op.PushLinked? {
      forall y | y in op.l
        ensures y != c
      {
      }
    }
    if op.PopRead? && op.v == s.swaps {
      assert s.list != [] && s.list[0] in s.list;
    }
  }

  lemma LinkPushKeeps(s: State, s': State, i: nat)
    requires Inv(s) && LinkPush(s, s', i)
    ensures Inv(s')
  {
    hide Owned, Stacked, Tag;
    assert ThreadOk(s, i);
    var op := s.threads[i].op;
    var c := op.l[|op.l| - 1];
    LinkHeld(s, s', i, c, Ptr(op.seen));
    assert ThreadOk(s', i);
  }

  lemma UseKeeps(s: State, s': State, i: nat, c: Sptr, x: Sptr)
    requires Inv(s) && Use(s, s', i, c, x)
    ensures Inv(s')
  {
    hide Owned, Stacked, Tag;
    assert s' == Sets(s.(next := s.next[c := x]), i, s.threads[i].(op := Idle));
    LinkHeld(s, s', i, c, x);
    assert ThreadOk(s', i);
  }

  /** After a swap every other thread's view is out of date but still consistent. */
  lemma OthersStale(s: State, s': State, i: nat, k: nat)
    requires Inv(s) && i < |s.threads| && k < |s.threads| && k != i
    requires |s'.threads| == |s.threads| && s'.threads[k] == s.threads[k] && s'.next == s.next
    requires s'.swaps == s.swaps + 1
    ensures ThreadOk(s', k)
  {
    hide Strung, NoDup, Ptr, Tag;
    assert ThreadOk(s, k);
  }

  lemma TagNext(s: State, p: Sptr, w: nat)
    requires Stacked(s) && w == s.head && p < TINC
    ensures NewHead(p, w) < WORD && Ptr(NewHead(p, w)) == p && Tag(NewHead(p, w)) == (s.swaps + 1) % TAGS
  {
    NewHeadParts(p, w);
  }

  lemma PushedStack(s: State, s': State, i: nat)
    requires Inv(s) && SwapPush(s, s', i) && s.head == s.threads[i].op.seen && s.threads[i].op.v == s.swaps
    ensures Stacked(s')
  {
    hide Ptr, Tag, NewHead;
    assert ThreadOk(s, i);
    var l := s.threads[i].op.l;
    assert l[0] in l && OwnerAt(s, l[0]);
    TagNext(s, l[0], s.head);
    forall j | 0 <= j < |l|
      ensures l[j] !in s.list
    {
      assert l[j] in l && OwnerAt(s, l[j]);
    }
    forall j | 0 <= j < |s'.list|
      ensures LinkedAt(s', j)
    {
      if j >= |l| {
        assert LinkedAt(s, j - |l|);
      } else {
        assert j < |l| - 1 ==> l[j] in s.next && s.next[l[j]] == l[j + 1];
      }
    }
  }

  lemma PushedOwned(s: State, s': State, i: nat)
    requires Inv(s) && SwapPush(s, s', i) && s.head == s.threads[i].op.seen
    ensures Owned(s')
  {
    hide Ptr, Tag, NewHead, NoDup, Strung, Stacked;
    assert ThreadOk(s, i);
    var l := s.threads[i].op.l;
    assert s'.owner.Keys == s.owner.Keys;
    forall x | x in s'.owner
      ensures OwnerAt(s', x)
    {
      assert OwnerAt(s, x);
      assert x in s'.list <==> x in l || x in s.list;
    }
    forall x | x in s'.list
      ensures x in s'.owner
    {
      assert x in l || x in s.list;
    }
  }

  lemma SwapPushKeeps(s: State, s': State, i: nat)
    requires Inv(s) && SwapPush(s, s', i) && Timely(s, ESwapPush(i))
    ensures Inv(s')
  {
    hide Owned, Stacked, NewHead, Ptr, Tag, Strung, NoDup, Seen, Pushing;
    assert ThreadOk(s, i);
    if s.head != s.threads[i].op.seen {
      SwapFailKeeps(s, s', i);
    } else {
      SwapFresh(s, s.threads[i].op.seen, s.threads[i].op.v);
      PushedStack(s, s', i);
      PushedOwned(s, s', i);
      forall k | 0 <= k < |s'.threads|
        ensures ThreadOk(s', k)
      {
        if k != i {
          OthersStale(s, s', i, k);
        }
      }
    }
  }

  lemma PoppedStack(s: State, s': State, i: nat)
    requires Inv(s) && SwapPop(s, s', i) && s.head == s.threads[i].op.seen && s.threads[i].op.v == s.swaps
    ensures Stacked(s') && s.list != [] && s.list[0] == Ptr(s.head)
  {
    hide Ptr, Tag, NewHead;
    assert ThreadOk(s, i);
    assert OwnerAt(s, Ptr(s.head));
    assert LinkedAt(s, 0);
    TagNext(s, s.threads[i].op.n, s.head);
    forall j | 0 <= j < |s'.list|
      ensures LinkedAt(s', j)
    {
      assert LinkedAt(s, j + 1);
    }
  }

  lemma PoppedOwned(s: State, s': State, i: nat)
    requires Inv(s) && SwapPop(s, s', i) && s.head == s.threads[i].op.seen && s.list != [] && s.list[0] == Ptr(s.head)
    ensures Owned(s')
  {
    hide Ptr, Tag, NewHead, Strung;
    assert s.list[0] in s.list;
    assert s'.owner.Keys == s.owner.Keys;
    forall x | x in s'.owner
      ensures OwnerAt(s', x)
    {
      assert OwnerAt(s, x);
      TailMembers(s.list, x);
    }
    forall x | x in s'.list
      ensures x in s'.owner
    {
      TailMembers(s.list, x);
    }
  }

  lemma TailMembers(l: seq<Sptr>, x: Sptr)
    requires l != [] && NoDup(l)
    ensures x in l[1..] <==> x in l && x != l[0]
  {
  }

  lemma SwapPopKeeps(s: State, s': State, i: nat)
    requires Inv(s) && SwapPop(s, s', i) && Timely(s, ESwapPop(i))
    ensures Inv(s')
  {
    hide Owned, Stacked, NewHead, Ptr, Tag, Strung, NoDup, Seen, Pushing;
    assert ThreadOk(s, i);
    if s.head != s.threads[i].op.seen {
      SwapFailKeeps(s, s', i);
    } else {
      SwapFresh(s, s.threads[i].op.seen, s.threads[i].op.v);
      PoppedStack(s, s', i);
      PoppedOwned(s, s', i);
      forall k | 0 <= k < |s'.threads|
        ensures ThreadOk(s', k)
      {
        if k != i {
          OthersStale(s, s', i, k);
        }
      }
    }
  }

  lemma NextKeeps(s: State, e: Event, s': State)
    requires Inv(s) && Next(s, e, s') && Timely(s, e)
    ensures Inv(s')
  {
    hide Inv, StartPush, LinkPush, SwapPush, StartPop, ReadNext, SwapPop, Use, Timely;
    match e
    case EStartPush(i, l) => StartPushKeeps(s, s', i, l);
    case ELinkPush(i) => LinkPushKeeps(s, s', i);
    case ESwapPush(i) => SwapPushKeeps(s, s', i);
    case EStartPop(i) => StartPopKeeps(s, s', i);
    case EReadNext(i) => ReadNextKeeps(s, s', i);
    case ESwapPop(i) => SwapPopKeeps(s, s', i);
    case EUse(i, c, x) => UseKeeps(s, s', i, c, x);
  }

  // ---- Runs ----

  ghost predicate Execution(es: seq<Event>, ss: seq<State>) {
    && |ss| == |es| + 1
    && (forall i :: 0 <= i < |es| ==> Next(ss[i], es[i], ss[i + 1]))
  }

  ghost predicate AllTimely(es: seq<Event>, ss: seq<State>) {
    |ss| == |es| + 1 && forall i :: 0 <= i < |es| ==> Timely(ss[i], es[i])
  }

  /** x is on the list exactly once and held by nobody, or not on the list and held by exactly one thread. */
  ghost predicate ExactlyOnce(s: State, x: Sptr) {
    || (&& (exists j :: 0 <= j < |s.list| && s.list[j] == x)
        && forall i :: 0 <= i < |s.threads| ==> x !in s.threads[i].held)
    || (&& x !in s.list
        && exists i :: && 0 <= i < |s.threads| && x in s.threads[i].held
                       && forall k :: 0 <= k < |s.threads| && k != i ==> x !in s.threads[k].held)
  }

  lemma {:induction false} ExecutionInv(es: seq<Event>, ss: seq<State>, i: nat)
    requires Execution(es, ss) && AllTimely(es, ss) && Inv(ss[0]) && i <= |es|
    ensures Inv(ss[i]) && ss[i].next.Keys == ss[0].next.Keys
    decreases i
  {
    hide Inv, Timely;
    if i > 0 {
      ExecutionInv(es, ss, i - 1);
      assert Next(ss[i - 1], es[i - 1], ss[i - 1 + 1]) && Timely(ss[i - 1], es[i - 1]);
      NextKeeps(ss[i - 1], es[i - 1], ss[i]);
      SameChunks(ss[i - 1], es[i - 1], ss[i]);
    }
  }

  lemma SameChunks(s: State, e: Event, s': State)
    requires Inv(s) && Next(s, e, s')
    ensures s'.next.Keys == s.next.Keys
  {
    hide Stacked, Strung, NoDup, Seen, NewHead, Tag;
    match e
    case ELinkPush(i) =>
      assert ThreadOk(s, i);
      var l := s.threads[i].op.l;
      assert l[|l| - 1] in l && OwnerAt(s, l[|l| - 1]);
    case EUse(i, c, x) =>
      assert OwnerAt(s, c);
    case _ =>
  }

  /**
   In every timely run no chunk is lost, duplicated or handed out twice, and the list is acyclic and null-terminated.
   */
  lemma Conservation(es: seq<Event>, ss: seq<State>, i: nat)
    requires Execution(es, ss) && AllTimely(es, ss) && Inv(ss[0]) && i <= |es|
    ensures NoDup(ss[i].list) && Listing(ss[i].next, Ptr(ss[i].head), ss[i].list)
    ensures forall x :: x in ss[0].next ==> ExactlyOnce(ss[i], x)
  {
    hide Next, Timely, Ptr, Tag, NoDup, ThreadOk;
    ExecutionInv(es, ss, i);
    var s := ss[i];
    ListingOf(s);
    forall x | x in ss[0].next
      ensures ExactlyOnce(s, x)
    {
      assert OwnerAt(s, x);
    }
  }

  /** Following links from c visits exactly the chunks of l and ends at null. */
  ghost predicate Listing(next: map<Sptr, Sptr>, c: Sptr, l: seq<Sptr>)
    decreases |l|
  {
    if l == [] then c == 0 else c == l[0] && c != 0 && c in next && Listing(next, next[c], l[1..])
  }

  lemma ListingOf(s: State)
    requires Inv(s)
    ensures Listing(s.next, Ptr(s.head), s.list)
  {
    hide ThreadOk, Ptr, Tag, NoDup;
    ListingFrom(s, 0);
    assert s.list[0..] == s.list;
  }

  lemma {:induction false} ListingFrom(s: State, j: nat)
    requires Owned(s) && Stacked(s) && j <= |s.list|
    ensures Listing(s.next, if j < |s.list| then s.list[j] else 0, s.list[j..])
    decreases |s.list| - j
  {
    hide Ptr, Tag, NoDup;
    if j < |s.list| {
      assert LinkedAt(s, j);
      assert s.list[j] in s.list && OwnerAt(s, s.list[j]);
      ListingFrom(s, j + 1);
      assert s.list[j..][1..] == s.list[j + 1..];
    }
  }

  // ---- The list is an atomic stack ----

  /**
   In time, the list changes only by swaps, and a swap takes effect exactly when no other did since its thread loaded
   the head: a push puts all its chunks on top, a pop takes the top chunk and its thread then holds it.
   */
  lemma StackStep(s: State, e: Event, s': State)
    requires Inv(s) && Next(s, e, s') && Timely(s, e)
    ensures !e.ESwapPush? && !e.ESwapPop? ==> s'.list == s.list && s'.swaps == s.swaps
    ensures e.ESwapPush? ==>
              var op := s.threads[e.i].op;
              && s'.list == (if op.v == s.swaps then op.l + s.list else s.list)
              && s'.threads[e.i].op == if op.v == s.swaps then Idle else PushLoaded(op.l, s.head, s.swaps)
    ensures e.ESwapPop? ==>
              var op := s.threads[e.i].op;
              && (op.v == s.swaps ==>
                    && s.list != [] && s'.list == s.list[1..] && s'.threads[e.i].op.Idle?
                    && s'.threads[e.i].held == s.threads[e.i].held + {s.list[0]})
              && (op.v != s.swaps ==> s'.list == s.list && s'.threads[e.i].op == PopLoaded(s.head, s.swaps))
  {
    hide Owned, NoDup, Strung, Ptr, Tag, NewHead;
    assert ThreadOk(s, e.i);
    if e.ESwapPush? || e.ESwapPop? {
      var op := s.threads[e.i].op;
      if s.head == op.seen {
        SwapFresh(s, op.seen, op.v);
      }
      if e.ESwapPop? && op.v == s.swaps {
        PopTop(s, e.i);
      }
    }
  }

  lemma PopTop(s: State, i: nat)
    requires Inv(s) && i < |s.threads| && s.threads[i].op.PopRead? && s.threads[i].op.v == s.swaps
    ensures s.list != [] && s.list[0] == Ptr(s.threads[i].op.seen)
  {
    hide NoDup, Strung, Ptr, Tag;
    assert ThreadOk(s, i);
    assert OwnerAt(s, Ptr(s.threads[i].op.seen));
  }

  ghost predicate Popping(s: State, i: nat) {
    i < |s.threads| && (s.threads[i].op.PopLoaded? || s.threads[i].op.PopRead?)
  }

  lemma PopGoesOn(s: State, e: Event, s': State, i: nat)
    requires Next(s, e, s') && Popping(s', i)
    ensures e == EStartPop(i) || e == ESwapPop(i) ==> s'.threads[i].op == PopLoaded(s.head, s.swaps)
    ensures e != EStartPop(i) && e != ESwapPop(i) ==>
              Popping(s, i) && s'.threads[i].op.seen == s.threads[i].op.seen && s'.threads[i].op.v == s.threads[i].op.v
  {
    hide Ptr, Tag, NewHead, NoDup, Strung;
  }

  /** The head word that a pop works on was the head when the pop loaded it. */
  lemma {:induction false} PopOrigin(es: seq<Event>, ss: seq<State>, k: nat, i: nat) returns (j: nat)
    requires Execution(es, ss) && k <= |es| && Popping(ss[k], i) && !Popping(ss[0], i)
    ensures j < k && (es[j] == EStartPop(i) || es[j] == ESwapPop(i))
    ensures ss[k].threads[i].op.seen == ss[j].head && ss[k].threads[i].op.v == ss[j].swaps
    ensures forall l :: j < l < k ==> es[l] != EStartPop(i) && es[l] != ESwapPop(i)
    decreases k
  {
    hide Next, Inv;
    assert Next(ss[k - 1], es[k - 1], ss[k - 1 + 1]);
    PopGoesOn(ss[k - 1], es[k - 1], ss[k], i);
    if es[k - 1] == EStartPop(i) || es[k - 1] == ESwapPop(i) {
      j := k - 1;
    } else {
      j := PopOrigin(es, ss, k - 1, i);
    }
  }

  /** A pop comes back empty-handed exactly when the list was empty at the moment it loaded the head. */
  lemma EmptyHanded(es: seq<Event>, ss: seq<State>, k: nat, i: nat) returns (j: nat)
    requires Execution(es, ss) && AllTimely(es, ss) && Inv(ss[0]) && !Popping(ss[0], i) && k < |es|
    requires es[k] == EReadNext(i)
    ensures j < k && (es[j] == EStartPop(i) || es[j] == ESwapPop(i))
    ensures i < |ss[k + 1].threads| && (ss[k + 1].threads[i].op.Idle? <==> ss[j].list == [])
  {
    hide Owned, NoDup, Strung, Ptr, Tag;
    assert Next(ss[k], es[k], ss[k + 1]);
    j := PopOrigin(es, ss, k, i);
    ExecutionInv(es, ss, j);
    if ss[j].list != [] {
      TopPositive(ss[j]);
    }
  }

  lemma TopPositive(s: State)
    requires Inv(s) && s.list != []
    ensures s.list[0] != 0
  {
    hide NoDup, Strung, Ptr, Tag;
    assert OwnerAt(s, s.list[0]);
  }

  /** A thread in the middle of an operation can always take its next step. */
  lemma ThreadAdvances(s: State, i: nat) returns (e: Event, s': State)
    requires Inv(s) && i < |s.threads| && !s.threads[i].op.Idle?
    ensures e.i == i && !e.EUse? && Next(s, e, s')
  {
    hide Owned, NoDup, Strung, Ptr, Tag, NewHead;
    assert ThreadOk(s, i);
    var t := s.threads[i];
    match t.op
    case PushLoaded(l, seen, v) =>
      e := ELinkPush(i);
      s' := Sets(s.(next := s.next[l[|l| - 1] := Ptr(seen)]), i, t.(op := PushLinked(l, seen, v)));
    case PushLinked(l, seen, v) =>
      e := ESwapPush(i);
      s' := if s.head == seen then
              Sets(s, i, Thread(t.held - (set x | x in l), Idle)).(
                head := NewHead(l[0], seen), list := l + s.list, swaps := s.swaps + 1,
                owner := map x | x in s.owner :: if x in l then OnList else s.owner[x])
            else Sets(s, i, t.(op := PushLoaded(l, s.head, s.swaps)));
    case PopLoaded(seen, v) =>
      e := EReadNext(i);
      s' := if Ptr(seen) == 0 then Sets(s, i, t.(op := Idle))
            else Sets(s, i, t.(op := PopRead(seen, v, s.next[Ptr(seen)])));
    case PopRead(seen, v, n) =>
      e := ESwapPop(i);
      s' := if s.head == seen then
              Sets(s, i, Thread(t.held + {Ptr(seen)}, Idle)).(
                head := NewHead(n, seen), list := if s.list == [] then [] else s.list[1..], swaps := s.swaps + 1,
                owner := s.owner[Ptr(seen) := By(i)])
            else Sets(s, i, t.(op := PopLoaded(s.head, s.swaps)));
  }

  // ---- The bound is tight: 2^16 swaps between load and swap break the list ----

  /** s' is reached from s by n timely steps. */
  ghost predicate Reaches(s: State, n: nat, s': State)
    decreases n
  {
    if n == 0 then s == s' else exists e, m :: Next(s, e, m) && Timely(s, e) && Reaches(m, n - 1, s')
  }

  lemma {:induction false} ReachesMore(s: State, n: nat, m: State, e: Event, s': State)
    requires Reaches(s, n, m) && Next(m, e, s') && Timely(m, e)
    ensures Reaches(s, n + 1, s')
    decreases n
  {
    hide Next, Timely;
    if n == 0 {
      assert Reaches(s', 0, s');
    } else {
      var d, x :| Next(s, d, x) && Timely(s, d) && Reaches(x, n - 1, m);
      ReachesMore(x, n - 1, m, e, s');
    }
  }

  /** Two threads; the first is in the middle of a pop and does not move. */
  ghost predicate Stalled(s: State, op: Op) {
    Inv(s) && |s.threads| == 2 && s.threads[0] == Thread({}, op) && s.threads[1].op.Idle?
  }

  /** The second thread pops the first chunk. */
  lemma PopBy(s0: State, n: nat, s: State, op: Op) returns (s': State)
    requires Reaches(s0, n, s) && Stalled(s, op) && s.list != []
    ensures Reaches(s0, n + 3, s') && Stalled(s', op)
    ensures s'.list == s.list[1..] && s'.threads[1].held == s.threads[1].held + {s.list[0]} && s'.swaps == s.swaps + 1
  {
    hide Reaches, Owned, Tag, NewHead, Seen, Inv;
    PopReady(s);
    var a := Sets(s, 1, s.threads[1].(op := PopLoaded(s.head, s.swaps)));
    assert StartPop(s, a, 1);
    ReachesMore(s0, n, s, EStartPop(1), a);
    NextKeeps(s, EStartPop(1), a);
    var b := Sets(a, 1, a.threads[1].(op := PopRead(s.head, s.swaps, s.next[s.list[0]])));
    assert ReadNext(a, b, 1);
    ReachesMore(s0, n + 1, a, EReadNext(1), b);
    NextKeeps(a, EReadNext(1), b);
    var t := b.threads[1];
    s' := Sets(b, 1, Thread(t.held + {Ptr(s.head)}, Idle)).(
            head := NewHead(s.next[s.list[0]], s.head), list := s.list[1..], swaps := s.swaps + 1,
            owner := s.owner[Ptr(s.head) := By(1)]);
    assert SwapPop(b, s', 1);
    assert Timely(b, ESwapPop(1));
    ReachesMore(s0, n + 2, b, ESwapPop(1), s');
    NextKeeps(b, ESwapPop(1), s');
  }

  lemma PopReady(s: State)
    requires Inv(s) && s.list != []
    ensures Ptr(s.head) == s.list[0] != 0 && s.list[0] in s.next
  {
    assert LinkedAt(s, 0);
    assert s.list[0] in s.list;
    assert OwnerAt(s, s.list[0]);
  }

  /** The second thread pushes a chunk it holds. */
  lemma PushBy(s0: State, n: nat, s: State, op: Op, c: Sptr) returns (s': State)
    requires Reaches(s0, n, s) && Stalled(s, op) && c in s.threads[1].held
    ensures Reaches(s0, n + 3, s') && Stalled(s', op)
    ensures s'.list == [c] + s.list && s'.threads[1].held == s.threads[1].held - {c} && s'.swaps == s.swaps + 1
  {
    hide Reaches, Owned, Tag, NewHead, Seen, Inv;
    var a := Sets(s, 1, s.threads[1].(op := PushLoaded([c], s.head, s.swaps)));
    assert StartPush(s, a, 1, [c]);
    ReachesMore(s0, n, s, EStartPush(1, [c]), a);
    NextKeeps(s, EStartPush(1, [c]), a);
    var b := Sets(a.(next := a.next[c := Ptr(s.head)]), 1, a.threads[1].(op := PushLinked([c], s.head, s.swaps)));
    assert LinkPush(a, b, 1);
    ReachesMore(s0, n + 1, a, ELinkPush(1), b);
    NextKeeps(a, ELinkPush(1), b);
    var t := b.threads[1];
    s' := Sets(b, 1, Thread(t.held - (set x | x in [c]), Idle)).(
            head := NewHead(c, s.head), list := [c] + s.list, swaps := s.swaps + 1,
            owner := map x | x in b.owner :: if x in [c] then OnList else b.owner[x]);
    assert SwapPush(b, s', 1);
    assert Timely(b, ESwapPush(1));
    ReachesMore(s0, n + 2, b, ESwapPush(1), s');
    NextKeeps(b, ESwapPush(1), s');
    assert (set x | x in [c]) == {c};
  }

  /** Popping and pushing the same chunk k times over. */
  lemma {:induction false} Churn(s0: State, n: nat, s: State, op: Op, k: nat) returns (m: nat, s': State)
    requires Reaches(s0, n, s) && Stalled(s, op) && s.list != []
    ensures Reaches(s0, m, s') && Stalled(s', op)
    ensures s'.list == s.list && s'.threads[1].held == s.threads[1].held && s'.swaps == s.swaps + 2 * k
    decreases k
  {
    hide Reaches, Inv;
    m, s' := n, s;
    if k > 0 {
      var c := s.list[0];
      HeadNotHeld(s);
      var a := PopBy(s0, n, s, op);
      var b := PushBy(s0, n + 3, a, op, c);
      assert [c] + s.list[1..] == s.list;
      assert b.threads[1].held == s.threads[1].held;
      m, s' := Churn(s0, n + 6, b, op, k - 1);
    }
  }

  lemma HeadNotHeld(s: State)
    requires Inv(s) && s.list != [] && |s.threads| == 2
    ensures s.list[0] !in s.threads[1].held
  {
    assert s.list[0] in s.list && OwnerAt(s, s.list[0]);
  }

  /** Two chunks on the list, a third held by the second thread. */
  ghost function Example(): State {
    State(64, map[64 := 128, 128 := 0, 192 := 0], [Thread({}, Idle), Thread({192}, Idle)], [64, 128],
          map[64 := OnList, 128 := OnList, 192 := By(1)], 0)
  }

  lemma ExampleInv()
    ensures Inv(Example())
  {
    var s := Example();
    forall x | x in s.owner
      ensures OwnerAt(s, x)
    {
    }
    assert LinkedAt(s, 0) && LinkedAt(s, 1);
    forall i | 0 <= i < |s.threads|
      ensures ThreadOk(s, i)
    {
    }
  }

  /** The first thread loads the head and reads its link. */
  lemma Stall() returns (s: State)
    ensures Reaches(Example(), 2, s) && Stalled(s, PopRead(64, 0, 128))
    ensures s.list == [64, 128] && s.threads[1].held == {192} && s.swaps == 0
  {
    ExampleInv();
    var s0 := Example();
    var a := Sets(s0, 0, Thread({}, PopLoaded(64, 0)));
    assert Reaches(s0, 0, s0);
    assert StartPop(s0, a, 0);
    ReachesMore(s0, 0, s0, EStartPop(0), a);
    StartPopKeeps(s0, a, 0);
    s := Sets(a, 0, Thread({}, PopRead(64, 0, 128)));
    assert ReadNext(a, s, 0);
    ReachesMore(s0, 1, a, EReadNext(0), s);
    ReadNextKeeps(a, s, 0);
  }

  /**
   After exactly 2^16 swaps the stalled pop still succeeds, and puts a chunk another thread holds at the head of the
   list.
   */
  lemma WrapBreaks() returns (n: nat, s: State, s': State)
    ensures Inv(Example()) && Reaches(Example(), n, s) && Inv(s)
    ensures Next(s, ESwapPop(0), s') && |s.threads| == |s'.threads| == 2 && s.threads[0].op.PopRead?
    ensures s.swaps - s.threads[0].op.v == TAGS
    ensures Ptr(s'.head) != 0 && Ptr(s'.head) in s'.threads[1].held && !Inv(s')
  {
    hide Reaches, Inv, Example;
    ExampleInv();
    var op, s0 := PopRead(64, 0, 128), Example();
    var a := Stall();
    var b := PopBy(s0, 2, a, op);
    var c := PopBy(s0, 5, b, op);
    var d := PushBy(s0, 8, c, op, 192);
    var e := PushBy(s0, 11, d, op, 64);
    n, s := Churn(s0, 14, e, op, 32766);
    assert 128 in s.threads[1].held;
    SameWord(s);
    s' := Sets(s, 0, Thread({64}, Idle)).(head := NewHead(128, 64), list := s.list[1..], swaps := s.swaps + 1,
                                          owner := s.owner[64 := By(0)]);
    assert {} + {64} == {64};
    assert SwapPop(s, s', 0);
    NewHeadParts(128, 64);
    Broken(s');
  }

  lemma SameWord(s: State)
    requires Inv(s) && s.list != [] && s.list[0] == 64 && s.swaps == TAGS
    ensures s.head == 64 && Ptr(64) == 64
  {
    assert s.head == Tag(s.head) * TINC + Ptr(s.head);
  }

  lemma Broken(s: State)
    requires |s.threads| == 2 && Ptr(s.head) != 0 && Ptr(s.head) in s.threads[1].held
    ensures !Inv(s)
  {
    if Inv(s) {
      HeadNotHeldBy(s);
    }
  }

  lemma HeadNotHeldBy(s: State)
    requires Inv(s) && |s.threads| == 2 && Ptr(s.head) != 0
    ensures Ptr(s.head) !in s.threads[1].held
  {
    HeadNotHeld(s);
  }
}
