/**
 The segment's bump allocator: threads race to move one shared byte index forward with
 compare-and-swap, each retrying with the index it found.
 */
module BumpAllocator {
  import opened Arithmetic

  /** A request: the size and alignment asked for. */
  datatype Request = Request(size: nat, align: nat)

  /** A thread is idle or about to swap the index cur it saw. */
  datatype Thread = Idle | Trying(r: Request, cur: nat)

  /** Memory handed out for a request. */
  datatype Region = Region(lo: nat, hi: nat, r: Request)

  /** byteIndex is the shared word; granted lists what has been handed out. */
  datatype State = State(byteIndex: nat, max: nat, threads: seq<Thread>, granted: seq<Region>)

  function Start(r: Request, cur: nat): nat
    requires r.align > 0
  {
    RoundUp(cur, r.align)
  }

  function NewPos(r: Request, cur: nat): nat
    requires r.align > 0
  {
    RoundUp(cur, r.align) + RoundUp(r.size, r.align)
  }

  /** Loads the index; the request fails if it does not fit below the limit. */
  ghost predicate Load(s: State, s': State, i: nat, r: Request) {
    && i < |s.threads| && s.threads[i].Idle? && r.align > 0
    && s' == if NewPos(r, s.byteIndex) >= s.max then s else s.(threads := s.threads[i := Trying(r, s.byteIndex)])
  }

  /** The swap succeeds: the region between the aligned index and the new index is handed out. */
  ghost predicate Swap(s: State, s': State, i: nat) {
    && i < |s.threads| && s.threads[i].Trying? && s.threads[i].r.align > 0 && s.threads[i].cur == s.byteIndex
    && var r, cur := s.threads[i].r, s.threads[i].cur;
       s' == s.(byteIndex := NewPos(r, cur), threads := s.threads[i := Idle],
                granted := s.granted + [Region(Start(r, cur), NewPos(r, cur), r)])
  }

  /** The swap fails, because the index moved or spuriously, and reports the current index. */
  ghost predicate Retry(s: State, s': State, i: nat) {
    && i < |s.threads| && s.threads[i].Trying? && s.threads[i].r.align > 0
    && var r := s.threads[i].r;
       s' == s.(threads := s.threads[i := if NewPos(r, s.byteIndex) >= s.max then Idle else Trying(r, s.byteIndex)])
  }

  datatype Event = ELoad(i: nat, r: Request) | ESwap(i: nat) | ERetry(i: nat)

  ghost predicate Next(s: State, e: Event, s': State) {
    match e
    case ELoad(i, r) => Load(s, s', i, r)
    case ESwap(i) => Swap(s, s', i)
    case ERetry(i) => Retry(s, s', i)
  }

  ghost predicate RegionOk(g: Region) {
    g.r.align > 0 && g.lo % g.r.align == 0 && g.lo + g.r.size <= g.hi
  }

  /** What has been handed out lies, in order and without overlap, between the first index and the current one. */
  ghost predicate Inv(s: State, first: nat) {
    && first <= s.byteIndex && (s.granted != [] ==> s.byteIndex < s.max)
    && (forall k :: 0 <= k < |s.granted| ==>
          RegionOk(s.granted[k]) && first <= s.granted[k].lo && s.granted[k].hi <= s.byteIndex)
    && (forall j, k :: 0 <= j < k < |s.granted| ==> s.granted[j].hi <= s.granted[k].lo)
    && (forall i :: 0 <= i < |s.threads| && s.threads[i].Trying? ==>
          && s.threads[i].r.align > 0 && NewPos(s.threads[i].r, s.threads[i].cur) < s.max
          && first <= s.threads[i].cur <= s.byteIndex)
    && (forall k :: 0 <= k < |s.granted| ==> PackedAt(s.granted, first, k))
    && s.byteIndex == EndOf(s.granted, first)
  }

  /** Where the regions end. */
  ghost function EndOf(g: seq<Region>, first: nat): nat {
    if g == [] then first else g[|g| - 1].hi
  }

  /** Region number k begins at the next multiple behind its predecessor and has its size rounded up. */
  ghost predicate PackedAt(g: seq<Region>, first: nat, k: nat)
    requires k < |g|
  {
    && g[k].r.align > 0 && g[k].lo == RoundUp(EndOf(g[..k], first), g[k].r.align)
    && g[k].hi == g[k].lo + RoundUp(g[k].r.size, g[k].r.align)
  }

  lemma SwapKeeps(s: State, s': State, i: nat, first: nat)
    requires Inv(s, first) && Swap(s, s', i)
    ensures Inv(s', first) && s.byteIndex <= s'.byteIndex
  {
    hide RoundUp;
    var r, cur := s.threads[i].r, s.threads[i].cur;
    RoundUpIs(cur, r.align);
    RoundUpIs(r.size, r.align);
    forall k | 0 <= k < |s'.granted|
      ensures PackedAt(s'.granted, first, k)
    {
      if k < |s.granted| {
        assert s'.granted[..k] == s.granted[..k];
        assert PackedAt(s.granted, first, k);
      } else {
        assert s'.granted[..k] == s.granted;
      }
    }
  }

  lemma NextKeeps(s: State, e: Event, s': State, first: nat)
    requires Inv(s, first) && Next(s, e, s')
    ensures Inv(s', first) && s.byteIndex <= s'.byteIndex && s'.max == s.max
  {
    hide RoundUp;
    if e.ESwap? {
      SwapKeeps(s, s', e.i, first);
    }
  }

  ghost predicate Execution(es: seq<Event>, ss: seq<State>) {
    && |ss| == |es| + 1 && ss[0].granted == [] && (forall i :: 0 <= i < |ss[0].threads| ==> ss[0].threads[i].Idle?)
    && (forall i :: 0 <= i < |es| ==> Next(ss[i], es[i], ss[i + 1]))
  }

  lemma {:induction false} ExecutionInv(es: seq<Event>, ss: seq<State>, i: nat)
    requires Execution(es, ss) && i <= |es|
    ensures Inv(ss[i], ss[0].byteIndex) && ss[i].max == ss[0].max
    decreases i
  {
    hide Next;
    if i > 0 {
      ExecutionInv(es, ss, i - 1);
      assert Next(ss[i - 1], es[i - 1], ss[i - 1 + 1]);
      NextKeeps(ss[i - 1], es[i - 1], ss[i], ss[0].byteIndex);
    }
  }

  /** Whatever the interleaving, the regions are aligned, large enough, pairwise disjoint and below the limit. */
  lemma RegionsDisjoint(es: seq<Event>, ss: seq<State>, i: nat, j: nat, k: nat)
    requires Execution(es, ss) && i <= |es| && j < |ss[i].granted| && k < |ss[i].granted|
    ensures var g := ss[i].granted[j];
            && g.r.align > 0 && g.lo % g.r.align == 0 && g.lo + g.r.size <= g.hi
            && ss[0].byteIndex <= g.lo && g.hi < ss[0].max
    ensures j != k ==> ss[i].granted[j].hi <= ss[i].granted[k].lo || ss[i].granted[k].hi <= ss[i].granted[j].lo
  {
    hide Next;
    ExecutionInv(es, ss, i);
    assert RegionOk(ss[i].granted[j]);
  }

  /** Batches cut a region into equal parts; parts of all regions, headers and data included, never overlap. */
  lemma PartsDisjoint(es: seq<Event>, ss: seq<State>, i: nat, j: nat, k: nat, x: nat, y: nat, a: nat, b: nat)
    requires Execution(es, ss) && i <= |es| && j < |ss[i].granted| && k < |ss[i].granted|
    requires a > 0 && b > 0 && (x + 1) * a <= ss[i].granted[j].r.size && (y + 1) * b <= ss[i].granted[k].r.size
    requires j != k || (x != y && a == b)
    ensures var p, q := ss[i].granted[j].lo + x * a, ss[i].granted[k].lo + y * b;
            p + a <= q || q + b <= p
  {
    hide Execution, Next;
    RegionsDisjoint(es, ss, i, j, k);
    RegionsDisjoint(es, ss, i, k, j);
    assert (x + 1) * a == x * a + a && (y + 1) * b == y * b + b;
    assert x * a >= 0 && y * b >= 0;
    if j == k {
      MulGap(a, y - x);
      assert y * a - x * a == a * (y - x);
    }
  }

  /**
   Whatever the interleaving, the regions are those of granting their requests one after another: each begins at the
   next multiple of its alignment behind its predecessor, and the index stands where the last one ends.
   */
  lemma GrantedInTurn(es: seq<Event>, ss: seq<State>, i: nat)
    requires Execution(es, ss) && i <= |es|
    ensures forall k :: 0 <= k < |ss[i].granted| ==> PackedAt(ss[i].granted, ss[0].byteIndex, k)
    ensures ss[i].byteIndex == EndOf(ss[i].granted, ss[0].byteIndex)
  {
    hide Next;
    ExecutionInv(es, ss, i);
  }

  /** The request fits between the index and the limit. */
  predicate Fits(s: State, r: Request)
    requires r.align > 0
  {
    RoundUp(s.byteIndex, r.align) + RoundUp(r.size, r.align) < s.max
  }

  /** A thread goes on with a request exactly while it fits at the index it finds. */
  lemma GoesOnIff(s: State, e: Event, s': State)
    requires Next(s, e, s') && !e.ESwap?
    ensures e.i < |s'.threads| && s'.granted == s.granted && s'.byteIndex == s.byteIndex
    ensures e.ELoad? ==> e.r.align > 0 && (s'.threads[e.i] == Trying(e.r, s.byteIndex) <==> Fits(s, e.r))
    ensures e.ELoad? && !Fits(s, e.r) ==> s'.threads[e.i].Idle?
    ensures e.ERetry? ==>
              && s.threads[e.i].Trying? && s.threads[e.i].r.align > 0
              && s'.threads[e.i] == if Fits(s, s.threads[e.i].r) then Trying(s.threads[e.i].r, s.byteIndex) else Idle
  {
  }

  /** A request can be granted exactly while the index is the one its thread saw; it then gets the next region. */
  lemma GrantedIff(s: State, first: nat, i: nat)
    requires Inv(s, first) && i < |s.threads| && s.threads[i].Trying?
    ensures (exists s' :: Next(s, ESwap(i), s')) <==> s.threads[i].cur == s.byteIndex
    ensures forall s' :: Next(s, ESwap(i), s') ==>
              && |s'.granted| == |s.granted| + 1 && s'.granted[..|s.granted|] == s.granted
              && s'.granted[|s.granted|].r == s.threads[i].r && s'.threads[i].Idle? && Fits(s, s.threads[i].r)
  {
    hide RoundUp;
    var r, cur := s.threads[i].r, s.threads[i].cur;
    if cur == s.byteIndex {
      assert Next(s, ESwap(i), s.(byteIndex := NewPos(r, cur), threads := s.threads[i := Idle],
                                  granted := s.granted + [Region(Start(r, cur), NewPos(r, cur), r)]));
    }
  }

  /** A thread whose swap must fail was overtaken by another request that has been granted. */
  lemma Overtaken(s: State, first: nat, i: nat)
    requires Inv(s, first) && i < |s.threads| && s.threads[i].Trying? && s.threads[i].cur != s.byteIndex
    ensures s.granted != [] && s.threads[i].cur < s.granted[|s.granted| - 1].hi == s.byteIndex
  {
    hide RoundUp;
  }
}
