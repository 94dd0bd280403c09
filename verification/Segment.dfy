/**
 The fifo segment: a bump allocator carves batches of equally sized chunks onto free
 lists, and chunk requests are served from those lists.
 */
module Segments {
  import opened Arithmetic
  import opened Positions
  import opened Chunks
  import opened SizeClasses
  import opened FreeLists
  import opened Allocation
  import opened AllocationLaws

  function Zeros(n: nat): (z: seq<byte>)
    ensures |z| == n
  {
    seq(n, _ => 0)
  }

  ghost predicate BytesAt(slices: seq<Slice>, i: int, s: int, off: int) {
    && 0 <= i < |slices| && |slices[i].free| == N_CLASSES
    && slices[i].flBytes == FreeBytes(slices[i].free, N_CLASSES) + if i == s then off else 0
  }

  /** Byte counters match the lists, except that slice s still counts off bytes already taken. */
  ghost predicate Counters(slices: seq<Slice>, cached: int, s: nat, off: int) {
    && (forall i :: 0 <= i < |slices| ==> BytesAt(slices, i, s, off))
    && cached == TotalFree(slices, |slices|)
  }

  lemma CountersMove(slices: seq<Slice>, cached: int, s: nat, off: int, k: nat, l: seq<Sptr>)
    requires Counters(slices, cached, s, off) && s < |slices| && k < N_CLASSES && |slices[s].free| == N_CLASSES
    ensures Counters(WithList(slices, s, k, l), cached, s,
                     off + |slices[s].free[k]| * ClassSize(k) - |l| * ClassSize(k))
  {
    var r := WithList(slices, s, k, l);
    FreeBytesUpdate(slices[s].free, k, l, N_CLASSES);
    TotalFreeUpdate(slices, s, r[s], |slices|);
    var off' := off + |slices[s].free[k]| * ClassSize(k) - |l| * ClassSize(k);
    forall i | 0 <= i < |r|
      ensures BytesAt(r, i, s, off')
    {
      assert BytesAt(slices, i, s, off);
    }
  }

  lemma CountersSettle(slices: seq<Slice>, cached: int, s: nat, off: int, d: int)
    requires Counters(slices, cached, s, off) && s < |slices| && slices[s].flBytes + d >= 0
    ensures Counters(slices[s := slices[s].(flBytes := slices[s].flBytes + d)], cached + d, s, off + d)
  {
    var r := slices[s := slices[s].(flBytes := slices[s].flBytes + d)];
    TotalFreeUpdate(slices, s, r[s], |slices|);
    var off' := off + d;
    forall i | 0 <= i < |r|
      ensures BytesAt(r, i, s, off')
    {
      assert BytesAt(slices, i, s, off);
    }
  }

  lemma CountersZero(slices: seq<Slice>, cached: int, s: nat, s': nat)
    requires Counters(slices, cached, s, 0)
    ensures Counters(slices, cached, s', 0)
  {
    forall i | 0 <= i < |slices|
      ensures BytesAt(slices, i, s', 0)
    {
      assert BytesAt(slices, i, s, 0);
    }
  }

  /** The counters are exact if and only if nothing is left to be booked. */
  lemma CountersOff(slices: seq<Slice>, cached: int, s: nat, off: int)
    requires Counters(slices, cached, s, off) && s < |slices|
    ensures Counters(slices, cached, 0, 0) <==> off == 0
  {
    hide FreeBytes, TotalFree;
    assert BytesAt(slices, s, s, off);
    if off == 0 {
      CountersZero(slices, cached, s, 0);
    } else {
      assert !BytesAt(slices, s, 0, 0);
    }
  }

  lemma CountersCarve(slices: seq<Slice>, cached: int, s: nat, k: nat, l: seq<Sptr>)
    requires Counters(slices, cached, 0, 0) && s < |slices| && k < N_CLASSES
    requires |slices[s].free| == |slices[s].numChunks| == N_CLASSES
    ensures var sl := CarvedSlice(slices[s], k, l);
            Counters(slices[s := sl.(flBytes := sl.flBytes + |l| * ClassSize(k))], cached + |l| * ClassSize(k), 0, 0)
  {
    hide FreeBytes, TotalFree, ClassSize;
    var sl := CarvedSlice(slices[s], k, l);
    var r := slices[s := sl.(flBytes := sl.flBytes + |l| * ClassSize(k))];
    CarveBytes(slices[s], k, l);
    assert BytesAt(slices, s, 0, 0);
    TotalFreeUpdate(slices, s, r[s], |slices|);
    forall i | 0 <= i < |r|
      ensures BytesAt(r, i, 0, 0)
    {
      assert BytesAt(slices, i, 0, 0);
    }
  }

  /** New chunks add their bytes to the list they go on. */
  lemma CarveBytes(sl: Slice, k: nat, l: seq<Sptr>)
    requires k < N_CLASSES && |sl.free| == |sl.numChunks| == N_CLASSES
    ensures |CarvedSlice(sl, k, l).free| == N_CLASSES
    ensures FreeBytes(CarvedSlice(sl, k, l).free, N_CLASSES) == FreeBytes(sl.free, N_CLASSES) + |l| * ClassSize(k)
    ensures CarvedSlice(sl, k, l).flBytes == sl.flBytes
  {
    hide FreeBytes, ClassSize;
    FreeBytesUpdate(sl.free, k, l + sl.free[k], N_CLASSES);
    Distribute(|l|, |sl.free[k]|, ClassSize(k));
  }

  function EmptySlice(): Slice {
    Slice(seq(N_CLASSES, _ => []), 0, seq(N_CLASSES, _ => 0))
  }

  lemma EmptySlices(slices: seq<Slice>)
    requires forall i :: 0 <= i < |slices| ==> slices[i] == EmptySlice()
    ensures ListsOk(slices, map[]) && Counters(slices, 0, 0, 0) && CarvedBytes(slices, |slices|) == 0
  {
    forall i | 0 <= i < |slices|
      ensures SliceOk(slices[i], i, map[]) && BytesAt(slices, i, 0, 0)
    {
      FreeBytesEmpty(slices[i].free, N_CLASSES);
      forall k | 0 <= k < N_CLASSES
        ensures OnList(slices[i].free[k], i, k, map[]) && slices[i].numChunks[k] == |Of(map[], i, k)|
      {
        assert Of(map[], i, k) == {};
      }
    }
    EmptyTotals(slices, |slices|);
  }

  lemma {:induction false} EmptyTotals(slices: seq<Slice>, n: nat)
    requires n <= |slices|
    requires forall i ::
               0 <= i < |slices| ==>
                 slices[i].flBytes == 0 && forall k :: 0 <= k < |slices[i].numChunks| ==> slices[i].numChunks[k] == 0
    ensures TotalFree(slices, n) == 0 && CarvedBytes(slices, n) == 0
  {
    if n > 0 {
      EmptyTotals(slices, n - 1);
      EmptyChunkBytes(slices[n - 1].numChunks, |slices[n - 1].numChunks|);
    }
  }

  lemma {:induction false} EmptyChunkBytes(num: seq<nat>, n: nat)
    requires n <= |num| && forall k :: 0 <= k < |num| ==> num[k] == 0
    ensures ChunkBytes(num, n) == 0
  {
    if n > 0 {
      EmptyChunkBytes(num, n - 1);
    }
  }

  /** What is free was carved. */
  lemma {:induction false} FreeTotalCarved(slices: seq<Slice>, place: map<Sptr, Place>, n: nat)
    requires ListsOk(slices, place) && n <= |slices| && Counters(slices, TotalFree(slices, |slices|), 0, 0)
    ensures TotalFree(slices, n) <= CarvedBytes(slices, n)
  {
    hide FreeBytes, ChunkBytes;
    if n > 0 {
      FreeTotalCarved(slices, place, n - 1);
      assert BytesAt(slices, n - 1, 0, 0);
      assert SliceOk(slices[n - 1], n - 1, place);
      FreeAtMostCarved(slices[n - 1], n - 1, place, N_CLASSES);
    }
  }

  /** Slice s has the chunks of stock left; the other slices are those of s0. */
  ghost predicate Leaves(s0: seq<Slice>, slices: seq<Slice>, s: nat, stock: seq<nat>) {
    && s < |slices| == |s0| && |slices[s].free| == |stock| == N_CLASSES && Stock(slices[s].free) == stock
    && (forall i :: 0 <= i < |slices| && i != s ==> slices[i] == s0[i])
  }

  lemma LeavesStock(s0: seq<Slice>, slices: seq<Slice>, s: nat, stock: seq<nat>)
    requires Leaves(s0, slices, s, stock)
    ensures s < |slices| && Stock(slices[s].free) == stock && |slices[s].free| == N_CLASSES
  {
  }

  lemma LeavesStart(slices: seq<Slice>, s: nat)
    requires s < |slices| && |slices[s].free| == N_CLASSES
    ensures Leaves(slices, slices, s, Stock(slices[s].free))
  {
  }

  lemma LeavesList(s0: seq<Slice>, slices: seq<Slice>, s: nat, stock: seq<nat>, k: nat, l: seq<Sptr>)
    requires Leaves(s0, slices, s, stock) && k < N_CLASSES
    ensures Leaves(s0, WithList(slices, s, k, l), s, stock[k := |l|]) && stock[k] == |slices[s].free[k]|
  {
    StockUpdate(slices[s].free, k, l);
  }

  lemma LeavesPush(s0: seq<Slice>, slices: seq<Slice>, s: nat, stock: seq<nat>, k: nat, c: Sptr)
    requires Leaves(s0, slices, s, stock) && k < N_CLASSES
    ensures Leaves(s0, PushBack(slices, s, k, c), s, stock[k := stock[k] + 1])
  {
    hide Leaves, Stock, WithList;
    LeavesStock(s0, slices, s, stock);
    LeavesList(s0, slices, s, stock, k, [c] + slices[s].free[k]);
  }

  lemma CarvedLeaves(slices: seq<Slice>, s: nat, k: nat, l: seq<Sptr>, bytes: nat)
    requires s < |slices| && k < N_CLASSES && |slices[s].free| == |slices[s].numChunks| == N_CLASSES
    ensures |Stock(slices[s].free)| == N_CLASSES
    ensures Leaves(slices, slices[s := CarvedSlice(slices[s], k, l).(flBytes := bytes)], s,
                   Stock(slices[s].free)[k := Stock(slices[s].free)[k] + |l|])
  {
    StockUpdate(slices[s].free, k, l + slices[s].free[k]);
  }

  lemma BatchIs(k: nat, n: nat)
    ensures BatchBytes(k, n) == (HDR + ClassSize(k)) * n == n * (HDR + ClassSize(k))
  {
  }

  lemma LeavesSame(s0: seq<Slice>, a: seq<Slice>, b: seq<Slice>, s: nat, stock: seq<nat>)
    requires Leaves(s0, a, s, stock) && |b| == |a| && b[s].free == a[s].free
    requires forall i :: 0 <= i < |a| && i != s ==> b[i] == a[i]
    ensures Leaves(s0, b, s, stock)
  {
  }

  lemma LeavesThen(s0: seq<Slice>, a: seq<Slice>, b: seq<Slice>, s: nat, stock: seq<nat>, more: seq<nat>)
    requires Leaves(s0, a, s, stock) && Leaves(a, b, s, more)
    ensures Leaves(s0, b, s, more)
  {
  }

  class Segment {
    var mem: Memory
    var slices: seq<Slice>
    var cachedBytes: int
    var byteIndex: nat
    var maxByteIndex: nat
    ghost var place: map<Sptr, Place>

    ghost predicate Wf()
      reads this
    {
      && MemOk(mem, place, |slices|)
      && ListsOk(slices, place)
      && Regions(mem, byteIndex)
      && CarvedBytes(slices, |slices|) <= byteIndex
      && 0 < byteIndex < maxByteIndex <= MAX_SEGMENT
    }

    ghost predicate Valid()
      reads this
    {
      Wf() && Counters(slices, cachedBytes, 0, 0)
    }

    /** Free chunks of slice s by class. */
    ghost function StockAt(s: nat): seq<nat>
      requires s < |slices|
      reads this`slices
    {
      Stock(slices[s].free)
    }

    ghost predicate IsUsed(p: Sptr, s: nat)
      reads this
    {
      p in place && place[p].used && place[p].slice == s
    }

    /** An empty segment: its header ends at start. */
    constructor (nSlices: nat, start: nat, max: nat)
      requires 0 < nSlices && 0 < start < max <= MAX_SEGMENT
      ensures Valid() && |slices| == nSlices && (forall i :: 0 <= i < nSlices ==> slices[i] == EmptySlice())
      ensures place == map[] && mem == map[] && cachedBytes == 0 && byteIndex == start && maxByteIndex == max
    {
      mem := map[];
      slices := seq(nSlices, _ => EmptySlice());
      cachedBytes := 0;
      byteIndex := start;
      maxByteIndex := max;
      place := map[];
      new;
      EmptySlices(slices);
    }

    /** Chunk and byte conservation, slice by slice and class by class. */
    lemma Conservation(s: nat, k: nat)
      requires Valid() && s < |slices| && k < N_CLASSES
      ensures |slices[s].free| == |slices[s].numChunks| == N_CLASSES
      ensures slices[s].numChunks[k] == |slices[s].free[k]| + |UsedOf(place, s, k)|
      ensures slices[s].flBytes == FreeBytes(slices[s].free, N_CLASSES)
      ensures cachedBytes == TotalFree(slices, |slices|)
      ensures slices[s].numChunks[k] < TWO32 && cachedBytes < TWO64
    {
      hide MemOk, Regions, CarvedBytes, FreeBytes, TotalFree, ClassSize;
      assert BytesAt(slices, s, 0, 0);
      assert SliceOk(slices[s], s, place);
      assert OnList(slices[s].free[k], s, k, place);
      Conserved(slices[s].free[k], s, k, place);
      CountFits(s, k);
    }

    lemma CachedTotal()
      requires Valid()
      ensures cachedBytes == TotalFree(slices, |slices|)
    {
      hide MemOk, Regions, ListsOk, CarvedBytes, TotalFree, BytesAt;
    }

    /** The 32-bit chunk counts never overflow. */
    lemma CountFits(s: nat, k: nat)
      requires Valid() && s < |slices| && k < N_CLASSES && |slices[s].numChunks| == N_CLASSES
      ensures slices[s].numChunks[k] < TWO32 && cachedBytes < TWO64
    {
      hide MemOk, Regions, CarvedBytes, FreeBytes, TotalFree, ClassSize, ListsOk, ChunkBytes;
      SliceAtMostCarved(slices, s, |slices|);
      ClassAtMostCarved(slices[s].numChunks, k, N_CLASSES);
      ClassBounds(k);
      MulMonotone(MIN_SIZE, ClassSize(k), slices[s].numChunks[k]);
      FreeTotalCarved(slices, place, |slices|);
    }

    /** Takes the chunk at the top of a free list. */
    method Pop(s: nat, k: nat) returns (c: Sptr)
      requires Wf() && s < |slices| && k < N_CLASSES
      modifies this`slices, this`place
      ensures Wf() && |old(slices)[s].free| == N_CLASSES
      ensures old(slices[s].free[k]) == [] ==> c == 0 && slices == old(slices) && place == old(place)
      ensures old(slices[s].free[k]) != [] ==>
                && c == old(slices[s].free[k][0]) && c != 0
                && c in mem && mem[c].length == ClassSize(k)
                && slices == WithList(old(slices), s, k, old(slices[s].free[k])[1..])
                && c in old(place) && old(place)[c] == Place(s, k, false) && place == old(place)[c := Place(s, k, true)]
    {
      hide MemOk, ListsOk, Regions, OnList, CarvedBytes;
      ListFacts(mem, slices, place, s, k);
      var l := slices[s].free[k];
      if l == [] {
        return 0;
      }
      c := l[0];
      OnListPop(l, s, k, place);
      MoveLists(slices, place, s, k, c, true, l[1..]);
      MarkMem(mem, place, |slices|, c, true);
      slices := slices[s := slices[s].(free := slices[s].free[k := l[1..]])];
      place := place[c := Place(s, k, true)];
      CarvedSame(old(slices), slices, |slices|);
    }

    /** Puts a chunk on top of the free list of its class. */
    method Push(s: nat, k: nat, c: Sptr)
      requires Wf() && s < |slices| && k < N_CLASSES
      requires c in place && place[c] == Place(s, k, true)
      modifies this`mem, this`slices, this`place
      ensures Wf() && |old(slices)[s].free| == N_CLASSES
      ensures slices == WithList(old(slices), s, k, [c] + old(slices[s].free[k]))
      ensures place == old(place)[c := Place(s, k, false)]
      ensures mem.Keys == old(mem).Keys && c in mem && mem[c].length == ClassSize(k)
      ensures forall p :: p in mem && p != c ==> mem[p] == old(mem)[p]
    {
      hide MemOk, ListsOk, Regions, OnList, CarvedBytes;
      ListFacts(mem, slices, place, s, k);
      ChunkFactsOf(mem, place, |slices|, c);
      var l := slices[s].free[k];
      OnListPush(l, s, k, place, c);
      MoveLists(slices, place, s, k, c, false, [c] + l);
      MarkMem(mem, place, |slices|, c, false);
      mem := mem[c := mem[c].(next := if l == [] then 0 else l[0])];
      slices := slices[s := slices[s].(free := slices[s].free[k := [c] + l])];
      place := place[c := Place(s, k, false)];
      TouchMem(old(mem), mem, place, |slices|, byteIndex);
      CarvedSame(old(slices), slices, |slices|);
    }

    /** Bump allocation with the given alignment; 0 when the segment is exhausted. */
    method AllocAligned(size: nat, align: nat) returns (pos: nat)
      requires 0 < byteIndex < maxByteIndex && align > 0
      modifies this`byteIndex
      ensures byteIndex < maxByteIndex
      ensures pos == 0 <==> old(RoundUp(byteIndex, align)) + RoundUp(size, align) >= maxByteIndex
      ensures pos == 0 ==> byteIndex == old(byteIndex)
      ensures pos != 0 ==>
                old(byteIndex) <= pos == old(RoundUp(byteIndex, align)) && pos % align == 0 && pos + size <= byteIndex
      ensures pos != 0 ==> byteIndex == pos + RoundUp(size, align)
    {
      RoundUpIs(byteIndex, align);
      RoundUpIs(size, align);
      var curPos := RoundUp(byteIndex, align);
      var newPos := curPos + RoundUp(size, align);
      if newPos >= maxByteIndex {
        return 0;
      }
      byteIndex := newPos;
      pos := curPos;
    }

    /** Bytes taken for something else than chunks leave the chunks alone. */
    lemma MovedOn(before: nat)
      requires MemOk(mem, place, |slices|) && ListsOk(slices, place) && Counters(slices, cachedBytes, 0, 0)
      requires Regions(mem, before) && CarvedBytes(slices, |slices|) <= before
      requires 0 < before <= byteIndex < maxByteIndex <= MAX_SEGMENT
      ensures Valid()
    {
    }

    /** Lays n chunks of class k out from address base; the last one comes first in the list. */
    method LayOut(base: nat, k: nat, n: nat) returns (f: Memory, l: seq<Sptr>)
      requires base > 0 && k < N_CLASSES
      ensures |l| == n && Carved(f, l, k)
      ensures Regions(f, base + n * (HDR + ClassSize(k)))
      ensures forall p :: p in f ==> base <= p
    {
      hide Carved, Regions, ClassSize;
      LayNone(k, base);
      var c, head: Sptr := base, 0;
      var stride := HDR + ClassSize(k);
      f, l := map[], [];
      for i := 0 to n
        invariant |l| == i && Carved(f, l, k)
        invariant c == base + i * stride
        invariant Regions(f, c)
        invariant forall p :: p in f ==> base <= p
      {
        var x := Chunk(0, ClassSize(k), head, false, false, Zeros(ClassSize(k)));
        LayNext(f, l, k, c, x);
        f, l, head := f[c := x], [c] + l, c;
        Distribute(i, 1, stride);
        c := c + stride;
      }
    }

    /** Carves n chunks of class k and puts them on their free list. */
    method CarveBatch(s: nat, k: nat, n: nat) returns (ok: bool)
      requires Valid() && s < |slices| && k < N_CLASSES && n > 0
      modifies this
      ensures Valid() && |slices| == |old(slices)| && maxByteIndex == old(maxByteIndex)
      ensures ok <==> old(Behind(byteIndex, k, n)) < maxByteIndex
      ensures ok ==> byteIndex == old(Behind(byteIndex, k, n)) && |old(StockAt(s))| == N_CLASSES
      ensures ok ==> Leaves(old(slices), slices, s, old(StockAt(s))[k := old(StockAt(s))[k] + n])
      ensures !ok ==> slices == old(slices) && place == old(place) && mem == old(mem) && byteIndex == old(byteIndex)
      ensures ok ==> |slices[s].free| == N_CLASSES && slices[s].free[k] != []
      ensures ok ==> slices[s].flBytes == old(slices)[s].flBytes + n * ClassSize(k)
      ensures Extends(old(mem), mem, old(place), place)
    {
      hide MemOk, ListsOk, Regions, Carved, Counters, AddFree, OnList, RoundUp, CarvedBytes, ClassSize, Leaves, Stock,
           BatchBytes;
      var base := AllocAligned(BatchBytes(k, n), 8);
      if base == 0 {
        return false;
      }
      ListFacts(mem, slices, place, s, k);
      var f, l := LayOut(base, k, n);
      BatchIs(k, n);
      RegionsJoin(mem, f, old(byteIndex), base, base + n * (HDR + ClassSize(k)), byteIndex);
      KeysSame(mem, place, |slices|);
      CarveMem(mem, place, |slices|, f, l, s, k);
      CarveLists(slices, place, f, l, s, k, slices[s].flBytes + n * ClassSize(k));
      CountersCarve(slices, cachedBytes, s, k, l);
      AddFreeFacts(place, f, s, k);
      CarvedMore(slices, s, CarvedSlice(slices[s], k, l).(flBytes := slices[s].flBytes + n * ClassSize(k)), k, n,
                 |slices|);
      Distribute(HDR, ClassSize(k), n);
      CarvedLeaves(slices, s, k, l, slices[s].flBytes + n * ClassSize(k));
      slices := slices[s := slices[s].(
                         free := slices[s].free[k := l + slices[s].free[k]],
                         numChunks := slices[s].numChunks[k := slices[s].numChunks[k] + n],
                         flBytes := slices[s].flBytes + n * ClassSize(k))];
      cachedBytes := cachedBytes + n * ClassSize(k);
      mem := mem + f;
      place := AddFree(place, f, s, k);
      ok := true;
    }

    /** Since the snapshot, the chunks of got, nAlloc bytes in all, were taken from slice s and linked from first. */
    ghost predicate Gathered(m0: Memory, w0: map<Sptr, Place>, s0: seq<Slice>, s: nat, got: seq<Sptr>, first: Sptr,
                             nAlloc: nat)
      reads this
    {
      && Listed(mem, got, first) && Total(mem, got) == nAlloc
      && Taken(w0, place, got, s) && UsedSame(m0, mem, w0) && mem.Keys == m0.Keys
      && |slices| == |s0| && PutBack(slices, s, got, w0) == s0
      && Counters(slices, cachedBytes, s, nAlloc)
    }

    /** Pops a chunk of class k, if any, and links it in front of the chunks gathered so far. */
    method TakeOne(s: nat, k: nat, first: Sptr, ghost nAlloc: nat, ghost got: seq<Sptr>,
                   ghost m0: Memory, ghost w0: map<Sptr, Place>, ghost s0: seq<Slice>) returns (c: Sptr)
      requires Wf() && s < |slices| && k < N_CLASSES && Gathered(m0, w0, s0, s, got, first, nAlloc)
      modifies this`mem, this`slices, this`place
      ensures Wf()
      ensures |old(slices)[s].free| == N_CLASSES && (c == 0 <==> old(slices)[s].free[k] == [])
      ensures c == 0 ==> mem == old(mem) && slices == old(slices) && place == old(place)
      ensures c != 0 ==> Gathered(m0, w0, s0, s, [c] + got, c, nAlloc + ClassSize(k))
      ensures c != 0 ==> slices == WithList(old(slices), s, k, old(slices)[s].free[k][1..])
    {
      hide MemOk, ListsOk, Regions, Listed, Total, Counters, Taken, PutBack, ClassSize, WithList;
      ListFacts(mem, slices, place, s, k);
      ghost var l := slices[s].free[k];
      c := Pop(s, k);
      if c != 0 {
        TakenMore(w0, old(place), got, s, k, c);
        PopThenPush(old(slices), s, k, got, w0);
        CountersMove(old(slices), cachedBytes, s, nAlloc, k, l[1..]);
        Distribute(|l| - 1, 1, ClassSize(k));
        ListedCons(mem, got, first, c);
        mem := mem[c := mem[c].(next := first)];
        TouchMem(old(mem), mem, place, |slices|, byteIndex);
        WithListSize(old(slices), s, k, l[1..]);
      }
    }

    /** Gathers chunks of the classes below the request's own, largest first, until they cover it or run out. */
    method Gather(s: nat, dataBytes: nat)
      returns (ok: bool, first: Sptr, nAlloc: u32, ghost got: seq<Sptr>, ghost total: nat)
      requires Valid() && s < |slices| && 0 < dataBytes < TWO32
      modifies this`mem, this`slices, this`place
      ensures Wf() && Gathered(old(mem), old(place), old(slices), s, got, first, total) && nAlloc == Wrap(total)
      ensures |slices| == |old(slices)| && |old(StockAt(s))| == N_CLASSES
      ensures ok <==> Descend(old(StockAt(s)), TopClass(dataBytes), dataBytes).Grant?
      ensures ok ==> first != 0 && total == Descend(old(StockAt(s)), TopClass(dataBytes), dataBytes).total
      ensures ok ==> Leaves(old(slices), slices, s, Descend(old(StockAt(s)), TopClass(dataBytes), dataBytes).stock)
    {
      hide MemOk, ListsOk, Regions, Gathered, Counters, ClassSize, WithList, Leaves, CarvedBytes, FreelistForSize,
           FreeBytes, Wrap, Plus, Descend, Stock, Raise;
      ghost var m0, w0, s0 := mem, place, slices;
      var flIndex: nat := FreelistForSize(dataBytes);
      if flIndex > 0 {
        flIndex := flIndex - 1;
      }
      var flSize := ClassSize(flIndex);
      var req := dataBytes;
      ClassBounds(flIndex);
      first, nAlloc, got, total, ok := 0, 0, [], 0, false;
      WrapSmall(0);
      GatherStart(s);
      ListFacts(mem, slices, place, s, 0);
      LeavesStart(slices, s);
      ghost var stock := StockAt(s);
      StockSize(slices[s].free);
      ghost var whole := Descend(stock, flIndex, dataBytes);
      RaiseNone(whole);
      while req > 0
        invariant Wf() && |slices| == |s0| && Gathered(m0, w0, s0, s, got, first, total) && nAlloc == Wrap(total)
        invariant flIndex < N_CLASSES && flSize == ClassSize(flIndex)
        invariant total > 0 ==> first != 0
        invariant |stock| == N_CLASSES && Leaves(s0, slices, s, stock)
        invariant if req > 0 then whole == Raise(Descend(stock, flIndex, req), total)
                  else total > 0 && whole == Grant(total, stock)
        decreases req, flIndex
      {
        ClassBounds(flIndex);
        LeavesStock(s0, slices, s, stock);
        StockOf(slices[s].free, flIndex);
        ghost var before := slices;
        var c := TakeOne(s, flIndex, first, total, got, m0, w0, s0);
        if c != 0 {
          DescendTake(stock, flIndex, req);
          if req > flSize {
            RaiseTwice(Descend(stock[flIndex := stock[flIndex] - 1], flIndex, req - flSize), flSize, total);
          }
          RaiseGrant(flSize, stock[flIndex := stock[flIndex] - 1], total);
          LeavesList(s0, before, s, stock, flIndex, before[s].free[flIndex][1..]);
          stock := stock[flIndex := stock[flIndex] - 1];
          SameSlices(m0, w0, s0, s, [c] + got, c, total + flSize);
          WrapPlus(total, flSize);
          first, got, total := c, [c] + got, total + flSize;
          nAlloc := Plus(nAlloc, flSize);
          req := req - Min(flSize, req);
        } else {
          DescendSkip(stock, flIndex, req);
          if flIndex == 0 {
            RaiseNothing(total);
            return;
          }
          flIndex := flIndex - 1;
          flSize := flSize / 2;
        }
      }
      ok := true;
    }

    lemma GatherStart(s: nat)
      requires Valid()
      ensures Gathered(mem, place, slices, s, [], 0, 0)
    {
      CountersZero(slices, cachedBytes, 0, s);
    }

    lemma SameSlices(m0: Memory, w0: map<Sptr, Place>, s0: seq<Slice>, s: nat, got: seq<Sptr>, first: Sptr, nAlloc: nat)
      requires Gathered(m0, w0, s0, s, got, first, nAlloc)
      ensures |slices| == |s0|
    {
    }

    /** Pushes the first chunk of a list of handed-out chunks and moves on to the next one. */
    method PushFirst(s: nat, c: Sptr, ghost l: seq<Sptr>, ghost off: int) returns (next: Sptr, flIndex: nat)
      requires Wf() && s < |slices| && Listed(mem, l, c) && c != 0 && IsUsed(c, s)
      requires Counters(slices, cachedBytes, s, off)
      modifies this`mem, this`slices, this`place
      ensures Wf() && c in old(mem) && c in old(place) && l != [] && l[0] == c && c !in l[1..]
      ensures flIndex == old(place)[c].cls < N_CLASSES && old(mem)[c].length == ClassSize(flIndex)
      ensures |slices| == |old(slices)| && slices == PushBack(old(slices), s, flIndex, c)
      ensures place == old(place)[c := Place(s, flIndex, false)]
      ensures Listed(mem, l[1..], next) && Total(old(mem), l) == ClassSize(flIndex) + Total(mem, l[1..])
      ensures Counters(slices, cachedBytes, s, off - ClassSize(flIndex))
      ensures mem.Keys == old(mem).Keys && forall p :: p in mem && p != c ==> mem[p] == old(mem)[p]
    {
      hide MemOk, ListsOk, Regions, Listed, Total, Counters, ClassSize, WithList;
      ChunkFactsOf(mem, place, |slices|, c);
      ListedTail(mem, l, c);
      FreelistOfClass(place[c].cls);
      flIndex := FreelistForSize(mem[c].length);
      next := mem[c].next;
      ListFacts(mem, slices, place, s, flIndex);
      ghost var free := slices[s].free[flIndex];
      CountersMove(slices, cachedBytes, s, off, flIndex, [c] + free);
      Distribute(|free|, 1, ClassSize(flIndex));
      WithListSize(slices, s, flIndex, [c] + free);
      Push(s, flIndex, c);
      ListedSame(old(mem), mem, l[1..], next);
    }

    /** Undoes a gathering that could not be completed. */
    method PutAllBack(s: nat, first: Sptr, ghost nAlloc: nat, ghost got: seq<Sptr>,
                      ghost m0: Memory, ghost w0: map<Sptr, Place>, ghost s0: seq<Slice>)
      requires Wf() && s < |slices| && Gathered(m0, w0, s0, s, got, first, nAlloc)
      modifies this`mem, this`slices, this`place
      ensures Wf() && slices == s0 && place == w0 && Counters(slices, cachedBytes, s, 0)
      ensures UsedSame(m0, mem, w0) && mem.Keys == m0.Keys
    {
      hide MemOk, ListsOk, Regions, Listed, Total, Counters, ClassSize, Taken, PushBack;
      var c := first;
      ghost var l, n: nat := got, nAlloc;
      ListedNull(mem, l, c);
      while c != 0
        invariant Wf() && |slices| == |s0| && Gathered(m0, w0, s0, s, l, c, n)
        invariant c == 0 ==> l == [] && n == 0
        decreases |l|
      {
        ListedTail(mem, l, c);
        TakenLess(w0, place, l, s);
        var flIndex;
        c, flIndex := PushFirst(s, c, l, n);
        l, n := l[1..], n - ClassSize(flIndex);
        ListedNull(mem, l, c);
      }
      TakenNone(w0, place, s);
    }

    /**
     Books nBytes handed-out bytes of slice s off both counters (or returned bytes, when negative). The counters
     are exact again if and only if these are all the bytes that were to be booked.
     */
    method SettleBytes(s: nat, nBytes: int, ghost off: int)
      requires Wf() && s < |slices| && Counters(slices, cachedBytes, s, off)
      requires 0 <= nBytes <= off || off <= nBytes <= 0
      modifies this`slices, this`cachedBytes
      ensures Wf() && |slices| == |old(slices)| && (Valid() <==> nBytes == off)
      ensures cachedBytes == old(cachedBytes) - nBytes
      ensures slices[s].free == old(slices)[s].free
      ensures forall i :: 0 <= i < |slices| && i != s ==> slices[i] == old(slices)[i]
    {
      hide MemOk, ListsOk, Regions, CarvedBytes;
      assert BytesAt(slices, s, s, off);
      CountersSettle(slices, cachedBytes, s, off, 0 - nBytes);
      ListsBytes(slices, place, s, slices[s].flBytes - nBytes);
      slices := slices[s := slices[s].(flBytes := slices[s].flBytes - nBytes)];
      cachedBytes := cachedBytes - nBytes;
      CarvedSame(old(slices), slices, |slices|);
      CountersOff(slices, cachedBytes, s, off - nBytes);
    }

    /**
     Assembles a request from smaller chunks or, failing that, serves it with one chunk of the
     next larger class; on failure nothing has changed. The bytes handed out are summed in 32 bits, so
     the counters stay exact if and only if there are fewer than 2^32.
     */
    method MultiChunk(s: nat, dataBytes: nat) returns (first: Sptr, ghost got: seq<Sptr>)
      requires Valid() && s < |slices| && 0 < dataBytes < TWO32
      modifies this`mem, this`slices, this`place, this`cachedBytes
      ensures Wf() && |slices| == |old(slices)| && |old(StockAt(s))| == N_CLASSES
      ensures UsedSame(old(mem), mem, old(place)) && mem.Keys == old(mem).Keys
      ensures first == 0 ==>
                got == [] && slices == old(slices) && place == old(place) && cachedBytes == old(cachedBytes)
      ensures Listed(mem, got, first) && Taken(old(place), place, got, s)
      ensures first == 0 <==> Exhausted(old(StockAt(s)), dataBytes)
      ensures first == 0 <==> MultiGrant(old(StockAt(s)), dataBytes).Nothing?
      ensures first == 0 ==> Valid() && Total(mem, got) == 0
      ensures first != 0 ==>
                var g := MultiGrant(old(StockAt(s)), dataBytes);
                && Total(mem, got) == g.total && Leaves(old(slices), slices, s, g.stock)
                && (Valid() <==> g.total < TWO32)
      ensures first != 0 ==> dataBytes <= Total(mem, got) < dataBytes + MAX_SIZE
      ensures first != 0 && dataBytes > MIN_SIZE ==>
                Total(mem, got) < 2 * dataBytes || (|got| == 1 && Total(mem, got) < 4 * dataBytes)
    {
      hide MemOk, ListsOk, Regions, Listed, Total, Counters, Taken, PutBack, ClassSize, Wrap, Leaves, Descend, Stock,
           FreelistForSize, CarvedBytes, Exhausted, WithList, ChunkBytes, RoundUp, LastClass;
      ghost var m0, w0, s0, stock := mem, place, slices, StockAt(s);
      var ok, nAlloc;
      ghost var total: nat;
      ok, first, nAlloc, got, total := Gather(s, dataBytes);
      MultiGrantIs(stock, dataBytes);
      DescendFails(stock, TopClass(dataBytes), dataBytes);
      if ok {
        WrapLess(total);
        ghost var left := slices;
        SettleBytes(s, nAlloc, total);
        LeavesSame(s0, left, slices, s, Descend(stock, TopClass(dataBytes), dataBytes).stock);
        return;
      }
      PutAllBack(s, first, total, got, m0, w0, s0);
      CountersZero(slices, cachedBytes, s, 0);
      ListedNone(mem);
      GatherStart(s);
      first, got := 0, [];
      var flIndex := FreelistForSize(dataBytes) + 1;
      if flIndex < N_CLASSES {
        ClassBounds(flIndex);
        first, got := TakeLarger(s, flIndex);
      }
    }

    /** Hands out one chunk of class k, as the only one of a list. */
    method TakeLarger(s: nat, k: nat) returns (c: Sptr, ghost got: seq<Sptr>)
      requires Valid() && s < |slices| && k < N_CLASSES
      modifies this`mem, this`slices, this`place, this`cachedBytes
      ensures Valid() && |slices| == |old(slices)| && |old(StockAt(s))| == N_CLASSES
      ensures Listed(mem, got, c) && Taken(old(place), place, got, s)
      ensures UsedSame(old(mem), mem, old(place)) && mem.Keys == old(mem).Keys
      ensures c == 0 <==> old(StockAt(s))[k] == 0
      ensures c == 0 ==>
                && got == [] && mem == old(mem) && slices == old(slices) && place == old(place)
                && cachedBytes == old(cachedBytes)
      ensures Total(mem, got) == if c == 0 then 0 else ClassSize(k)
      ensures c != 0 ==> got == [c] && Leaves(old(slices), slices, s, old(StockAt(s))[k := old(StockAt(s))[k] - 1])
    {
      hide MemOk, ListsOk, Regions, Listed, Total, Counters, Taken, PutBack, ClassSize, CarvedBytes, Leaves, Stock,
           WithList;
      ghost var stock, s0 := StockAt(s), slices;
      GatherStart(s);
      ListFacts(mem, slices, place, s, k);
      LeavesStart(slices, s);
      StockOf(slices[s].free, k);
      ListedNone(mem);
      got := [];
      ghost var l := slices[s].free[k];
      c := TakeOne(s, k, 0, 0, [], mem, place, slices);
      if c != 0 {
        got := [c];
        assert [c] + [] == [c];
        LeavesList(s0, s0, s, stock, k, l[1..]);
        ghost var left := slices;
        SettleBytes(s, ClassSize(k), ClassSize(k));
        LeavesSame(s0, left, slices, s, stock[k := |l[1..]|]);
      }
    }

    /** Carves the first batch for a class when the segment has room. */
    method CarveFirst(s: nat, k: nat) returns (ok: bool)
      requires Valid() && s < |slices| && k < N_CLASSES
      modifies this
      ensures Valid() && |slices| == |old(slices)| && maxByteIndex == old(maxByteIndex)
      ensures ok <==> old(CanCarve(byteIndex, maxByteIndex, k))
      ensures !ok ==> slices == old(slices) && place == old(place) && mem == old(mem) && byteIndex == old(byteIndex)
      ensures ok ==>
                var n := FirstBatch(maxByteIndex - old(byteIndex), k);
                && |old(StockAt(s))| == N_CLASSES && byteIndex == old(Behind(byteIndex, k, n))
                && Leaves(old(slices), slices, s, old(StockAt(s))[k := old(StockAt(s))[k] + n])
      ensures Extends(old(mem), mem, old(place), place)
    {
      hide MemOk, ListsOk, Regions, Counters, CarvedBytes, ClassSize, BatchBytes, RoundUp, Leaves, Stock;
      var nFree := maxByteIndex - byteIndex;
      ok := false;
      if ClassSize(k) <= nFree {
        ok := CarveBatch(s, k, FirstBatch(nFree, k));
      }
    }

    lemma FlBytesBound(s: nat)
      requires Valid() && s < |slices|
      ensures |slices[s].free| == N_CLASSES
      ensures slices[s].flBytes == FreeBytes(slices[s].free, N_CLASSES) <= byteIndex
    {
      hide MemOk, Regions;
      assert BytesAt(slices, s, 0, 0);
      assert SliceOk(slices[s], s, place);
      FreeAtMostCarved(slices[s], s, place, N_CLASSES);
      SliceAtMostCarved(slices, s, |slices|);
    }

    /** The free-list counter is what the stock amounts to. */
    lemma StockCounted(s: nat)
      requires Valid() && s < |slices|
      ensures |slices[s].free| == |StockAt(s)| == N_CLASSES
      ensures slices[s].flBytes == ChunkBytes(StockAt(s), N_CLASSES) <= byteIndex
    {
      hide MemOk, ListsOk, Regions, Counters, CarvedBytes, FreeBytes, ChunkBytes;
      FlBytesBound(s);
      StockBytes(slices[s].free, N_CLASSES);
    }

    /**
     The last stage of an allocation: carves small chunks and assembles the request; nFree is the room at its start.
     */
    method LastAttempt(s: nat, dataBytes: nat, nFree: nat) returns (c: Sptr, ghost got: seq<Sptr>)
      requires Valid() && s < |slices| && 0 < dataBytes < TWO32 && |StockAt(s)| == N_CLASSES
      requires slices[s].flBytes <= dataBytes || slices[s].flBytes > dataBytes + MIN_SIZE
      modifies this
      ensures Wf() && |slices| == |old(slices)| && maxByteIndex == old(maxByteIndex)
      ensures Listed(mem, got, c) && Granted(old(mem), mem, old(place), place, got, s)
      ensures var o := LastStage(old(StockAt(s)), old(byteIndex), maxByteIndex, nFree, dataBytes);
              && (c == 0 <==> o.total == 0) && Total(mem, got) == o.total && Leaves(old(slices), slices, s, o.stock)
              && byteIndex == o.index && (Valid() <==> o.total < TWO32)
    {
      hide MemOk, ListsOk, Regions, Listed, Total, Counters, Taken, CarvedBytes, ClassSize, BatchBytes, RoundUp, Leaves,
           Stock, Exhausted, Granted, Extends, UsedSame, FreeBytes, FreelistForSize, SecondBatch, ChunkBytes,
           MultiGrant, Behind;
      ghost var m0, w0, s0, stock := mem, place, slices, StockAt(s);
      c, got := 0, [];
      GrantedNone(mem, place, s);
      ListedNone(mem);
      StockCounted(s);
      LeavesStart(slices, s);
      if dataBytes <= slices[s].flBytes + nFree && nFree >= MIN_SIZE {
        SecondBatchPositive(dataBytes, slices[s].flBytes, nFree);
        var batch := SecondBatch(dataBytes, slices[s].flBytes, nFree);
        var ok := CarveBatch(s, 0, batch);
        ListedNone(mem);
        GrantedExtends(m0, m0, mem, w0, w0, place, s);
        if !ok {
          return;
        }
        ghost var m2, w2, s2, more := mem, place, slices, stock[0 := stock[0] + batch];
        LeavesStock(s0, slices, s, more);
        MultiGrantIs(more, dataBytes);
        c, got := MultiChunk(s, dataBytes);
        GrantedTaken(m0, m2, mem, w0, w2, place, got, s);
        if c != 0 {
          LeavesThen(s0, s2, slices, s, more, MultiGrant(more, dataBytes).stock);
        }
      }
    }

    /** Serves a request that its own class cannot: from other classes, carving small chunks if that helps. */
    method AllocFallback(s: nat, dataBytes: nat) returns (c: Sptr, ghost got: seq<Sptr>)
      requires Valid() && s < |slices| && 0 < dataBytes < TWO32
      requires |StockAt(s)| == N_CLASSES && StockAt(s)[FreelistForSize(dataBytes)] == 0
      modifies this
      ensures Wf() && |slices| == |old(slices)| && maxByteIndex == old(maxByteIndex)
      ensures Listed(mem, got, c) && Granted(old(mem), mem, old(place), place, got, s)
      ensures var o := Fallback(old(StockAt(s)), old(byteIndex), maxByteIndex, dataBytes);
              && (c == 0 <==> o.total == 0) && Total(mem, got) == o.total && Leaves(old(slices), slices, s, o.stock)
              && byteIndex == o.index && (Valid() <==> o.total < TWO32)
      ensures old(byteIndex) <= maxByteIndex
      ensures c != 0 <==>
                ServesElse(old(StockAt(s)), old(byteIndex), maxByteIndex, dataBytes, FreelistForSize(dataBytes))
    {
      hide MemOk, ListsOk, Regions, Listed, Total, Counters, Taken, CarvedBytes, ClassSize, BatchBytes, RoundUp, Leaves,
           Stock, Exhausted, Granted, Extends, UsedSame, FreeBytes, FreelistForSize, SecondBatch, ChunkBytes,
           MultiGrant, Behind, LastStage, ServesElse;
      ghost var m0, w0, s0, stock := mem, place, slices, StockAt(s);
      var nFree := maxByteIndex - byteIndex;
      StockCounted(s);
      FallbackIff(stock, byteIndex, maxByteIndex, dataBytes);
      LeavesStart(slices, s);
      if dataBytes > slices[s].flBytes {
        c, got := LastAttempt(s, dataBytes, nFree);
        return;
      }
      MultiGrantIs(stock, dataBytes);
      c, got := MultiChunk(s, dataBytes);
      GrantedTaken(m0, m0, mem, w0, w0, place, got, s);
      if c != 0 {
        return;
      }
      ExhaustedSlack(stock, dataBytes);
      var batch := nFree / MIN_SIZE;
      if batch == 0 {
        return;
      }
      ghost var m1, w1 := mem, place;
      var ok := CarveBatch(s, 0, batch);
      ListedNone(mem);
      GrantedExtends(m0, m1, mem, w0, w1, place, s);
      if !ok {
        return;
      }
      ghost var m2, w2, s2, more := mem, place, slices, stock[0 := stock[0] + batch];
      LeavesStock(s0, slices, s, more);
      ClassBounds(0);
      Times(batch, ClassSize(0));
      c, got := LastAttempt(s, dataBytes, nFree);
      GrantedTwice(m0, m2, mem, w0, w2, place, got, s);
      LeavesThen(s0, s2, slices, s, more,
                 LastStage(more, old(Behind(byteIndex, 0, batch)), maxByteIndex, nFree, dataBytes).stock);
    }

    /**
     Allocates a null-terminated list of chunks for a request. Whether it succeeds, how many bytes it hands out and
     what is left is a function of the free chunks of the slice and the byte index. The list covers the request
     exactly when the request is at most 4 MB or its own class (then the largest) is unavailable.
     The counters stay exact if and only if fewer than 2^32 bytes are handed out.
     */
    method AllocChunk(s: nat, dataBytes: nat) returns (c: Sptr, ghost got: seq<Sptr>)
      requires Valid() && s < |slices| && 0 < dataBytes < TWO32
      modifies this
      ensures Wf() && |slices| == |old(slices)| && maxByteIndex == old(maxByteIndex)
      ensures Listed(mem, got, c) && Granted(old(mem), mem, old(place), place, got, s)
      ensures |old(StockAt(s))| == N_CLASSES && old(byteIndex) <= maxByteIndex
      ensures var o := Allocate(old(StockAt(s)), old(byteIndex), maxByteIndex, dataBytes);
              && (c == 0 <==> o.total == 0) && Total(mem, got) == o.total && Leaves(old(slices), slices, s, o.stock)
              && byteIndex == o.index && (Valid() <==> o.total < TWO32)
      ensures c != 0 <==> Serves(old(StockAt(s)), old(byteIndex), maxByteIndex, dataBytes, FreelistForSize(dataBytes))
      ensures c != 0 ==>
                (dataBytes <= Total(mem, got) <==>
                   dataBytes <= MAX_SIZE || !Direct(old(StockAt(s)), old(byteIndex), maxByteIndex, dataBytes))
      ensures Total(mem, got) < dataBytes + MAX_SIZE
    {
      hide MemOk, ListsOk, Regions, Listed, Total, Counters, Taken, CarvedBytes, ClassSize, BatchBytes, RoundUp, Leaves,
           Stock, Granted, Extends, UsedSame, FreelistForSize, CanCarve, FirstBatch, Behind, Fallback, ChunkBytes,
           FreeBytes, Serves;
      ghost var m0, w0, s0, stock := mem, place, slices, StockAt(s);
      StockCounted(s);
      AllocateIff(stock, byteIndex, maxByteIndex, dataBytes);
      AllocateCovers(stock, byteIndex, maxByteIndex, dataBytes);
      var k := FreelistForSize(dataBytes);
      ClassBounds(k);
      c, got := TakeLarger(s, k);
      GrantedTaken(m0, m0, mem, w0, w0, place, got, s);
      if c != 0 {
        return;
      }
      var ok := CarveFirst(s, k);
      if ok {
        GrantedExtends(m0, m0, mem, w0, w0, place, s);
        ghost var m1, w1, s1 := mem, place, slices;
        ghost var more := stock[k := stock[k] + FirstBatch(maxByteIndex - old(byteIndex), k)];
        LeavesStock(s0, slices, s, more);
        FirstBatchPositive(maxByteIndex - old(byteIndex), k);
        c, got := TakeLarger(s, k);
        GrantedTaken(m0, m1, mem, w0, w1, place, got, s);
        LeavesThen(s0, s1, slices, s, more, more[k := more[k] - 1]);
        assert more[k := more[k] - 1] == stock[k := more[k] - 1];
      } else {
        c, got := AllocFallback(s, dataBytes);
      }
    }

    /**
     Returns a null-terminated list of handed-out chunks to the free lists. The bytes are summed in 32 bits, so
     the counters stay exact if and only if the list holds fewer than 2^32.
     */
    method Collect(s: nat, first: Sptr, ghost l: seq<Sptr>)
      requires Valid() && s < |slices| && Listed(mem, l, first)
      requires forall i :: 0 <= i < |l| ==> IsUsed(l[i], s)
      modifies this`mem, this`slices, this`place, this`cachedBytes
      ensures Wf() && |slices| == |old(slices)| && (Valid() <==> Total(old(mem), l) < TWO32)
      ensures Released(old(mem), mem, old(place), place, l)
      ensures cachedBytes == old(cachedBytes) + Wrap(Total(old(mem), l))
      ensures |old(StockAt(s))| == N_CLASSES
      ensures Leaves(old(slices), slices, s, Restock(old(StockAt(s)), Sizes(old(mem), l)))
    {
      hide MemOk, ListsOk, Regions, Listed, Total, Counters, CarvedBytes, ClassSize, PushBack, Released, Wrap, Plus,
           Leaves, Stock, Restock, Sizes, FreelistForSize;
      ListFacts(mem, slices, place, s, 0);
      LeavesStart(slices, s);
      StockSize(slices[s].free);
      ghost var s0, stock, all := slices, StockAt(s), Restock(StockAt(s), Sizes(mem, l));
      ReleasedNone(mem, place, l);
      ghost var m0, w0, rest, total := mem, place, l, 0;
      var c, nCollect: u32 := first, 0;
      WrapSmall(0);
      CountersZero(slices, cachedBytes, 0, s);
      ListedNull(mem, l, c);
      ListedDistinct(mem, l, c);
      while c != 0
        invariant Wf() && |slices| == |old(slices)| && Counters(slices, cachedBytes, s, 0 - total)
        invariant nCollect == Wrap(total) && total >= 0
        invariant cachedBytes == old(cachedBytes)
        invariant Listed(mem, rest, c) && (c == 0 ==> rest == [])
        invariant |rest| <= |l| && rest == l[|l| - |rest|..]
        invariant Released(m0, mem, w0, place, l[..|l| - |rest|])
        invariant total + Total(mem, rest) == Total(m0, l)
        invariant |stock| == N_CLASSES && Leaves(s0, slices, s, stock) && Restock(stock, Sizes(mem, rest)) == all
        decreases |rest|
      {
        ListedTail(mem, rest, c);
        ghost var j := |l| - |rest|;
        assert c == l[j];
        ReleasedLater(m0, mem, w0, place, l, j);
        ghost var m1, w1, before := mem, place, slices;
        RestockFirst(stock, mem, rest);
        LeavesStock(s0, slices, s, stock);
        var flIndex;
        c, flIndex := PushFirst(s, c, rest, 0 - total);
        FreelistOfClass(flIndex);
        LeavesPush(s0, before, s, stock, flIndex, rest[0]);
        SizesSame(m1, mem, rest[1..], rest[0]);
        stock := stock[flIndex := stock[flIndex] + 1];
        ClassBounds(flIndex);
        WrapPlus(total, ClassSize(flIndex));
        nCollect := Plus(nCollect, ClassSize(flIndex));
        total := total + ClassSize(flIndex);
        ReleasedMore(m0, m1, mem, w0, w1, place, l, j, flIndex, s);
        rest := rest[1..];
        ListedNull(mem, rest, c);
      }
      ListedNull(mem, rest, c);
      assert l[..|l|] == l;
      WrapLess(total);
      RestockNone(stock, mem);
      ghost var left := slices;
      SettleBytes(s, 0 - nCollect, 0 - total);
      LeavesSame(s0, left, slices, s, stock);
    }
  }

  /**
   The 32-bit sum at work. A segment stocked with 2048 chunks of 2 MB, with one byte to spare, is asked for 2^32 - 1
   bytes: it hands out 2^32, and its counters no longer match its lists.
   */
  method Miscounted() returns (seg: Segment, c: Sptr, ghost got: seq<Sptr>)
    ensures fresh(seg) && seg.Wf() && !seg.Valid() && c != 0 && Listed(seg.mem, got, c) && Total(seg.mem, got) == TWO32
  {
    hide MemOk, ListsOk, Regions, Listed, Counters, CarvedBytes, Granted, Total, Behind, Stock, Allocate,
         FreelistForSize;
    StockedSize();
    seg := new Segment(1, 64, Behind(64, 9, 2048) + 1);
    EmptyStock();
    var ok := seg.CarveBatch(0, 9, 2048);
    StockedOutcome();
    c, got := seg.AllocChunk(0, TWO32 - 1);
  }

  lemma StockedSize()
    ensures 64 < Behind(64, 9, 2048) < 0x1_0100_0000
  {
    Powers();
    ClassBounds(10);
    RoundUpIs(64, 8);
    RoundUpIs(BatchBytes(9, 2048), 8);
  }

  lemma EmptyStock()
    ensures Stock(EmptySlice().free) == seq(N_CLASSES, _ => 0)
  {
  }

  lemma StockedOutcome()
    ensures var index := Behind(64, 9, 2048);
            Allocate(seq(N_CLASSES, _ => 0)[9 := 2048], index, index + 1, TWO32 - 1).total == TWO32
  {
    hide Behind, FreelistForSize, Descend, RoundUp, ChunkBytes;
    var stock: seq<nat> := seq(N_CLASSES, _ => 0)[9 := 2048];
    var index := Behind(64, 9, 2048);
    FreelistCovers(TWO32 - 1);
    Powers();
    ClassBounds(10);
    assert ClassSize(10) == MAX_SIZE && ClassSize(9) == 0x20_0000;
    BytesOnly(stock, 9, N_CLASSES);
    DescendHere(stock, 9, TWO32 - 1);
    RoundUpIs(TWO32 - 1, ClassSize(9));
    PiecesCover(TWO32 - 1, ClassSize(9), 2048);
    SameMultiple(Pieces(TWO32 - 1, ClassSize(9)), 2048, ClassSize(9), TWO32 - 1);
    assert Descend(stock, 9, TWO32 - 1).total == TWO32;
    assert MultiGrant(stock, TWO32 - 1).total == TWO32;
    assert !CanCarve(index, index + 1, 10);
  }

  /** A request one byte above 4 MB in a fresh segment of 256 MB is given fewer bytes than it asks for. */
  method OversizeShort() returns (seg: Segment, c: Sptr, ghost got: seq<Sptr>)
    ensures fresh(seg) && seg.Valid() && c != 0 && Listed(seg.mem, got, c) && Total(seg.mem, got) < MAX_SIZE + 1
  {
    hide MemOk, ListsOk, Regions, Listed, Total, Counters, CarvedBytes, Granted, FreelistForSize, Stock, Allocate,
         CanCarve;
    seg := new Segment(1, 64, 0x1000_0000);
    FreelistCovers(MAX_SIZE + 1);
    seg.StockCounted(0);
    RoomFor32();
    AllocateCovers(seg.StockAt(0), 64, 0x1000_0000, MAX_SIZE + 1);
    ClassBounds(FreelistForSize(MAX_SIZE + 1));
    c, got := seg.AllocChunk(0, MAX_SIZE + 1);
  }

  lemma RoomFor32()
    ensures CanCarve(64, 0x1000_0000, N_CLASSES - 1)
  {
    Powers();
    assert ClassSize(N_CLASSES - 1) == MAX_SIZE;
  }
}
