/**
 Per-slice, per-class free lists of chunks and their counters, as values: what one move
 of a chunk, or one batch of new chunks, does to them.
 */
module FreeLists {
  import opened Arithmetic
  import opened Chunks
  import opened SizeClasses

  /** Bytes of chunk header in front of the data. */
  const HDR: nat := 24

  const BATCH: nat := 32

  /** Where a chunk belongs, and whether it is currently handed out. */
  datatype Place = Place(slice: nat, cls: nat, used: bool)

  datatype Slice = Slice(free: seq<seq<Sptr>>, flBytes: nat, numChunks: seq<nat>)

  /** The list holds exactly the free chunks of its slice and class, each once. */
  ghost predicate OnList(l: seq<Sptr>, s: nat, k: nat, place: map<Sptr, Place>) {
    && NoDup(l)
    && (forall i :: 0 <= i < |l| ==> l[i] in place && place[l[i]] == Place(s, k, false))
    && (forall p :: p in place && place[p] == Place(s, k, false) ==> p in l)
  }

  ghost function Of(place: map<Sptr, Place>, s: nat, k: nat): set<Sptr> {
    set p | p in place && place[p].slice == s && place[p].cls == k
  }

  ghost function UsedOf(place: map<Sptr, Place>, s: nat, k: nat): set<Sptr> {
    set p | p in place && place[p] == Place(s, k, true)
  }

  /** Bytes on the first n free lists. */
  ghost function FreeBytes(free: seq<seq<Sptr>>, n: nat): nat
    requires n <= |free|
  {
    if n == 0 then 0 else FreeBytes(free, n - 1) + |free[n - 1]| * ClassSize(n - 1)
  }

  ghost function TotalFree(slices: seq<Slice>, n: nat): nat
    requires n <= |slices|
  {
    if n == 0 then 0 else TotalFree(slices, n - 1) + slices[n - 1].flBytes
  }

  ghost predicate SliceOk(sl: Slice, s: nat, place: map<Sptr, Place>) {
    && |sl.free| == N_CLASSES && |sl.numChunks| == N_CLASSES
    && (forall k :: 0 <= k < N_CLASSES ==> OnList(sl.free[k], s, k, place))
    && (forall k :: 0 <= k < N_CLASSES ==> sl.numChunks[k] == |Of(place, s, k)|)
  }

  ghost predicate ChunkOk(m: Memory, place: map<Sptr, Place>, n: nat, p: Sptr) {
    && p != 0 && p in m && p in place
    && place[p].slice < n && place[p].cls < N_CLASSES
    && m[p].length == |m[p].data| == ClassSize(place[p].cls)
  }

  ghost predicate MemOk(m: Memory, place: map<Sptr, Place>, n: nat) {
    && m.Keys == place.Keys
    && (forall p :: p in m ==> ChunkOk(m, place, n, p))
  }

  ghost predicate ListsOk(slices: seq<Slice>, place: map<Sptr, Place>) {
    forall s :: 0 <= s < |slices| ==> SliceOk(slices[s], s, place)
  }

  ghost function WithList(slices: seq<Slice>, s: nat, k: nat, l: seq<Sptr>): seq<Slice>
    requires s < |slices| && k < |slices[s].free|
  {
    slices[s := slices[s].(free := slices[s].free[k := l])]
  }

  lemma WithListSize(slices: seq<Slice>, s: nat, k: nat, l: seq<Sptr>)
    requires s < |slices| && k < |slices[s].free|
    ensures |WithList(slices, s, k, l)| == |slices|
  {
  }

  // ---- One chunk moves between its free list and its user ----

  lemma OnListOther(l: seq<Sptr>, s: nat, k: nat, place: map<Sptr, Place>, c: Sptr, used: bool)
    requires OnList(l, s, k, place) && c in place && (place[c].slice, place[c].cls) != (s, k)
    ensures OnList(l, s, k, place[c := place[c].(used := used)])
  {
  }

  lemma OnListPop(l: seq<Sptr>, s: nat, k: nat, place: map<Sptr, Place>)
    requires OnList(l, s, k, place) && l != []
    ensures OnList(l[1..], s, k, place[l[0] := Place(s, k, true)])
  {
    var q := place[l[0] := Place(s, k, true)];
    forall p | p in q && q[p] == Place(s, k, false)
      ensures p in l[1..]
    {
      var i :| 0 <= i < |l| && l[i] == p;
      assert l[1..][i - 1] == p;
    }
  }

  lemma OnListPush(l: seq<Sptr>, s: nat, k: nat, place: map<Sptr, Place>, c: Sptr)
    requires OnList(l, s, k, place) && c in place && place[c] == Place(s, k, true)
    ensures OnList([c] + l, s, k, place[c := Place(s, k, false)])
  {
    var r, q := [c] + l, place[c := Place(s, k, false)];
    forall p | p in q && q[p] == Place(s, k, false)
      ensures p in r
    {
      if p != c {
        var i :| 0 <= i < |l| && l[i] == p;
        assert r[i + 1] == p;
      }
    }
  }

  lemma OfSame(place: map<Sptr, Place>, c: Sptr, used: bool, s: nat, k: nat)
    requires c in place
    ensures Of(place[c := place[c].(used := used)], s, k) == Of(place, s, k)
  {
  }

  /** Replacing list k of slice s and flipping chunk c of that list keeps every other list right. */
  lemma MoveLists(slices: seq<Slice>, place: map<Sptr, Place>, s: nat, k: nat, c: Sptr, used: bool, l: seq<Sptr>)
    requires ListsOk(slices, place) && s < |slices| && k < N_CLASSES
    requires c in place && place[c].slice == s && place[c].cls == k
    requires |slices[s].free| == N_CLASSES
    requires OnList(l, s, k, place[c := Place(s, k, used)])
    ensures ListsOk(WithList(slices, s, k, l), place[c := Place(s, k, used)])
  {
    var q := place[c := Place(s, k, used)];
    var r := WithList(slices, s, k, l);
    forall s' | 0 <= s' < |r|
      ensures SliceOk(r[s'], s', q)
    {
      assert SliceOk(slices[s'], s', place);
      forall k' | 0 <= k' < N_CLASSES
        ensures OnList(r[s'].free[k'], s', k', q)
        ensures r[s'].numChunks[k'] == |Of(q, s', k')|
      {
        OfSame(place, c, used, s', k');
        assert OnList(slices[s'].free[k'], s', k', place);
        if (s', k') != (s, k) {
          OnListOther(slices[s'].free[k'], s', k', place, c, used);
        }
      }
    }
  }

  lemma MarkMem(m: Memory, place: map<Sptr, Place>, n: nat, c: Sptr, used: bool)
    requires MemOk(m, place, n) && c in place
    ensures MemOk(m, place[c := place[c].(used := used)], n)
  {
    var w := place[c := place[c].(used := used)];
    forall p | p in m
      ensures ChunkOk(m, w, n, p)
    {
      assert ChunkOk(m, place, n, p);
    }
  }

  /** Rewriting the link, flags, start or bytes of chunks keeps the allocator's view of memory. */
  lemma TouchMem(m: Memory, q: Memory, place: map<Sptr, Place>, n: nat, b: nat)
    requires MemOk(m, place, n) && Regions(m, b) && m.Keys == q.Keys
    requires forall p :: p in m ==> q[p].length == m[p].length && |q[p].data| == |m[p].data|
    ensures MemOk(q, place, n) && Regions(q, b)
  {
    forall p | p in q
      ensures ChunkOk(q, place, n, p)
    {
      assert ChunkOk(m, place, n, p);
    }
  }

  /** What the allocator's invariants say about list k of slice s and its first chunk. */
  lemma ListFacts(m: Memory, slices: seq<Slice>, place: map<Sptr, Place>, s: nat, k: nat)
    requires MemOk(m, place, |slices|) && ListsOk(slices, place) && s < |slices| && k < N_CLASSES
    ensures |slices[s].free| == |slices[s].numChunks| == N_CLASSES
    ensures OnList(slices[s].free[k], s, k, place)
    ensures slices[s].free[k] != [] ==>
              var c := slices[s].free[k][0];
              c != 0 && c in m && c in place && place[c] == Place(s, k, false) && m[c].length == ClassSize(k)
  {
    assert SliceOk(slices[s], s, place);
    assert OnList(slices[s].free[k], s, k, place);
    if slices[s].free[k] != [] {
      assert ChunkOk(m, place, |slices|, slices[s].free[k][0]);
    }
  }

  lemma KeysSame(m: Memory, place: map<Sptr, Place>, n: nat)
    requires MemOk(m, place, n)
    ensures m.Keys == place.Keys
  {
  }

  lemma ChunkFactsOf(m: Memory, place: map<Sptr, Place>, n: nat, c: Sptr)
    requires MemOk(m, place, n) && c in place
    ensures c != 0 && c in m && place[c].slice < n && place[c].cls < N_CLASSES
    ensures m[c].length == |m[c].data| == ClassSize(place[c].cls)
  {
    assert ChunkOk(m, place, n, c);
  }

  lemma {:induction false} FreeBytesOther(free: seq<seq<Sptr>>, k: nat, l: seq<Sptr>, n: nat)
    requires n <= k < |free|
    ensures FreeBytes(free[k := l], n) == FreeBytes(free, n)
  {
    if n > 0 {
      FreeBytesOther(free, k, l, n - 1);
    }
  }

  /** Replacing one list changes the byte sum by that list's difference. */
  lemma {:induction false} FreeBytesUpdate(free: seq<seq<Sptr>>, k: nat, l: seq<Sptr>, n: nat)
    requires k < n <= |free|
    ensures FreeBytes(free[k := l], n) + |free[k]| * ClassSize(k) == FreeBytes(free, n) + |l| * ClassSize(k)
  {
    if n == k + 1 {
      FreeBytesOther(free, k, l, k);
    } else {
      FreeBytesUpdate(free, k, l, n - 1);
    }
  }

  lemma {:induction false} FreeBytesEmpty(free: seq<seq<Sptr>>, n: nat)
    requires n <= |free| && forall k :: 0 <= k < n ==> free[k] == []
    ensures FreeBytes(free, n) == 0
  {
    if n > 0 {
      FreeBytesEmpty(free, n - 1);
    }
  }

  lemma {:induction false} TotalFreeUpdate(slices: seq<Slice>, s: nat, x: Slice, n: nat)
    requires n <= |slices| && s < |slices|
    ensures TotalFree(slices[s := x], n) == TotalFree(slices, n) + if s < n then x.flBytes - slices[s].flBytes else 0
  {
    if n > 0 {
      TotalFreeUpdate(slices, s, x, n - 1);
    }
  }

  ghost function Elems(l: seq<Sptr>): set<Sptr> {
    set p | p in l
  }

  lemma {:induction false} ElemsSize(l: seq<Sptr>)
    requires NoDup(l)
    ensures |Elems(l)| == |l|
  {
    if l != [] {
      ElemsSize(l[1..]);
      assert l[0] !in Elems(l[1..]);
      assert Elems(l) == {l[0]} + Elems(l[1..]);
    }
  }

  /** Every chunk ever carved for a class is on its free list or in use. */
  lemma Conserved(l: seq<Sptr>, s: nat, k: nat, place: map<Sptr, Place>)
    requires OnList(l, s, k, place)
    ensures |Of(place, s, k)| == |l| + |UsedOf(place, s, k)|
  {
    ElemsSize(l);
    OfSplit(l, s, k, place);
  }

  lemma OfSplit(l: seq<Sptr>, s: nat, k: nat, place: map<Sptr, Place>)
    requires OnList(l, s, k, place)
    ensures Of(place, s, k) == Elems(l) + UsedOf(place, s, k)
    ensures Elems(l) !! UsedOf(place, s, k)
  {
    forall p | p in Of(place, s, k)
      ensures p in Elems(l) + UsedOf(place, s, k)
    {
      assert place[p] == Place(s, k, place[p].used);
    }
  }

  // ---- Bytes ever carved bound the bytes on the lists ----

  ghost function ChunkBytes(num: seq<nat>, n: nat): nat
    requires n <= |num|
  {
    if n == 0 then 0 else ChunkBytes(num, n - 1) + num[n - 1] * ClassSize(n - 1)
  }

  ghost function CarvedBytes(slices: seq<Slice>, n: nat): nat
    requires n <= |slices|
  {
    if n == 0 then 0 else CarvedBytes(slices, n - 1) + ChunkBytes(slices[n - 1].numChunks, |slices[n - 1].numChunks|)
  }

  lemma ClassConserved(sl: Slice, s: nat, place: map<Sptr, Place>, k: nat)
    requires SliceOk(sl, s, place) && k < N_CLASSES
    ensures |sl.free| == |sl.numChunks| == N_CLASSES && sl.numChunks[k] == |sl.free[k]| + |UsedOf(place, s, k)|
  {
    assert OnList(sl.free[k], s, k, place);
    Conserved(sl.free[k], s, k, place);
  }

  lemma {:induction false} FreeAtMostCarved(sl: Slice, s: nat, place: map<Sptr, Place>, n: nat)
    requires SliceOk(sl, s, place) && n <= N_CLASSES
    ensures FreeBytes(sl.free, n) <= ChunkBytes(sl.numChunks, n)
  {
    if n > 0 {
      hide ClassSize, UsedOf, SliceOk;
      FreeAtMostCarved(sl, s, place, n - 1);
      ClassConserved(sl, s, place, n - 1);
      MulMonotone(|sl.free[n - 1]|, sl.numChunks[n - 1], ClassSize(n - 1));
    }
  }

  lemma {:induction false} SliceAtMostCarved(slices: seq<Slice>, s: nat, n: nat)
    requires s < n <= |slices|
    ensures ChunkBytes(slices[s].numChunks, |slices[s].numChunks|) <= CarvedBytes(slices, n)
  {
    if s < n - 1 {
      SliceAtMostCarved(slices, s, n - 1);
    }
  }

  /** One class alone carves no more than all do, so its count is bounded by the segment. */
  lemma {:induction false} ClassAtMostCarved(num: seq<nat>, k: nat, n: nat)
    requires k < n <= |num|
    ensures num[k] * ClassSize(k) <= ChunkBytes(num, n)
  {
    hide ClassSize;
    if k < n - 1 {
      ClassAtMostCarved(num, k, n - 1);
    }
  }

  lemma {:induction false} CarvedSame(a: seq<Slice>, b: seq<Slice>, n: nat)
    requires n <= |a| && n <= |b| && forall i :: 0 <= i < n ==> a[i].numChunks == b[i].numChunks
    ensures CarvedBytes(a, n) == CarvedBytes(b, n)
  {
    if n > 0 {
      CarvedSame(a, b, n - 1);
    }
  }

  lemma {:induction false} ChunkBytesMore(num: seq<nat>, k: nat, d: nat, n: nat)
    requires n <= |num| && k < |num|
    ensures ChunkBytes(num[k := num[k] + d], n) == ChunkBytes(num, n) + if k < n then d * ClassSize(k) else 0
  {
    if n > 0 {
      ChunkBytesMore(num, k, d, n - 1);
      if n - 1 == k {
        Distribute(num[k], d, ClassSize(k));
      }
    }
  }

  lemma {:induction false} CarvedMore(slices: seq<Slice>, s: nat, x: Slice, k: nat, d: nat, n: nat)
    requires n <= |slices| && s < |slices| && k < |slices[s].numChunks|
    requires x.numChunks == slices[s].numChunks[k := slices[s].numChunks[k] + d]
    ensures CarvedBytes(slices[s := x], n) == CarvedBytes(slices, n) + if s < n then d * ClassSize(k) else 0
  {
    if n > 0 {
      CarvedMore(slices, s, x, k, d, n - 1);
      if n - 1 == s {
        ChunkBytesMore(slices[s].numChunks, k, d, |slices[s].numChunks|);
      }
    }
  }

  // ---- A batch of new chunks ----

  /** Chunk memory regions, header included, do not overlap and end by b. */
  ghost predicate Regions(m: Memory, b: nat) {
    && (forall p :: p in m ==> p + HDR + m[p].length <= b)
    && (forall p, q :: p in m && q in m && p < q ==> p + HDR + m[p].length <= q)
  }

  lemma RegionsJoin(m: Memory, f: Memory, a: nat, b: nat, c: nat, top: nat)
    requires Regions(m, a) && Regions(f, c) && a <= b && a <= top && c <= top
    requires forall p :: p in f ==> b <= p
    ensures m.Keys !! f.Keys && Regions(m + f, top)
  {
  }

  /** The chunks of f are listed in l, each once, with the size of class k. */
  ghost predicate Carved(f: Memory, l: seq<Sptr>, k: nat) {
    && NoDup(l)
    && f.Keys == Elems(l)
    && (forall p :: p in f ==> p != 0 && f[p].length == |f[p].data| == ClassSize(k))
  }

  lemma LayNone(k: nat, c: nat)
    ensures Carved(map[], [], k) && Regions(map[], c)
  {
  }

  lemma LayNext(f: Memory, l: seq<Sptr>, k: nat, c: nat, x: Chunk)
    requires Carved(f, l, k) && Regions(f, c) && c > 0 && x.length == |x.data| == ClassSize(k)
    ensures c !in f && Carved(f[c := x], [c] + l, k) && Regions(f[c := x], c + HDR + ClassSize(k))
  {
    assert forall i :: 0 <= i < |l| ==> l[i] in Elems(l);
    assert Elems([c] + l) == {c} + Elems(l);
  }

  ghost function AddFree(place: map<Sptr, Place>, f: Memory, s: nat, k: nat): map<Sptr, Place> {
    map p | p in place.Keys + f.Keys :: if p in f then Place(s, k, false) else place[p]
  }

  lemma AddFreeFacts(place: map<Sptr, Place>, f: Memory, s: nat, k: nat)
    requires place.Keys !! f.Keys
    ensures var w := AddFree(place, f, s, k);
            && (forall p :: p in place ==> p in w && w[p] == place[p])
            && (forall p :: p in w && p !in place ==> !w[p].used)
  {
  }

  lemma CarveOnList(f: Memory, l: seq<Sptr>, rest: seq<Sptr>, s: nat, k: nat, place: map<Sptr, Place>)
    requires Carved(f, l, k) && OnList(rest, s, k, place) && place.Keys !! f.Keys
    ensures OnList(l + rest, s, k, AddFree(place, f, s, k))
  {
    var r, w := l + rest, AddFree(place, f, s, k);
    forall i | 0 <= i < |r|
      ensures r[i] in w && w[r[i]] == Place(s, k, false)
    {
      assert i < |l| ==> l[i] in Elems(l);
    }
    forall i, j | 0 <= i < j < |r|
      ensures r[i] != r[j]
    {
      assert i < |l| ==> l[i] in Elems(l);
    }
    forall p | p in w && w[p] == Place(s, k, false)
      ensures p in r
    {
      if p in f {
        assert p in Elems(l);
      }
    }
  }

  lemma CarveOther(f: Memory, l: seq<Sptr>, s: nat, k: nat, s': nat, k': nat, place: map<Sptr, Place>)
    requires OnList(l, s', k', place) && place.Keys !! f.Keys && (s, k) != (s', k')
    ensures OnList(l, s', k', AddFree(place, f, s, k))
    ensures Of(AddFree(place, f, s, k), s', k') == Of(place, s', k')
  {
  }

  lemma CarveOf(f: Memory, s: nat, k: nat, place: map<Sptr, Place>)
    requires place.Keys !! f.Keys
    ensures Of(AddFree(place, f, s, k), s, k) == Of(place, s, k) + f.Keys
    ensures Of(place, s, k) !! f.Keys
  {
    var w := AddFree(place, f, s, k);
    forall p | p in Of(w, s, k)
      ensures p in Of(place, s, k) + f.Keys
    {
      assert p !in f ==> w[p] == place[p];
    }
  }

  lemma CarveCount(f: Memory, l: seq<Sptr>, s: nat, k: nat, place: map<Sptr, Place>)
    requires Carved(f, l, k) && place.Keys !! f.Keys
    ensures |Of(AddFree(place, f, s, k), s, k)| == |Of(place, s, k)| + |l|
  {
    ElemsSize(l);
    CarveOf(f, s, k, place);
  }

  lemma CarveMem(m: Memory, place: map<Sptr, Place>, n: nat, f: Memory, l: seq<Sptr>, s: nat, k: nat)
    requires MemOk(m, place, n) && Carved(f, l, k) && m.Keys !! f.Keys && s < n && k < N_CLASSES
    ensures MemOk(m + f, AddFree(place, f, s, k), n)
  {
    forall p | p in m + f
      ensures ChunkOk(m + f, AddFree(place, f, s, k), n, p)
    {
      assert p !in f ==> ChunkOk(m, place, n, p);
    }
  }

  ghost function CarvedSlice(sl: Slice, k: nat, l: seq<Sptr>): Slice
    requires k < |sl.free| && k < |sl.numChunks|
  {
    sl.(free := sl.free[k := l + sl.free[k]], numChunks := sl.numChunks[k := sl.numChunks[k] + |l|])
  }

  /** The lists do not depend on the byte counter. */
  lemma ListsBytes(slices: seq<Slice>, place: map<Sptr, Place>, s: nat, bytes: nat)
    requires ListsOk(slices, place) && s < |slices|
    ensures ListsOk(slices[s := slices[s].(flBytes := bytes)], place)
  {
    var r := slices[s := slices[s].(flBytes := bytes)];
    forall i | 0 <= i < |r|
      ensures SliceOk(r[i], i, place)
    {
      assert SliceOk(slices[i], i, place);
    }
  }

  lemma CarveSlice(slices: seq<Slice>, place: map<Sptr, Place>, f: Memory, l: seq<Sptr>, s: nat, k: nat, s': nat)
    requires ListsOk(slices, place) && s < |slices| && s' < |slices| && k < N_CLASSES
    requires Carved(f, l, k) && place.Keys !! f.Keys
    requires |slices[s].free| == |slices[s].numChunks| == N_CLASSES
    ensures SliceOk(if s' == s then CarvedSlice(slices[s], k, l) else slices[s'], s', AddFree(place, f, s, k))
  {
    var w := AddFree(place, f, s, k);
    var x := if s' == s then CarvedSlice(slices[s], k, l) else slices[s'];
    assert SliceOk(slices[s'], s', place);
    forall k' | 0 <= k' < N_CLASSES
      ensures OnList(x.free[k'], s', k', w) && x.numChunks[k'] == |Of(w, s', k')|
    {
      assert OnList(slices[s'].free[k'], s', k', place);
      if (s', k') == (s, k) {
        CarveOnList(f, l, slices[s].free[k], s, k, place);
        CarveCount(f, l, s, k, place);
      } else {
        CarveOther(f, slices[s'].free[k'], s, k, s', k', place);
      }
    }
  }

  lemma CarveLists(slices: seq<Slice>, place: map<Sptr, Place>, f: Memory, l: seq<Sptr>, s: nat, k: nat, bytes: nat)
    requires ListsOk(slices, place) && s < |slices| && k < N_CLASSES
    requires Carved(f, l, k) && place.Keys !! f.Keys
    requires |slices[s].free| == |slices[s].numChunks| == N_CLASSES
    ensures ListsOk(slices[s := CarvedSlice(slices[s], k, l).(flBytes := bytes)], AddFree(place, f, s, k))
  {
    var r := slices[s := CarvedSlice(slices[s], k, l).(flBytes := bytes)];
    forall s' | 0 <= s' < |r|
      ensures SliceOk(r[s'], s', AddFree(place, f, s, k))
    {
      CarveSlice(slices, place, f, l, s, k, s');
    }
  }

  // ---- Chunks taken out of a slice and put back ----

  /** The chunks of got, free in slice s before, are handed out now; nothing else moved. */
  ghost predicate Taken(before: map<Sptr, Place>, now: map<Sptr, Place>, got: seq<Sptr>, s: nat) {
    && now.Keys == before.Keys
    && (forall i :: 0 <= i < |got| ==> got[i] in before && before[got[i]].slice == s && !before[got[i]].used)
    && (forall p :: p in now ==> now[p] == if p in got then before[p].(used := true) else before[p])
  }

  lemma TakenNone(before: map<Sptr, Place>, now: map<Sptr, Place>, s: nat)
    requires Taken(before, now, [], s)
    ensures now == before
  {
  }

  lemma TakenMore(before: map<Sptr, Place>, now: map<Sptr, Place>, got: seq<Sptr>, s: nat, k: nat, c: Sptr)
    requires Taken(before, now, got, s) && c in now && now[c] == Place(s, k, false)
    ensures c !in got && Taken(before, now[c := Place(s, k, true)], [c] + got, s)
    ensures c in before && before[c] == Place(s, k, false)
  {
    var r, w := [c] + got, now[c := Place(s, k, true)];
    assert forall p :: p in r <==> p == c || p in got;
  }

  lemma TakenLess(before: map<Sptr, Place>, now: map<Sptr, Place>, got: seq<Sptr>, s: nat)
    requires Taken(before, now, got, s) && got != [] && got[0] !in got[1..]
    ensures got[0] in now && got[0] in before
    ensures var c := got[0];
            && !before[c].used && now[c] == Place(s, before[c].cls, true)
            && Taken(before, now[c := Place(s, before[c].cls, false)], got[1..], s)
  {
    var c := got[0];
    assert forall p :: p in got <==> p == c || p in got[1..];
  }

  ghost function PushBack(slices: seq<Slice>, s: nat, k: nat, c: Sptr): seq<Slice> {
    if s < |slices| && k < |slices[s].free| then WithList(slices, s, k, [c] + slices[s].free[k]) else slices
  }

  /** The lists after the chunks of got are pushed back in order, each on the list of its class. */
  ghost function PutBack(slices: seq<Slice>, s: nat, got: seq<Sptr>, place: map<Sptr, Place>): seq<Slice>
    decreases |got|
  {
    if got == [] then slices
    else PutBack(PushBack(slices, s, if got[0] in place then place[got[0]].cls else 0, got[0]), s, got[1..], place)
  }

  /** Popping a chunk and pushing it back restores the lists. */
  lemma PopThenPush(slices: seq<Slice>, s: nat, k: nat, got: seq<Sptr>, place: map<Sptr, Place>)
    requires s < |slices| && k < |slices[s].free| && slices[s].free[k] != []
    requires var c := slices[s].free[k][0]; c in place && place[c].cls == k
    ensures var l := slices[s].free[k];
            PutBack(WithList(slices, s, k, l[1..]), s, [l[0]] + got, place) == PutBack(slices, s, got, place)
  {
    var l := slices[s].free[k];
    var w := WithList(slices, s, k, l[1..]);
    assert [l[0]] + l[1..] == l;
    assert w[s].free[k := l] == slices[s].free;
    assert PushBack(w, s, k, l[0]) == slices;
    assert ([l[0]] + got)[1..] == got;
  }

  /** New free chunks may have appeared; nothing else changed. */
  ghost predicate Extends(m: Memory, q: Memory, before: map<Sptr, Place>, now: map<Sptr, Place>) {
    && (forall p :: p in m ==> p in q && q[p] == m[p])
    && (forall p :: p in before ==> p in now && now[p] == before[p])
    && (forall p :: p in now && p !in before ==> !now[p].used)
  }

  /** Chunks in use keep their contents. */
  ghost predicate UsedSame(m: Memory, q: Memory, place: map<Sptr, Place>) {
    && m.Keys <= q.Keys
    && (forall p :: p in m && p in place && place[p].used ==> q[p] == m[p])
  }

  /** Since the snapshot the chunks of got were handed out to slice s; every other handed-out chunk is untouched. */
  ghost predicate Granted(m: Memory, q: Memory, before: map<Sptr, Place>, now: map<Sptr, Place>, got: seq<Sptr>,
                          s: nat)
  {
    && (forall i :: 0 <= i < |got| ==> got[i] in now && now[got[i]].used && now[got[i]].slice == s)
    && (forall i :: 0 <= i < |got| ==> got[i] in before ==> !before[got[i]].used)
    && (forall p :: p in before && before[p].used ==> p in now && now[p] == before[p])
    && (forall p :: p in now && now[p].used ==> p in got || (p in before && before[p].used))
    && (forall p :: p in m && p in before && before[p].used ==> p in q && q[p] == m[p])
  }

  lemma GrantedNone(m: Memory, place: map<Sptr, Place>, s: nat)
    ensures Granted(m, m, place, place, [], s)
  {
  }

  lemma GrantedExtends(m: Memory, m1: Memory, q: Memory, before: map<Sptr, Place>, w1: map<Sptr, Place>,
                       now: map<Sptr, Place>, s: nat)
    requires Granted(m, m1, before, w1, [], s) && Extends(m1, q, w1, now)
    ensures Granted(m, q, before, now, [], s)
  {
  }

  lemma GrantedTaken(m: Memory, m1: Memory, q: Memory, before: map<Sptr, Place>, w1: map<Sptr, Place>,
                     now: map<Sptr, Place>, got: seq<Sptr>, s: nat)
    requires Granted(m, m1, before, w1, [], s) && Taken(w1, now, got, s) && UsedSame(m1, q, w1)
    ensures Granted(m, q, before, now, got, s)
  {
  }

  lemma GrantedTwice(m: Memory, m1: Memory, q: Memory, before: map<Sptr, Place>, w1: map<Sptr, Place>,
                     now: map<Sptr, Place>, got: seq<Sptr>, s: nat)
    requires Granted(m, m1, before, w1, [], s) && Granted(m1, q, w1, now, got, s)
    ensures Granted(m, q, before, now, got, s)
  {
  }

  /** Since the snapshot exactly the chunks of l were given back; every other chunk is untouched. */
  ghost predicate Released(m: Memory, q: Memory, before: map<Sptr, Place>, now: map<Sptr, Place>, l: seq<Sptr>) {
    && now.Keys == before.Keys && q.Keys == m.Keys
    && (forall p :: p in now ==> now[p] == if p in l then before[p].(used := false) else before[p])
    && (forall p :: p in m && p !in l ==> q[p] == m[p])
  }

  lemma ReleasedNone(m: Memory, place: map<Sptr, Place>, l: seq<Sptr>)
    ensures Released(m, m, place, place, l[..0])
  {
  }

  lemma ReleasedLater(m: Memory, q: Memory, before: map<Sptr, Place>, now: map<Sptr, Place>, l: seq<Sptr>, j: nat)
    requires j < |l| && NoDup(l) && Released(m, q, before, now, l[..j])
    ensures l[j] in before ==> l[j] in now && now[l[j]] == before[l[j]]
  {
    assert l[j] !in l[..j];
  }

  lemma ReleasedMore(m: Memory, m1: Memory, q: Memory, before: map<Sptr, Place>, w1: map<Sptr, Place>,
                     now: map<Sptr, Place>, l: seq<Sptr>, j: nat, k: nat, s: nat)
    requires j < |l| && NoDup(l) && Released(m, m1, before, w1, l[..j])
    requires l[j] in w1 && w1[l[j]] == Place(s, k, true) && now == w1[l[j] := Place(s, k, false)]
    requires q.Keys == m1.Keys && forall p :: p in q && p != l[j] ==> q[p] == m1[p]
    ensures Released(m, q, before, now, l[..j + 1])
  {
    assert l[j] !in l[..j];
    assert forall p :: p in l[..j + 1] <==> p == l[j] || p in l[..j];
  }
}
