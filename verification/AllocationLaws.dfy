/**
 When an allocation succeeds and what it costs, said in numbers: bytes free in the slice, room between
 the byte index and its limit, the sizes of chunks and their headers.
 */
module AllocationLaws {
  import opened Positions
  import opened Arithmetic
  import opened SizeClasses
  import opened FreeLists
  import opened Allocation

  // ---- Carving ----

  /** The byte index behind n chunks of the given size with their headers. */
  function Past(index: nat, size: nat, n: nat): nat {
    RoundUp(index, 8) + n * (HDR + size)
  }

  /** n chunks of class k take n times header and data: no rounding is lost. */
  lemma BehindIs(index: nat, k: nat, n: nat)
    requires k < N_CLASSES
    ensures Behind(index, k, n) == Past(index, ClassSize(k), n)
  {
    hide RoundUp, ClassSize;
    var size := HDR + ClassSize(k);
    ClassEights(k);
    var e :| size == 8 * e;
    assert BatchBytes(k, n) == size * n == n * size;
    Eights(n, e);
  }

  lemma ClassEights(k: nat)
    ensures exists e: nat :: HDR + ClassSize(k) == 8 * e
  {
    assert Pow2(k + 12) == 2 * Pow2(k + 11) == 4 * Pow2(k + 10) == 8 * Pow2(k + 9);
    assert HDR + ClassSize(k) == 8 * (Pow2(k + 9) + 3);
  }

  lemma Eights(n: nat, e: nat)
    ensures RoundUp(n * (8 * e), 8) == n * (8 * e)
  {
    var x := n * e;
    assert n * (8 * e) == 8 * x;
    assert (8 * x + 7) / 8 == x;
  }

  /** Whether a batch for a request of class k fits: 32 chunks if their data alone fits, else one. */
  predicate ClassFits(index: nat, max: nat, size: nat)
    requires index <= max
  {
    size <= max - index && Past(index, size, if 32 * size <= max - index then 32 else 1) < max
  }

  lemma CanCarveIff(index: nat, max: nat, k: nat)
    requires index <= max && k < N_CLASSES
    ensures CanCarve(index, max, k) <==> ClassFits(index, max, ClassSize(k))
  {
    hide RoundUp, ClassSize;
    BehindIs(index, k, FirstBatch(max - index, k));
    assert ClassSize(k) * BATCH == 32 * ClassSize(k);
  }

  /**
   A single chunk fits and yet none is carved exactly when the data of 32 chunks fits and their headers do not:
   the code then asks for 32 and does not try one.
   */
  lemma CarveMisses(index: nat, max: nat, k: nat)
    requires index <= max && k < N_CLASSES && Past(index, ClassSize(k), 1) < max
    ensures !CanCarve(index, max, k) <==> 32 * ClassSize(k) <= max - index && Past(index, ClassSize(k), 32) >= max
  {
    hide RoundUp, ClassSize, CanCarve;
    CanCarveIff(index, max, k);
    RoundUpIs(index, 8);
  }

  // ---- When an allocation succeeds ----

  /**
   Small chunks for the missing bytes fit: as many as the code asks for, at least one, at most what the room holds.
   */
  predicate SmallFit(index: nat, max: nat, missing: nat)
    requires index <= max
  {
    var n := Min(missing / 4096 + 1, (max - index) / 4096);
    n * 4096 >= missing && Past(index, 4096, n) < max
  }

  /**
   A request of class k can be served without a chunk of that class: with enough bytes free, by smaller chunks that
   cover it or a chunk of the next class; with too few, by carving small chunks for the rest.
   */
  ghost predicate ServesElse(stock: seq<nat>, index: nat, max: nat, data: nat, k: nat)
    requires |stock| == N_CLASSES && index <= max && k < N_CLASSES
  {
    var free := ChunkBytes(stock, N_CLASSES);
    if data <= free then data <= ChunkBytes(stock, k) || (k + 1 < N_CLASSES && stock[k + 1] > 0)
    else SmallFit(index, max, data - free)
  }

  /** It can be served: by a chunk of its class, free or carved, or else. */
  ghost predicate Serves(stock: seq<nat>, index: nat, max: nat, data: nat, k: nat)
    requires |stock| == N_CLASSES && index <= max && k < N_CLASSES
  {
    stock[k] > 0 || ClassFits(index, max, ClassSize(k)) || ServesElse(stock, index, max, data, k)
  }

  /** Bytes in the classes that assembling uses, when the request's own class is empty. */
  lemma UsableBytes(stock: seq<nat>, data: nat)
    requires |stock| == N_CLASSES && stock[FreelistForSize(data)] == 0
    ensures ChunkBytes(stock, TopClass(data) + 1) == ChunkBytes(stock, FreelistForSize(data))
  {
    hide FreelistForSize, ClassSize;
    var k := FreelistForSize(data);
    if k == 0 {
      assert ChunkBytes(stock, 1) == ChunkBytes(stock, 0) + stock[0] * ClassSize(0);
    }
  }

  /** A slice with fewer bytes than the request, and no chunk of its class, has chunks of smaller classes only. */
  lemma OnlySmaller(stock: seq<nat>, data: nat)
    requires |stock| == N_CLASSES && stock[FreelistForSize(data)] == 0 && ChunkBytes(stock, N_CLASSES) < data
    ensures ChunkBytes(stock, FreelistForSize(data)) == ChunkBytes(stock, N_CLASSES)
    ensures FreelistForSize(data) + 1 < N_CLASSES ==> stock[FreelistForSize(data) + 1] == 0
  {
    hide FreelistForSize, ClassSize, ChunkBytes;
    var k := FreelistForSize(data);
    FreelistCovers(data);
    ChunkBytesNext(stock, k);
    BytesGap(stock, k + 1, N_CLASSES);
    if k + 1 < N_CLASSES {
      ClassMonotone(k, k + 1);
      BytesHas(stock, k + 1, N_CLASSES);
    }
  }

  lemma ChunkBytesNext(stock: seq<nat>, k: nat)
    requires k < |stock|
    ensures ChunkBytes(stock, k + 1) == ChunkBytes(stock, k) + stock[k] * ClassSize(k)
    ensures stock[k] == 0 ==> ChunkBytes(stock, k + 1) == ChunkBytes(stock, k)
  {
    hide ClassSize;
    Times(stock[k], ClassSize(k));
  }

  /** n more small chunks. */
  lemma {:induction false} MoreSmall(stock: seq<nat>, n: nat, i: nat)
    requires 0 < i <= |stock|
    ensures ChunkBytes(stock[0 := stock[0] + n], i) == ChunkBytes(stock, i) + n * 4096
    decreases i
  {
    var more := stock[0 := stock[0] + n];
    ClassBounds0();
    hide ClassSize;
    if i == 1 {
      assert ChunkBytes(stock, 1) == ChunkBytes(stock, 0) + stock[0] * ClassSize(0);
      assert ChunkBytes(more, 1) == ChunkBytes(more, 0) + more[0] * ClassSize(0);
      Distribute(stock[0], n, 4096);
    } else {
      MoreSmall(stock, n, i - 1);
    }
  }

  lemma ClassBounds0()
    ensures ClassSize(0) == 4096
  {
    Powers();
  }

  /** Too few bytes free: small chunks are carved for the rest, and that is enough or the allocation fails. */
  lemma CarvingServes(stock: seq<nat>, index: nat, max: nat, data: nat)
    requires |stock| == N_CLASSES && index <= max && 0 < data < TWO32 && stock[FreelistForSize(data)] == 0
    requires ChunkBytes(stock, N_CLASSES) < data
    ensures LastStage(stock, index, max, max - index, data).total > 0
            <==> SmallFit(index, max, data - ChunkBytes(stock, N_CLASSES))
  {
    hide FreelistForSize, ClassSize, ChunkBytes, RoundUp, MultiGrant, Behind, SecondBatch, LastClass, Past;
    var free, room := ChunkBytes(stock, N_CLASSES), max - index;
    var missing := data - free;
    BatchNeeded(data, free, room);
    var n := Min(missing / 4096 + 1, room / 4096);
    BehindIs(index, 0, n);
    ClassBounds0();
    var more := stock[0 := stock[0] + n];
    UsableBytes(stock, data);
    OnlySmaller(stock, data);
    MoreSmall(stock, n, TopClass(data) + 1);
    MultiGrantIs(more, data);
    assert FreelistForSize(data) + 1 < N_CLASSES ==> more[FreelistForSize(data) + 1] == 0;
    assert Exhausted(more, data) <==> free + n * 4096 < data;
  }

  /** The batch size when bytes are missing: nothing wraps. */
  lemma BatchNeeded(data: nat, free: nat, room: nat)
    requires free < data < TWO32
    ensures SecondBatch(data, free, room) == Min((data - free) / 4096 + 1, room / 4096)
    ensures Min((data - free) / 4096 + 1, room / 4096) * 4096 >= data - free ==> data <= free + room && room >= 4096
  {
    var d := data - free;
    assert d % TWO64 == d;
    assert d / 4096 < 0x10_0000;
  }

  /**
   Enough bytes free but no way to assemble the request: the room is carved into small chunks once, a second batch
   of them cannot fit any more, and the allocation fails.
   */
  lemma SecondCarveFails(stock: seq<nat>, index: nat, max: nat, data: nat)
    requires |stock| == N_CLASSES && 0 < data < TWO32 && stock[FreelistForSize(data)] == 0
    requires data <= ChunkBytes(stock, N_CLASSES) <= index <= max <= MAX_SEGMENT && Exhausted(stock, data)
    ensures Fallback(stock, index, max, data).total == 0
    ensures var n := (max - index) / 4096;
            Fallback(stock, index, max, data)
            == if n == 0 || Past(index, 4096, n) >= max then Outcome(0, stock, index)
               else Outcome(0, stock[0 := stock[0] + n], Past(index, 4096, n))
  {
    hide FreelistForSize, ClassSize, ChunkBytes, MultiGrant, LastStage, LastClass, Exhausted, Behind, RoundUp, Past;
    var n := (max - index) / 4096;
    MultiGrantIs(stock, data);
    BehindIs(index, 0, n);
    ClassBounds0();
    if n > 0 && Past(index, 4096, n) < max {
      NoSecondBatch(stock, index, max, data);
    }
  }

  /** With the room carved up, a last stage finds none for the batch it asks for. */
  lemma NoSecondBatch(stock: seq<nat>, index: nat, max: nat, data: nat)
    requires |stock| == N_CLASSES && 0 < data < TWO32 && stock[FreelistForSize(data)] == 0
    requires data <= ChunkBytes(stock, N_CLASSES) <= index <= max <= MAX_SEGMENT && Exhausted(stock, data)
    requires 0 < (max - index) / 4096 && Past(index, 4096, (max - index) / 4096) < max
    ensures var at, more := Past(index, 4096, (max - index) / 4096), stock[0 := stock[0] + (max - index) / 4096];
            LastStage(more, at, max, max - index, data) == Outcome(0, more, at)
  {
    hide FreelistForSize, ClassSize, ChunkBytes, MultiGrant, SecondBatch, Exhausted, Behind, RoundUp, Past;
    var n, room := (max - index) / 4096, max - index;
    ExhaustedSlack(stock, data);
    MoreSmall(stock, n, N_CLASSES);
    ClassBounds0();
    var at, more := Past(index, 4096, n), stock[0 := stock[0] + n];
    var m := SecondBatch(data, ChunkBytes(more, N_CLASSES), room);
    PastBelow(index, n, max);
    SecondBatchPositive(data, ChunkBytes(more, N_CLASSES), room);
    BehindIs(at, 0, m);
    NoRoomTwice(index, max, n, m);
  }

  lemma PastBelow(index: nat, n: nat, max: nat)
    requires Past(index, 4096, n) < max
    ensures index + n * 4096 < max
  {
    RoundUpIs(index, 8);
    hide RoundUp;
    assert n * (HDR + 4096) == n * HDR + n * 4096;
  }

  lemma NoRoomTwice(index: nat, max: nat, n: nat, m: nat)
    requires index <= max && n == (max - index) / 4096 && 0 < m
    ensures Past(Past(index, 4096, n), 4096, m) >= max
  {
    RoundUpIs(index, 8);
    RoundUpIs(Past(index, 4096, n), 8);
    hide RoundUp;
    assert m * (HDR + 4096) >= HDR + 4096;
    assert n * (HDR + 4096) >= n * 4096;
  }

  /** Whether the fallback succeeds. */
  lemma FallbackIff(stock: seq<nat>, index: nat, max: nat, data: nat)
    requires |stock| == N_CLASSES && ChunkBytes(stock, N_CLASSES) <= index <= max <= MAX_SEGMENT && 0 < data < TWO32
    requires stock[FreelistForSize(data)] == 0
    ensures Fallback(stock, index, max, data).total > 0 <==> ServesElse(stock, index, max, data, FreelistForSize(data))
  {
    hide FreelistForSize, ClassSize, ChunkBytes, MultiGrant, LastStage, LastClass, Exhausted, SmallFit, Behind, RoundUp;
    if ChunkBytes(stock, N_CLASSES) < data {
      CarvingServes(stock, index, max, data);
    } else {
      MultiGrantIs(stock, data);
      ExhaustedIff(stock, data);
      if Exhausted(stock, data) {
        SecondCarveFails(stock, index, max, data);
      }
    }
  }

  /** Whether an allocation succeeds, for every state of the slice and the segment. */
  lemma AllocateIff(stock: seq<nat>, index: nat, max: nat, data: nat)
    requires |stock| == N_CLASSES && ChunkBytes(stock, N_CLASSES) <= index <= max <= MAX_SEGMENT && 0 < data < TWO32
    ensures Allocate(stock, index, max, data).total > 0 <==> Serves(stock, index, max, data, FreelistForSize(data))
  {
    hide FreelistForSize, ClassSize, ChunkBytes, Fallback, CanCarve, ClassFits, ServesElse, Behind, FirstBatch;
    var k := FreelistForSize(data);
    ClassBounds(k);
    CanCarveIff(index, max, k);
    if stock[k] == 0 && !CanCarve(index, max, k) {
      FallbackIff(stock, index, max, data);
    }
  }

  lemma ExhaustedIff(stock: seq<nat>, data: nat)
    requires |stock| == N_CLASSES && stock[FreelistForSize(data)] == 0
    ensures var k := FreelistForSize(data);
            Exhausted(stock, data) <==> ChunkBytes(stock, k) < data && (k + 1 < N_CLASSES ==> stock[k + 1] == 0)
  {
    hide FreelistForSize, ClassSize, ChunkBytes;
    UsableBytes(stock, data);
  }

  // ---- What an allocation takes and leaves ----

  lemma {:induction false} BytesUpdate(stock: seq<nat>, j: nat, x: nat, n: nat)
    requires j < |stock| && n <= |stock|
    ensures ChunkBytes(stock[j := x], n)
            == ChunkBytes(stock, n) + if j < n then x * ClassSize(j) - stock[j] * ClassSize(j) else 0
    decreases n
  {
    hide ClassSize;
    if n > 0 {
      BytesUpdate(stock, j, x, n - 1);
    }
  }

  /** b has no more chunks of any class than a. */
  ghost predicate AtMost(b: seq<nat>, a: seq<nat>) {
    |b| == |a| && forall i :: 0 <= i < |a| ==> b[i] <= a[i]
  }

  /** Bytes handed out and bytes left are the bytes there were. */
  ghost predicate Splits(stock: seq<nat>, total: nat, left: seq<nat>) {
    AtMost(left, stock) && total + ChunkBytes(left, |left|) == ChunkBytes(stock, |stock|)
  }

  lemma {:induction false} DescendSplits(stock: seq<nat>, j: nat, need: nat)
    requires j < |stock| && Descend(stock, j, need).Grant?
    ensures Splits(stock, Descend(stock, j, need).total, Descend(stock, j, need).stock)
    decreases j
  {
    hide ClassSize, RoundUp, Pieces, Descend, ChunkBytes;
    ClassPositive(j);
    var size, have := ClassSize(j), stock[j] * ClassSize(j);
    if need <= have {
      DescendHere(stock, j, need);
      PiecesCover(need, size, stock[j]);
      var p := Pieces(need, size);
      BytesUpdate(stock, j, stock[j] - p, |stock|);
      Distribute(stock[j] - p, p, size);
    } else {
      DescendOn(stock, j, need);
      if j > 0 {
        DescendSplits(stock[j := 0], j - 1, need - have);
        BytesUpdate(stock, j, 0, |stock|);
      }
    }
  }

  lemma OneLess(stock: seq<nat>, k: nat)
    requires k < |stock| && stock[k] > 0
    ensures Splits(stock, ClassSize(k), stock[k := stock[k] - 1])
  {
    hide ClassSize, ChunkBytes;
    BytesUpdate(stock, k, stock[k] - 1, |stock|);
    Distribute(stock[k] - 1, 1, ClassSize(k));
  }

  lemma MultiSplits(stock: seq<nat>, data: nat)
    requires |stock| == N_CLASSES && MultiGrant(stock, data).Grant?
    ensures Splits(stock, MultiGrant(stock, data).total, MultiGrant(stock, data).stock)
  {
    hide ClassSize, FreelistForSize, Descend, Splits;
    var k, g := FreelistForSize(data), Descend(stock, TopClass(data), data);
    if g.Grant? {
      DescendSplits(stock, TopClass(data), data);
    } else {
      OneLess(stock, k + 1);
    }
  }

  /** The free chunks after carving n more of class k. */
  ghost function WithMore(stock: seq<nat>, k: nat, n: nat): seq<nat>
    requires k < |stock|
  {
    stock[k := stock[k] + n]
  }

  /** How many small chunks are carved: for the missing bytes, within the room; all the room if no bytes are missing. */
  ghost function SmallBatch(stock: seq<nat>, index: nat, max: nat, data: nat): int
    requires |stock| == N_CLASSES && index <= max
  {
    var missing := data - ChunkBytes(stock, N_CLASSES);
    if missing > 0 then Min(missing / 4096 + 1, (max - index) / 4096) else (max - index) / 4096
  }

  /**
   An allocation carves n chunks of one class, of the request's own class or of the smallest, and moves the byte index
   over exactly these; what it hands out and what it leaves are together the chunks there were and those carved.
   */
  lemma AllocateConserves(stock: seq<nat>, index: nat, max: nat, data: nat) returns (k: nat, n: nat)
    requires |stock| == N_CLASSES && ChunkBytes(stock, N_CLASSES) <= index <= max <= MAX_SEGMENT && 0 < data < TWO32
    ensures var o := Allocate(stock, index, max, data);
            && k < N_CLASSES && (k == 0 || k == FreelistForSize(data))
            && Splits(WithMore(stock, k, n), o.total, o.stock)
            && if n == 0 then o.index == index else o.index == Past(index, ClassSize(k), n) < max
    ensures stock[FreelistForSize(data)] > 0 ==> n == 0
    ensures stock[FreelistForSize(data)] == 0 && ClassFits(index, max, ClassSize(FreelistForSize(data))) ==>
              k == FreelistForSize(data) && n == if 32 * ClassSize(k) <= max - index then 32 else 1
    ensures stock[FreelistForSize(data)] == 0 && !ClassFits(index, max, ClassSize(FreelistForSize(data))) ==>
              k == 0 && (n == 0 || n == SmallBatch(stock, index, max, data))
  {
    hide FreelistForSize, ClassSize, ChunkBytes, Fallback, CanCarve, ClassFits, Behind, RoundUp, Splits;
    k := FreelistForSize(data);
    ClassBounds(k);
    CanCarveIff(index, max, k);
    if stock[k] > 0 {
      n := 0;
      OneLess(stock, k);
      assert WithMore(stock, k, 0) == stock;
    } else if CanCarve(index, max, k) {
      n := FirstBatch(max - index, k);
      BehindIs(index, k, n);
      CarveBelow(index, max, k);
      OneLess(WithMore(stock, k, n), k);
      assert WithMore(stock, k, n)[k := n - 1] == stock[k := n - 1];
    } else {
      k := 0;
      n := FallbackConserves(stock, index, max, data);
    }
  }

  lemma CarveBelow(index: nat, max: nat, k: nat)
    requires index <= max && CanCarve(index, max, k)
    ensures Behind(index, k, FirstBatch(max - index, k)) < max
  {
  }

  lemma FallbackConserves(stock: seq<nat>, index: nat, max: nat, data: nat) returns (n: nat)
    requires |stock| == N_CLASSES && ChunkBytes(stock, N_CLASSES) <= index <= max <= MAX_SEGMENT && 0 < data < TWO32
    requires stock[FreelistForSize(data)] == 0
    ensures var o := Fallback(stock, index, max, data);
            && Splits(WithMore(stock, 0, n), o.total, o.stock)
            && if n == 0 then o.index == index else o.index == Past(index, ClassSize(0), n) < max
    ensures n == 0 || n == SmallBatch(stock, index, max, data)
  {
    hide FreelistForSize, ClassSize, ChunkBytes, MultiGrant, SecondBatch, LastClass, Exhausted, Behind, RoundUp, Splits,
         Past;
    ClassBounds0();
    NothingTaken(stock);
    if ChunkBytes(stock, N_CLASSES) < data {
      n := 0;
      var free, room := ChunkBytes(stock, N_CLASSES), max - index;
      var m := SecondBatch(data, free, room);
      if data <= free + room && room >= MIN_SIZE && Behind(index, 0, m) < max {
        n := CarvedOnce(stock, index, max, data, m);
      }
    } else {
      MultiGrantIs(stock, data);
      if MultiGrant(stock, data).Grant? {
        n := 0;
        MultiSplits(stock, data);
        assert WithMore(stock, 0, 0) == stock;
      } else {
        SecondCarveFails(stock, index, max, data);
        n := (max - index) / 4096;
        if n > 0 && Past(index, 4096, n) < max {
          NothingTaken(WithMore(stock, 0, n));
          assert WithMore(WithMore(stock, 0, n), 0, 0) == WithMore(stock, 0, n);
        } else {
          n := 0;
        }
      }
    }
  }

  lemma CarvedOnce(stock: seq<nat>, index: nat, max: nat, data: nat, m: nat) returns (n: nat)
    requires |stock| == N_CLASSES && Behind(index, 0, m) < max && index <= max && data > 0
    requires ChunkBytes(stock, N_CLASSES) < data < TWO32
    requires m == SecondBatch(data, ChunkBytes(stock, N_CLASSES), max - index)
    requires max - index >= MIN_SIZE
    ensures var o := CarveAndGather(stock, index, max, m, data);
            && n == m == SmallBatch(stock, index, max, data) > 0 && Splits(WithMore(stock, 0, n), o.total, o.stock)
            && o.index == Past(index, ClassSize(0), n) < max
  {
    hide ClassSize, ChunkBytes, MultiGrant, SecondBatch, Behind, RoundUp, Splits, Past;
    n := m;
    BatchNeeded(data, ChunkBytes(stock, N_CLASSES), max - index);
    BehindIs(index, 0, m);
    var more := WithMore(stock, 0, n);
    NothingTaken(more);
    assert WithMore(more, 0, 0) == more;
    if MultiGrant(more, data).Grant? {
      MultiSplits(more, data);
    }
  }

  lemma NothingTaken(stock: seq<nat>)
    requires stock != []
    ensures Splits(WithMore(stock, 0, 0), 0, stock)
  {
    assert WithMore(stock, 0, 0) == stock;
  }

  // ---- Chunks carved in vain ----

  /**
   When the bytes free would do but the chunks cannot be assembled, small chunks are carved from all the room, and
   the allocation fails all the same. Asking again then succeeds exactly when the chunks just carved were enough.
   */
  lemma SecondTry(stock: seq<nat>, index: nat, max: nat, data: nat)
    requires |stock| == N_CLASSES && 0 < data < TWO32
    requires data <= ChunkBytes(stock, N_CLASSES) <= index <= max <= MAX_SEGMENT
    requires !Serves(stock, index, max, data, FreelistForSize(data))
    requires 0 < (max - index) / 4096 && Past(index, 4096, (max - index) / 4096) < max
    ensures var o, n := Allocate(stock, index, max, data), (max - index) / 4096;
            && o == Outcome(0, stock[0 := stock[0] + n], Past(index, 4096, n))
            && |o.stock| == N_CLASSES && o.index < max
            && (Allocate(o.stock, o.index, max, data).total > 0
                <==> data <= ChunkBytes(stock, FreelistForSize(data)) + n * 4096)
  {
    hide FreelistForSize, ClassSize, ChunkBytes, Fallback, CanCarve, Behind, FirstBatch, RoundUp, Exhausted;
    var k, n := FreelistForSize(data), (max - index) / 4096;
    CanCarveIff(index, max, k);
    ExhaustedIff(stock, data);
    SecondCarveFails(stock, index, max, data);
    var more, at := stock[0 := stock[0] + n], Past(index, 4096, n);
    RoundUpIs(index, 8);
    assert n * (HDR + 4096) >= n * 4096;
    assert max - at < 4096;
    ClassBounds(k);
    ClassBounds0();
    MoreSmall(stock, n, N_CLASSES);
    if k == 0 {
      FitsThen(index, max, n);
    } else {
      MoreSmall(stock, n, k);
      AllocateIff(more, at, max, data);
    }
  }

  lemma FitsThen(index: nat, max: nat, n: nat)
    requires index <= max && n == (max - index) / 4096 > 0 && Past(index, 4096, n) < max
    ensures ClassFits(index, max, 4096)
  {
    hide RoundUp;
    var m := if 32 * 4096 <= max - index then 32 else 1;
    assert m <= n;
    assert m * (HDR + 4096) <= n * (HDR + 4096);
  }

  /**
   8 kB asked of a slice with one chunk of 4 kB and one of 32 kB, and room for one small chunk: refused, then served.
   */
  lemma RefusedThenServed()
    ensures var stock := [1, 0, 0, 1, 0, 0, 0, 0, 0, 0, 0];
            var o := Allocate(stock, 40960, 45960, 8192);
            && o.total == 0 && |o.stock| == N_CLASSES && o.index <= 45960
            && Allocate(o.stock, o.index, 45960, 8192).total > 0
  {
    hide FreelistForSize, ClassSize, Allocate, RoundUp;
    EightKilobytes();
    var stock: seq<nat> := [1, 0, 0, 1, 0, 0, 0, 0, 0, 0, 0];
    SmallStock(stock);
    SecondTry(stock, 40960, 45960, 8192);
  }

  lemma EightKilobytes()
    ensures ClassSize(0) == 4096 && ClassSize(1) == 8192 && ClassSize(3) == 32768 && FreelistForSize(8192) == 1
    ensures RoundUp(40960, 8) == 40960
  {
    Powers();
    assert ClassSize(1) == 8192 && ClassSize(2) == 16384;
    FreelistCovers(8192);
    if FreelistForSize(8192) > 1 {
      ClassMonotone(1, FreelistForSize(8192) - 1);
    }
  }

  lemma SmallStock(stock: seq<nat>)
    requires stock == [1, 0, 0, 1, 0, 0, 0, 0, 0, 0, 0]
    requires ClassSize(0) == 4096 && ClassSize(3) == 32768
    ensures ChunkBytes(stock, 1) == 4096 && ChunkBytes(stock, N_CLASSES) == 36864
  {
    hide ClassSize;
    assert ChunkBytes(stock, 0) == 0;
    ChunkBytesNext(stock, 0);
    ChunkBytesNext(stock, 1);
    ChunkBytesNext(stock, 2);
    ChunkBytesNext(stock, 3);
    assert ChunkBytes(stock, 4) == 36864;
    ChunkBytesNext(stock, 4);
    ChunkBytesNext(stock, 5);
    ChunkBytesNext(stock, 6);
    ChunkBytesNext(stock, 7);
    ChunkBytesNext(stock, 8);
    ChunkBytesNext(stock, 9);
    ChunkBytesNext(stock, 10);
  }
}
