/**
 What an allocation hands out, as a function of what is there: the number of free chunks of each class in
 the slice, the byte index of the segment and its limit. The code works on lists of chunks, one chunk at a
 time; here a class is used up at once.
 */
module Allocation {
  import opened Positions
  import opened Arithmetic
  import opened SizeClasses
  import opened FreeLists
  import opened Chunks

  /** Segment bytes taken by n chunks of class k. */
  function BatchBytes(k: nat, n: nat): nat {
    (HDR + ClassSize(k)) * n
  }

  /** How many chunks of each class are free. */
  ghost function Stock(free: seq<seq<Sptr>>): seq<nat> {
    seq(|free|, i requires 0 <= i < |free| => |free[i]|)
  }

  lemma {:induction false} StockBytes(free: seq<seq<Sptr>>, n: nat)
    requires n <= |free|
    ensures FreeBytes(free, n) == ChunkBytes(Stock(free), n)
  {
    hide ClassSize;
    if n > 0 {
      StockBytes(free, n - 1);
    }
  }

  lemma StockSize(free: seq<seq<Sptr>>)
    ensures |Stock(free)| == |free|
  {
  }

  lemma StockOf(free: seq<seq<Sptr>>, k: nat)
    requires k < |free|
    ensures |Stock(free)| == |free| && Stock(free)[k] == |free[k]|
  {
  }

  lemma StockUpdate(free: seq<seq<Sptr>>, k: nat, l: seq<Sptr>)
    requires k < |free|
    ensures Stock(free[k := l]) == Stock(free)[k := |l|]
  {
  }

  // ---- Assembling a request from smaller chunks ----

  /** The bytes handed out and the chunks left; or nothing. */
  datatype Grant = Nothing | Grant(total: nat, stock: seq<nat>)

  ghost function Raise(g: Grant, n: nat): Grant {
    if g.Nothing? then g else Grant(g.total + n, g.stock)
  }

  lemma RaiseTwice(g: Grant, m: nat, n: nat)
    ensures Raise(Raise(g, m), n) == Raise(g, m + n)
  {
  }

  lemma RaiseNone(g: Grant)
    ensures Raise(g, 0) == g
  {
  }

  lemma RaiseNothing(n: nat)
    ensures Raise(Nothing, n) == Nothing
  {
  }

  lemma RaiseGrant(total: nat, stock: seq<nat>, n: nat)
    ensures Raise(Grant(total, stock), n) == Grant(total + n, stock)
  {
  }

  /** How many pieces of the given size cover n bytes. */
  function Pieces(n: nat, size: nat): nat
    requires size > 0
  {
    (n + size - 1) / size
  }

  lemma PiecesCover(n: nat, size: nat, have: nat)
    requires size > 0
    ensures Pieces(n, size) * size == RoundUp(n, size) && n <= RoundUp(n, size) < n + size
    ensures n <= have * size ==> Pieces(n, size) <= have
    ensures n > size ==> Pieces(n, size) == Pieces(n - size, size) + 1
    ensures 0 < n <= size ==> Pieces(n, size) == 1
  {
    RoundUpIs(n, size);
    var k := Pieces(n, size);
    if n <= have * size && k > have {
      MulMonotone(have + 1, k, size);
      Distribute(have, 1, size);
    }
    if n > size {
      RoundUpIs(n - size, size);
      SameMultiple(k, Pieces(n - size, size) + 1, size, n);
    } else if n > 0 {
      SameMultiple(k, 1, size, n);
    }
  }

  /** Only one multiple of size lies in [n, n + size). */
  lemma SameMultiple(a: nat, b: nat, size: nat, n: nat)
    requires n <= a * size < n + size && n <= b * size < n + size
    ensures a == b
  {
    if a < b {
      MulMonotone(a + 1, b, size);
      Distribute(a, 1, size);
    } else if b < a {
      MulMonotone(b + 1, a, size);
      Distribute(b, 1, size);
    }
  }

  lemma ClassPositive(j: nat)
    ensures ClassSize(j) > 0
  {
  }

  /** Uses up class j and the classes below it until need bytes are covered. */
  ghost function Descend(stock: seq<nat>, j: nat, need: nat): Grant
    requires j < |stock|
    decreases j
  {
    ClassPositive(j);
    var have := stock[j] * ClassSize(j);
    if need <= have then
      PiecesCover(need, ClassSize(j), stock[j]);
      Grant(RoundUp(need, ClassSize(j)), stock[j := stock[j] - Pieces(need, ClassSize(j))])
    else if j == 0 then Nothing
    else Raise(Descend(stock[j := 0], j - 1, need - have), have)
  }

  lemma DescendHere(stock: seq<nat>, j: nat, need: nat)
    requires j < |stock| && need <= stock[j] * ClassSize(j) && ClassSize(j) > 0
    ensures Pieces(need, ClassSize(j)) <= stock[j]
    ensures Descend(stock, j, need) == Grant(RoundUp(need, ClassSize(j)),
                                             stock[j := stock[j] - Pieces(need, ClassSize(j))])
  {
    hide ClassSize, Pieces, RoundUp;
    PiecesCover(need, ClassSize(j), stock[j]);
  }

  lemma DescendOn(stock: seq<nat>, j: nat, need: nat)
    requires j < |stock| && need > stock[j] * ClassSize(j)
    ensures j == 0 ==> Descend(stock, j, need).Nothing?
    ensures j > 0 ==>
              Descend(stock, j, need) ==
                  Raise(Descend(stock[j := 0], j - 1, need - stock[j] * ClassSize(j)), stock[j] * ClassSize(j))
  {
    hide ClassSize, Pieces, RoundUp;
  }

  /** One chunk of class j at a time comes to the same. */
  lemma DescendTake(stock: seq<nat>, j: nat, need: nat)
    requires j < |stock| && stock[j] > 0 && need > 0
    ensures need <= ClassSize(j) ==> Descend(stock, j, need) == Grant(ClassSize(j), stock[j := stock[j] - 1])
    ensures need > ClassSize(j) ==>
              Descend(stock, j, need) == Raise(Descend(stock[j := stock[j] - 1], j, need - ClassSize(j)), ClassSize(j))
  {
    hide ClassSize, Descend, Pieces, RoundUp;
    ClassPositive(j);
    var size := ClassSize(j);
    PiecesCover(need, size, stock[j]);
    Distribute(stock[j] - 1, 1, size);
    MulMonotone(1, stock[j], size);
    if need <= size {
      DescendHere(stock, j, need);
    } else {
      DescendTakeMore(stock, j, need);
    }
  }

  lemma DescendTakeMore(stock: seq<nat>, j: nat, need: nat)
    requires j < |stock| && stock[j] > 0 && need > ClassSize(j)
    ensures Descend(stock, j, need) == Raise(Descend(stock[j := stock[j] - 1], j, need - ClassSize(j)), ClassSize(j))
  {
    hide ClassSize, Descend, Pieces, RoundUp;
    ClassPositive(j);
    var size, rest := ClassSize(j), stock[j := stock[j] - 1];
    Distribute(stock[j] - 1, 1, size);
    assert rest[j := 0] == stock[j := 0];
    if need <= stock[j] * size {
      DescendHere(stock, j, need);
      DescendHere(rest, j, need - size);
      PiecesCover(need, size, stock[j]);
      PiecesCover(need - size, size, rest[j]);
      Distribute(Pieces(need - size, size), 1, size);
    } else {
      DescendOn(stock, j, need);
      DescendOn(rest, j, need - size);
      if j > 0 {
        RaiseTwice(Descend(stock[j := 0], j - 1, need - stock[j] * size), rest[j] * size, size);
      }
    }
  }

  lemma DescendSkip(stock: seq<nat>, j: nat, need: nat)
    requires j < |stock| && stock[j] == 0 && need > 0
    ensures j == 0 ==> Descend(stock, j, need).Nothing?
    ensures j > 0 ==> Descend(stock, j, need) == Descend(stock, j - 1, need)
  {
    hide ClassSize;
    ClassPositive(j);
    if j > 0 {
      assert stock[j := 0] == stock;
    }
  }

  /** The descent fails exactly when the classes up to j hold too few bytes in all. */
  lemma {:induction false} DescendFails(stock: seq<nat>, j: nat, need: nat)
    requires j < |stock| && need > 0
    ensures Descend(stock, j, need).Nothing? <==> ChunkBytes(stock, j + 1) < need
    decreases j
  {
    hide ClassSize;
    ClassPositive(j);
    var have := stock[j] * ClassSize(j);
    if need > have && j > 0 {
      DescendFails(stock[j := 0], j - 1, need - have);
      BytesBelow(stock, stock[j := 0], j);
    }
  }

  lemma {:induction false} BytesBelow(a: seq<nat>, b: seq<nat>, n: nat)
    requires n <= |a| && n <= |b| && forall i :: 0 <= i < n ==> a[i] == b[i]
    ensures ChunkBytes(a, n) == ChunkBytes(b, n)
  {
    hide ClassSize;
    if n > 0 {
      BytesBelow(a, b, n - 1);
    }
  }

  /** The class at which the descent from j ends: the largest such that the classes from it up to j hold need bytes. */
  ghost function LastClass(stock: seq<nat>, j: nat, need: nat): nat
    requires j < |stock|
    decreases j
  {
    if j == 0 || need <= stock[j] * ClassSize(j) then j else LastClass(stock, j - 1, need - stock[j] * ClassSize(j))
  }

  lemma {:induction false} LastClassIs(stock: seq<nat>, j: nat, need: nat)
    requires j < |stock| && 0 < need <= ChunkBytes(stock, j + 1)
    ensures var i := LastClass(stock, j, need);
            && i <= j && ChunkBytes(stock, j + 1) - ChunkBytes(stock, i) >= need
            && forall k :: i < k <= j ==> ChunkBytes(stock, j + 1) - ChunkBytes(stock, k) < need
    decreases j
  {
    hide ClassSize;
    ClassPositive(j);
    var have := stock[j] * ClassSize(j);
    if j > 0 && need > have {
      LastClassIs(stock, j - 1, need - have);
      var i := LastClass(stock, j - 1, need - have);
      forall k | i < k <= j
        ensures ChunkBytes(stock, j + 1) - ChunkBytes(stock, k) < need
      {
      }
    }
  }

  /** Larger classes are multiples of smaller ones. */
  lemma {:induction false} ClassDivides(i: nat, j: nat) returns (m: nat)
    requires i <= j
    ensures ClassSize(j) == m * ClassSize(i)
    decreases j
  {
    if i == j {
      m := 1;
    } else {
      var n := ClassDivides(i, j - 1);
      m := 2 * n;
    }
  }

  lemma RoundUpShift(x: nat, m: nat, size: nat)
    requires size > 0
    ensures RoundUp(x + m * size, size) == RoundUp(x, size) + m * size
  {
    RoundUpIs(x, size);
    RoundUpIs(x + m * size, size);
    Distribute(Pieces(x, size), m, size);
    SameMultiple(Pieces(x + m * size, size), Pieces(x, size) + m, size, x + m * size);
  }

  /** What the descent hands out: the request rounded up to the size of the class at which it ends. */
  lemma {:induction false} DescendTotal(stock: seq<nat>, j: nat, need: nat)
    requires j < |stock| && 0 < need <= ChunkBytes(stock, j + 1)
    ensures Descend(stock, j, need).Grant?
    ensures Descend(stock, j, need).total ==
              RoundUp(need, (ClassPositive(LastClass(stock, j, need)); ClassSize(LastClass(stock, j, need))))
    decreases j
  {
    hide ClassSize, RoundUp;
    ClassPositive(j);
    var have := stock[j] * ClassSize(j);
    if need > have && j > 0 {
      BytesBelow(stock, stock[j := 0], j);
      DescendTotal(stock[j := 0], j - 1, need - have);
      LastClassSame(stock, stock[j := 0], j - 1, need - have);
      var i := LastClass(stock, j - 1, need - have);
      LastClassIs(stock, j - 1, need - have);
      ClassPositive(i);
      var m := ClassDivides(i, j);
      Product3(stock[j], m, ClassSize(i));
      RoundUpShift(need - have, stock[j] * m, ClassSize(i));
    }
  }

  lemma Product3(a: nat, b: nat, c: nat)
    ensures a * (b * c) == a * b * c
  {
  }

  lemma {:induction false} LastClassSame(a: seq<nat>, b: seq<nat>, j: nat, need: nat)
    requires j < |a| && j < |b| && forall i :: 0 <= i <= j ==> a[i] == b[i]
    ensures LastClass(a, j, need) == LastClass(b, j, need)
    decreases j
  {
    hide ClassSize;
    if j > 0 && need > a[j] * ClassSize(j) {
      LastClassSame(a, b, j - 1, need - a[j] * ClassSize(j));
    }
  }

  /** Chunks one class below the request's own are smaller than the request. */
  lemma GatherTop(dataBytes: nat)
    requires dataBytes > MIN_SIZE
    ensures FreelistForSize(dataBytes) > 0 && ClassSize(FreelistForSize(dataBytes) - 1) < dataBytes
  {
    Powers();
    FreelistCovers(dataBytes);
    ClassBounds(0);
  }

  /** The class at which assembling a request begins. */
  function TopClass(data: nat): (k: nat)
    ensures k < N_CLASSES
  {
    if FreelistForSize(data) > 0 then FreelistForSize(data) - 1 else 0
  }

  /** Chunks of smaller classes or, failing that, one of the next larger class. */
  ghost function MultiGrant(stock: seq<nat>, data: nat): Grant
    requires |stock| == N_CLASSES
  {
    var k, g := FreelistForSize(data), Descend(stock, TopClass(data), data);
    if g.Grant? then g
    else if k + 1 < N_CLASSES && stock[k + 1] > 0 then Grant(ClassSize(k + 1), stock[k + 1 := stock[k + 1] - 1])
    else Nothing
  }

  /** The classes below a request together hold fewer bytes than it asks for, and the next larger class is empty. */
  ghost predicate Exhausted(stock: seq<nat>, data: nat)
    requires |stock| == N_CLASSES
  {
    var k := FreelistForSize(data);
    ChunkBytes(stock, TopClass(data) + 1) < data && (k + 1 < N_CLASSES ==> stock[k + 1] == 0)
  }

  /**
   When assembling fails, and how much it hands out otherwise: no more than twice the request, if it is above 4096
   bytes.
   */
  lemma MultiGrantIs(stock: seq<nat>, data: nat)
    requires |stock| == N_CLASSES && data > 0
    ensures MultiGrant(stock, data).Nothing? <==> Exhausted(stock, data)
    ensures MultiGrant(stock, data).Grant? ==> data <= MultiGrant(stock, data).total < data + MAX_SIZE
    ensures data <= ChunkBytes(stock, TopClass(data) + 1) ==>
              var i := LastClass(stock, TopClass(data), data);
              && i <= TopClass(data) && ClassSize(i) > 0 && MultiGrant(stock, data).total == RoundUp(data, ClassSize(i))
              && (data > MIN_SIZE ==> MultiGrant(stock, data).total < 2 * data)
    ensures MultiGrant(stock, data).Grant? && data > ChunkBytes(stock, TopClass(data) + 1) ==>
              && FreelistForSize(data) + 1 < N_CLASSES
              && MultiGrant(stock, data).total == ClassSize(FreelistForSize(data) + 1)
              && (data > MIN_SIZE ==> MultiGrant(stock, data).total < 4 * data)
  {
    hide ClassSize, FreelistForSize, ChunkBytes, RoundUp, Descend, LastClass;
    var k, top := FreelistForSize(data), TopClass(data);
    DescendFails(stock, top, data);
    ClassBounds(top);
    FreelistCovers(data);
    if data > MIN_SIZE {
      GatherTop(data);
    }
    if data <= ChunkBytes(stock, top + 1) {
      DescendTotal(stock, top, data);
      LastClassIs(stock, top, data);
      var i := LastClass(stock, top, data);
      ClassPositive(i);
      ClassMonotone(i, top);
      RoundUpIs(data, ClassSize(i));
    } else if k + 1 < N_CLASSES {
      ClassBounds(k + 1);
      ClassBounds(k);
    }
  }

  /** The largest segment: its bytes counted in smallest chunks fit 32 bits. */
  const MAX_SEGMENT: int := 0x1000_0000_0000

  const TWO64: int := 0x1_0000_0000_0000_0000

  /** The second batch size: an unsigned difference that may wrap, truncated to 32 bits. */
  function SecondBatch(dataBytes: nat, flBytes: nat, nFree: nat): nat {
    var batch := (dataBytes - flBytes) % TWO64 / MIN_SIZE % TWO32;
    Min((batch + 1) % TWO32, nFree / MIN_SIZE)
  }

  lemma WrappedQuotient(d: nat)
    requires MIN_SIZE < d < MAX_SEGMENT
    ensures var q := (TWO64 - d) / MIN_SIZE; 0x10_0000_0000_0000 - TWO32 <= q <= 0x10_0000_0000_0000 - 2
  {
    assert TWO64 == 0x10_0000_0000_0000 * MIN_SIZE;
  }

  /** The wrapped batch size is never zero unless the list holds at most one chunk more than the request. */
  lemma SecondBatchPositive(dataBytes: nat, flBytes: nat, nFree: nat)
    requires dataBytes < TWO32 && flBytes < MAX_SEGMENT && nFree >= MIN_SIZE
    requires flBytes <= dataBytes || flBytes > dataBytes + MIN_SIZE
    ensures SecondBatch(dataBytes, flBytes, nFree) > 0
  {
    assert nFree / MIN_SIZE > 0;
    if flBytes <= dataBytes {
      var q := (dataBytes - flBytes) / MIN_SIZE;
      assert (dataBytes - flBytes) % TWO64 == dataBytes - flBytes;
      assert 0 <= q < 0x10_0000;
    } else {
      var d := flBytes - dataBytes;
      assert (dataBytes - flBytes) % TWO64 == TWO64 - d;
      WrappedQuotient(d);
      var q := (TWO64 - d) / MIN_SIZE;
      assert 0x10_0000_0000_0000 == 0x10_0000 * TWO32;
      assert q % TWO32 == q - 0xf_ffff * TWO32;
    }
  }

  function FirstBatch(nFree: nat, k: nat): nat {
    if ClassSize(k) * BATCH <= nFree then BATCH else 1
  }

  lemma FirstBatchPositive(nFree: nat, k: nat)
    ensures FirstBatch(nFree, k) > 0
  {
  }

  predicate CanCarve(byteIndex: nat, maxByteIndex: nat, k: nat)
    requires byteIndex <= maxByteIndex
  {
    && ClassSize(k) <= maxByteIndex - byteIndex
    && RoundUp(byteIndex, 8) + RoundUp(BatchBytes(k, FirstBatch(maxByteIndex - byteIndex, k)), 8) < maxByteIndex
  }

  // ---- Giving chunks back ----

  ghost function Sizes(m: Memory, l: seq<Sptr>): seq<nat> {
    seq(|l|, i requires 0 <= i < |l| => if l[i] in m then m[l[i]].length else 0)
  }

  /** The free chunks after chunks of the given sizes have been returned, each to its class. */
  ghost function Restock(stock: seq<nat>, sizes: seq<nat>): (r: seq<nat>)
    requires |stock| == N_CLASSES
    ensures |r| == N_CLASSES
    decreases |sizes|
  {
    if sizes == [] then stock
    else
      var k := FreelistForSize(sizes[0]);
      Restock(stock[k := stock[k] + 1], sizes[1..])
  }

  lemma RestockFirst(stock: seq<nat>, m: Memory, l: seq<Sptr>)
    requires |stock| == N_CLASSES && l != [] && l[0] in m
    ensures var k := FreelistForSize(m[l[0]].length);
            Restock(stock, Sizes(m, l)) == Restock(stock[k := stock[k] + 1], Sizes(m, l[1..]))
  {
    hide FreelistForSize, Restock;
    RestockIs(stock, Sizes(m, l));
    assert Sizes(m, l)[1..] == Sizes(m, l[1..]);
  }

  lemma RestockIs(stock: seq<nat>, sizes: seq<nat>)
    requires |stock| == N_CLASSES && sizes != []
    ensures var k := FreelistForSize(sizes[0]);
            Restock(stock, sizes) == Restock(stock[k := stock[k] + 1], sizes[1..])
  {
    hide FreelistForSize;
  }

  lemma RestockNone(stock: seq<nat>, m: Memory)
    requires |stock| == N_CLASSES
    ensures Restock(stock, Sizes(m, [])) == stock
  {
  }

  lemma SizesSame(m: Memory, q: Memory, l: seq<Sptr>, c: Sptr)
    requires q.Keys == m.Keys && c !in l && forall p :: p in m && p != c ==> q[p] == m[p]
    ensures Sizes(q, l) == Sizes(m, l)
  {
  }

  // ---- A whole allocation ----

  /** What an allocation did: the bytes handed out, 0 if none, the chunks left in the slice and the byte index. */
  datatype Outcome = Outcome(total: nat, stock: seq<nat>, index: nat)

  /** The byte index behind n new chunks of class k. */
  function Behind(index: nat, k: nat, n: nat): nat {
    RoundUp(index, 8) + RoundUp(BatchBytes(k, n), 8)
  }

  /** After carving n small chunks, if they fit: assemble the request. */
  ghost function CarveAndGather(stock: seq<nat>, index: nat, max: nat, n: nat, data: nat): Outcome
    requires |stock| == N_CLASSES
  {
    if Behind(index, 0, n) >= max then Outcome(0, stock, index)
    else
      var more := stock[0 := stock[0] + n];
      var g := MultiGrant(more, data);
      if g.Grant? then Outcome(g.total, g.stock, Behind(index, 0, n)) else Outcome(0, more, Behind(index, 0, n))
  }

  /** The last stage: nFree is the room there was at the start. */
  ghost function LastStage(stock: seq<nat>, index: nat, max: nat, nFree: nat, data: nat): Outcome
    requires |stock| == N_CLASSES
  {
    if data <= ChunkBytes(stock, N_CLASSES) + nFree && nFree >= MIN_SIZE then
      CarveAndGather(stock, index, max, SecondBatch(data, ChunkBytes(stock, N_CLASSES), nFree), data)
    else Outcome(0, stock, index)
  }

  /** A request that its own class cannot serve. */
  ghost function Fallback(stock: seq<nat>, index: nat, max: nat, data: nat): Outcome
    requires |stock| == N_CLASSES && index <= max
  {
    var nFree := max - index;
    var n := nFree / MIN_SIZE;
    if data > ChunkBytes(stock, N_CLASSES) then LastStage(stock, index, max, nFree, data)
    else if MultiGrant(stock, data).Grant? then
      Outcome(MultiGrant(stock, data).total, MultiGrant(stock, data).stock, index)
    else if n == 0 || Behind(index, 0, n) >= max then Outcome(0, stock, index)
    else LastStage(stock[0 := stock[0] + n], Behind(index, 0, n), max, nFree, data)
  }

  /** An allocation of data bytes. */
  ghost function Allocate(stock: seq<nat>, index: nat, max: nat, data: nat): Outcome
    requires |stock| == N_CLASSES && index <= max
  {
    var k := FreelistForSize(data);
    if stock[k] > 0 then Outcome(ClassSize(k), stock[k := stock[k] - 1], index)
    else if CanCarve(index, max, k) then
      var n := FirstBatch(max - index, k);
      Outcome(ClassSize(k), stock[k := n - 1], Behind(index, k, n))
    else Fallback(stock, index, max, data)
  }

  /** The request's own class has a chunk, or room for a batch. */
  ghost predicate Direct(stock: seq<nat>, index: nat, max: nat, data: nat)
    requires |stock| == N_CLASSES && index <= max
  {
    stock[FreelistForSize(data)] > 0 || CanCarve(index, max, FreelistForSize(data))
  }

  /** When a slice holds enough bytes for a request it cannot serve, it holds more than the request. */
  lemma ExhaustedSlack(stock: seq<nat>, data: nat)
    requires |stock| == N_CLASSES && Exhausted(stock, data) && stock[FreelistForSize(data)] == 0
    ensures ChunkBytes(stock, N_CLASSES) != data
  {
    hide ClassSize, FreelistForSize;
    var k := FreelistForSize(data);
    assert ChunkBytes(stock, k + 1) == ChunkBytes(stock, k) + stock[k] * ClassSize(k);
    assert ChunkBytes(stock, k + 1) < data;
    if k + 2 < N_CLASSES {
      assert ChunkBytes(stock, k + 2) == ChunkBytes(stock, k + 1) + stock[k + 1] * ClassSize(k + 1);
      BytesGap(stock, k + 2, N_CLASSES);
      FreelistCovers(data);
      ClassBounds(k + 2);
      ClassBounds(k + 1);
    } else if k + 1 < N_CLASSES {
      assert ChunkBytes(stock, k + 2) == ChunkBytes(stock, k + 1) + stock[k + 1] * ClassSize(k + 1);
    }
  }

  /** From class a on, either nothing is added or at least one chunk of class a. */
  lemma {:induction false} BytesGap(stock: seq<nat>, a: nat, n: nat)
    requires a <= n <= |stock|
    ensures ChunkBytes(stock, n) == ChunkBytes(stock, a) || ChunkBytes(stock, n) >= ChunkBytes(stock, a) + ClassSize(a)
  {
    hide ClassSize;
    if n > a {
      BytesGap(stock, a, n - 1);
      ClassMonotone(a, n - 1);
      Times(stock[n - 1], ClassSize(n - 1));
    }
  }

  lemma {:induction false} BytesOnly(stock: seq<nat>, k: nat, n: nat)
    requires k < |stock| && n <= |stock| && forall i :: 0 <= i < |stock| && i != k ==> stock[i] == 0
    ensures ChunkBytes(stock, n) == if k < n then stock[k] * ClassSize(k) else 0
  {
    hide ClassSize;
    if n > 0 {
      BytesOnly(stock, k, n - 1);
    }
  }

  lemma StagesCover(stock: seq<nat>, index: nat, max: nat, n: nat, data: nat)
    requires |stock| == N_CLASSES && data > 0
    ensures var o := CarveAndGather(stock, index, max, n, data);
            |o.stock| == N_CLASSES && (o.total > 0 ==> data <= o.total < data + MAX_SIZE)
  {
    hide MultiGrant, Behind;
    MultiGrantIs(stock[0 := stock[0] + n], data);
    MultiSize(stock[0 := stock[0] + n], data);
  }

  lemma {:induction false} DescendSize(stock: seq<nat>, j: nat, need: nat)
    requires j < |stock|
    ensures Descend(stock, j, need).Grant? ==> |Descend(stock, j, need).stock| == |stock|
    decreases j
  {
    hide ClassSize, Pieces, RoundUp;
    if need > stock[j] * ClassSize(j) && j > 0 {
      DescendSize(stock[j := 0], j - 1, need - stock[j] * ClassSize(j));
    }
  }

  lemma MultiSize(stock: seq<nat>, data: nat)
    requires |stock| == N_CLASSES
    ensures MultiGrant(stock, data).Grant? ==> |MultiGrant(stock, data).stock| == N_CLASSES
  {
    hide Descend, FreelistForSize, ClassSize;
    DescendSize(stock, TopClass(data), data);
  }

  lemma FallbackCovers(stock: seq<nat>, index: nat, max: nat, data: nat)
    requires |stock| == N_CLASSES && index <= max && data > 0
    ensures var o := Fallback(stock, index, max, data);
            |o.stock| == N_CLASSES && (o.total > 0 ==> data <= o.total < data + MAX_SIZE)
  {
    hide MultiGrant, Behind, CarveAndGather, SecondBatch, ChunkBytes;
    var nFree := max - index;
    var n := nFree / MIN_SIZE;
    MultiGrantIs(stock, data);
    MultiSize(stock, data);
    StagesCover(stock, index, max, SecondBatch(data, ChunkBytes(stock, N_CLASSES), nFree), data);
    var more := stock[0 := stock[0] + n];
    StagesCover(more, Behind(index, 0, n), max, SecondBatch(data, ChunkBytes(more, N_CLASSES), nFree), data);
  }

  /**
   What a successful allocation hands out covers the request exactly when the request is at most 4 MB or its own
   class (then the largest) is unavailable; it exceeds it by less than the largest chunk.
   */
  lemma AllocateCovers(stock: seq<nat>, index: nat, max: nat, data: nat)
    requires |stock| == N_CLASSES && index <= max && data > 0
    ensures var o := Allocate(stock, index, max, data);
            && |o.stock| == N_CLASSES && o.total < data + MAX_SIZE
            && (Direct(stock, index, max, data) ==> o.total == ClassSize(FreelistForSize(data)) > 0)
            && (o.total > 0 ==> (data <= o.total <==> data <= MAX_SIZE || !Direct(stock, index, max, data)))
  {
    hide Fallback, FreelistForSize, CanCarve, ClassSize, FirstBatch;
    FallbackCovers(stock, index, max, data);
    FreelistCovers(data);
    ClassBounds(FreelistForSize(data));
  }

  lemma {:induction false} BytesHas(stock: seq<nat>, i: nat, n: nat)
    requires i <= n <= |stock|
    ensures ChunkBytes(stock, i) <= ChunkBytes(stock, n)
    ensures i < n && stock[i] > 0 ==> ClassSize(i) <= ChunkBytes(stock, n)
    decreases n
  {
    hide ClassSize;
    if i < n {
      BytesHas(stock, i, n - 1);
      Times(stock[n - 1], ClassSize(n - 1));
    }
  }
}
