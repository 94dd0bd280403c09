/**
 Fifo chunks: buffers of the shared segment, addressed by their offset, linked through
 next offsets, and covering consecutive ranges of fifo positions.
 */
module Chunks {
  import opened Positions

  /** Offset of a chunk in the segment; 0 is the null pointer. */
  type Sptr = nat

  const MAX_CHUNK: nat := 0x40_0000

  /** A chunk; the two flags say whether it is tracked in the enqueue and dequeue lookup trees. */
  datatype Chunk = Chunk(start: u32, length: nat, next: Sptr, inEnq: bool, inDeq: bool, data: seq<byte>)

  type Memory = map<Sptr, Chunk>

  /** A chunk of a fifo seen with its unwrapped position range [lo, hi). */
  datatype Link = Link(ptr: Sptr, lo: nat, hi: nat)

  ghost function PtrAt(c: seq<Link>, i: int): Sptr {
    if 0 <= i < |c| then c[i].ptr else 0
  }

  ghost predicate LinkAt(m: Memory, c: seq<Link>, i: int) {
    && 0 <= i < |c|
    && c[i].ptr != 0
    && c[i].ptr in m
    && 0 < c[i].hi - c[i].lo <= MAX_CHUNK
    && m[c[i].ptr].start == Wrap(c[i].lo)
    && m[c[i].ptr].length == c[i].hi - c[i].lo
    && |m[c[i].ptr].data| == m[c[i].ptr].length
    && m[c[i].ptr].next == PtrAt(c, i + 1)
  }

  ghost predicate DistinctPtrs(c: seq<Link>) {
    forall i, j :: 0 <= i < j < |c| ==> c[i].ptr != c[j].ptr
  }

  /** Consecutive ranges without gap or overlap. */
  ghost predicate Contiguous(c: seq<Link>) {
    && (forall i :: 0 <= i < |c| ==> c[i].lo < c[i].hi)
    && (forall i, j :: 0 <= i < j < |c| ==> c[i].hi <= c[j].lo)
    && (forall i :: 0 < i < |c| ==> c[i - 1].hi == c[i].lo)
  }

  /** The linked list that starts at c[0] is exactly c. */
  ghost predicate Chained(m: Memory, c: seq<Link>) {
    && c != []
    && (forall i :: 0 <= i < |c| ==> LinkAt(m, c, i))
    && DistinctPtrs(c)
    && Contiguous(c)
  }

  ghost function End(c: seq<Link>): nat
    requires c != []
  {
    c[|c| - 1].hi
  }

  ghost function Ptrs(c: seq<Link>): set<Sptr> {
    set i | 0 <= i < |c| :: c[i].ptr
  }

  lemma InPtrs(c: seq<Link>)
    ensures forall i :: 0 <= i < |c| ==> c[i].ptr in Ptrs(c)
  {
  }

  lemma PtrsHas(c: seq<Link>)
    ensures forall p :: p in Ptrs(c) ==> exists i :: 0 <= i < |c| && c[i].ptr == p
  {
  }

  lemma PtrsUnion(c: seq<Link>, d: seq<Link>)
    ensures Ptrs(c + d) == Ptrs(c) + Ptrs(d)
  {
    var r := c + d;
    forall x
      ensures x in Ptrs(r) <==> x in Ptrs(c) || x in Ptrs(d)
    {
      if x in Ptrs(c) {
        var i :| 0 <= i < |c| && c[i].ptr == x;
        assert r[i].ptr == x;
      }
      if x in Ptrs(d) {
        var i :| 0 <= i < |d| && d[i].ptr == x;
        assert r[|c| + i].ptr == x;
      }
    }
  }

  // ---- Null-terminated lists of chunks ----

  ghost predicate NoDup(l: seq<Sptr>) {
    forall i, j :: 0 <= i < j < |l| ==> l[i] != l[j]
  }

  ghost predicate NextAt(m: Memory, l: seq<Sptr>, i: int) {
    && 0 <= i < |l|
    && l[i] != 0
    && l[i] in m
    && m[l[i]].next == if i + 1 < |l| then l[i + 1] else 0
  }

  /** Following next from c visits exactly the chunks of l and then reaches null. */
  ghost predicate Listed(m: Memory, l: seq<Sptr>, c: Sptr) {
    && c == (if l == [] then 0 else l[0])
    && NoDup(l)
    && (forall i :: 0 <= i < |l| ==> NextAt(m, l, i))
  }

  ghost function Total(m: Memory, l: seq<Sptr>): nat {
    if l == [] then 0 else (if l[0] in m then m[l[0]].length else 0) + Total(m, l[1..])
  }

  lemma {:induction false} TotalSame(m: Memory, q: Memory, l: seq<Sptr>)
    requires forall i :: 0 <= i < |l| ==> l[i] in m && l[i] in q && m[l[i]].length == q[l[i]].length
    ensures Total(m, l) == Total(q, l)
  {
    if l != [] {
      TotalSame(m, q, l[1..]);
    }
  }

  lemma ListedTail(m: Memory, l: seq<Sptr>, c: Sptr)
    requires Listed(m, l, c) && c != 0
    ensures l != [] && l[0] == c && c in m && c !in l[1..]
    ensures Listed(m, l[1..], m[c].next)
    ensures Total(m, l) == m[c].length + Total(m, l[1..])
  {
    assert NextAt(m, l, 0);
    forall i | 0 <= i < |l| - 1
      ensures NextAt(m, l[1..], i)
    {
      assert NextAt(m, l, i + 1);
    }
  }

  lemma ListedNone(m: Memory)
    ensures Listed(m, [], 0) && Total(m, []) == 0
  {
  }

  lemma ListedDistinct(m: Memory, l: seq<Sptr>, c: Sptr)
    requires Listed(m, l, c)
    ensures NoDup(l)
  {
  }

  lemma ListedNull(m: Memory, l: seq<Sptr>, c: Sptr)
    requires Listed(m, l, c)
    ensures c == 0 <==> l == []
    ensures l == [] ==> Total(m, l) == 0
  {
    assert l != [] ==> NextAt(m, l, 0);
  }

  lemma ListedSame(m: Memory, q: Memory, l: seq<Sptr>, c: Sptr)
    requires Listed(m, l, c)
    requires forall p :: p in l && p in m ==> p in q && q[p] == m[p]
    ensures Listed(q, l, c) && Total(q, l) == Total(m, l)
  {
    forall i | 0 <= i < |l|
      ensures NextAt(q, l, i) && l[i] in m
    {
      assert NextAt(m, l, i);
    }
    TotalSame(m, q, l);
  }

  /** Linking a chunk in front of a list. */
  lemma ListedCons(m: Memory, l: seq<Sptr>, first: Sptr, c: Sptr)
    requires Listed(m, l, first) && c != 0 && c in m && c !in l
    ensures var q := m[c := m[c].(next := first)];
            Listed(q, [c] + l, c) && Total(q, [c] + l) == m[c].length + Total(m, l)
  {
    var q, r := m[c := m[c].(next := first)], [c] + l;
    ListedSame(m, q, l, first);
    forall i | 0 <= i < |r|
      ensures NextAt(q, r, i)
    {
      assert i > 0 ==> NextAt(m, l, i - 1);
    }
    assert r[1..] == l;
  }

  // ---- Which chunk holds a position ----

  /** Index of the chunk that holds p, or the length of the list when p is its end. */
  ghost function Find(c: seq<Link>, p: int): nat {
    if c == [] || p < c[0].hi then 0 else 1 + Find(c[1..], p)
  }

  lemma {:induction false} FindLocates(c: seq<Link>, p: int)
    requires Contiguous(c) && c != [] && c[0].lo <= p <= End(c)
    ensures Find(c, p) <= |c|
    ensures Find(c, p) == |c| <==> p == End(c)
    ensures Find(c, p) < |c| ==> c[Find(c, p)].lo <= p < c[Find(c, p)].hi
    decreases |c|
  {
    if p >= c[0].hi && |c| > 1 {
      FindLocates(c[1..], p);
    }
  }

  lemma FindIs(c: seq<Link>, p: int, i: nat)
    requires Contiguous(c) && i < |c| && c[i].lo <= p < c[i].hi
    ensures Find(c, p) == i
  {
    assert c[0].lo <= c[i].lo && c[i].hi <= End(c);
    FindLocates(c, p);
  }

  lemma FindEnd(c: seq<Link>)
    requires Contiguous(c) && c != []
    ensures Find(c, End(c)) == |c|
  {
    assert c[0].lo <= End(c);
    FindLocates(c, End(c));
  }

  /** The pointer of the chunk that holds p; null when p is the end of the list. */
  ghost function Holder(c: seq<Link>, p: int): Sptr {
    PtrAt(c, Find(c, p))
  }

  predicate IncludesPos(c: Chunk, pos: u32) {
    PosGeq(pos, c.start) && PosLt(pos, Plus(c.start, Wrap(c.length)))
  }

  function ChunkEnd(c: Chunk): u32 {
    Plus(c.start, Wrap(c.length))
  }

  /** What the code reads from chunk number i, and how it compares with position p. */
  lemma ChunkFacts(m: Memory, c: seq<Link>, i: nat, p: int)
    requires Chained(m, c) && i < |c|
    requires -TWO31 < c[i].lo - p && c[i].hi - p < TWO31
    ensures c[i].ptr != 0 && c[i].ptr in m
    ensures var k := m[c[i].ptr];
            && k.next == PtrAt(c, i + 1)
            && k.start == Wrap(c[i].lo) && k.length == c[i].hi - c[i].lo == |k.data|
            && ChunkEnd(k) == Wrap(c[i].hi)
            && (IncludesPos(k, Wrap(p)) <==> c[i].lo <= p < c[i].hi)
            && (PosGt(Wrap(p), ChunkEnd(k)) <==> p > c[i].hi)
            && (PosGeq(Wrap(p), ChunkEnd(k)) <==> p >= c[i].hi)
            && (c[i].lo <= p ==> Minus(Wrap(p), k.start) == p - c[i].lo)
            && (p <= c[i].hi ==> Minus(ChunkEnd(k), Wrap(p)) == c[i].hi - p)
  {
    hide Wrap, Plus, Minus, PosLt, PosGt, PosGeq;
    assert LinkAt(m, c, i);
    var lo, hi := c[i].lo, c[i].hi;
    WrapSmall(hi - lo);
    WrapPlus(lo, hi - lo);
    Order(p, lo);
    Order(p, hi);
    if lo <= p {
      Distance(p, lo);
    }
    if p <= hi {
      Distance(hi, p);
    }
  }

  // ---- The bytes stored in a list ----

  ghost predicate CellsAt(m: Memory, c: seq<Link>, cells: seq<byte>, i: int) {
    && 0 <= i < |c| && c[i].ptr in m && c[i].lo <= c[i].hi <= |cells|
    && m[c[i].ptr].data == cells[c[i].lo..c[i].hi]
  }

  /** The chunks of c hold the byte cells[p] at every position p they cover. */
  ghost predicate Holds(m: Memory, c: seq<Link>, cells: seq<byte>) {
    && c != [] && |cells| == End(c)
    && (forall i :: 0 <= i < |c| ==> CellsAt(m, c, cells, i))
  }

  function Overwrite(s: seq<byte>, a: nat, x: seq<byte>): seq<byte>
    requires a + |x| <= |s|
  {
    s[..a] + x + s[a + |x|..]
  }

  lemma OverwriteSize(s: seq<byte>, a: nat, x: seq<byte>)
    requires a + |x| <= |s|
    ensures |Overwrite(s, a, x)| == |s|
  {
  }

  lemma OverwriteTwice(s: seq<byte>, a: nat, x: seq<byte>, y: seq<byte>)
    requires a + |x| + |y| <= |s|
    ensures Overwrite(Overwrite(s, a, x), a + |x|, y) == Overwrite(s, a, x + y)
  {
  }

  lemma OverwriteSlice(s: seq<byte>, a: nat, x: seq<byte>, lo: nat, hi: nat)
    requires a + |x| <= |s| && lo <= hi <= |s|
    ensures hi <= a || a + |x| <= lo ==> Overwrite(s, a, x)[lo..hi] == s[lo..hi]
    ensures lo <= a && a + |x| <= hi ==> Overwrite(s, a, x)[lo..hi] == Overwrite(s[lo..hi], a - lo, x)
  {
  }

  /** Overwriting bytes inside chunk i overwrites exactly those positions. */
  lemma WriteCells(m: Memory, c: seq<Link>, cells: seq<byte>, i: nat, a: nat, x: seq<byte>, q: Memory)
    requires Chained(m, c) && Holds(m, c, cells) && i < |c|
    requires c[i].lo <= a && a + |x| <= c[i].hi <= |cells|
    requires c[i].ptr in m && |m[c[i].ptr].data| == c[i].hi - c[i].lo
    requires q == m[c[i].ptr := m[c[i].ptr].(data := Overwrite(m[c[i].ptr].data, a - c[i].lo, x))]
    ensures Chained(q, c) && Holds(q, c, Overwrite(cells, a, x))
  {
    forall j | 0 <= j < |c|
      ensures LinkAt(q, c, j)
    {
      assert LinkAt(m, c, j);
    }
    forall j | 0 <= j < |c|
      ensures CellsAt(q, c, Overwrite(cells, a, x), j)
    {
      assert LinkAt(m, c, j);
      assert CellsAt(m, c, cells, j);
      assert c[j].hi <= End(c);
      OverwriteSlice(cells, a, x, c[j].lo, c[j].hi);
      if j != i {
        assert c[j].ptr != c[i].ptr;
        assert j < i ==> c[j].hi <= c[i].lo;
        assert i < j ==> c[i].hi <= c[j].lo;
      }
    }
  }

  // ---- Growing and shrinking a list ----

  /** The ranges a null-terminated list of chunks takes when it is placed from position lo on. */
  ghost function LinksFrom(m: Memory, l: seq<Sptr>, lo: nat): seq<Link>
    decreases |l|
  {
    if l == [] then []
    else
      var n := if l[0] in m then m[l[0]].length else 0;
      [Link(l[0], lo, lo + n)] + LinksFrom(m, l[1..], lo + n)
  }

  lemma LinksHead(m: Memory, l: seq<Sptr>, lo: nat)
    requires l != [] && l[0] in m
    ensures LinksFrom(m, l, lo) == [Link(l[0], lo, lo + m[l[0]].length)] + LinksFrom(m, l[1..], lo + m[l[0]].length)
    ensures Total(m, l) == m[l[0]].length + Total(m, l[1..])
  {
  }

  lemma ConsContiguous(x: Link, e: seq<Link>)
    requires Contiguous(e) && x.lo < x.hi && (e != [] ==> e[0].lo == x.hi)
    ensures Contiguous([x] + e)
  {
    var d := [x] + e;
    forall i, j | 0 <= i < j < |d|
      ensures d[i].hi <= d[j].lo
    {
      assert d[j] == e[j - 1];
      assert j > 1 ==> e[0].hi <= e[j - 1].lo;
      assert i > 0 ==> d[i] == e[i - 1];
    }
    forall i | 0 < i < |d|
      ensures d[i - 1].hi == d[i].lo
    {
      assert d[i] == e[i - 1];
      assert i > 1 ==> d[i - 1] == e[i - 2] && e[i - 1 - 1].hi == e[i - 1].lo;
    }
  }

  ghost predicate LinkIs(m: Memory, l: seq<Sptr>, d: seq<Link>, lo: nat, i: int) {
    0 <= i < |l| && i < |d| && d[i].ptr == l[i] && l[i] in m && d[i].lo >= lo && d[i].hi - d[i].lo == m[l[i]].length
  }

  lemma {:induction false} LinksEach(m: Memory, l: seq<Sptr>, lo: nat)
    requires forall i :: 0 <= i < |l| ==> l[i] in m && m[l[i]].length > 0
    ensures var d := LinksFrom(m, l, lo); |d| == |l| && forall i :: 0 <= i < |l| ==> LinkIs(m, l, d, lo, i)
    decreases |l|
  {
    if l == [] {
      assert LinksFrom(m, l, lo) == [];
    } else {
      hide LinksFrom;
      var n := m[l[0]].length;
      LinksHead(m, l, lo);
      LinksEach(m, l[1..], lo + n);
      var d, e := LinksFrom(m, l, lo), LinksFrom(m, l[1..], lo + n);
      forall i | 0 <= i < |l|
        ensures LinkIs(m, l, d, lo, i)
      {
        if i > 0 {
          assert LinkIs(m, l[1..], e, lo + n, i - 1);
          assert d[i] == e[i - 1];
        }
      }
    }
  }

  lemma {:induction false} LinksContiguous(m: Memory, l: seq<Sptr>, lo: nat)
    requires forall i :: 0 <= i < |l| ==> l[i] in m && m[l[i]].length > 0
    ensures var d := LinksFrom(m, l, lo);
            && Contiguous(d) && (l == [] <==> d == [])
            && (l != [] ==> d[0].lo == lo && End(d) == lo + Total(m, l))
    decreases |l|
  {
    if l == [] {
      assert LinksFrom(m, l, lo) == [];
    } else {
      hide LinksFrom, Contiguous, Total;
      var n := m[l[0]].length;
      LinksHead(m, l, lo);
      LinksContiguous(m, l[1..], lo + n);
      var e := LinksFrom(m, l[1..], lo + n);
      ConsContiguous(Link(l[0], lo, lo + n), e);
      if e == [] {
        TotalNone(m, l[1..]);
      }
    }
  }

  lemma TotalNone(m: Memory, l: seq<Sptr>)
    requires l == []
    ensures Total(m, l) == 0
  {
  }

  lemma LinksFacts(m: Memory, l: seq<Sptr>, lo: nat)
    requires forall i :: 0 <= i < |l| ==> l[i] in m && m[l[i]].length > 0
    ensures var d := LinksFrom(m, l, lo);
            && |d| == |l| && Contiguous(d)
            && (forall i :: 0 <= i < |l| ==> d[i].ptr == l[i] && d[i].lo >= lo && d[i].hi - d[i].lo == m[l[i]].length)
            && (l != [] ==> d[0].lo == lo && End(d) == lo + Total(m, l))
  {
    hide LinksFrom, Contiguous, Total;
    LinksEach(m, l, lo);
    LinksContiguous(m, l, lo);
    var d := LinksFrom(m, l, lo);
    forall i | 0 <= i < |l|
      ensures d[i].ptr == l[i] && d[i].lo >= lo && d[i].hi - d[i].lo == m[l[i]].length
    {
      assert LinkIs(m, l, d, lo, i);
    }
  }

  ghost function Bytes(m: Memory, d: seq<Link>): seq<byte> {
    if d == [] then [] else (if d[0].ptr in m then m[d[0].ptr].data else []) + Bytes(m, d[1..])
  }

  ghost predicate DataAt(m: Memory, d: seq<Link>, j: int) {
    0 <= j < |d| && d[j].ptr in m && |m[d[j].ptr].data| == d[j].hi - d[j].lo
  }

  lemma BytesHead(m: Memory, d: seq<Link>)
    requires d != [] && d[0].ptr in m
    ensures Bytes(m, d) == m[d[0].ptr].data + Bytes(m, d[1..]) && Bytes(m, []) == []
  {
  }

  lemma TailContiguous(d: seq<Link>)
    requires Contiguous(d) && |d| > 1
    ensures Contiguous(d[1..]) && d[1..][0].lo == d[0].hi && End(d[1..]) == End(d)
  {
    DropContiguous(d, 1);
    assert d[1 - 1].hi == d[1].lo;
  }

  lemma {:induction false} BytesSize(m: Memory, d: seq<Link>)
    requires Contiguous(d) && d != [] && forall j :: 0 <= j < |d| ==> DataAt(m, d, j)
    ensures |Bytes(m, d)| == End(d) - d[0].lo
    decreases |d|
  {
    hide Bytes, Contiguous;
    assert DataAt(m, d, 0);
    BytesHead(m, d);
    if |d| > 1 {
      TailContiguous(d);
      TailData(m, d);
      BytesSize(m, d[1..]);
    } else {
      assert d[1..] == [];
    }
  }

  lemma TailData(m: Memory, d: seq<Link>)
    requires d != [] && forall j :: 0 <= j < |d| ==> DataAt(m, d, j)
    ensures forall j :: 0 <= j < |d| - 1 ==> DataAt(m, d[1..], j)
  {
    forall j | 0 <= j < |d| - 1
      ensures DataAt(m, d[1..], j)
    {
      assert DataAt(m, d, j + 1);
    }
  }

  lemma SliceBehind(x: seq<byte>, y: seq<byte>, a: nat, b: nat)
    requires a <= b <= |y|
    ensures (x + y)[|x| + a..|x| + b] == y[a..b]
  {
  }

  lemma Bounds(d: seq<Link>, i: nat)
    requires Contiguous(d) && i < |d|
    ensures d[0].lo <= d[i].lo < d[i].hi <= End(d)
    ensures i > 0 ==> d[0].hi <= d[i].lo
  {
  }

  /** Concatenated chunk data fills the range of the list, chunk by chunk. */
  lemma {:induction false} BytesFacts(m: Memory, d: seq<Link>, i: nat)
    requires Contiguous(d) && i < |d| && forall j :: 0 <= j < |d| ==> DataAt(m, d, j)
    ensures |Bytes(m, d)| == End(d) - d[0].lo
    ensures d[0].lo <= d[i].lo && d[i].hi <= End(d) && d[i].ptr in m
    ensures Bytes(m, d)[d[i].lo - d[0].lo..d[i].hi - d[0].lo] == m[d[i].ptr].data
    decreases |d|
  {
    hide Bytes, Contiguous;
    assert DataAt(m, d, 0) && DataAt(m, d, i);
    Bounds(d, i);
    BytesSize(m, d);
    BytesHead(m, d);
    if i > 0 {
      var e := d[1..];
      TailContiguous(d);
      TailData(m, d);
      BytesFacts(m, e, i - 1);
      assert e[i - 1] == d[i];
      SliceBehind(m[d[0].ptr].data, Bytes(m, e), d[i].lo - e[0].lo, d[i].hi - e[0].lo);
    }
  }

  lemma ConcatContiguous(c: seq<Link>, d: seq<Link>)
    requires Contiguous(c) && Contiguous(d) && c != [] && d != [] && End(c) == d[0].lo
    ensures Contiguous(c + d) && End(c + d) == End(d)
  {
    var r := c + d;
    forall i, j | 0 <= i < |c| && 0 <= j < |d|
      ensures c[i].hi <= d[j].lo
    {
      assert c[i].hi <= End(c) && d[0].lo <= d[j].lo;
    }
    forall i | 0 < i < |r|
      ensures r[i - 1].hi == r[i].lo
    {
    }
  }

  /** Linking a new list behind the last chunk appends it. */
  lemma JoinChain(m: Memory, c: seq<Link>, d: seq<Link>, q: Memory)
    requires Chained(m, c) && Chained(q, d) && End(c) == d[0].lo
    requires forall i, j :: 0 <= i < |c| && 0 <= j < |d| ==> c[i].ptr != d[j].ptr
    requires forall i :: 0 <= i < |c| ==> c[i].ptr in m && c[i].ptr in q
    requires forall i :: 0 <= i < |c| - 1 ==> q[c[i].ptr] == m[c[i].ptr]
    requires q[c[|c| - 1].ptr] == m[c[|c| - 1].ptr].(next := d[0].ptr)
    ensures Chained(q, c + d)
  {
    var r := c + d;
    ConcatContiguous(c, d);
    forall i | 0 <= i < |r|
      ensures LinkAt(q, r, i)
    {
      if i < |c| {
        assert LinkAt(m, c, i);
      } else {
        assert LinkAt(q, d, i - |c|);
      }
    }
  }

  lemma JoinCellsOld(m: Memory, c: seq<Link>, d: seq<Link>, q: Memory, cells: seq<byte>, more: seq<byte>, i: nat)
    requires Holds(m, c, cells) && i < |c| && c[i].hi <= End(c)
    requires c[i].ptr in m && c[i].ptr in q && q[c[i].ptr].data == m[c[i].ptr].data
    ensures CellsAt(q, c + d, cells + more, i)
  {
    assert CellsAt(m, c, cells, i);
    assert (cells + more)[c[i].lo..c[i].hi] == cells[c[i].lo..c[i].hi];
  }

  lemma JoinCellsNew(q: Memory, c: seq<Link>, d: seq<Link>, cells: seq<byte>, j: nat)
    requires Contiguous(d) && j < |d| && |cells| == d[0].lo && forall i :: 0 <= i < |d| ==> DataAt(q, d, i)
    ensures CellsAt(q, c + d, cells + Bytes(q, d), |c| + j)
  {
    hide Bytes, Contiguous;
    BytesFacts(q, d, j);
    Bounds(d, j);
    assert (c + d)[|c| + j] == d[j];
    SliceBehind(cells, Bytes(q, d), d[j].lo - d[0].lo, d[j].hi - d[0].lo);
  }

  lemma JoinHolds(m: Memory, c: seq<Link>, d: seq<Link>, q: Memory, cells: seq<byte>)
    requires Chained(m, c) && Holds(m, c, cells) && Chained(q, d) && End(c) == d[0].lo
    requires forall i :: 0 <= i < |c| ==> c[i].ptr in m && c[i].ptr in q && q[c[i].ptr].data == m[c[i].ptr].data
    ensures Holds(q, c + d, cells + Bytes(q, d))
  {
    hide Bytes, Contiguous, CellsAt;
    var r, s := c + d, cells + Bytes(q, d);
    ConcatContiguous(c, d);
    forall j | 0 <= j < |d|
      ensures DataAt(q, d, j)
    {
      assert LinkAt(q, d, j);
    }
    BytesSize(q, d);
    forall i | 0 <= i < |r|
      ensures CellsAt(q, r, s, i)
    {
      if i < |c| {
        Bounds(c, i);
        JoinCellsOld(m, c, d, q, cells, Bytes(q, d), i);
      } else {
        JoinCellsNew(q, c, d, cells, i - |c|);
      }
    }
  }

  /** Dropping chunks from the front leaves a list over the remaining range. */
  lemma DropChain(m: Memory, c: seq<Link>, k: nat, q: Memory, cells: seq<byte>)
    requires Chained(m, c) && Holds(m, c, cells) && k < |c|
    requires forall i :: k <= i < |c| ==> c[i].ptr in m && c[i].ptr in q && q[c[i].ptr] == m[c[i].ptr]
    ensures Chained(q, c[k..]) && Holds(q, c[k..], cells) && End(c[k..]) == End(c)
  {
    var r := c[k..];
    forall i | 0 <= i < |r|
      ensures LinkAt(q, r, i) && CellsAt(q, r, cells, i)
    {
      assert LinkAt(m, c, k + i);
      assert CellsAt(m, c, cells, k + i);
    }
  }

  ghost predicate SameButFlags(a: Chunk, b: Chunk) {
    b == a.(inEnq := b.inEnq, inDeq := b.inDeq)
  }

  /** Changing only flags of chunks keeps the list and its bytes. */
  lemma SameChain(m: Memory, c: seq<Link>, q: Memory, cells: seq<byte>)
    requires Chained(m, c) && Holds(m, c, cells)
    requires forall i :: 0 <= i < |c| ==> c[i].ptr in m && c[i].ptr in q && SameButFlags(m[c[i].ptr], q[c[i].ptr])
    ensures Chained(q, c) && Holds(q, c, cells)
  {
    forall i | 0 <= i < |c|
      ensures LinkAt(q, c, i) && CellsAt(q, c, cells, i)
    {
      assert LinkAt(m, c, i);
      assert CellsAt(m, c, cells, i);
    }
  }

  /** Where positions are found is stable under appending and shifts under dropping. */
  lemma FindJoin(c: seq<Link>, d: seq<Link>, p: int)
    requires Contiguous(c) && Contiguous(c + d) && c != [] && d != [] && c[0].lo <= p <= End(c)
    ensures Find(c + d, p) == Find(c, p)
  {
    FindLocates(c, p);
    var r, i := c + d, Find(c, p);
    if i < |c| {
      assert r[i] == c[i];
      FindIs(r, p, i);
    } else {
      assert r[|c| - 1].hi == r[|c|].lo;
      FindIs(r, p, |c|);
    }
  }

  lemma DropContiguous(c: seq<Link>, k: nat)
    requires Contiguous(c) && k < |c|
    ensures Contiguous(c[k..]) && End(c[k..]) == End(c)
  {
    var r := c[k..];
    forall i | 0 < i < |r|
      ensures r[i - 1].hi == r[i].lo
    {
      assert c[k + i - 1].hi == c[k + i].lo;
    }
  }

  lemma FindDrop(c: seq<Link>, k: nat, p: int)
    requires Contiguous(c) && k < |c| && c[k].lo <= p <= End(c)
    ensures Contiguous(c[k..]) && Find(c, p) >= k && Find(c[k..], p) == Find(c, p) - k
  {
    DropContiguous(c, k);
    FindLocates(c[k..], p);
    var j := Find(c[k..], p);
    if j < |c| - k {
      assert c[k..][j] == c[k + j];
      FindIs(c, p, k + j);
    } else {
      FindEnd(c);
    }
  }
}
