/**
 Chunk size classes: powers of two from 4 kB to 4 MB, one free list per class.
 */
module SizeClasses {

  const N_CLASSES: nat := 11
  const MIN_SIZE: nat := 4096
  const MAX_SIZE: nat := 0x40_0000

  function Pow2(k: nat): (r: nat)
    ensures r >= 1
  {
    if k == 0 then 1 else 2 * Pow2(k - 1)
  }

  /** Base-two logarithm rounded up. */
  function MaxLog2(x: nat): nat {
    if x <= 1 then 0 else 1 + MaxLog2((x + 1) / 2)
  }

  function FreelistForSize(size: nat): (k: nat)
    ensures k < N_CLASSES
  {
    if size < MIN_SIZE then 0
    else
      MaxLog2AtLeast12(size);
      if MaxLog2(size) - 12 <= N_CLASSES - 1 then MaxLog2(size) - 12 else N_CLASSES - 1
  }

  function ClassSize(k: nat): nat {
    Pow2(k + 12)
  }

  /** MaxLog2(x) is the least exponent whose power reaches x. */
  lemma {:induction false} MaxLog2Least(x: nat)
    requires x >= 1
    ensures x <= Pow2(MaxLog2(x))
    ensures x > 1 ==> Pow2(MaxLog2(x) - 1) < x
  {
    if x > 1 {
      MaxLog2Least((x + 1) / 2);
    }
  }

  lemma {:induction false} Pow2Monotone(i: nat, j: nat)
    requires i <= j
    ensures Pow2(i) <= Pow2(j)
    ensures i < j ==> 2 * Pow2(i) <= Pow2(j)
    decreases j
  {
    if i < j {
      Pow2Monotone(i, j - 1);
    }
  }

  lemma {:induction false} MaxLog2Pow2(k: nat)
    ensures MaxLog2(Pow2(k)) == k
  {
    if k > 0 {
      MaxLog2Pow2(k - 1);
      assert (2 * Pow2(k - 1) + 1) / 2 == Pow2(k - 1);
    }
  }

  lemma Powers()
    ensures Pow2(11) == 2048 && Pow2(12) == 4096 && Pow2(22) == MAX_SIZE
  {
    assert Pow2(4) == 16;
    assert Pow2(8) == 256;
    assert Pow2(11) == 2048;
    assert Pow2(14) == 16384;
    assert Pow2(18) == 0x4_0000;
  }

  lemma MaxLog2AtLeast12(size: nat)
    requires size >= MIN_SIZE
    ensures MaxLog2(size) >= 12
  {
    Powers();
    MaxLog2Least(size);
    if MaxLog2(size) < 12 {
      Pow2Monotone(MaxLog2(size), 11);
    }
  }

  lemma ClassBounds(k: nat)
    requires k < N_CLASSES
    ensures MIN_SIZE <= ClassSize(k) <= MAX_SIZE
    ensures k > 0 ==> ClassSize(k) == 2 * ClassSize(k - 1)
  {
    Powers();
    Pow2Monotone(12, k + 12);
    Pow2Monotone(k + 12, 22);
  }

  lemma ClassMonotone(i: nat, j: nat)
    requires i <= j
    ensures ClassSize(i) <= ClassSize(j)
  {
    Pow2Monotone(i + 12, j + 12);
  }

  /** A chunk goes back to the list it came from. */
  lemma FreelistOfClass(k: nat)
    requires k < N_CLASSES
    ensures FreelistForSize(ClassSize(k)) == k
  {
    ClassBounds(k);
    MaxLog2Pow2(k + 12);
  }

  /**
   The class chosen for a request covers it exactly when the request is at most 4 MB, and is the smallest that does.
   */
  lemma FreelistCovers(size: nat)
    ensures size <= ClassSize(FreelistForSize(size)) <==> size <= MAX_SIZE
    ensures FreelistForSize(size) > 0 ==> ClassSize(FreelistForSize(size) - 1) < size
    ensures size > MAX_SIZE ==> FreelistForSize(size) == N_CLASSES - 1
  {
    Powers();
    if size >= MIN_SIZE {
      MaxLog2Least(size);
      var e := MaxLog2(size);
      if e < 12 {
        Pow2Monotone(e, 11);
      } else if e > 22 {
        Pow2Monotone(22, e - 1);
      } else {
        Pow2Monotone(e, 22);
      }
    }
  }

  /** A request one byte above 4 MB is mapped to a class that is too small for it. */
  lemma OversizeClass()
    ensures ClassSize(FreelistForSize(MAX_SIZE + 1)) == MAX_SIZE
  {
    FreelistCovers(MAX_SIZE + 1);
    Powers();
  }
}
