/** Logical indexes mapped onto the slots of a circular buffer. */
module CircularIndex {

  /** The slot of logical index i in a buffer of `size` slots. */
  function RealIndex(size: int, i: int): (k: nat)
    requires size > 0
    ensures k < size
  {
    i % size
  }

  /** The slot k places after logical index `start`. */
  function At(size: int, start: int, k: int): (slot: nat)
    requires size > 0
    ensures slot < size
  {
    RealIndex(size, start + k)
  }

  /** Two live indexes never share a slot. */
  lemma DistinctSlots(i: int, j: int, n: int)
    requires 0 < n && i < j < i + n
    ensures RealIndex(n, i) != RealIndex(n, j)
  {
    var qi, qj := i / n, j / n;
    assert i == n * qi + i % n && j == n * qj + j % n;
    if i % n == j % n {
      MultipleGap(n, qj - qi, j - i);
    }
  }

  lemma MultipleGap(n: int, k: int, d: int)
    requires 0 < d < n
    ensures d != n * k
  {
    if k <= 0 {
      assert n * k <= 0;
    } else {
      assert n * k >= n;
    }
  }

  /** Going once around the buffer returns to the same slot. */
  lemma SamePlace(i: int, n: int)
    requires 0 < n
    ensures RealIndex(n, i + n) == RealIndex(n, i)
  {
    var q, r := i / n, i % n;
    assert i + n == n * (q + 1) + r;
    if (i + n) % n != r {
      var d := (i + n) / n - (q + 1);
      assert (i + n) % n - r == -(n * d);
      if (i + n) % n > r { MultipleGap(n, -d, (i + n) % n - r); } else { MultipleGap(n, d, r - (i + n) % n); }
    }
  }

  /** Fewer than a full turn apart means different slots. */
  lemma AtInjective(size: int, start: int, j: nat, k: nat)
    requires 0 < size && j < size && k < size
    ensures At(size, start, j) == At(size, start, k) ==> j == k
  {
    if j < k {
      DistinctSlots(start + j, start + k, size);
    } else if k < j {
      DistinctSlots(start + k, start + j, size);
    }
  }
}
