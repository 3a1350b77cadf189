/** Finite sums of real-valued terms over an integer range, and the handful of
    facts about them that the statistics and the aligner need. */
module Sums {

  /** Sum of f(i) for lo <= i < hi; peeled from the top, so a loop that adds
      f(i) and then increments i keeps `acc == Sum(lo, i, f)`. */
  function Sum(lo: int, hi: int, f: int -> real): real
    decreases hi - lo
  {
    if hi <= lo then 0.0 else Sum(lo, hi - 1, f) + f(hi - 1)
  }

  /** Splitting the range at any midpoint. */
  lemma {:induction false} SumSplit(lo: int, mid: int, hi: int, f: int -> real)
    requires lo <= mid <= hi
    ensures Sum(lo, hi, f) == Sum(lo, mid, f) + Sum(mid, hi, f)
    decreases hi - mid
  {
    if mid < hi {
      SumSplit(lo, mid, hi - 1, f);
    }
  }

  /** A one-term range. */
  lemma SumOne(lo: int, f: int -> real)
    ensures Sum(lo, lo + 1, f) == f(lo)
  {
    assert Sum(lo, lo, f) == 0.0;
  }

  /** Peeling the lowest term. */
  lemma SumFirst(lo: int, hi: int, f: int -> real)
    requires lo < hi
    ensures Sum(lo, hi, f) == f(lo) + Sum(lo + 1, hi, f)
  {
    SumSplit(lo, lo + 1, hi, f);
  }

  /** Terms that agree on the range give the same sum. */
  lemma {:induction false} SumCongruent(lo: int, hi: int, f: int -> real, g: int -> real)
    requires forall i :: lo <= i < hi ==> f(i) == g(i)
    ensures Sum(lo, hi, f) == Sum(lo, hi, g)
    decreases hi - lo
  {
    if lo < hi {
      SumCongruent(lo, hi - 1, f, g);
    }
  }

  /** The sum of a pointwise sum is the sum of the sums. */
  lemma {:induction false} SumAdd(lo: int, hi: int, f: int -> real, g: int -> real, h: int -> real)
    requires forall i :: lo <= i < hi ==> h(i) == f(i) + g(i)
    ensures Sum(lo, hi, h) == Sum(lo, hi, f) + Sum(lo, hi, g)
    decreases hi - lo
  {
    if lo < hi {
      SumAdd(lo, hi - 1, f, g, h);
    }
  }

  /** Scaling every term scales the sum. */
  lemma {:induction false} SumScale(lo: int, hi: int, c: real, f: int -> real, g: int -> real)
    requires forall i :: lo <= i < hi ==> g(i) == c * f(i)
    ensures Sum(lo, hi, g) == c * Sum(lo, hi, f)
    decreases hi - lo
  {
    if lo < hi {
      SumScale(lo, hi - 1, c, f, g);
    }
  }

  /** Changing one term by x changes the sum by x. */
  lemma {:induction false} SumBump(lo: int, hi: int, k: int, x: real, f: int -> real, g: int -> real)
    requires lo <= k < hi
    requires forall i :: lo <= i < hi && i != k ==> g(i) == f(i)
    requires g(k) == f(k) + x
    ensures Sum(lo, hi, g) == Sum(lo, hi, f) + x
    decreases hi - lo
  {
    if k < hi - 1 {
      SumBump(lo, hi - 1, k, x, f, g);
    } else {
      SumCongruent(lo, hi - 1, f, g);
    }
  }

  /** A sum whose only non-zero term is at k equals that term. */
  lemma {:induction false} SumSingle(lo: int, hi: int, k: int, f: int -> real)
    requires lo <= k < hi
    requires forall i :: lo <= i < hi && i != k ==> f(i) == 0.0
    ensures Sum(lo, hi, f) == f(k)
    decreases hi - lo
  {
    if k < hi - 1 {
      SumSingle(lo, hi - 1, k, f);
    } else {
      SumZero(lo, hi - 1, f);
    }
  }

  /** All-zero terms sum to zero. */
  lemma {:induction false} SumZero(lo: int, hi: int, f: int -> real)
    requires forall i :: lo <= i < hi ==> f(i) == 0.0
    ensures Sum(lo, hi, f) == 0.0
    decreases hi - lo
  {
    if lo < hi {
      SumZero(lo, hi - 1, f);
    }
  }

  /** Termwise comparison carries over to the sums. */
  lemma {:induction false} SumMono(lo: int, hi: int, f: int -> real, g: int -> real)
    requires forall i :: lo <= i < hi ==> f(i) <= g(i)
    ensures Sum(lo, hi, f) <= Sum(lo, hi, g)
    decreases hi - lo
  {
    if lo < hi {
      SumMono(lo, hi - 1, f, g);
    }
  }

  /** Non-negative terms have a non-negative sum. */
  lemma {:induction false} SumNonneg(lo: int, hi: int, f: int -> real)
    requires forall i :: lo <= i < hi ==> 0.0 <= f(i)
    ensures 0.0 <= Sum(lo, hi, f)
    decreases hi - lo
  {
    if lo < hi {
      SumNonneg(lo, hi - 1, f);
    }
  }

  /** Renumbering the range by a constant offset d. */
  lemma {:induction false} SumShift(lo: int, hi: int, d: int, f: int -> real, g: int -> real)
    requires forall i :: lo <= i < hi ==> g(i) == f(i + d)
    ensures Sum(lo, hi, g) == Sum(lo + d, hi + d, f)
    decreases hi - lo
  {
    if lo < hi {
      SumShift(lo, hi - 1, d, f, g);
    }
  }

  /** Terms that vanish outside [a, b) sum to the sum over [a, b). */
  lemma SumRestrict(lo: int, hi: int, a: int, b: int, f: int -> real, g: int -> real)
    requires lo <= a <= b <= hi
    requires forall x :: lo <= x < hi ==> g(x) == if a <= x < b then f(x) else 0.0
    ensures Sum(lo, hi, g) == Sum(a, b, f)
  {
    SumSplit(lo, a, hi, g);
    SumSplit(a, b, hi, g);
    SumZero(lo, a, g);
    SumZero(b, hi, g);
    SumCongruent(a, b, g, f);
  }

  /** The terms f(b * width + o) for blocks b: offset o of every block. */
  function BlockOffset(width: int, o: int, f: int -> real): int -> real
  {
    b => f(b * width + o)
  }

  /** For each offset o, the sum of offset o over the first `count` blocks. */
  function BlockColumns(width: int, count: int, f: int -> real): int -> real
  {
    o => Sum(0, count, BlockOffset(width, o, f))
  }

  /** Summing over `count` blocks of `width` consecutive integers, offset by
      offset, for every offset covers [0, count * width). */
  lemma {:induction false} SumBlocks(width: nat, count: nat, f: int -> real)
    ensures Sum(0, width, BlockColumns(width, count, f)) == Sum(0, count * width, f)
    decreases count
  {
    if count == 0 {
      SumZero(0, width, BlockColumns(width, count, f));
    } else {
      var c := count - 1;
      SumBlocks(width, c, f);
      SumBlocksStep(width, c, f);
      var start := c * width;
      assert count * width == start + width by {
        assert count == c + 1;
      }
      SumSplit(0, start, start + width, f);
    }
  }

  /** One more block adds the integers [c * width, c * width + width). */
  lemma SumBlocksStep(width: nat, c: nat, f: int -> real)
    ensures Sum(0, width, BlockColumns(width, c + 1, f))
            == Sum(0, width, BlockColumns(width, c, f)) + Sum(c * width, c * width + width, f)
  {
    var last := o => f(c * width + o);
    forall o | 0 <= o < width
      ensures BlockColumns(width, c + 1, f)(o) == BlockColumns(width, c, f)(o) + last(o)
    {
      assert BlockOffset(width, o, f)(c) == last(o);
    }
    SumAdd(0, width, BlockColumns(width, c, f), last, BlockColumns(width, c + 1, f));
    SumShift(0, width, c * width, f, last);
  }

  /** Summing terms of a sequence. */
  function SeqSum(s: seq<real>): real
  {
    if s == [] then 0.0 else SeqSum(s[..|s| - 1]) + s[|s| - 1]
  }

  /** Extending a prefix by one term adds that term to its sum. */
  lemma SeqSumPrefix(s: seq<real>, k: nat)
    requires k < |s|
    ensures SeqSum(s[..k + 1]) == SeqSum(s[..k]) + s[k]
  {
    assert s[..k + 1][..k] == s[..k];
  }
}
