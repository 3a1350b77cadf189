/** Segmentation scores (SegmentationEvaluation). A label sequence is reduced
    to its onsets and offsets. Boundary recall (precision) is the fraction of
    reference (test) boundary stamps that have a stamp of the other sequence
    strictly closer than a tolerance. Under- and over-segmentation add up, for
    each segment of one sequence, how much of it is shared with segments of
    the other sequence besides its best-matching one, normalised by the last
    reference offset; the directional Hamming measure is one minus the larger
    of the two. */
module Segmentation {
  import opened Music

  type Labels = seq<TimedLabel<string>>

  function Abs(x: real): real
  {
    if x < 0.0 then -x else x
  }

  function Min(x: real, y: real): real
  {
    if x <= y then x else y
  }

  function Max(x: real, y: real): real
  {
    if x >= y then x else y
  }

  function Onsets(s: Labels): (r: seq<real>)
    ensures |r| == |s| && forall i :: 0 <= i < |s| ==> r[i] == s[i].onset
  {
    seq(|s|, i requires 0 <= i < |s| => s[i].onset)
  }

  function Offsets(s: Labels): (r: seq<real>)
    ensures |r| == |s| && forall i :: 0 <= i < |s| ==> r[i] == s[i].offset
  {
    seq(|s|, i requires 0 <= i < |s| => s[i].offset)
  }

  function LastOffset(s: Labels): real
    requires |s| > 0
  {
    s[|s| - 1].offset
  }

  // ------------------------------------------------------------- variants

  predicate KnownVariant(variant: string)
  {
    variant == "Onset" || variant == "Offset" || variant == "Inner" || variant == "Outer"
  }

  /** The boundary stamps a variant compares (SegmentationEvaluation.cpp:40-60):
      all onsets, all offsets, the onsets but the first, or the onsets and the
      last offset; any other name is an error. The inner and outer variants
      take a tail of the sequence, which must not be empty. */
  function Boundaries(variant: string, s: Labels): (r: Result<seq<real>>)
    requires variant == "Inner" || variant == "Outer" ==> |s| > 0
    ensures r.Ok? <==> KnownVariant(variant)
    ensures variant == "Onset" ==> r.Ok? && |r.value| == |s| && forall i :: 0 <= i < |s| ==> r.value[i] == s[i].onset
    ensures variant == "Offset" ==> r.Ok? && |r.value| == |s| && forall i :: 0 <= i < |s| ==> r.value[i] == s[i].offset
    ensures variant == "Inner" ==> r.Ok? && |r.value| == |s| - 1 && forall i :: 0 <= i < |s| - 1 ==> r.value[i] == s[i + 1].onset
    ensures variant == "Outer" ==> r.Ok? && |r.value| == |s| + 1 && r.value[|s|] == LastOffset(s)
                                   && forall i :: 0 <= i < |s| ==> r.value[i] == s[i].onset
  {
    if variant == "Onset" then Ok(Onsets(s))
    else if variant == "Offset" then Ok(Offsets(s))
    else if variant == "Inner" then Ok(Onsets(s)[1..])
    else if variant == "Outer" then Ok(Onsets(s) + [LastOffset(s)])
    else Err("Unknown segmentation variant: " + variant)
  }

  // -------------------------------------------------- boundary recall/precision

  /** Distance from x to the nearest stamp of b. */
  function MinDist(x: real, b: seq<real>): (d: real)
    requires |b| > 0
    ensures forall j :: 0 <= j < |b| ==> d <= Abs(x - b[j])
    ensures exists j :: 0 <= j < |b| && d == Abs(x - b[j])
    decreases |b|
  {
    if |b| == 1 then Abs(x - b[0])
    else
      var rest := MinDist(x, b[..|b| - 1]);
      if Abs(x - b[|b| - 1]) < rest then Abs(x - b[|b| - 1]) else rest
  }

  /** Number of stamps of a with a stamp of b strictly closer than tau. */
  function Hits(a: seq<real>, b: seq<real>, tau: real): (k: nat)
    requires |b| > 0
    ensures k <= |a|
    decreases |a|
  {
    if |a| == 0 then 0
    else Hits(a[..|a| - 1], b, tau) + (if MinDist(a[|a| - 1], b) < tau then 1 else 0)
  }

  /** The fraction of a's stamps with a stamp of b strictly closer than tau;
      0 when either list is empty. */
  function HitRate(a: seq<real>, b: seq<real>, tau: real): real
  {
    if |a| == 0 || |b| == 0 then 0.0 else Hits(a, b, tau) as real / |a| as real
  }

  /** One hit rate per tolerance. */
  function Rates(a: seq<real>, b: seq<real>, tolerances: seq<real>): seq<real>
  {
    seq(|tolerances|, t requires 0 <= t < |tolerances| => HitRate(a, b, tolerances[t]))
  }

  /** One more stamp of a counted: Hits over the first i + 1 stamps. */
  lemma HitsStep(a: seq<real>, b: seq<real>, tau: real, i: int)
    requires 0 <= i < |a| && |b| > 0
    ensures Hits(a[..i + 1], b, tau) == Hits(a[..i], b, tau) + (if MinDist(a[i], b) < tau then 1 else 0)
  {
    assert a[..i + 1][..i] == a[..i];
  }

  /** Counts stamp a[i] for every tolerance its nearest distance is below
      (SegmentationEvaluation.cpp:94-100 and 107-113). */
  method CountStamp(counts: array<real>, a: seq<real>, b: seq<real>, tolerances: seq<real>, i: int)
    requires counts.Length == |tolerances| && 0 <= i < |a| && |b| > 0
    requires forall t :: 0 <= t < |tolerances| ==> counts[t] == Hits(a[..i], b, tolerances[t]) as real
    modifies counts
    ensures forall t :: 0 <= t < |tolerances| ==> counts[t] == Hits(a[..i + 1], b, tolerances[t]) as real
  {
    var minDist := MinDist(a[i], b);
    for t := 0 to |tolerances|
      invariant forall u :: 0 <= u < t ==> counts[u] == Hits(a[..i + 1], b, tolerances[u]) as real
      invariant forall u :: t <= u < |tolerances| ==> counts[u] == Hits(a[..i], b, tolerances[u]) as real
    {
      HitsStep(a, b, tolerances[t], i);
      if minDist < tolerances[t] {
        counts[t] := counts[t] + 1.0;
      }
    }
  }

  /** Counts, for every tolerance, the stamps of a that have a stamp of b
      strictly closer than it, then divides by the number of stamps of a
      (SegmentationEvaluation.cpp:91-102 for recall, 104-115 for precision). */
  method CountRates(a: seq<real>, b: seq<real>, tolerances: seq<real>) returns (rates: seq<real>)
    requires |a| > 0 && |b| > 0
    ensures rates == Rates(a, b, tolerances)
  {
    var counts := new real[|tolerances|](_ => 0.0);
    for i := 0 to |a|
      invariant forall t :: 0 <= t < |tolerances| ==> counts[t] == Hits(a[..i], b, tolerances[t]) as real
    {
      CountStamp(counts, a, b, tolerances, i);
    }
    assert a[..|a|] == a;
    for t := 0 to |tolerances|
      invariant forall u :: 0 <= u < t ==> counts[u] == HitRate(a, b, tolerances[u])
      invariant forall u :: t <= u < |tolerances| ==> counts[u] == Hits(a, b, tolerances[u]) as real
    {
      counts[t] := counts[t] / |a| as real;
    }
    rates := counts[..];
  }

  /** Recall and precision for every tolerance, all 0 when either list of
      stamps is empty (SegmentationEvaluation.cpp:85-117). */
  method SegmentationScores(refStamps: seq<real>, testStamps: seq<real>, tolerances: seq<real>)
    returns (recalls: seq<real>, precisions: seq<real>)
    ensures recalls == Rates(refStamps, testStamps, tolerances)
    ensures precisions == Rates(testStamps, refStamps, tolerances)
  {
    if |refStamps| != 0 && |testStamps| != 0 {
      recalls := CountRates(refStamps, testStamps, tolerances);
      precisions := CountRates(testStamps, refStamps, tolerances);
    } else {
      recalls := seq(|tolerances|, _ => 0.0);
      precisions := seq(|tolerances|, _ => 0.0);
    }
  }

  lemma DivMono(x: real, y: real, n: real)
    requires n > 0.0 && x <= y
    ensures x / n <= y / n
  {
    assert y / n - x / n == (y - x) / n;
  }

  lemma DivSelf(n: real)
    requires n > 0.0
    ensures n / n == 1.0
  {
  }

  /** A hit rate is a fraction. */
  lemma RateBounds(a: seq<real>, b: seq<real>, tau: real)
    ensures 0.0 <= HitRate(a, b, tau) <= 1.0
  {
    if |a| > 0 && |b| > 0 {
      var k, n := Hits(a, b, tau) as real, |a| as real;
      DivMono(0.0, k, n);
      DivMono(k, n, n);
    }
  }

  lemma {:induction false} HitsMono(a: seq<real>, b: seq<real>, tau1: real, tau2: real)
    requires |b| > 0 && tau1 <= tau2
    ensures Hits(a, b, tau1) <= Hits(a, b, tau2)
    decreases |a|
  {
    if |a| > 0 {
      HitsMono(a[..|a| - 1], b, tau1, tau2);
    }
  }

  /** A larger tolerance never lowers recall or precision. */
  lemma RateMono(a: seq<real>, b: seq<real>, tau1: real, tau2: real)
    requires tau1 <= tau2
    ensures HitRate(a, b, tau1) <= HitRate(a, b, tau2)
  {
    if |a| > 0 && |b| > 0 {
      HitsMono(a, b, tau1, tau2);
      var k1, k2, n := Hits(a, b, tau1) as real, Hits(a, b, tau2) as real, |a| as real;
      DivMono(k1, k2, n);
    }
  }

  lemma {:induction false} HitsSelf(a: seq<real>, k: nat, tau: real)
    requires k <= |a| && |a| > 0 && tau > 0.0
    ensures Hits(a[..k], a, tau) == k
  {
    if k > 0 {
      assert a[..k][..k - 1] == a[..k - 1];
      HitsSelf(a, k - 1, tau);
      var d := MinDist(a[k - 1], a);
      assert d <= Abs(a[k - 1] - a[k - 1]);
    }
  }

  /** Stamps compared with themselves: every stamp is found, whatever the
      positive tolerance. */
  lemma RateSelf(a: seq<real>, tau: real)
    requires |a| > 0 && tau > 0.0
    ensures HitRate(a, a, tau) == 1.0
  {
    HitsSelf(a, |a|, tau);
    assert a[..|a|] == a;
    DivSelf(|a| as real);
  }

  // --------------------------------------------- under- and over-segmentation

  /** Overlap of two segments; zero or negative when they do not overlap. */
  function Overlap(x: TimedLabel<string>, y: TimedLabel<string>): real
  {
    Min(x.offset, y.offset) - Max(x.onset, y.onset)
  }

  /** The largest overlap of x with a segment of b. */
  function MaxOverlap(x: TimedLabel<string>, b: Labels): (r: real)
    requires |b| > 0
    ensures forall j :: 0 <= j < |b| ==> Overlap(x, b[j]) <= r
    ensures exists j :: 0 <= j < |b| && r == Overlap(x, b[j])
    decreases |b|
  {
    if |b| == 1 then Overlap(x, b[0])
    else Max(MaxOverlap(x, b[..|b| - 1]), Overlap(x, b[|b| - 1]))
  }

  /** The sum of the positive overlaps of x with the segments of b. It bounds
      every single overlap. */
  function PositiveOverlap(x: TimedLabel<string>, b: Labels): (r: real)
    ensures r >= 0.0
    ensures forall j :: 0 <= j < |b| ==> Overlap(x, b[j]) <= r
    decreases |b|
  {
    if |b| == 0 then 0.0
    else PositiveOverlap(x, b[..|b| - 1]) + Max(Overlap(x, b[|b| - 1]), 0.0)
  }

  /** What segment x contributes: when it overlaps some segment of b, the
      overlap it shares with the segments of b other than its best match. */
  function SegmentExcess(x: TimedLabel<string>, b: Labels): (e: real)
    requires |b| > 0
    ensures e >= 0.0
  {
    var best := MaxOverlap(x, b);
    if best > 0.0 then PositiveOverlap(x, b) - best else 0.0
  }

  /** The contributions of all segments of a. */
  function Excess(a: Labels, b: Labels): (e: real)
    requires |b| > 0
    ensures e >= 0.0
    decreases |a|
  {
    if |a| == 0 then 0.0 else Excess(a[..|a| - 1], b) + SegmentExcess(a[|a| - 1], b)
  }

  /** Adds up the contributions of the segments of `outer` measured against
      `inner` (the loops of SegmentationEvaluation.cpp:125-133 and 164-172). */
  method SumExcess(outer: Labels, inner: Labels) returns (total: real)
    requires |inner| > 0
    ensures total == Excess(outer, inner)
  {
    total := 0.0;
    for i := 0 to |outer|
      invariant total == Excess(outer[..i], inner)
    {
      assert outer[..i + 1][..i] == outer[..i];
      var maxOverlap := MaxOverlap(outer[i], inner);
      if maxOverlap > 0.0 {
        total := total + (PositiveOverlap(outer[i], inner) - maxOverlap);
      }
    }
    assert outer[..|outer|] == outer;
  }

  function UnderSegmentationOf(ref: Labels, test: Labels): real
    requires |test| > 0 ==> |ref| > 0 && LastOffset(ref) != 0.0
  {
    if |test| == 0 then 1.0 else Excess(test, ref) / LastOffset(ref)
  }

  function OverSegmentationOf(ref: Labels, test: Labels): real
    requires |ref| > 0 ==> |test| > 0 && LastOffset(ref) != 0.0
  {
    if |ref| == 0 then 1.0 else Excess(ref, test) / LastOffset(ref)
  }

  /** Test segments measured against the reference, 1 without test segments
      (SegmentationEvaluation.cpp:119-141). The division by the last
      reference offset needs a reference segment and a non-zero offset. */
  method UnderSegmentation(ref: Labels, test: Labels) returns (u: real)
    requires |test| > 0 ==> |ref| > 0 && LastOffset(ref) != 0.0
    ensures u == UnderSegmentationOf(ref, test)
  {
    if |test| != 0 {
      u := SumExcess(test, ref);
      u := u / LastOffset(ref);
    } else {
      u := 1.0;
    }
  }

  /** Reference segments measured against the test, 1 without reference
      segments (SegmentationEvaluation.cpp:158-180). */
  method OverSegmentation(ref: Labels, test: Labels) returns (o: real)
    requires |ref| > 0 ==> |test| > 0 && LastOffset(ref) != 0.0
    ensures o == OverSegmentationOf(ref, test)
  {
    if |ref| != 0 {
      o := SumExcess(ref, test);
      o := o / LastOffset(ref);
    } else {
      o := 1.0;
    }
  }

  function DirectionalHamming(under: real, over: real): real
  {
    1.0 - Max(under, over)
  }

  /** Both measures are 1 for an empty side and never negative when the last
      reference offset is positive. */
  lemma SegmentationNonNegative(ref: Labels, test: Labels)
    requires |ref| > 0 && |test| > 0 && LastOffset(ref) > 0.0
    ensures UnderSegmentationOf(ref, test) >= 0.0
    ensures OverSegmentationOf(ref, test) >= 0.0
  {
    DivMono(0.0, Excess(test, ref), LastOffset(ref));
    DivMono(0.0, Excess(ref, test), LastOffset(ref));
  }

  /** Segments in time order: each ends before the next begins. */
  predicate Ordered(s: Labels)
  {
    forall i, j :: 0 <= i < j < |s| ==> s[i].offset <= s[j].onset
  }

  /** With every overlap but the i-th non-positive, the positive overlaps add
      up to the i-th alone. */
  lemma {:induction false} PositiveOverlapSingle(x: TimedLabel<string>, b: Labels, i: int)
    requires forall j :: 0 <= j < |b| && j != i ==> Overlap(x, b[j]) <= 0.0
    ensures PositiveOverlap(x, b) == if 0 <= i < |b| then Max(Overlap(x, b[i]), 0.0) else 0.0
    decreases |b|
  {
    if |b| > 0 {
      var prefix := b[..|b| - 1];
      assert forall j :: 0 <= j < |prefix| && j != i ==> Overlap(x, prefix[j]) <= 0.0;
      PositiveOverlapSingle(x, prefix, i);
    }
  }

  /** A segment of an ordered sequence overlaps no other segment of it, so it
      contributes nothing when measured against its own sequence. */
  lemma SelfExcessZero(s: Labels, i: int)
    requires Ordered(s) && 0 <= i < |s|
    ensures SegmentExcess(s[i], s) == 0.0
  {
    var x := s[i];
    forall j | 0 <= j < |s| && j != i
      ensures Overlap(x, s[j]) <= 0.0
    {
      if j < i {
        assert Overlap(x, s[j]) <= s[j].offset - x.onset;
      } else {
        assert Overlap(x, s[j]) <= x.offset - s[j].onset;
      }
    }
    PositiveOverlapSingle(x, s, i);
    var best := MaxOverlap(x, s);
    if best > 0.0 {
      var j :| 0 <= j < |s| && best == Overlap(x, s[j]);
      assert j == i;
    }
  }

  lemma {:induction false} SelfExcessPrefix(s: Labels, k: nat)
    requires Ordered(s) && 0 < |s| && k <= |s|
    ensures Excess(s[..k], s) == 0.0
  {
    if k > 0 {
      assert s[..k][..k - 1] == s[..k - 1];
      SelfExcessPrefix(s, k - 1);
      SelfExcessZero(s, k - 1);
    }
  }

  /** An ordered sequence compared with itself is neither under- nor
      over-segmented, so its directional Hamming measure is 1. */
  lemma SelfSegmentation(s: Labels)
    requires Ordered(s) && |s| > 0 && LastOffset(s) != 0.0
    ensures UnderSegmentationOf(s, s) == 0.0 && OverSegmentationOf(s, s) == 0.0
    ensures DirectionalHamming(UnderSegmentationOf(s, s), OverSegmentationOf(s, s)) == 1.0
  {
    SelfExcessPrefix(s, |s|);
    assert s[..|s|] == s;
  }

  // ------------------------------------------------------------ evaluation

  /** What evaluating a pair needs: both sequences empty or both non-empty
      (each measure reads the last reference offset and the largest overlap
      with the other sequence), a non-zero last reference offset to divide
      by, and non-empty sequences for the variants that take a tail. */
  predicate Evaluable(variant: string, ref: Labels, test: Labels)
  {
    (|ref| == 0 <==> |test| == 0)
    && (|ref| > 0 ==> LastOffset(ref) != 0.0)
    && (variant == "Inner" || variant == "Outer" ==> |ref| > 0)
  }

  /** The segmentation evaluator and the per-file histories its evaluation
      appends to (SegmentationEvaluation.cpp:62-67). */
  class SegmentationEvaluation {
    const variant: string
    const tolerances: seq<real>
    var recalls: seq<seq<real>>
    var precisions: seq<seq<real>>
    var underSegmentations: seq<real>
    var overSegmentations: seq<real>
    var hammingMeasures: seq<real>

    /** One entry per evaluated file in every history, each Hamming entry
        derived from the under- and over-segmentation of the same file. */
    predicate Valid()
      reads this
    {
      |precisions| == |recalls| && |underSegmentations| == |recalls|
      && |overSegmentations| == |recalls| && |hammingMeasures| == |recalls|
      && (forall i :: 0 <= i < |recalls| ==> |recalls[i]| == |tolerances| && |precisions[i]| == |tolerances|)
      && (forall i :: 0 <= i < |hammingMeasures| ==>
            hammingMeasures[i] == DirectionalHamming(underSegmentations[i], overSegmentations[i]))
    }

    /** SegmentationEvaluation.cpp:14-20. */
    constructor(variant: string, tolerances: seq<real>)
      ensures this.variant == variant && this.tolerances == tolerances
      ensures recalls == [] && precisions == [] && underSegmentations == []
      ensures overSegmentations == [] && hammingMeasures == []
      ensures Valid()
    {
      this.variant := variant;
      this.tolerances := tolerances;
      recalls, precisions := [], [];
      underSegmentations, overSegmentations, hammingMeasures := [], [], [];
    }

    /** Evaluates one pair of sequences (SegmentationEvaluation.cpp:22-68):
        an unknown variant is an error and leaves every history as it was;
        otherwise each history gets one entry. */
    method Evaluate(ref: Labels, test: Labels) returns (r: Result<()>)
      requires Valid()
      requires KnownVariant(variant) ==> Evaluable(variant, ref, test)
      modifies this
      ensures Valid()
      ensures r.Ok? <==> KnownVariant(variant)
      ensures r.Err? ==> recalls == old(recalls) && precisions == old(precisions)
                         && underSegmentations == old(underSegmentations)
                         && overSegmentations == old(overSegmentations)
                         && hammingMeasures == old(hammingMeasures)
      ensures r.Ok? ==>
                var refStamps, testStamps := Boundaries(variant, ref).value, Boundaries(variant, test).value;
                var under, over := UnderSegmentationOf(ref, test), OverSegmentationOf(ref, test);
                recalls == old(recalls) + [Rates(refStamps, testStamps, tolerances)]
                && precisions == old(precisions) + [Rates(testStamps, refStamps, tolerances)]
                && underSegmentations == old(underSegmentations) + [under]
                && overSegmentations == old(overSegmentations) + [over]
                && hammingMeasures == old(hammingMeasures) + [DirectionalHamming(under, over)]
    {
      var refStamps := Boundaries(variant, ref);
      var testStamps := Boundaries(variant, test);
      if refStamps.Err? {
        return Err(refStamps.message);
      }
      var recall, precision := SegmentationScores(refStamps.value, testStamps.value, tolerances);
      recalls := recalls + [recall];
      precisions := precisions + [precision];
      var under := UnderSegmentation(ref, test);
      var over := OverSegmentation(ref, test);
      underSegmentations := underSegmentations + [under];
      overSegmentations := overSegmentations + [over];
      hammingMeasures := hammingMeasures + [DirectionalHamming(under, over)];
      r := Ok(());
    }

    /** The directional Hamming measure of the last file, one minus the
        larger of its under- and over-segmentation
        (SegmentationEvaluation.cpp:70-83). */
    function LastHammingMeasure(): (h: real)
      reads this
      requires Valid() && |hammingMeasures| > 0
      ensures h == 1.0 - Max(underSegmentations[|underSegmentations| - 1], overSegmentations[|overSegmentations| - 1])
    {
      hammingMeasures[|hammingMeasures| - 1]
    }

    function LastUnderSegmentation(): real
      reads this
      requires |underSegmentations| > 0
    {
      underSegmentations[|underSegmentations| - 1]
    }

    function LastOverSegmentation(): real
      reads this
      requires |overSegmentations| > 0
    {
      overSegmentations[|overSegmentations| - 1]
    }
  }
}
