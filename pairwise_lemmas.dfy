/** What the frame-based comparison guarantees about the matrix, the score
    and the change points it records for one pair of sequences. */
module PairwiseLemmas {
  import opened Sums
  import opened Matrices
  import opened Music
  import opened PairwiseEvaluation

  // --------------------------------------------------------- mass conservation

  /** The cells of the matrix the outcomes add up to hold exactly the length
      of the counted segments: nothing is lost or counted twice. */
  lemma {:induction false} AccumulateTotal(os: seq<Outcome>, rows: nat, cols: nat)
    requires FitsIn(os, rows, cols)
    ensures Total(Accumulate(os, rows, cols)) == CountedLength(os)
    decreases |os|
  {
    if os == [] {
      TotalZero(rows, cols);
    } else {
      var init := os[..|os| - 1];
      AccumulateTotal(init, rows, cols);
      var o := os[|os| - 1];
      if o.Counted? {
        TotalAddCell(Accumulate(init, rows, cols), rows, cols, o.verdict.refCategory, o.verdict.testCategory, o.length);
      }
    }
  }

  /** The i-th outcome is the outcome of the segment ending at ts[i+1]. */
  lemma {:induction false} OutcomesIndex<L(!new)>(sim: Similarity<L>, p: SequencePair<L>, ts: seq<real>, k: nat, i: nat)
    requires WellFormed(p) && 1 <= k <= |ts| && i < k - 1
    ensures Outcomes(sim, p, ts, k)[i] == OutcomeAt(sim, p, ts, i + 1)
    decreases k
  {
    if i < k - 2 {
      OutcomesIndex(sim, p, ts, k - 1, i);
    }
  }

  // ------------------------------------------------------------- score bounds

  /** Every counted outcome has a score in [0, 1] and a non-negative length. */
  ghost predicate Bounded(os: seq<Outcome>)
  {
    forall i :: 0 <= i < |os| && os[i].Counted? ==>
      0.0 <= os[i].verdict.score <= 1.0 && 0.0 <= os[i].length
  }

  /** A length weighted by a score in [0, 1] lies between 0 and the length. */
  lemma WeightedBounds(score: real, length: real)
    requires 0.0 <= score <= 1.0 && 0.0 <= length
    ensures 0.0 <= Weighted(score, length) <= length
  {
    assert length - score * length == (1.0 - score) * length;
  }

  /** The running score lies between 0 and the counted length. */
  lemma {:induction false} RunningScoreBounds(os: seq<Outcome>)
    requires Bounded(os)
    ensures 0.0 <= RunningScore(os) <= CountedLength(os)
    decreases |os|
  {
    if os != [] {
      var init := os[..|os| - 1];
      assert Bounded(init) by {
        assert forall i :: 0 <= i < |init| ==> init[i] == os[i];
      }
      RunningScoreBounds(init);
      var o := os[|os| - 1];
      if o.Counted? {
        WeightedBounds(o.verdict.score, o.length);
      }
    }
  }

  /** The scorer never answers a score above 1. */
  ghost predicate ScoresAtMostOne<L(!new)>(sim: Similarity<L>)
  {
    forall a: L, b: L :: sim.score(a, b).score <= 1.0
  }

  /** With no positive delay, every change point but the end lies at or after
      the start. */
  lemma ChangePointFromStart<L(!new)>(p: SequencePair<L>, y: real)
    requires p.delay <= 0.0 && y in ChangeSet(p)
    ensures y >= p.startTime || y == EndTime(p)
  {
    LabelPointsMember(p, p.refSeq, |p.refSeq|, 0.0, y);
    LabelPointsMember(p, p.testSeq, |p.testSeq|, p.delay, y);
  }

  /** With no positive delay no segment has a negative length: later segments
      run between increasing change points, and at most one change point (the
      end) lies before the start. */
  lemma SegmentLengthsNonNegative<L(!new)>(p: SequencePair<L>)
    requires p.delay <= 0.0
    ensures var ts := ChangeTimes(p); forall k :: 1 <= k < |ts| ==> SegmentLength(p, ts, k) >= 0.0
  {
    var ts := ChangeTimes(p);
    ChangeTimesEnumerates(p, ts);
    if |ts| > 1 {
      assert ts[0] in ts && ts[1] in ts;
      ChangePointFromStart(p, ts[0]);
      ChangePointFromStart(p, ts[1]);
    }
  }

  /** A positive total divides a running score between 0 and itself into
      [0, 1]. */
  lemma RatioBounds(raw: real, d: real)
    requires 0.0 <= raw <= d && d > 0.0
    ensures 0.0 <= raw / d <= 1.0
  {
    assert (raw / d) * d == raw;
  }

  /** With no positive delay and a scorer that never exceeds 1, the recorded
      score lies in [0, 1], and it stays 0 when nothing was counted. */
  lemma PairScoreInUnitRange<L(!new)>(sim: Similarity<L>, p: SequencePair<L>)
    requires WellFormed(p) && CategoriesInRange(sim) && ScoresAtMostOne(sim) && p.delay <= 0.0
    ensures 0.0 <= PairScore(sim, p) <= 1.0
    ensures Total(PairMatrix(sim, p)) == 0.0 ==> PairScore(sim, p) == 0.0
  {
    var ts := ChangeTimes(p);
    var os := PairOutcomes(sim, p);
    SegmentLengthsNonNegative(p);
    forall i | 0 <= i < |os| && os[i].Counted?
      ensures 0.0 <= os[i].verdict.score <= 1.0 && 0.0 <= os[i].length
    {
      OutcomesIndex(sim, p, ts, |ts|, i);
    }
    RunningScoreBounds(os);
    OutcomesFit(sim, p, ts, |ts|);
    AccumulateTotal(os, sim.numRefLabels, sim.numTestLabels);
    var d := Total(PairMatrix(sim, p));
    if d > 0.0 {
      RatioBounds(RunningScore(os), d);
    }
  }

  // -------------------------------------------------------------- telescoping

  /** When every segment is counted, the counted lengths telescope to the
      distance from the start to the last change point reached. */
  lemma {:induction false} CountedLengthTelescopes<L(!new)>(sim: Similarity<L>, p: SequencePair<L>, ts: seq<real>, k: nat)
    requires WellFormed(p) && 1 <= k <= |ts|
    requires forall o :: o in Outcomes(sim, p, ts, k) ==> o.Counted?
    ensures CountedLength(Outcomes(sim, p, ts, k)) == if k == 1 then 0.0 else ts[k - 1] - p.startTime
    decreases k
  {
    if k > 1 {
      var os := Outcomes(sim, p, ts, k);
      var init := Outcomes(sim, p, ts, k - 1);
      assert os[..|os| - 1] == init;
      assert forall o :: o in init ==> o in os;
      CountedLengthTelescopes(sim, p, ts, k - 1);
      assert os[|os| - 1] in os;
    }
  }

  /** With no negative delay and an end not before the start, no change point
      lies after the end. */
  lemma ChangePointBeforeEnd<L(!new)>(p: SequencePair<L>, y: real)
    requires p.delay >= 0.0 && p.startTime <= EndTime(p) && y in ChangeSet(p)
    ensures y <= EndTime(p)
  {
    LabelPointsMember(p, p.refSeq, |p.refSeq|, 0.0, y);
    LabelPointsMember(p, p.testSeq, |p.testSeq|, p.delay, y);
  }

  /** The change points always include the start and the end of the window. */
  lemma ChangeTimesHoldEnds<L(!new)>(p: SequencePair<L>)
    ensures p.startTime in ChangeTimes(p) && EndTime(p) in ChangeTimes(p)
    ensures p.endTime <= p.startTime ==> EndTime(p) == RefEndTime(p)
  {
    ChangeTimesEnumerates(p, ChangeTimes(p));
  }

  /** Under the same conditions the last change point is the end. */
  lemma LastChangeTimeIsEnd<L(!new)>(p: SequencePair<L>)
    requires p.delay >= 0.0 && p.startTime <= EndTime(p)
    ensures ChangeTimes(p)[|ChangeTimes(p)| - 1] == EndTime(p)
  {
    var ts := ChangeTimes(p);
    ChangeTimesEnumerates(p, ts);
    var last := ts[|ts| - 1];
    assert last in ts;
    ChangePointBeforeEnd(p, last);
    var j :| 0 <= j < |ts| && ts[j] == EndTime(p);
    assert ts[j] <= last;
  }

  /** With zero delay, an end not before the start and nothing excluded, the
      matrix of a pair holds exactly the length of the window. */
  lemma FullCoverage<L(!new)>(sim: Similarity<L>, p: SequencePair<L>)
    requires WellFormed(p) && CategoriesInRange(sim) && p.delay == 0.0 && p.startTime <= EndTime(p)
    requires forall o :: o in PairOutcomes(sim, p) ==> o.Counted?
    ensures Total(PairMatrix(sim, p)) == EndTime(p) - p.startTime
  {
    var ts := ChangeTimes(p);
    OutcomesFit(sim, p, ts, |ts|);
    AccumulateTotal(PairOutcomes(sim, p), sim.numRefLabels, sim.numTestLabels);
    CountedLengthTelescopes(sim, p, ts, |ts|);
    ChangeTimesHoldEnds(p);
    LastChangeTimeIsEnd(p);
  }

  /** With no negative segment, the counted lengths lie between 0 and the
      distance from the start to the last change point reached: leaving a
      segment out can only lose length. */
  lemma {:induction false} CountedLengthWithinSpan<L(!new)>(sim: Similarity<L>, p: SequencePair<L>, ts: seq<real>, k: nat)
    requires WellFormed(p) && 1 <= k <= |ts|
    requires forall j :: 1 <= j < |ts| ==> SegmentLength(p, ts, j) >= 0.0
    ensures 0.0 <= CountedLength(Outcomes(sim, p, ts, k)) <= if k == 1 then 0.0 else ts[k - 1] - p.startTime
    decreases k
  {
    if k > 1 {
      var os := Outcomes(sim, p, ts, k);
      assert os[..|os| - 1] == Outcomes(sim, p, ts, k - 1);
      CountedLengthWithinSpan(sim, p, ts, k - 1);
      assert SegmentLength(p, ts, k - 1) >= 0.0;
    }
  }

  /** With zero delay and an end not before the start, the matrix of a pair
      holds between 0 and the length of the window, whatever the duration
      filter and the scorer leave out. */
  lemma PartialCoverage<L(!new)>(sim: Similarity<L>, p: SequencePair<L>)
    requires WellFormed(p) && CategoriesInRange(sim) && p.delay == 0.0 && p.startTime <= EndTime(p)
    ensures 0.0 <= Total(PairMatrix(sim, p)) <= EndTime(p) - p.startTime
  {
    var ts := ChangeTimes(p);
    OutcomesFit(sim, p, ts, |ts|);
    AccumulateTotal(PairOutcomes(sim, p), sim.numRefLabels, sim.numTestLabels);
    SegmentLengthsNonNegative(p);
    CountedLengthWithinSpan(sim, p, ts, |ts|);
    ChangeTimesHoldEnds(p);
    LastChangeTimeIsEnd(p);
  }

  // ----------------------------------------------------------- self-alignment

  /** The scorer puts two identical labels it does not exclude in the same
      row and column. */
  ghost predicate IdenticalOnDiagonal<L(!new)>(sim: Similarity<L>)
  {
    forall a: L :: sim.score(a, a).score >= 0.0 ==> sim.score(a, a).refCategory == sim.score(a, a).testCategory
  }

  /** The scorer gives two identical labels it does not exclude the score 1. */
  ghost predicate IdenticalScoreOne<L(!new)>(sim: Similarity<L>)
  {
    forall a: L :: sim.score(a, a).score >= 0.0 ==> sim.score(a, a).score == 1.0
  }

  /** Every counted outcome lies on the diagonal. */
  ghost predicate OnDiagonal(os: seq<Outcome>)
  {
    forall i :: 0 <= i < |os| && os[i].Counted? ==> os[i].verdict.refCategory == os[i].verdict.testCategory
  }

  /** Every counted outcome scores 1. */
  ghost predicate AllScoreOne(os: seq<Outcome>)
  {
    forall i :: 0 <= i < |os| && os[i].Counted? ==> os[i].verdict.score == 1.0
  }

  /** A sequence compared with itself without delay: both sides read the same
      label in every segment. */
  lemma SelfSegment<L(!new)>(sim: Similarity<L>, p: SequencePair<L>, t: real)
    requires WellFormed(p) && p.testSeq == p.refSeq && p.delay == 0.0
    ensures SegmentAt(sim, p, t).refLabel == SegmentAt(sim, p, t).testLabel
  {
    assert TestOffsets(p) == RefOffsets(p);
    assert TestEndTime(p) == RefEndTime(p);
  }

  /** Every counted segment of a self-comparison lies on the diagonal, and
      scores 1 when the scorer gives identical labels 1. */
  lemma SelfOutcomes<L(!new)>(sim: Similarity<L>, p: SequencePair<L>, ts: seq<real>, k: nat)
    requires WellFormed(p) && p.testSeq == p.refSeq && p.delay == 0.0 && 1 <= k <= |ts|
    requires IdenticalOnDiagonal(sim)
    ensures OnDiagonal(Outcomes(sim, p, ts, k))
    ensures IdenticalScoreOne(sim) ==> AllScoreOne(Outcomes(sim, p, ts, k))
  {
    var os := Outcomes(sim, p, ts, k);
    forall i | 0 <= i < |os| && os[i].Counted?
      ensures os[i].verdict.refCategory == os[i].verdict.testCategory
      ensures IdenticalScoreOne(sim) ==> os[i].verdict.score == 1.0
    {
      OutcomesIndex(sim, p, ts, k, i);
      SelfSegment(sim, p, ts[i + 1]);
      var seg := SegmentAt(sim, p, ts[i + 1]);
      assert os[i].verdict == sim.score(seg.refLabel, seg.refLabel);
    }
  }

  /** Outcomes that all lie on the diagonal leave every other cell at 0. */
  lemma {:induction false} AccumulateOffDiagonal(os: seq<Outcome>, rows: nat, cols: nat)
    requires FitsIn(os, rows, cols)
    requires OnDiagonal(os)
    ensures forall i, j :: i != j ==> At(Accumulate(os, rows, cols), i, j) == 0.0
    decreases |os|
  {
    if os != [] {
      var init := os[..|os| - 1];
      assert forall i :: 0 <= i < |init| ==> init[i] == os[i];
      AccumulateOffDiagonal(init, rows, cols);
    }
  }

  /** When every counted outcome scores 1, the running score is the counted
      length. */
  lemma {:induction false} RunningScoreAllOne(os: seq<Outcome>)
    requires AllScoreOne(os)
    ensures RunningScore(os) == CountedLength(os)
    decreases |os|
  {
    if os != [] {
      var init := os[..|os| - 1];
      assert forall i :: 0 <= i < |init| ==> init[i] == os[i];
      RunningScoreAllOne(init);
    }
  }

  lemma DivideBySelf(d: real)
    requires d > 0.0
    ensures d / d == 1.0
  {
  }

  /** A sequence aligned with itself without delay: the matrix has nothing
      off its diagonal, and when the scorer gives identical labels 1 and
      something is counted, the recorded score is 1. */
  lemma SelfAlignment<L(!new)>(sim: Similarity<L>, p: SequencePair<L>)
    requires WellFormed(p) && CategoriesInRange(sim) && p.testSeq == p.refSeq && p.delay == 0.0
    requires IdenticalOnDiagonal(sim)
    ensures forall i, j :: i != j ==> At(PairMatrix(sim, p), i, j) == 0.0
    ensures IdenticalScoreOne(sim) && Total(PairMatrix(sim, p)) > 0.0 ==> PairScore(sim, p) == 1.0
  {
    var ts := ChangeTimes(p);
    var os := Outcomes(sim, p, ts, |ts|);
    assert os == PairOutcomes(sim, p);
    OutcomesFit(sim, p, ts, |ts|);
    SelfOutcomes(sim, p, ts, |ts|);
    AccumulateOffDiagonal(os, sim.numRefLabels, sim.numTestLabels);
    AccumulateTotal(os, sim.numRefLabels, sim.numTestLabels);
    if IdenticalScoreOne(sim) {
      RunningScoreAllOne(os);
      var d := Total(PairMatrix(sim, p));
      if d > 0.0 {
        assert RunningScore(os) == d;
        DivideBySelf(d);
      }
    }
  }

  // --------------------------------------------------------------- reductions

  /** Durations that are non-negative and scores in [0, 1] give a weighted sum
      between 0 and the total duration. */
  lemma {:induction false} WeightedSumBounds(d: seq<real>, s: seq<real>)
    requires |d| == |s|
    requires forall i :: 0 <= i < |d| ==> 0.0 <= d[i] && 0.0 <= s[i] <= 1.0
    ensures 0.0 <= WeightedSum(d, s) <= SeqSum(d)
    decreases |d|
  {
    if d != [] {
      WeightedSumBounds(d[..|d| - 1], s[..|s| - 1]);
      WeightedBounds(s[|s| - 1], d[|d| - 1]);
    }
  }

  /** Scores in [0, 1] have a mean in [0, 1]. */
  lemma {:induction false} SeqSumBounds(s: seq<real>)
    requires forall i :: 0 <= i < |s| ==> 0.0 <= s[i] <= 1.0
    ensures 0.0 <= SeqSum(s) <= |s| as real
    decreases |s|
  {
    if s != [] {
      SeqSumBounds(s[..|s| - 1]);
    }
  }

  /** The mean and the duration-weighted mean of per-file scores in [0, 1]
      lie in [0, 1] (calcAverageScore and calcWeightedAverageScore). */
  lemma AveragesInUnitRange<L(!new)>(e: Evaluation<L>)
    requires e.Valid()
    requires forall i :: 0 <= i < |e.scores| ==> 0.0 <= e.scores[i] <= 1.0
    requires forall i :: 0 <= i < |e.durations| ==> 0.0 <= e.durations[i]
    ensures |e.scores| > 0 ==> 0.0 <= e.AverageScore() <= 1.0
    ensures e.TotalDuration() != 0.0 ==> 0.0 <= e.WeightedAverageScore() <= 1.0
  {
    SeqSumBounds(e.scores);
    if |e.scores| > 0 {
      RatioBounds(SeqSum(e.scores), |e.scores| as real);
    }
    WeightedSumBounds(e.durations, e.scores);
    if e.TotalDuration() != 0.0 {
      RatioBounds(WeightedSum(e.durations, e.scores), e.TotalDuration());
    }
  }
}
