/** The frame-based comparison of a reference and a test label sequence
    (PairwiseEvaluation<T>): a sweep over the sorted set of change points that
    classifies every segment between two consecutive points, asks the similarity
    scorer for a score and two category indices, and accumulates the segment
    length into one cell of a confusion matrix (rows: reference categories,
    columns: test categories) and score times length into a running score.
    Each call records one matrix, one score and one duration per file. */
module PairwiseEvaluation {
  import opened Sums
  import opened Matrices
  import opened Music

  /** What the similarity scorer answers for one segment: a score (negative
      means "leave this segment out") and the reference and test categories. */
  datatype SegmentScore = SegmentScore(score: real, refCategory: nat, testCategory: nat)

  /** The similarity scorer as the evaluation sees it: the scoring function,
      the silence label of the label type, and the matrix dimensions. */
  datatype Similarity<!L> = Similarity(
    score: (L, L) -> SegmentScore,
    silence: L,
    numRefLabels: nat,
    numTestLabels: nat)

  /** Every category the scorer reports for a non-excluded segment is a valid
      matrix index. */
  ghost predicate CategoriesInRange<L(!new)>(sim: Similarity<L>)
  {
    forall a: L, b: L :: sim.score(a, b).score >= 0.0 ==>
      sim.score(a, b).refCategory < sim.numRefLabels && sim.score(a, b).testCategory < sim.numTestLabels
  }

  /** The arguments of one addSequencePair call (the verbose stream aside). */
  datatype SequencePair<L> = SequencePair(
    refSeq: seq<TimedLabel<L>>,
    testSeq: seq<TimedLabel<L>>,
    startTime: real,
    endTime: real,
    minRefDuration: real,
    maxRefDuration: real,
    delay: real)

  /** The sweep reads the current element of both sequences for every segment,
      so neither may be empty. */
  predicate WellFormed<L(!new)>(p: SequencePair<L>)
  {
    |p.refSeq| > 0 && |p.testSeq| > 0
  }

  function Min(a: real, b: real): real { if a <= b then a else b }
  function Max(a: real, b: real): real { if a >= b then a else b }

  function RefEndTime<L(!new)>(p: SequencePair<L>): real
  {
    if |p.refSeq| > 0 then p.refSeq[|p.refSeq| - 1].offset else 0.0
  }

  function TestEndTime<L(!new)>(p: SequencePair<L>): real
  {
    if |p.testSeq| > 0 then p.testSeq[|p.testSeq| - 1].offset - p.delay else 0.0
  }

  /** The end of the evaluated window: the given end time, or the last
      reference offset when the given end does not lie after the start. */
  function EndTime<L(!new)>(p: SequencePair<L>): real
  {
    if p.endTime <= p.startTime then RefEndTime(p) else p.endTime
  }

  // ------------------------------------------------------------ change points

  predicate InWindow<L(!new)>(p: SequencePair<L>, t: real)
  {
    p.startTime <= t < EndTime(p)
  }

  /** The change point contributed by time t of a label, shifted back by
      `shift`, if t lies in the window. */
  function WindowPoint<L(!new)>(p: SequencePair<L>, t: real, shift: real): set<real>
  {
    if InWindow(p, t) then {t - shift} else {}
  }

  /** Change points of the first n labels of s (onsets and offsets). */
  function LabelPoints<L(!new)>(p: SequencePair<L>, s: seq<TimedLabel<L>>, n: nat, shift: real): set<real>
    requires n <= |s|
  {
    if n == 0 then {}
    else LabelPoints(p, s, n - 1, shift) + WindowPoint(p, s[n - 1].onset, shift) + WindowPoint(p, s[n - 1].offset, shift)
  }

  /** Every change point: reference onsets and offsets in the window, test
      onsets and offsets in the window shifted back by the delay, the start and
      the end. */
  function ChangeSet<L(!new)>(p: SequencePair<L>): set<real>
  {
    LabelPoints(p, p.refSeq, |p.refSeq|, 0.0) + LabelPoints(p, p.testSeq, |p.testSeq|, p.delay)
      + {p.startTime, EndTime(p)}
  }

  /** Membership in the points of the first n labels, in plain terms. */
  lemma {:induction false} LabelPointsMember<L(!new)>(p: SequencePair<L>, s: seq<TimedLabel<L>>, n: nat, shift: real, x: real)
    requires n <= |s|
    ensures x in LabelPoints(p, s, n, shift) <==>
      exists i :: 0 <= i < n && ((InWindow(p, s[i].onset) && x == s[i].onset - shift) ||
                                 (InWindow(p, s[i].offset) && x == s[i].offset - shift))
  {
    if n > 0 {
      LabelPointsMember(p, s, n - 1, shift, x);
    }
  }

  /** Every element is smaller than every later one. */
  predicate StrictlyIncreasing(s: seq<real>)
  {
    forall i, j :: 0 <= i < j < |s| ==> s[i] < s[j]
  }

  /** Every element is smaller than the next, stated without a quantifier so
      that the insertion functions can carry it cheaply; IncreasingMeans says
      it is StrictlyIncreasing. */
  predicate Increasing(s: seq<real>)
  {
    |s| < 2 || (s[0] < s[1] && Increasing(s[1..]))
  }

  lemma {:induction false} IncreasingMeans(s: seq<real>)
    ensures Increasing(s) <==> StrictlyIncreasing(s)
    decreases |s|
  {
    if |s| >= 2 {
      IncreasingMeans(s[1..]);
      assert forall j :: 1 <= j < |s| ==> s[1..][j - 1] == s[j];
      if StrictlyIncreasing(s[1..]) && s[0] < s[1] {
        assert forall j :: 1 < j < |s| ==> s[1] < s[j];
      }
    }
  }

  /** ts lists exactly the elements of S. */
  ghost predicate Enumerates(ts: seq<real>, S: set<real>)
  {
    forall y :: y in ts <==> y in S
  }

  /** Insertion into a sorted duplicate-free sequence (std::set::insert);
      InsertSortedMembers says what it holds. */
  function InsertSorted(s: seq<real>, x: real): (r: seq<real>)
    requires Increasing(s)
    ensures Increasing(r)
    ensures |r| > 0 && r[0] == if s == [] || x < s[0] then x else s[0]
  {
    if s == [] then [x]
    else if x < s[0] then
      assert ([x] + s)[1..] == s;
      [x] + s
    else if x == s[0] then s
    else
      var rest := InsertSorted(s[1..], x);
      assert ([s[0]] + rest)[1..] == rest;
      [s[0]] + rest
  }

  /** Insertion adds x and keeps everything else. */
  lemma {:induction false} InsertSortedMembers(s: seq<real>, x: real)
    requires Increasing(s)
    ensures forall y :: y in InsertSorted(s, x) <==> y in s || y == x
  {
    if s != [] && x > s[0] {
      InsertSortedMembers(s[1..], x);
      assert s == [s[0]] + s[1..];
    }
  }

  /** A strictly increasing sequence is determined by its elements. */
  lemma {:induction false} SortedUnique(a: seq<real>, b: seq<real>)
    requires StrictlyIncreasing(a) && StrictlyIncreasing(b)
    requires forall y :: y in a <==> y in b
    ensures a == b
    decreases |a|
  {
    assert b != [] ==> b[0] in b && b[0] in a;
    if a != [] {
      assert a[0] in a && a[0] in b;
      var i :| 0 <= i < |a| && a[i] == b[0];
      var j :| 0 <= j < |b| && b[j] == a[0];
      assert a[0] <= a[i] && b[0] <= b[j];
      SortedTail(a);
      SortedTail(b);
      SortedUnique(a[1..], b[1..]);
      assert a == [a[0]] + a[1..] && b == [b[0]] + b[1..];
    }
  }

  /** The tail of a strictly increasing sequence holds everything but its
      head. */
  lemma SortedTail(a: seq<real>)
    requires StrictlyIncreasing(a) && a != []
    ensures StrictlyIncreasing(a[1..])
    ensures forall y :: y in a[1..] <==> y in a && y != a[0]
  {
    assert forall y :: y in a ==> y == a[0] || y in a[1..] by {
      assert a == [a[0]] + a[1..];
    }
    assert forall k :: 0 <= k < |a[1..]| ==> a[1..][k] == a[k + 1] != a[0];
  }

  /** Inserting the point of time t, shifted back by `shift`, when t lies in
      the window. */
  function AddWindowPoint<L(!new)>(times: seq<real>, p: SequencePair<L>, t: real, shift: real): (r: seq<real>)
    requires Increasing(times)
    ensures Increasing(r)
  {
    if InWindow(p, t) then InsertSorted(times, t - shift) else times
  }

  lemma AddWindowPointMembers<L(!new)>(times: seq<real>, p: SequencePair<L>, t: real, shift: real)
    requires Increasing(times)
    ensures forall y :: y in AddWindowPoint(times, p, t, shift) <==> y in times || y in WindowPoint(p, t, shift)
  {
    InsertSortedMembers(times, t - shift);
  }

  /** Inserting the change points of one label. */
  function AddLabelPoint<L(!new)>(times: seq<real>, p: SequencePair<L>, l: TimedLabel<L>, shift: real): (r: seq<real>)
    requires Increasing(times)
    ensures Increasing(r)
  {
    AddWindowPoint(AddWindowPoint(times, p, l.onset, shift), p, l.offset, shift)
  }

  /** Inserting the change points of the first n labels of s. */
  function AddLabelPoints<L(!new)>(times: seq<real>, p: SequencePair<L>, s: seq<TimedLabel<L>>, n: nat, shift: real): (r: seq<real>)
    requires n <= |s| && Increasing(times)
    ensures Increasing(r)
  {
    if n == 0 then times
    else
      AddLabelPoint(AddLabelPoints(times, p, s, n - 1, shift), p, s[n - 1], shift)
  }

  lemma {:induction false} AddLabelPointsMembers<L(!new)>(times: seq<real>, p: SequencePair<L>, s: seq<TimedLabel<L>>, n: nat, shift: real)
    requires n <= |s| && Increasing(times)
    ensures forall y :: y in AddLabelPoints(times, p, s, n, shift) <==> y in times || y in LabelPoints(p, s, n, shift)
  {
    if n > 0 {
      var r := AddLabelPoints(times, p, s, n - 1, shift);
      AddLabelPointsMembers(times, p, s, n - 1, shift);
      AddWindowPointMembers(r, p, s[n - 1].onset, shift);
      AddWindowPointMembers(AddWindowPoint(r, p, s[n - 1].onset, shift), p, s[n - 1].offset, shift);
    }
  }

  /** The change points in increasing order, each once (the iteration order
      of the std::set); ChangeTimesEnumerates says they are exactly the change
      set. */
  ghost function ChangeTimes<L(!new)>(p: SequencePair<L>): (ts: seq<real>)
    ensures Increasing(ts)
    ensures |ts| >= 1
  {
    var refPoints := AddLabelPoints([], p, p.refSeq, |p.refSeq|, 0.0);
    var allPoints := AddLabelPoints(refPoints, p, p.testSeq, |p.testSeq|, p.delay);
    InsertSorted(InsertSorted(allPoints, p.startTime), EndTime(p))
  }

  /** The sorted change points list every change point and nothing else, and
      they are the only strictly increasing sequence that does. */
  lemma ChangeTimesEnumerates<L(!new)>(p: SequencePair<L>, ts: seq<real>)
    ensures StrictlyIncreasing(ChangeTimes(p))
    ensures Enumerates(ChangeTimes(p), ChangeSet(p))
    ensures StrictlyIncreasing(ts) && Enumerates(ts, ChangeSet(p)) ==> ts == ChangeTimes(p)
  {
    var refPoints := AddLabelPoints([], p, p.refSeq, |p.refSeq|, 0.0);
    var allPoints := AddLabelPoints(refPoints, p, p.testSeq, |p.testSeq|, p.delay);
    AddLabelPointsMembers([], p, p.refSeq, |p.refSeq|, 0.0);
    AddLabelPointsMembers(refPoints, p, p.testSeq, |p.testSeq|, p.delay);
    InsertSortedMembers(allPoints, p.startTime);
    InsertSortedMembers(InsertSorted(allPoints, p.startTime), EndTime(p));
    IncreasingMeans(ChangeTimes(p));
    if StrictlyIncreasing(ts) && Enumerates(ts, ChangeSet(p)) {
      SortedUnique(ts, ChangeTimes(p));
    }
  }

  /** Inserting the in-window onsets and offsets of every label of s, shifted
      back by `shift`, one label after the other (PairwiseEvaluation.h:116-133). */
  method InsertLabelPoints<L(!new)>(times: seq<real>, p: SequencePair<L>, s: seq<TimedLabel<L>>, shift: real)
    returns (r: seq<real>)
    requires Increasing(times)
    ensures r == AddLabelPoints(times, p, s, |s|, shift)
  {
    r := times;
    var i := 0;
    while i < |s|
      invariant 0 <= i <= |s|
      invariant r == AddLabelPoints(times, p, s, i, shift)
    {
      r := AddLabelPoint(r, p, s[i], shift);
      i := i + 1;
    }
  }

  /** Collecting the change points into a sorted set
      (PairwiseEvaluation.h:114-140). */
  method CollectChangeTimes<L(!new)>(p: SequencePair<L>) returns (times: seq<real>)
    ensures times == ChangeTimes(p)
  {
    times := InsertLabelPoints([], p, p.refSeq, 0.0);
    times := InsertLabelPoints(times, p, p.testSeq, p.delay);
    times := InsertSorted(times, p.startTime);
    times := InsertSorted(times, EndTime(p));
  }

  // ------------------------------------------------------------------ cursors

  /** The offsets of a label sequence shifted back by `shift`: the reference
      sequence unshifted, the test sequence by the delay. */
  function Offsets<L(!new)>(s: seq<TimedLabel<L>>, shift: real): (o: seq<real>)
    ensures |o| == |s|
  {
    seq(|s|, i requires 0 <= i < |s| => s[i].offset - shift)
  }

  function RefOffsets<L(!new)>(p: SequencePair<L>): seq<real>
  {
    Offsets(p.refSeq, 0.0)
  }

  function TestOffsets<L(!new)>(p: SequencePair<L>): seq<real>
  {
    Offsets(p.testSeq, p.delay)
  }

  /** Where a forward-only cursor that starts at `from` comes to rest for time
      t; CursorFromRests says where that is. */
  function CursorFrom(offsets: seq<real>, t: real, from: nat): (c: nat)
    requires from < |offsets|
    ensures from <= c < |offsets|
    decreases |offsets| - from
  {
    if from == |offsets| - 1 || offsets[from] >= t then from else CursorFrom(offsets, t, from + 1)
  }

  /** The cursor stops at the first index at or after `from` that is the last
      one or whose offset is not before t. */
  lemma {:induction false} CursorFromRests(offsets: seq<real>, t: real, from: nat)
    requires from < |offsets|
    ensures var c := CursorFrom(offsets, t, from);
      (c == |offsets| - 1 || offsets[c] >= t) && forall j :: from <= j < c ==> offsets[j] < t
    decreases |offsets| - from
  {
    if !(from == |offsets| - 1 || offsets[from] >= t) {
      CursorFromRests(offsets, t, from + 1);
    }
  }

  /** The cursor position for time t: the first label that is the last one or
      that has not ended before t. */
  function Cursor(offsets: seq<real>, t: real): (c: nat)
    requires |offsets| > 0
    ensures c < |offsets|
  {
    CursorFrom(offsets, t, 0)
  }

  /** The cursor never moves back: a later time gives a later or equal
      position. */
  lemma CursorMonotone(offsets: seq<real>, t: real, u: real)
    requires |offsets| > 0 && t <= u
    ensures Cursor(offsets, t) <= Cursor(offsets, u)
  {
    CursorFromRests(offsets, t, 0);
    CursorFromRests(offsets, u, 0);
  }

  /** Moves a cursor forward over the labels that end before t, stopping at
      the last label (PairwiseEvaluation.h:149-158); it comes to rest exactly
      where the closed form puts it. */
  method AdvanceCursor<L(!new)>(s: seq<TimedLabel<L>>, shift: real, index: nat, t: real) returns (c: nat)
    requires |s| > 0 && index <= Cursor(Offsets(s, shift), t)
    ensures c == Cursor(Offsets(s, shift), t)
  {
    ghost var offsets := Offsets(s, shift);
    CursorFromRests(offsets, t, 0);
    c := index;
    while c + 1 < |s| && s[c].offset - shift < t
      invariant c <= Cursor(offsets, t)
    {
      assert offsets[c] == s[c].offset - shift;
      c := c + 1;
    }
    assert c < |s| - 1 ==> offsets[c] == s[c].offset - shift;
  }

  // ------------------------------------------------------------ segments

  /** The labels active in a segment, and the duration of the reference label
      or reference gap the segment lies in. */
  datatype Segment<L> = Segment(refLabel: L, testLabel: L, refDuration: real)

  /** Classification of the segment ending at `cur`, given both cursor
      positions (PairwiseEvaluation.h:162-193). */
  function Classify<L(!new)>(p: SequencePair<L>, silence: L, refIndex: nat, testIndex: nat, cur: real): Segment<L>
    requires refIndex < |p.refSeq| && testIndex < |p.testSeq|
  {
    var r := p.refSeq[refIndex];
    var refActive := cur <= RefEndTime(p) && cur > r.onset;
    var refLabel := if refActive then r.content else silence;
    var refDuration :=
      if refActive then Min(r.offset, EndTime(p)) - Max(r.onset, p.startTime)
      else if refIndex > 0 && p.refSeq[refIndex - 1].offset >= p.startTime then Min(r.onset, EndTime(p)) - p.refSeq[refIndex - 1].offset
      else Min(r.onset, EndTime(p)) - p.startTime;
    var testActive := cur <= TestEndTime(p) && cur > p.testSeq[testIndex].onset - p.delay;
    var testLabel := if testActive then p.testSeq[testIndex].content else silence;
    Segment(refLabel, testLabel, refDuration)
  }

  /** The segment ending at time t, read at the cursor positions for t. */
  function SegmentAt<L(!new)>(sim: Similarity<L>, p: SequencePair<L>, t: real): Segment<L>
    requires WellFormed(p)
  {
    Classify(p, sim.silence, Cursor(RefOffsets(p), t), Cursor(TestOffsets(p), t), t)
  }

  /** The reference-duration filter: segments whose reference label (or gap)
      lasts less than the minimum or more than the maximum are skipped. */
  predicate Included<L(!new)>(p: SequencePair<L>, seg: Segment<L>)
  {
    p.minRefDuration <= seg.refDuration <= p.maxRefDuration
  }

  function VerdictAt<L(!new)>(sim: Similarity<L>, p: SequencePair<L>, t: real): SegmentScore
    requires WellFormed(p)
  {
    var seg := SegmentAt(sim, p, t);
    sim.score(seg.refLabel, seg.testLabel)
  }

  /** The segment ending at t is counted: it passes the duration filter and the
      scorer does not exclude it. */
  predicate CountedAt<L(!new)>(sim: Similarity<L>, p: SequencePair<L>, t: real)
    requires WellFormed(p)
  {
    Included(p, SegmentAt(sim, p, t)) && VerdictAt(sim, p, t).score >= 0.0
  }

  /** Start of the k-th segment: the start time for the first, otherwise the
      previous change point. */
  function SegmentStart<L(!new)>(p: SequencePair<L>, ts: seq<real>, k: nat): real
    requires 1 <= k < |ts|
  {
    if k == 1 then p.startTime else ts[k - 1]
  }

  function SegmentLength<L(!new)>(p: SequencePair<L>, ts: seq<real>, k: nat): real
    requires 1 <= k < |ts|
  {
    ts[k] - SegmentStart(p, ts, k)
  }

  /** What the sweep does with one segment: nothing, or add `length` to the
      cell the verdict names and score times length to the running score. */
  datatype Outcome = Skipped | Counted(verdict: SegmentScore, length: real)

  /** The outcome of the segment ending at ts[k]. */
  function OutcomeAt<L(!new)>(sim: Similarity<L>, p: SequencePair<L>, ts: seq<real>, k: nat): Outcome
    requires WellFormed(p) && 1 <= k < |ts|
  {
    if CountedAt(sim, p, ts[k]) then Counted(VerdictAt(sim, p, ts[k]), SegmentLength(p, ts, k)) else Skipped
  }

  /** The outcomes of the segments ending at ts[1], ..., ts[k-1]. */
  function Outcomes<L(!new)>(sim: Similarity<L>, p: SequencePair<L>, ts: seq<real>, k: nat): (os: seq<Outcome>)
    requires WellFormed(p) && 1 <= k <= |ts|
    ensures |os| == k - 1
  {
    if k == 1 then [] else Outcomes(sim, p, ts, k - 1) + [OutcomeAt(sim, p, ts, k - 1)]
  }

  /** Every counted outcome names a cell of a rows x cols matrix. */
  ghost predicate FitsIn(os: seq<Outcome>, rows: nat, cols: nat)
  {
    forall i :: 0 <= i < |os| && os[i].Counted? ==>
      os[i].verdict.refCategory < rows && os[i].verdict.testCategory < cols
  }

  lemma {:induction false} OutcomesFit<L(!new)>(sim: Similarity<L>, p: SequencePair<L>, ts: seq<real>, k: nat)
    requires WellFormed(p) && CategoriesInRange(sim) && 1 <= k <= |ts|
    ensures FitsIn(Outcomes(sim, p, ts, k), sim.numRefLabels, sim.numTestLabels)
  {
    if k > 1 {
      OutcomesFit(sim, p, ts, k - 1);
    }
  }

  /** The confusion matrix the outcomes add up to. */
  function Accumulate(os: seq<Outcome>, rows: nat, cols: nat): (m: Matrix)
    requires FitsIn(os, rows, cols)
    ensures IsMatrix(m, rows, cols)
  {
    if os == [] then Zero(rows, cols)
    else
      var m := Accumulate(os[..|os| - 1], rows, cols);
      match os[|os| - 1]
      case Skipped => m
      case Counted(v, len) => AddCell(m, v.refCategory, v.testCategory, len)
  }

  /** A segment's score weighted by its length. */
  function Weighted(score: real, length: real): real
  {
    score * length
  }

  /** The running score the outcomes add up to. */
  function RunningScore(os: seq<Outcome>): real
  {
    if os == [] then 0.0
    else
      RunningScore(os[..|os| - 1]) +
      match os[|os| - 1]
      case Skipped => 0.0
      case Counted(v, len) => Weighted(v.score, len)
  }

  /** Total length of the counted segments. */
  function CountedLength(os: seq<Outcome>): real
  {
    if os == [] then 0.0
    else CountedLength(os[..|os| - 1]) + if os[|os| - 1].Counted? then os[|os| - 1].length else 0.0
  }

  /** The outcomes of one call's segments. */
  ghost function PairOutcomes<L(!new)>(sim: Similarity<L>, p: SequencePair<L>): seq<Outcome>
    requires WellFormed(p)
  {
    var ts := ChangeTimes(p);
    Outcomes(sim, p, ts, |ts|)
  }

  /** The confusion matrix one call records. */
  ghost function PairMatrix<L(!new)>(sim: Similarity<L>, p: SequencePair<L>): (m: Matrix)
    requires WellFormed(p) && CategoriesInRange(sim)
    ensures IsMatrix(m, sim.numRefLabels, sim.numTestLabels)
  {
    OutcomesFit(sim, p, ChangeTimes(p), |ChangeTimes(p)|);
    Accumulate(PairOutcomes(sim, p), sim.numRefLabels, sim.numTestLabels)
  }

  /** The score one call records: the running score divided by the recorded
      duration when that is positive, left as it is otherwise. */
  ghost function PairScore<L(!new)>(sim: Similarity<L>, p: SequencePair<L>): real
    requires WellFormed(p) && CategoriesInRange(sim)
  {
    var raw := RunningScore(PairOutcomes(sim, p));
    var d := Total(PairMatrix(sim, p));
    if d > 0.0 then raw / d else raw
  }

  // ---------------------------------------------------------- the evaluation

  /** Both cursors rest where the sweep leaves them after the segment ending
      at ts[k-1]: at the first labels before the first segment, at the closed
      form for ts[k-1] afterwards. */
  predicate CursorsAt<L(!new)>(p: SequencePair<L>, ts: seq<real>, k: nat, refIndex: nat, testIndex: nat)
    requires WellFormed(p) && 1 <= k <= |ts|
  {
    if k == 1 then refIndex == 0 && testIndex == 0
    else refIndex == Cursor(RefOffsets(p), ts[k - 1]) && testIndex == Cursor(TestOffsets(p), ts[k - 1])
  }

  /** Extending the outcomes by one outcome extends the matrix and the running
      score by what that outcome contributes. */
  lemma AccumulateStep(os: seq<Outcome>, o: Outcome, rows: nat, cols: nat)
    requires FitsIn(os, rows, cols)
    requires o.Counted? ==> o.verdict.refCategory < rows && o.verdict.testCategory < cols
    ensures FitsIn(os + [o], rows, cols)
    ensures Accumulate(os + [o], rows, cols) ==
      if o.Counted? then AddCell(Accumulate(os, rows, cols), o.verdict.refCategory, o.verdict.testCategory, o.length)
      else Accumulate(os, rows, cols)
    ensures RunningScore(os + [o]) == RunningScore(os) + if o.Counted? then Weighted(o.verdict.score, o.length) else 0.0
  {
    assert (os + [o])[..|os|] == os;
  }

  /** The work of the sweep for the segment ending at ts[k]: advances both
      cursors, classifies the segment, applies the duration filter and asks
      the scorer (PairwiseEvaluation.h:149-193 and 195-198). */
  method SweepSegment<L(!new)>(sim: Similarity<L>, p: SequencePair<L>, ts: seq<real>, k: nat,
                               refIndex: nat, testIndex: nat, segmentLength: real, ghost outcomes: seq<Outcome>)
    returns (newRefIndex: nat, newTestIndex: nat, outcome: Outcome)
    requires WellFormed(p) && CategoriesInRange(sim) && Increasing(ts) && 1 <= k < |ts|
    requires CursorsAt(p, ts, k, refIndex, testIndex)
    requires segmentLength == SegmentLength(p, ts, k)
    requires outcomes == Outcomes(sim, p, ts, k)
    ensures CursorsAt(p, ts, k + 1, newRefIndex, newTestIndex)
    ensures Outcomes(sim, p, ts, k + 1) == outcomes + [outcome]
    ensures outcome.Counted? ==>
              outcome.length == segmentLength &&
              outcome.verdict.refCategory < sim.numRefLabels && outcome.verdict.testCategory < sim.numTestLabels
  {
    var curTime := ts[k];
    if k > 1 {
      IncreasingMeans(ts);
      CursorMonotone(RefOffsets(p), ts[k - 1], curTime);
      CursorMonotone(TestOffsets(p), ts[k - 1], curTime);
    }
    newRefIndex := AdvanceCursor(p.refSeq, 0.0, refIndex, curTime);
    newTestIndex := AdvanceCursor(p.testSeq, p.delay, testIndex, curTime);
    var segment := Classify(p, sim.silence, newRefIndex, newTestIndex, curTime);
    outcome := Skipped;
    if segment.refDuration >= p.minRefDuration && segment.refDuration <= p.maxRefDuration {
      var verdict := sim.score(segment.refLabel, segment.testLabel);
      if verdict.score >= 0.0 {
        outcome := Counted(verdict, segmentLength);
      }
    }
    assert outcome == OutcomeAt(sim, p, ts, k);
  }

  /** The sweep (PairwiseEvaluation.h:115-207): collects the change points,
      then runs over them. */
  method Sweep<L(!new)>(sim: Similarity<L>, p: SequencePair<L>) returns (matrix: Matrix, curScore: real)
    requires WellFormed(p) && CategoriesInRange(sim)
    ensures matrix == PairMatrix(sim, p)
    ensures curScore == RunningScore(PairOutcomes(sim, p))
  {
    var times := CollectChangeTimes(p);
    matrix, curScore := SweepOver(sim, p, times);
  }

  /** One iteration of the sweep: the segment ending at ts[k] is classified
      and, when counted, added to the matrix in place and to the running
      score. */
  method SweepStep<L(!new)>(sim: Similarity<L>, p: SequencePair<L>, ts: seq<real>, k: nat, current: array2<real>,
                            refIndex: nat, testIndex: nat, segmentLength: real, curScore: real,
                            ghost outcomes: seq<Outcome>, ghost m: Matrix)
    returns (newRefIndex: nat, newTestIndex: nat, newScore: real, ghost newOutcomes: seq<Outcome>, ghost newM: Matrix)
    requires WellFormed(p) && CategoriesInRange(sim) && Increasing(ts) && 1 <= k < |ts|
    requires current.Length0 == sim.numRefLabels && current.Length1 == sim.numTestLabels
    requires CursorsAt(p, ts, k, refIndex, testIndex) && segmentLength == SegmentLength(p, ts, k)
    requires outcomes == Outcomes(sim, p, ts, k) && FitsIn(outcomes, sim.numRefLabels, sim.numTestLabels)
    requires m == Accumulate(outcomes, sim.numRefLabels, sim.numTestLabels) && Holds(current, m)
    requires curScore == RunningScore(outcomes)
    modifies current
    ensures CursorsAt(p, ts, k + 1, newRefIndex, newTestIndex)
    ensures newOutcomes == Outcomes(sim, p, ts, k + 1) && FitsIn(newOutcomes, sim.numRefLabels, sim.numTestLabels)
    ensures newM == Accumulate(newOutcomes, sim.numRefLabels, sim.numTestLabels) && Holds(current, newM)
    ensures newScore == RunningScore(newOutcomes)
  {
    var outcome;
    newRefIndex, newTestIndex, outcome := SweepSegment(sim, p, ts, k, refIndex, testIndex, segmentLength, outcomes);
    AccumulateStep(outcomes, outcome, sim.numRefLabels, sim.numTestLabels);
    newScore, newM := curScore, m;
    if outcome.Counted? {
      AddToCell(current, m, outcome.verdict.refCategory, outcome.verdict.testCategory, segmentLength);
      newM := AddCell(m, outcome.verdict.refCategory, outcome.verdict.testCategory, segmentLength);
      newScore := curScore + Weighted(outcome.verdict.score, segmentLength);
    }
    newOutcomes := outcomes + [outcome];
  }

  /** The run over consecutive change points (PairwiseEvaluation.h:143-207):
      the confusion matrix of the counted segments, accumulated in place, and
      the running score. */
  method SweepOver<L(!new)>(sim: Similarity<L>, p: SequencePair<L>, times: seq<real>) returns (matrix: Matrix, curScore: real)
    requires WellFormed(p) && CategoriesInRange(sim) && Increasing(times) && |times| >= 1
    ensures FitsIn(Outcomes(sim, p, times, |times|), sim.numRefLabels, sim.numTestLabels)
    ensures matrix == Accumulate(Outcomes(sim, p, times, |times|), sim.numRefLabels, sim.numTestLabels)
    ensures curScore == RunningScore(Outcomes(sim, p, times, |times|))
  {
    var rows, cols := sim.numRefLabels, sim.numTestLabels;
    var current := new real[rows, cols]((i, j) => 0.0);
    curScore := 0.0;
    var curTime := p.startTime;
    var refIndex, testIndex := 0, 0;
    ghost var outcomes: seq<Outcome> := [];
    ghost var m := Zero(rows, cols);
    var k := 1;
    while k < |times|
      invariant 1 <= k <= |times|
      invariant curTime == if k == 1 then p.startTime else times[k - 1]
      invariant CursorsAt(p, times, k, refIndex, testIndex)
      invariant outcomes == Outcomes(sim, p, times, k) && FitsIn(outcomes, rows, cols)
      invariant m == Accumulate(outcomes, rows, cols) && Holds(current, m)
      invariant curScore == RunningScore(outcomes)
    {
      var prevTime := curTime;
      curTime := times[k];
      refIndex, testIndex, curScore, outcomes, m :=
        SweepStep(sim, p, times, k, current, refIndex, testIndex, curTime - prevTime, curScore, outcomes, m);
      k := k + 1;
    }
    matrix := Snapshot(current);
    MatrixEqual(matrix, m, rows, cols);
  }

  class Evaluation<L(!new)> {
    const similarity: Similarity<L>
    /** Per-file history: one entry per addSequencePair call. */
    var durations: seq<real>
    var scores: seq<real>
    var confusionMatrices: seq<Matrix>

    /** The histories run in step, every matrix has the scorer's dimensions,
        and every recorded duration is the sum of its matrix. */
    ghost predicate Valid()
      reads this
    {
      CategoriesInRange(similarity) &&
      |durations| == |scores| == |confusionMatrices| &&
      forall i :: 0 <= i < |confusionMatrices| ==>
        IsMatrix(confusionMatrices[i], similarity.numRefLabels, similarity.numTestLabels) &&
        durations[i] == Total(confusionMatrices[i])
    }

    constructor (sim: Similarity<L>)
      requires CategoriesInRange(sim)
      ensures Valid()
      ensures similarity == sim && durations == [] && scores == [] && confusionMatrices == []
    {
      similarity := sim;
      durations, scores, confusionMatrices := [], [], [];
    }

    /** Aligns one pair of sequences and records its matrix, score and
        duration (PairwiseEvaluation.h:84-223). */
    method AddSequencePair(p: SequencePair<L>)
      requires Valid() && WellFormed(p)
      modifies this
      ensures Valid()
      ensures confusionMatrices == old(confusionMatrices) + [PairMatrix(similarity, p)]
      ensures scores == old(scores) + [PairScore(similarity, p)]
      ensures durations == old(durations) + [Total(PairMatrix(similarity, p))]
    {
      var matrix, curScore := Sweep(similarity, p);
      var duration := Total(matrix);
      if duration > 0.0 {
        curScore := curScore / duration;
      }
      confusionMatrices := confusionMatrices + [matrix];
      scores := scores + [curScore];
      durations := durations + [duration];
    }

    /** Duration of the last file (getDuration). */
    function Duration(): (d: real)
      reads this
      requires Valid() && |durations| > 0
      ensures d == Total(confusionMatrices[|confusionMatrices| - 1])
    {
      durations[|durations| - 1]
    }

    /** Score of the last file (getScore). */
    function Score(): real
      reads this
      requires |scores| > 0
    {
      scores[|scores| - 1]
    }

    /** Confusion matrix of the last file (getConfusionMatrix). */
    function ConfusionMatrix(): Matrix
      reads this
      requires |confusionMatrices| > 0
    {
      confusionMatrices[|confusionMatrices| - 1]
    }

    /** Sum of the recorded durations (calcTotalDuration). */
    function TotalDuration(): real
      reads this
    {
      SeqSum(durations)
    }

    /** Element-wise sum of every recorded matrix (calcTotalConfusionMatrix);
        its cells add up to the total duration. */
    method TotalConfusionMatrix() returns (total: Matrix)
      requires Valid()
      ensures IsMatrix(total, similarity.numRefLabels, similarity.numTestLabels)
      ensures total == MatrixSum(confusionMatrices, similarity.numRefLabels, similarity.numTestLabels)
      ensures Total(total) == TotalDuration()
    {
      var rows, cols := similarity.numRefLabels, similarity.numTestLabels;
      total := Zero(rows, cols);
      TotalZero(rows, cols);
      var i := 0;
      while i < |confusionMatrices|
        invariant 0 <= i <= |confusionMatrices|
        invariant total == MatrixSum(confusionMatrices[..i], rows, cols)
        invariant Total(total) == SeqSum(durations[..i])
      {
        assert confusionMatrices[..i + 1][..i] == confusionMatrices[..i];
        assert durations[..i + 1][..i] == durations[..i];
        TotalAdd(total, confusionMatrices[i], rows, cols);
        total := Add(total, confusionMatrices[i]);
        i := i + 1;
      }
      assert confusionMatrices[..i] == confusionMatrices;
      assert durations[..i] == durations;
    }

    /** Mean of the per-file scores (calcAverageScore). */
    function AverageScore(): real
      reads this
      requires |scores| > 0
    {
      SeqSum(scores) / (|scores| as real)
    }

    /** Duration-weighted mean of the per-file scores
        (calcWeightedAverageScore). */
    function WeightedAverageScore(): real
      reads this
      requires Valid() && TotalDuration() != 0.0
    {
      WeightedSum(durations, scores) / TotalDuration()
    }
  }

  /** Element-wise sum of a list of rows x cols matrices. */
  function MatrixSum(ms: seq<Matrix>, rows: nat, cols: nat): (s: Matrix)
    requires forall i :: 0 <= i < |ms| ==> IsMatrix(ms[i], rows, cols)
    ensures IsMatrix(s, rows, cols)
  {
    if ms == [] then Zero(rows, cols)
    else
      var s := MatrixSum(ms[..|ms| - 1], rows, cols);
      assert IsMatrix(ms[|ms| - 1], rows, cols);
      Add(s, ms[|ms| - 1])
  }

  /** Sum of d[i] * s[i] (std::inner_product). */
  function WeightedSum(d: seq<real>, s: seq<real>): real
    requires |d| == |s|
  {
    if d == [] then 0.0 else WeightedSum(d[..|d| - 1], s[..|s| - 1]) + d[|d| - 1] * s[|s| - 1]
  }
}
