/** The evaluator's driver logic: choosing the global key of a piece as the
    key that lasts longest in it, and adding up the per-file evaluations
    into a global confusion matrix, a total duration and a weighted score. */
module Evaluator {
  import opened Music
  import opened Sums
  import opened Matrices
  import opened KeyScore

  type KeySequence = seq<TimedLabel<Key>>

  function Duration(x: TimedLabel<Key>): real
  {
    x.offset - x.onset
  }

  // ------------------------------------------------------------- longest key

  /** The distinct keys of s, in order of first appearance. */
  function Uniques(s: KeySequence): (u: seq<Key>)
    ensures forall k :: k in u <==> exists i :: 0 <= i < |s| && s[i].content == k
    ensures forall a, b :: 0 <= a < b < |u| ==> u[a] != u[b]
  {
    if s == [] then []
    else
      var prefix := s[..|s| - 1];
      var u := Uniques(prefix);
      var k := s[|s| - 1].content;
      assert forall i :: 0 <= i < |prefix| ==> prefix[i] == s[i];
      if k in u then u else u + [k]
  }

  /** The total duration of the occurrences of k in s. */
  function KeyDuration(s: KeySequence, k: Key): real
  {
    if s == [] then 0.0
    else KeyDuration(s[..|s| - 1], k) + (if s[|s| - 1].content == k then Duration(s[|s| - 1]) else 0.0)
  }

  lemma {:induction false} AbsentKeyDuration(s: KeySequence, k: Key)
    requires k !in Uniques(s)
    ensures KeyDuration(s, k) == 0.0
  {
    if s != [] {
      var prefix := s[..|s| - 1];
      assert forall i :: 0 <= i < |prefix| ==> prefix[i] == s[i];
      AbsentKeyDuration(prefix, k);
    }
  }

  /** The list of (key, total duration) pairs the scan over s builds. */
  function Accumulated(s: KeySequence): seq<(Key, real)>
  {
    var u := Uniques(s);
    seq(|u|, j requires 0 <= j < |u| => (u[j], KeyDuration(s, u[j])))
  }

  /** One occurrence x added to an entry of the list. */
  function Bump(p: (Key, real), x: TimedLabel<Key>): (Key, real)
  {
    if p.0 == x.content then (p.0, p.1 + Duration(x)) else p
  }

  function BumpAll(ps: seq<(Key, real)>, x: TimedLabel<Key>): (r: seq<(Key, real)>)
    ensures |r| == |ps| && forall j :: 0 <= j < |ps| ==> r[j] == Bump(ps[j], x)
  {
    seq(|ps|, j requires 0 <= j < |ps| => Bump(ps[j], x))
  }

  /** Scanning one more occurrence adds its duration to its key's entry, or
      appends a new entry for a key not seen before. */
  lemma {:induction false} AccumulatedStep(s: KeySequence, x: TimedLabel<Key>)
    ensures Accumulated(s + [x])
            == BumpAll(Accumulated(s), x) + (if x.content in Uniques(s) then [] else [(x.content, Duration(x))])
  {
    var t := s + [x];
    assert t[..|t| - 1] == s;
    if x.content !in Uniques(s) {
      AbsentKeyDuration(s, x.content);
    }
  }

  /** The first entry with the largest total. */
  function LongestIndex(ps: seq<(Key, real)>): (m: nat)
    requires |ps| > 0
    ensures m < |ps|
    ensures forall i :: 0 <= i < |ps| ==> ps[i].1 <= ps[m].1
    ensures forall i :: 0 <= i < m ==> ps[i].1 < ps[m].1
  {
    if |ps| == 1 then 0
    else
      var m := LongestIndex(ps[..|ps| - 1]);
      assert forall i :: 0 <= i < |ps| - 1 ==> ps[..|ps| - 1][i] == ps[i];
      if ps[|ps| - 1].1 > ps[m].1 then |ps| - 1 else m
  }

  /** The key with the largest total duration, the first seen on a tie. */
  function LongestKey(keys: KeySequence): Key
    requires |keys| > 0
  {
    assert keys[0].content in Uniques(keys);
    var acc := Accumulated(keys);
    acc[LongestIndex(acc)].0
  }

  /** One pass of the inner scan of MusOOEvaluator.cpp:240-252: the
      occurrence's duration is added to every entry with its key, and a new
      entry is appended when there was none. */
  method AddOccurrence(uniques: seq<(Key, real)>, x: TimedLabel<Key>) returns (r: seq<(Key, real)>)
    ensures r == BumpAll(uniques, x)
                 + (if exists m :: 0 <= m < |uniques| && uniques[m].0 == x.content then [] else [(x.content, Duration(x))])
  {
    r := uniques;
    var found := false;
    for j := 0 to |uniques|
      invariant |r| == |uniques|
      invariant forall m :: 0 <= m < j ==> r[m] == Bump(uniques[m], x)
      invariant forall m :: j <= m < |uniques| ==> r[m] == uniques[m]
      invariant found <==> exists m :: 0 <= m < j && uniques[m].0 == x.content
    {
      if x.content == r[j].0 {
        r := r[j := (r[j].0, r[j].1 + (x.offset - x.onset))];
        found := true;
      }
    }
    assert r == BumpAll(uniques, x);
    if !found {
      r := r + [(x.content, x.offset - x.onset)];
    }
  }

  /** The running maximum of MusOOEvaluator.cpp:254-264: a later entry
      replaces the current one only when its total is strictly larger. */
  method FirstLongest(uniques: seq<(Key, real)>) returns (longest: Key)
    requires |uniques| > 0
    ensures longest == uniques[LongestIndex(uniques)].0
  {
    longest := uniques[0].0;
    var duration := uniques[0].1;
    ghost var best := 0;
    for j := 1 to |uniques|
      invariant best == LongestIndex(uniques[..j])
      invariant longest == uniques[best].0 && duration == uniques[best].1
    {
      assert uniques[..j + 1][..j] == uniques[..j];
      if uniques[j].1 > duration {
        longest := uniques[j].0;
        duration := uniques[j].1;
        best := j;
      }
    }
    assert uniques[..|uniques|] == uniques;
  }

  /** MusOOEvaluator.cpp:233-265: sums the durations per distinct key in a
      list, then keeps the first entry whose total beats all before it. */
  method FindLongestKey(keys: KeySequence) returns (longest: Key)
    requires |keys| > 0
    ensures longest == LongestKey(keys)
  {
    var uniques: seq<(Key, real)> := [];
    for i := 0 to |keys|
      invariant uniques == Accumulated(keys[..i])
    {
      var x := keys[i];
      ghost var acc := uniques;
      assert (exists m :: 0 <= m < |acc| && acc[m].0 == x.content) <==> x.content in Uniques(keys[..i]) by {
        assert forall m :: 0 <= m < |acc| ==> acc[m].0 == Uniques(keys[..i])[m];
      }
      uniques := AddOccurrence(uniques, x);
      AccumulatedStep(keys[..i], x);
      assert keys[..i + 1] == keys[..i] + [x];
    }
    assert keys[..|keys|] == keys;
    assert keys[0].content in Uniques(keys);
    longest := FirstLongest(uniques);
  }

  /** In the list of distinct keys, an earlier key first appears earlier:
      every occurrence of a later key is preceded by an occurrence of the
      earlier one. */
  lemma {:induction false} UniquesInOrder(s: KeySequence, a: nat, b: nat, i: nat)
    requires a < b < |Uniques(s)| && i < |s| && s[i].content == Uniques(s)[b]
    ensures exists i0 :: 0 <= i0 < i && s[i0].content == Uniques(s)[a]
  {
    var prefix := s[..|s| - 1];
    var u := Uniques(prefix);
    assert forall n :: 0 <= n < |prefix| ==> prefix[n] == s[n];
    if b < |u| {
      if i < |s| - 1 {
        UniquesInOrder(prefix, a, b, i);
      } else {
        var i1 :| 0 <= i1 < |prefix| && prefix[i1].content == u[b];
        UniquesInOrder(prefix, a, b, i1);
      }
    } else {
      assert Uniques(s) == u + [s[|s| - 1].content];
      assert u[a] in u;
      var i0 :| 0 <= i0 < |prefix| && prefix[i0].content == u[a];
      assert i == |s| - 1;
    }
  }

  /** What the longest key means for one occurrence i in the sequence. */
  lemma LongestAgainst(keys: KeySequence, i: nat)
    requires i < |keys|
    ensures KeyDuration(keys, keys[i].content) <= KeyDuration(keys, LongestKey(keys))
    ensures keys[i].content != LongestKey(keys)
            && KeyDuration(keys, keys[i].content) == KeyDuration(keys, LongestKey(keys))
            ==> exists i0 :: 0 <= i0 < i && keys[i0].content == LongestKey(keys)
  {
    var u := Uniques(keys);
    var acc := Accumulated(keys);
    assert keys[0].content in u;
    var m := LongestIndex(acc);
    assert LongestKey(keys) == u[m];
    assert keys[i].content in u;
    var b :| 0 <= b < |u| && u[b] == keys[i].content;
    assert acc[b].1 == KeyDuration(keys, keys[i].content);
    assert acc[m] == (u[m], KeyDuration(keys, u[m]));
    if keys[i].content != u[m] && acc[b].1 == acc[m].1 {
      assert b != m;
      assert !(b < m);
      UniquesInOrder(keys, m, b, i);
    }
  }

  /** The longest key occurs in the sequence, lasts at least as long in
      total as every key in it, and first appears before any other key that
      lasts exactly as long. */
  lemma LongestKeyMeaning(keys: KeySequence)
    requires |keys| > 0
    ensures exists i :: 0 <= i < |keys| && keys[i].content == LongestKey(keys)
    ensures forall i :: 0 <= i < |keys| ==> KeyDuration(keys, keys[i].content) <= KeyDuration(keys, LongestKey(keys))
    ensures forall i :: 0 <= i < |keys| && keys[i].content != LongestKey(keys)
                        && KeyDuration(keys, keys[i].content) == KeyDuration(keys, LongestKey(keys))
                        ==> exists i0 :: 0 <= i0 < i && keys[i0].content == LongestKey(keys)
  {
    assert keys[0].content in Uniques(keys);
    assert LongestKey(keys) in Uniques(keys);
    forall i | 0 <= i < |keys|
      ensures KeyDuration(keys, keys[i].content) <= KeyDuration(keys, LongestKey(keys))
      ensures keys[i].content != LongestKey(keys)
              && KeyDuration(keys, keys[i].content) == KeyDuration(keys, LongestKey(keys))
              ==> exists i0 :: 0 <= i0 < i && keys[i0].content == LongestKey(keys)
    {
      LongestAgainst(keys, i);
    }
  }

  // ----------------------------------------------------- cross-file totals

  /** The part of one file's evaluation the driver adds up. */
  datatype FileResult = FileResult(matrix: Matrix, duration: real, overlapScore: real)

  /** Per cell: the sum over the files of that cell. */
  function CellSum(ms: seq<Matrix>, i: int, j: int): real
  {
    if ms == [] then 0.0 else CellSum(ms[..|ms| - 1], i, j) + At(ms[|ms| - 1], i, j)
  }

  /** The running element-wise sum of the per-file matrices, starting from
      the zero matrix. */
  function SumOfMatrices(ms: seq<Matrix>, rows: nat, cols: nat): (g: Matrix)
    requires forall f :: 0 <= f < |ms| ==> IsMatrix(ms[f], rows, cols)
    ensures IsMatrix(g, rows, cols)
    ensures forall i, j :: At(g, i, j) == CellSum(ms, i, j)
  {
    if ms == [] then Zero(rows, cols)
    else
      assert forall f :: 0 <= f < |ms| - 1 ==> ms[..|ms| - 1][f] == ms[f];
      var g := SumOfMatrices(ms[..|ms| - 1], rows, cols);
      assert IsMatrix(ms[|ms| - 1], rows, cols);
      Add(g, ms[|ms| - 1])
  }

  function Totals(ms: seq<Matrix>): (ts: seq<real>)
    ensures |ts| == |ms| && forall f :: 0 <= f < |ms| ==> ts[f] == Total(ms[f])
  {
    seq(|ms|, f requires 0 <= f < |ms| => Total(ms[f]))
  }

  /** The global matrix holds as much in total as all the files together. */
  lemma {:induction false} TotalOfSum(ms: seq<Matrix>, rows: nat, cols: nat)
    requires forall f :: 0 <= f < |ms| ==> IsMatrix(ms[f], rows, cols)
    ensures Total(SumOfMatrices(ms, rows, cols)) == SeqSum(Totals(ms))
  {
    if ms == [] {
      TotalZero(rows, cols);
    } else {
      var prefix := ms[..|ms| - 1];
      TotalOfSum(prefix, rows, cols);
      TotalAdd(SumOfMatrices(prefix, rows, cols), ms[|ms| - 1], rows, cols);
      assert Totals(ms)[..|ms| - 1] == Totals(prefix);
    }
  }

  function FileMatrices(rs: seq<FileResult>): (ms: seq<Matrix>)
    ensures |ms| == |rs| && forall f :: 0 <= f < |rs| ==> ms[f] == rs[f].matrix
  {
    seq(|rs|, f requires 0 <= f < |rs| => rs[f].matrix)
  }

  function Durations(rs: seq<FileResult>): (ds: seq<real>)
    ensures |ds| == |rs| && forall f :: 0 <= f < |rs| ==> ds[f] == rs[f].duration
  {
    seq(|rs|, f requires 0 <= f < |rs| => rs[f].duration)
  }

  function WeightedScores(rs: seq<FileResult>): (ws: seq<real>)
    ensures |ws| == |rs| && forall f :: 0 <= f < |rs| ==> ws[f] == rs[f].overlapScore * rs[f].duration
  {
    seq(|rs|, f requires 0 <= f < |rs| => rs[f].overlapScore * rs[f].duration)
  }

  /** MusOOEvaluator.cpp:387-392, 466-472 and 550-557: for every file, add
      its confusion matrix into the global one, its duration into the total
      duration and its overlap score weighted by its duration into the
      weighted score. */
  method AccumulateFiles(results: seq<FileResult>, rows: nat, cols: nat)
    returns (global: Matrix, totalDuration: real, weightedScore: real)
    requires forall f :: 0 <= f < |results| ==> IsMatrix(results[f].matrix, rows, cols)
    ensures global == SumOfMatrices(FileMatrices(results), rows, cols)
    ensures totalDuration == SeqSum(Durations(results))
    ensures weightedScore == SeqSum(WeightedScores(results))
  {
    global := Zero(rows, cols);
    totalDuration := 0.0;
    weightedScore := 0.0;
    for f := 0 to |results|
      invariant global == SumOfMatrices(FileMatrices(results)[..f], rows, cols)
      invariant totalDuration == SeqSum(Durations(results)[..f])
      invariant weightedScore == SeqSum(WeightedScores(results)[..f])
    {
      var duration := results[f].duration;
      totalDuration := totalDuration + duration;
      weightedScore := weightedScore + results[f].overlapScore * duration;
      global := Add(global, results[f].matrix);
      assert FileMatrices(results)[..f + 1][..f] == FileMatrices(results)[..f];
      assert Durations(results)[..f + 1][..f] == Durations(results)[..f];
      assert WeightedScores(results)[..f + 1][..f] == WeightedScores(results)[..f];
    }
    assert FileMatrices(results)[..|results|] == FileMatrices(results);
    assert Durations(results)[..|results|] == Durations(results);
    assert WeightedScores(results)[..|results|] == WeightedScores(results);
  }

  // ------------------------------------------------------------ global key

  /** A piece: its reference and test key sequences. */
  datatype Piece = Piece(ref: KeySequence, test: KeySequence)

  predicate Scorable(pieces: seq<Piece>)
  {
    forall f :: 0 <= f < |pieces| ==> |pieces[f].ref| > 0 && |pieces[f].test| > 0
  }

  /** The cell of the global-key matrix each piece counts in: the row of
      its test global key's category and the column of its reference global
      key's. */
  function GlobalKeyCells(pieces: seq<Piece>): (cells: seq<(nat, nat)>)
    requires Scorable(pieces)
    ensures |cells| == |pieces| && InRange(cells, NumKeyLabels)
  {
    seq(|pieces|, f requires 0 <= f < |pieces| =>
      (KeyIndex(LongestKey(pieces[f].test)), KeyIndex(LongestKey(pieces[f].ref))))
  }

  /** Every cell lies inside a size x size matrix. */
  predicate InRange(cells: seq<(nat, nat)>, size: nat)
  {
    forall f :: 0 <= f < |cells| ==> cells[f].0 < size && cells[f].1 < size
  }

  /** The size x size matrix after counting the first n cells once each. */
  function CountMatrix(cells: seq<(nat, nat)>, size: nat, n: nat): (g: Matrix)
    requires InRange(cells, size) && n <= |cells|
    ensures IsMatrix(g, size, size)
  {
    if n == 0 then Zero(size, size)
    else AddCell(CountMatrix(cells, size, n - 1), cells[n - 1].0, cells[n - 1].1, 1.0)
  }

  /** The score of each piece's test global key against its reference
      global key. */
  function GlobalKeyScores(table: ScoreTable, pieces: seq<Piece>): (scores: seq<real>)
    requires |table| == 2 && |table[0]| == 12 && |table[1]| == 12
    requires Scorable(pieces)
    ensures |scores| == |pieces|
  {
    seq(|pieces|, f requires 0 <= f < |pieces| =>
      ScoreOf(table, LongestKey(pieces[f].ref), LongestKey(pieces[f].test)))
  }

  /** Every cell counted adds exactly one: the matrix holds as many counts
      as cells counted, so the global-key matrix holds one per piece. */
  lemma {:induction false} CountMatrixTotal(cells: seq<(nat, nat)>, size: nat, n: nat)
    requires InRange(cells, size) && n <= |cells|
    ensures Total(CountMatrix(cells, size, n)) == n as real
  {
    if n == 0 {
      TotalZero(size, size);
    } else {
      CountMatrixTotal(cells, size, n - 1);
      TotalAddCell(CountMatrix(cells, size, n - 1), size, size, cells[n - 1].0, cells[n - 1].1, 1.0);
    }
  }

  /** The global-key matrix holds exactly one count per piece. */
  lemma GlobalKeyMatrixTotal(pieces: seq<Piece>)
    requires Scorable(pieces)
    ensures Total(CountMatrix(GlobalKeyCells(pieces), NumKeyLabels, |pieces|)) == |pieces| as real
  {
    CountMatrixTotal(GlobalKeyCells(pieces), NumKeyLabels, |pieces|);
  }

  /** One piece scored as MusOOEvaluator.cpp:402-408 scores it: a fresh
      scorer compares the longest reference key with the longest test key
      and reports both categories. */
  method ScorePiece(table: ScoreTable, p: Piece) returns (score: real, testIndex: nat, refIndex: nat)
    requires |table| == 2 && |table[0]| == 12 && |table[1]| == 12
    requires |p.ref| > 0 && |p.test| > 0
    ensures score == ScoreOf(table, LongestKey(p.ref), LongestKey(p.test))
    ensures testIndex == KeyIndex(LongestKey(p.test)) && refIndex == KeyIndex(LongestKey(p.ref))
  {
    var scorer := new SimilarityScoreKey(table);
    var refKey := FindLongestKey(p.ref);
    var testKey := FindLongestKey(p.test);
    score := scorer.Score(refKey, testKey);
    testIndex, refIndex := scorer.testIndex, scorer.refIndex;
  }

  /** MusOOEvaluator.cpp:402-413: per piece, the global key of each side is
      its longest key, the scorer compares them, the score is added up, the
      piece is counted once, and the global matrix gets one count at (test
      category, reference category). */
  method GlobalKeyEvaluation(table: ScoreTable, pieces: seq<Piece>)
    returns (global: Matrix, weightedScore: real, count: real)
    requires |table| == 2 && |table[0]| == 12 && |table[1]| == 12
    requires Scorable(pieces)
    ensures global == CountMatrix(GlobalKeyCells(pieces), NumKeyLabels, |pieces|)
    ensures weightedScore == SeqSum(GlobalKeyScores(table, pieces))
    ensures count == |pieces| as real
  {
    global := Zero(NumKeyLabels, NumKeyLabels);
    weightedScore := 0.0;
    count := 0.0;
    for f := 0 to |pieces|
      invariant global == CountMatrix(GlobalKeyCells(pieces), NumKeyLabels, f)
      invariant weightedScore == SeqSum(GlobalKeyScores(table, pieces)[..f])
      invariant count == f as real
    {
      global, weightedScore := EvaluatePiece(table, pieces, f, global, weightedScore);
      count := count + 1.0;
    }
    assert GlobalKeyScores(table, pieces)[..|pieces|] == GlobalKeyScores(table, pieces);
  }

  /** The scoring and counting part of the loop body of
      MusOOEvaluator.cpp:402-413 for piece f: the global matrix and the
      summed score move from their values after f pieces to their values
      after f + 1. */
  method EvaluatePiece(table: ScoreTable, pieces: seq<Piece>, f: nat, global: Matrix, weightedScore: real)
    returns (global': Matrix, weightedScore': real)
    requires |table| == 2 && |table[0]| == 12 && |table[1]| == 12
    requires Scorable(pieces) && f < |pieces|
    requires global == CountMatrix(GlobalKeyCells(pieces), NumKeyLabels, f)
    requires weightedScore == SeqSum(GlobalKeyScores(table, pieces)[..f])
    ensures global' == CountMatrix(GlobalKeyCells(pieces), NumKeyLabels, f + 1)
    ensures weightedScore' == SeqSum(GlobalKeyScores(table, pieces)[..f + 1])
  {
    var score, testIndex, refIndex := ScorePiece(table, pieces[f]);
    SeqSumPrefix(GlobalKeyScores(table, pieces), f);
    weightedScore' := weightedScore + score;
    global' := AddCell(global, testIndex, refIndex, 1.0);
  }
}
