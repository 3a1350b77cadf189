/** Statistics of a key confusion matrix (KeyEvaluationStats). The top-left
    numKeys x numKeys corner holds the keys, numModes consecutive indices per
    tonic; the row and column after it hold the "no key" category. Each
    statistic is a sum over a set of cells of that corner, proved equal to
    the matrix masked by the set of cells it stands for. */
module KeyStats {
  import opened Sums
  import opened Matrices
  import opened Music

  datatype KeyStats = KeyStats(matrix: Matrix, numChromas: nat, numModes: nat)

  function NumKeys(s: KeyStats): nat
  {
    s.numModes * s.numChromas
  }

  /** C++ division by a positive integer: the quotient is truncated towards
      zero, also for a negative numerator. */
  function TruncDiv(a: int, b: int): int
    requires b > 0
  {
    if a >= 0 then a / b else -((-a) / b)
  }

  /** The statistics of a confusion matrix (KeyEvaluationStats.cpp:14-21):
      as many whole groups of numChromas keys as fit in the rows before the
      last. An empty matrix with a single chroma would ask Eigen for a corner
      of negative size, which it refuses. */
  function NewKeyStats(m: Matrix, numChromas: int): (s: KeyStats)
    requires numChromas > 0
    requires |m| > 0 || numChromas > 1
    ensures s.matrix == m && s.numChromas == numChromas
    ensures |m| == 0 ==> s.numModes == 0
    ensures |m| > 0 ==> NumKeys(s) <= |m| - 1 < NumKeys(s) + numChromas
  {
    var modes := TruncDiv(|m| - 1, numChromas);
    KeyStats(m, numChromas, modes)
  }

  function CorrectKeys(s: KeyStats): real
  {
    Trace(s.matrix, NumKeys(s))
  }

  function CorrectNoKeys(s: KeyStats): real
  {
    At(s.matrix, NumKeys(s), NumKeys(s))
  }

  /** The first numKeys cells of the last column. */
  function KeyDeletions(s: KeyStats): real
  {
    ColSum(s.matrix, Cols(s.matrix) - 1, 0, NumKeys(s))
  }

  /** The first numKeys cells of the last row. */
  function KeyInsertions(s: KeyStats): real
  {
    RowSum(s.matrix, |s.matrix| - 1, 0, NumKeys(s))
  }

  /** The diagonals numModes and numKeys - numModes above and below the main
      one. */
  function AdjacentKeys(s: KeyStats): real
  {
    var m, n, d := s.matrix, NumKeys(s) as int, s.numModes as int;
    Diagonal(m, n, d) + Diagonal(m, n, -d) + Diagonal(m, n, n - d) + Diagonal(m, n, -n + d)
  }

  /** The diagonals 5 numModes and numKeys - 5 numModes above and below the
      main one. */
  function ChromaticKeys(s: KeyStats): real
  {
    var m, n, d := s.matrix, NumKeys(s) as int, 5 * s.numModes;
    Diagonal(m, n, d) + Diagonal(m, n, -d) + Diagonal(m, n, n - d) + Diagonal(m, n, -n + d)
  }

  /** How many keys of the corner occur in the reference: rows with a
      positive cell. */
  function UniquesInRef(s: KeyStats): (u: nat)
    ensures u <= NumKeys(s)
    ensures u == |set i | 0 <= i < NumKeys(s) && RowUsed(s.matrix, NumKeys(s), i)|
  {
    CountUsedRows(s.matrix, NumKeys(s), NumKeys(s))
  }

  /** How many keys of the corner occur in the test: columns with a
      positive cell. */
  function UniquesInTest(s: KeyStats): (u: nat)
    ensures u <= NumKeys(s)
    ensures u == |set j | 0 <= j < NumKeys(s) && ColUsed(s.matrix, NumKeys(s), j)|
  {
    CountUsedCols(s.matrix, NumKeys(s), NumKeys(s))
  }

  // ----------------------------------------------------------- key indices

  /** The standard layout: twelve tonics, each major then minor. */
  predicate StandardLayout(s: KeyStats)
  {
    s.numChromas == 12 && s.numModes == 2
  }

  /** In the standard layout index i stands for the key whose tonic lies
      i / 2 steps clockwise from A on the circle of fifths, major when i is
      even and minor when it is odd; the key scorer numbers its labels the
      same way. */
  function Tonic(i: int): int
  {
    i / 2
  }

  predicate IsMinor(i: int)
  {
    i % 2 == 1
  }

  /** Steps clockwise on the circle of fifths from the tonic of key i to the
      tonic of key j. */
  function FifthsUp(i: int, j: int): int
  {
    (Tonic(j) - Tonic(i)) % 12
  }

  /** Same mode, tonics a fifth apart. */
  predicate IsAdjacentKey(i: int, j: int)
  {
    IsMinor(i) == IsMinor(j) && (FifthsUp(i, j) == 1 || FifthsUp(i, j) == 11)
  }

  /** Same mode, tonics a semitone (five fifths) apart. */
  predicate IsChromaticKey(i: int, j: int)
  {
    IsMinor(i) == IsMinor(j) && (FifthsUp(i, j) == 5 || FifthsUp(i, j) == 7)
  }

  /** A major key and its relative minor, three fifths clockwise, or a minor
      key and its relative major, three fifths anticlockwise. */
  predicate IsRelativeKey(i: int, j: int)
  {
    (!IsMinor(i) && IsMinor(j) && FifthsUp(i, j) == 3) ||
    (IsMinor(i) && !IsMinor(j) && FifthsUp(i, j) == 9)
  }

  /** Same tonic, other mode. */
  predicate IsParallelKey(i: int, j: int)
  {
    Tonic(i) == Tonic(j) && IsMinor(i) != IsMinor(j)
  }

  function AdjacentKey(): (int, int) -> bool
  {
    (i, j) => IsAdjacentKey(i, j)
  }

  function ChromaticKey(): (int, int) -> bool
  {
    (i, j) => IsChromaticKey(i, j)
  }

  function RelativeKey(): (int, int) -> bool
  {
    (i, j) => IsRelativeKey(i, j)
  }

  function ParallelKey(): (int, int) -> bool
  {
    (i, j) => IsParallelKey(i, j)
  }

  /** The diagonals that AdjacentKeys adds are the adjacent keys. */
  lemma AdjacentCells(i: int, j: int)
    requires 0 <= i < 24 && 0 <= j < 24
    ensures (j - i == 2 || j - i == -2 || j - i == 22 || j - i == -22) == IsAdjacentKey(i, j)
  {
  }

  /** The diagonals that ChromaticKeys adds are the chromatic keys. */
  lemma ChromaticCells(i: int, j: int)
    requires 0 <= i < 24 && 0 <= j < 24
    ensures (j - i == 10 || j - i == -10 || j - i == 14 || j - i == -14) == IsChromaticKey(i, j)
  {
  }

  /** In the standard layout AdjacentKeys sums the keys whose tonics are a
      fifth apart in the same mode. */
  lemma AdjacentKeysMeaning(s: KeyStats)
    requires StandardLayout(s)
    ensures AdjacentKeys(s) == Masked(s.matrix, 24, AdjacentKey())
  {
    assert NumKeys(s) == 24;
    forall i, j | 0 <= i < 24 && 0 <= j < 24
      ensures AdjacentKey()(i, j) == (j - i == 2 || j - i == -2 || j - i == 22 || j - i == -22)
    {
      AdjacentCells(i, j);
    }
    FourDiagonals(s.matrix, 24, 2, -2, 22, -22, AdjacentKey());
  }

  /** In the standard layout ChromaticKeys sums the keys whose tonics are a
      semitone apart in the same mode. */
  lemma ChromaticKeysMeaning(s: KeyStats)
    requires StandardLayout(s)
    ensures ChromaticKeys(s) == Masked(s.matrix, 24, ChromaticKey())
  {
    assert NumKeys(s) == 24;
    forall i, j | 0 <= i < 24 && 0 <= j < 24
      ensures ChromaticKey()(i, j) == (j - i == 10 || j - i == -10 || j - i == 14 || j - i == -14)
    {
      ChromaticCells(i, j);
    }
    FourDiagonals(s.matrix, 24, 10, -10, 14, -14, ChromaticKey());
  }

  // ------------------------------------------------- relative and parallel

  /** Entry e of Eigen's diagonal k of a matrix: counted along the rows for
      k >= 0 and along the columns below the main diagonal. */
  function DiagEntry(m: Matrix, k: int, e: int): real
  {
    if k >= 0 then At(m, e, e + k) else At(m, e - k, e)
  }

  /** Length of diagonal k of an n x n matrix. */
  function DiagSize(n: int, k: int): int
  {
    if k >= 0 then n - k else n + k
  }

  /** The key related to key i, in an n-key layout of major/minor pairs: the
      relative minor seven indices on (three fifths clockwise), the relative
      major seven indices back, wrapping around the end of the corner. */
  function RelativePartner(n: int, i: int): int
  {
    if i % 2 == 0 then (if i + 7 < n then i + 7 else i + 7 - n)
    else (if i >= 7 then i - 7 else i - 7 + n)
  }

  function RelativeCells(n: int): (int, int) -> bool
  {
    (i, j) => j == RelativePartner(n, i)
  }

  /** Cells visited by the first loop of RelativeKeys after `bound` entries:
      the wrapped diagonals n - 7 and -(n - 7), odd entries only. */
  predicate WrapVisited(n: int, bound: int, i: int, j: int)
  {
    (j < bound && j % 2 == 1 && i == j + n - 7) || (i < bound && i % 2 == 1 && j == i + n - 7)
  }

  /** Cells visited by the second loop after `bound` entries: the diagonals
      7 and -7, even entries only. */
  predicate StepVisited(bound: int, i: int, j: int)
  {
    (i < bound && i % 2 == 0 && j == i + 7) || (j < bound && j % 2 == 0 && i == j + 7)
  }

  function RelativeVisited(n: int, wrapBound: int, stepBound: int): (int, int) -> bool
  {
    (i, j) => WrapVisited(n, wrapBound, i, j) || StepVisited(stepBound, i, j)
  }

  /** Each entry of the wrapped diagonals adds two cells when it is odd and
      nothing when it is even. */
  lemma WrapStep(m: Matrix, n: int, e: int)
    requires n >= 8 && 0 <= e < 7
    ensures Masked(m, n, RelativeVisited(n, e + 1, 0))
            == Masked(m, n, RelativeVisited(n, e, 0))
               + (if e % 2 == 1 then DiagEntry(m, -n + 7, e) + DiagEntry(m, n - 7, e) else 0.0)
  {
    var before := RelativeVisited(n, e, 0);
    if e % 2 == 1 {
      var mid := (i, j) => before(i, j) || (i == e + n - 7 && j == e);
      MaskedAddCell(m, n, before, e + n - 7, e, mid);
      MaskedAddCell(m, n, mid, e, e + n - 7, RelativeVisited(n, e + 1, 0));
    } else {
      MaskedCongruent(m, n, before, RelativeVisited(n, e + 1, 0));
    }
  }

  /** Each entry of the diagonals 7 and -7 adds two cells when it is even
      and nothing when it is odd. */
  lemma StepStep(m: Matrix, n: int, e: int)
    requires n >= 8 && 0 <= e < n - 7
    ensures Masked(m, n, RelativeVisited(n, 7, e + 1))
            == Masked(m, n, RelativeVisited(n, 7, e))
               + (if e % 2 == 0 then DiagEntry(m, 7, e) + DiagEntry(m, -7, e) else 0.0)
  {
    var before := RelativeVisited(n, 7, e);
    if e % 2 == 0 {
      var mid := (i, j) => before(i, j) || (i == e && j == e + 7);
      MaskedAddCell(m, n, before, e, e + 7, mid);
      MaskedAddCell(m, n, mid, e + 7, e, RelativeVisited(n, 7, e + 1));
    } else {
      MaskedCongruent(m, n, before, RelativeVisited(n, 7, e + 1));
    }
  }

  /** Once both loops are done they have visited every relative cell. */
  lemma RelativeVisitedAll(m: Matrix, n: int)
    requires n >= 8 && n % 2 == 0
    ensures Masked(m, n, RelativeVisited(n, 7, n - 7)) == Masked(m, n, RelativeCells(n))
  {
    MaskedCongruent(m, n, RelativeVisited(n, 7, n - 7), RelativeCells(n));
  }

  /** Durations where the test has the relative key of the reference
      (KeyEvaluationStats.cpp:56-82): only defined for two modes. The loops
      take the odd entries of the diagonals numKeys - 7 and -(numKeys - 7)
      and the even entries of the diagonals 7 and -7. */
  method RelativeKeys(s: KeyStats) returns (r: Result<real>)
    ensures r.Err? <==> s.numModes != 2
    ensures r.Ok? && NumKeys(s) >= 8 ==> r.value == Masked(s.matrix, NumKeys(s), RelativeCells(NumKeys(s)))
  {
    if s.numModes != 2 {
      return Err("Relative keys are only defined for major-minor mode pairs");
    }
    var m, n := s.matrix, NumKeys(s) as int;
    var d := 3 * s.numModes + 1;
    var majorSuper, majorSub, minorSuper, minorSub := d, -n + d, n - d, -d;
    var total := 0.0;
    if n >= 8 {
      MaskedNowhere(m, n, RelativeVisited(n, 0, 0));
    }
    var e: int := 0;
    while e < DiagSize(n, minorSuper)
      invariant 0 <= e
      invariant n >= 8 ==> e <= 7 && total == Masked(m, n, RelativeVisited(n, e, 0))
    {
      if n >= 8 {
        WrapStep(m, n, e);
      }
      if e % 2 == 1 {
        total := total + (DiagEntry(m, majorSub, e) + DiagEntry(m, minorSuper, e));
      }
      e := e + 1;
    }
    e := 0;
    while e < DiagSize(n, minorSub)
      invariant 0 <= e
      invariant n >= 8 ==> e <= n - 7 && total == Masked(m, n, RelativeVisited(n, 7, e))
    {
      if n >= 8 {
        StepStep(m, n, e);
      }
      if e % 2 == 0 {
        total := total + (DiagEntry(m, majorSuper, e) + DiagEntry(m, minorSub, e));
      }
      e := e + 1;
    }
    if n >= 8 {
      RelativeVisitedAll(m, n);
    }
    return Ok(total);
  }

  /** In the standard layout the cells RelativeKeys adds are the relative
      keys. */
  lemma RelativeKeysMeaning(m: Matrix)
    ensures Masked(m, 24, RelativeCells(24)) == Masked(m, 24, RelativeKey())
  {
    MaskedCongruent(m, 24, RelativeCells(24), RelativeKey());
  }

  /** Cells of the parallel keys of the tonics before `bound`. */
  function ParallelBelow(bound: int): (int, int) -> bool
  {
    (i, j) => IsParallelKey(i, j) && i < bound
  }

  /** One more tonic adds its two parallel cells. */
  lemma ParallelStep(m: Matrix, n: int, t: int)
    requires 0 <= t && 2 * t + 1 < n
    ensures Masked(m, n, ParallelBelow(2 * t + 2))
            == Masked(m, n, ParallelBelow(2 * t)) + (At(m, 2 * t, 2 * t + 1) + At(m, 2 * t + 1, 2 * t))
  {
    var before := ParallelBelow(2 * t);
    var mid := (i, j) => before(i, j) || (i == 2 * t && j == 2 * t + 1);
    MaskedAddCell(m, n, before, 2 * t, 2 * t + 1, mid);
    MaskedAddCell(m, n, mid, 2 * t + 1, 2 * t, ParallelBelow(2 * t + 2));
  }

  /** Durations where the test has the parallel key of the reference
      (KeyEvaluationStats.cpp:84-97): only defined for two modes. */
  method ParallelKeys(s: KeyStats) returns (r: Result<real>)
    ensures r.Err? <==> s.numModes != 2
    ensures r.Ok? ==> r.value == Masked(s.matrix, NumKeys(s), ParallelKey())
  {
    if s.numModes != 2 {
      return Err("Parallel keys are only defined for major-minor mode pairs");
    }
    var m, n, modes := s.matrix, NumKeys(s), s.numModes;
    assert n == 2 * s.numChromas;
    var total := 0.0;
    MaskedNowhere(m, n, ParallelBelow(0));
    for t := 0 to s.numChromas
      invariant total == Masked(m, n, ParallelBelow(2 * t))
    {
      ParallelStep(m, n, t);
      total := total + (At(m, t * modes, t * modes + 1) + At(m, t * modes + 1, t * modes));
    }
    MaskedCongruent(m, n, ParallelBelow(n), ParallelKey());
    return Ok(total);
  }

  // --------------------------------------------------------------- per mode

  /** The sum of each whole row. */
  function RowTotals(m: Matrix): int -> real
  {
    i => RowSum(m, i, 0, Cols(m))
  }

  /** Correct durations of the keys of one mode: the diagonal cells of the
      indices chroma * numModes + mode. */
  function ModeCorrect(s: KeyStats, mode: int): real
  {
    BlockColumns(s.numModes, s.numChromas, DiagonalCells(s.matrix))(mode)
  }

  /** Reference durations of the keys of one mode: their whole rows. */
  function ModeDuration(s: KeyStats, mode: int): real
  {
    BlockColumns(s.numModes, s.numChromas, RowTotals(s.matrix))(mode)
  }

  /** Per mode, the correct duration and the reference duration
      (KeyEvaluationStats.cpp:118-132), accumulated in a numModes x 2 array
      one chroma at a time. */
  method CorrectKeysPerMode(s: KeyStats) returns (perMode: Matrix)
    ensures IsMatrix(perMode, s.numModes, 2)
    ensures forall mode :: 0 <= mode < s.numModes ==>
              perMode[mode][0] == ModeCorrect(s, mode) && perMode[mode][1] == ModeDuration(s, mode)
  {
    var m, modes, chromas := s.matrix, s.numModes, s.numChromas;
    var a := new real[modes, 2]((_, _) => 0.0);
    for mode := 0 to modes
      invariant forall r :: 0 <= r < mode ==> a[r, 0] == ModeCorrect(s, r) && a[r, 1] == ModeDuration(s, r)
      invariant forall r :: mode <= r < modes ==> a[r, 0] == 0.0 && a[r, 1] == 0.0
    {
      for chroma := 0 to chromas
        invariant forall r :: 0 <= r < mode ==> a[r, 0] == ModeCorrect(s, r) && a[r, 1] == ModeDuration(s, r)
        invariant forall r :: mode < r < modes ==> a[r, 0] == 0.0 && a[r, 1] == 0.0
        invariant a[mode, 0] == Sum(0, chroma, BlockOffset(modes, mode, DiagonalCells(m)))
        invariant a[mode, 1] == Sum(0, chroma, BlockOffset(modes, mode, RowTotals(m)))
      {
        var k := chroma * modes + mode;
        a[mode, 0] := a[mode, 0] + At(m, k, k);
        a[mode, 1] := a[mode, 1] + RowSum(m, k, 0, Cols(m));
      }
    }
    perMode := Snapshot(a);
  }

  /** The correct durations of all modes add up to the correct keys. */
  lemma ModesCoverCorrectKeys(s: KeyStats)
    ensures Sum(0, s.numModes, BlockColumns(s.numModes, s.numChromas, DiagonalCells(s.matrix))) == CorrectKeys(s)
  {
    var m, n := s.matrix, NumKeys(s);
    SumBlocks(s.numModes, s.numChromas, DiagonalCells(m));
    assert s.numChromas * s.numModes == n;
    SumCongruent(0, n, DiagonalCells(m), DiagonalTerms(m, n, 0));
  }

  /** The reference durations of all modes add up to the key rows. */
  lemma ModesCoverKeyRows(s: KeyStats)
    ensures Sum(0, s.numModes, BlockColumns(s.numModes, s.numChromas, RowTotals(s.matrix)))
            == Region(s.matrix, 0, NumKeys(s), 0, Cols(s.matrix))
  {
    var m, n := s.matrix, NumKeys(s);
    SumBlocks(s.numModes, s.numChromas, RowTotals(m));
    assert s.numChromas * s.numModes == n;
    SumCongruent(0, n, RowTotals(m), RegionTerms(m, 0, Cols(m)));
  }

  /** On a matrix of durations no mode is correct for longer than it sounds
      in the reference. */
  lemma ModeCorrectWithinDuration(s: KeyStats, mode: int)
    requires NonNegative(s.matrix) && IsMatrix(s.matrix, |s.matrix|, Cols(s.matrix))
    ensures 0.0 <= ModeCorrect(s, mode) <= ModeDuration(s, mode)
  {
    var m := s.matrix;
    var correct := BlockOffset(s.numModes, mode, DiagonalCells(m));
    var duration := BlockOffset(s.numModes, mode, RowTotals(m));
    forall c | 0 <= c < s.numChromas
      ensures 0.0 <= correct(c) <= duration(c)
    {
      var k := c * s.numModes + mode;
      if 0 <= k < Cols(m) {
        RowSumCovers(m, k, k, Cols(m));
      } else {
        SumNonneg(0, Cols(m), RowTerms(m, k));
      }
    }
    SumNonneg(0, s.numChromas, correct);
    SumMono(0, s.numChromas, correct, duration);
  }

  // ----------------------------------------------------------------- lemmas

  /** Keys block, deletions, insertions and correct "no key" add up to the
      whole of a square matrix. */
  lemma KeyPartition(s: KeyStats)
    requires IsMatrix(s.matrix, NumKeys(s) + 1, NumKeys(s) + 1)
    ensures Region(s.matrix, 0, NumKeys(s), 0, NumKeys(s)) + KeyDeletions(s) + KeyInsertions(s) + CorrectNoKeys(s)
            == Total(s.matrix)
  {
    CornerPartition(s.matrix, NumKeys(s));
  }

  /** A test key stands in at most one relation to the reference key. */
  lemma KeyRelationsDisjoint(i: int, j: int)
    ensures i == j ==> !IsAdjacentKey(i, j) && !IsRelativeKey(i, j) && !IsParallelKey(i, j) && !IsChromaticKey(i, j)
    ensures IsAdjacentKey(i, j) ==> !IsRelativeKey(i, j) && !IsParallelKey(i, j) && !IsChromaticKey(i, j)
    ensures IsRelativeKey(i, j) ==> !IsParallelKey(i, j) && !IsChromaticKey(i, j)
    ensures IsParallelKey(i, j) ==> !IsChromaticKey(i, j)
  {
  }

  /** In the standard layout the correct, adjacent, relative, parallel and
      chromatic cells are pairwise disjoint, so on a matrix of durations
      together they never exceed the keys block. */
  lemma KeyErrorsWithinBlock(s: KeyStats)
    requires StandardLayout(s) && NonNegative(s.matrix)
    ensures 0.0 <= CorrectKeys(s) + AdjacentKeys(s) + Masked(s.matrix, 24, RelativeKey())
                   + Masked(s.matrix, 24, ParallelKey()) + ChromaticKeys(s)
    ensures CorrectKeys(s) + AdjacentKeys(s) + Masked(s.matrix, 24, RelativeKey())
            + Masked(s.matrix, 24, ParallelKey()) + ChromaticKeys(s) <= Region(s.matrix, 0, 24, 0, 24)
  {
    var m := s.matrix;
    assert NumKeys(s) == 24;
    AdjacentKeysMeaning(s);
    ChromaticKeysMeaning(s);
    var adjacent := (i, j) => i == j || IsAdjacentKey(i, j);
    var relative := (i, j) => adjacent(i, j) || IsRelativeKey(i, j);
    var parallel := (i, j) => relative(i, j) || IsParallelKey(i, j);
    var all := (i, j) => parallel(i, j) || IsChromaticKey(i, j);
    forall i, j
      ensures !(OnDiagonal(0)(i, j) && AdjacentKey()(i, j)) && !(adjacent(i, j) && RelativeKey()(i, j))
      ensures !(relative(i, j) && ParallelKey()(i, j)) && !(parallel(i, j) && ChromaticKey()(i, j))
    {
      KeyRelationsDisjoint(i, j);
    }
    DiagonalIsMasked(m, 24, 0);
    MaskedUnion(m, 24, OnDiagonal(0), AdjacentKey(), adjacent);
    MaskedUnion(m, 24, adjacent, RelativeKey(), relative);
    MaskedUnion(m, 24, relative, ParallelKey(), parallel);
    MaskedUnion(m, 24, parallel, ChromaticKey(), all);
    MaskedMono(m, 24, all, Everywhere());
    MaskedEverywhere(m, 24);
  }
}
