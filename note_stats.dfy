/** Statistics of a note confusion matrix (NoteEvaluationStats): the top-left
    numNotes x numNotes corner holds the notes, the last row and column the
    silence category. Each statistic is a sum over a set of cells, and each is
    proved equal to the sum of the matrix masked by that set. */
module NoteStats {
  import opened Sums
  import opened Matrices

  datatype NoteStats = NoteStats(matrix: Matrix, numNotes: nat)

  /** The statistics of a confusion matrix: every row but the last is a note
      (NoteEvaluationStats.cpp:13-16). */
  function NewNoteStats(m: Matrix): (s: NoteStats)
    requires |m| >= 1
    ensures s.numNotes + 1 == |m| && s.matrix == m
  {
    NoteStats(m, |m| - 1)
  }

  function CorrectNotes(s: NoteStats): real
  {
    Trace(s.matrix, s.numNotes)
  }

  function CorrectNoNotes(s: NoteStats): real
  {
    At(s.matrix, s.numNotes, s.numNotes)
  }

  /** The first numNotes cells of the last column. */
  function NoteDeletions(s: NoteStats): real
  {
    ColSum(s.matrix, Cols(s.matrix) - 1, 0, s.numNotes)
  }

  /** The first numNotes cells of the last row. */
  function NoteInsertions(s: NoteStats): real
  {
    RowSum(s.matrix, |s.matrix| - 1, 0, s.numNotes)
  }

  function ChromaticUpErrors(s: NoteStats): real
  {
    Diagonal(s.matrix, s.numNotes, -1)
  }

  function ChromaticDownErrors(s: NoteStats): real
  {
    Diagonal(s.matrix, s.numNotes, 1)
  }

  // ------------------------------------------------------------- cell sets

  /** Test note a whole number of octaves (at least one) away from the
      reference note. */
  function OctaveApart(): (int, int) -> bool
  {
    (i, j) => j != i && (j - i) % 12 == 0
  }

  /** 5, 17, 29, ... semitones. */
  predicate FifthDistance(d: int)
  {
    d > 0 && d % 12 == 5
  }

  /** Test note 5, 17, 29, ... semitones above or below the reference note. */
  predicate IsFifthApart(i: int, j: int)
  {
    FifthDistance(j - i) || FifthDistance(i - j)
  }

  function FifthApart(): (int, int) -> bool
  {
    (i, j) => IsFifthApart(i, j)
  }

  /** The smallest fifth distance is 5. */
  lemma FifthAtLeastFive(d: int)
    ensures FifthDistance(d) ==> d >= 5
  {
    assert 0 < d < 12 ==> d % 12 == d;
  }

  /** The fifth distances below i + 12 are those below i and i itself. */
  lemma FifthStep(i: int, d: int)
    requires i >= 5 && i % 12 == 5
    ensures (FifthDistance(d) && d < i + 12) <==> ((FifthDistance(d) && d < i) || d == i)
  {
    assert FifthDistance(d) ==> (d - i) % 12 == 0;
  }

  /** Octave distances below `bound` (the cells the octave loop has visited). */
  function OctaveBelow(bound: int): (int, int) -> bool
  {
    (i, j) => j != i && (j - i) % 12 == 0 && -bound < j - i < bound
  }

  /** Fifth distances below `bound` (the cells the fifth loop has visited). */
  function FifthBelow(bound: int): (int, int) -> bool
  {
    (i, j) => IsFifthApart(i, j) && -bound < j - i < bound
  }

  // ------------------------------------------------------------------ loops

  /** Widening the octave band by one octave adds the two diagonals at
      distance i. */
  lemma OctaveBelowStep(m: Matrix, n: int, i: int)
    requires i >= 12 && i % 12 == 0
    ensures Masked(m, n, OctaveBelow(i + 12)) == Masked(m, n, OctaveBelow(i)) + (Diagonal(m, n, i) + Diagonal(m, n, -i))
  {
    var withUp := (r, c) => OctaveBelow(i)(r, c) || c - r == i;
    MaskedAddDiagonal(m, n, OctaveBelow(i), i, withUp);
    MaskedAddDiagonal(m, n, withUp, -i, OctaveBelow(i + 12));
  }

  /** Widening the fifth band by one octave adds the two diagonals at
      distance i. */
  lemma FifthBelowStep(m: Matrix, n: int, i: int)
    requires i >= 5 && i % 12 == 5
    ensures Masked(m, n, FifthBelow(i + 12)) == Masked(m, n, FifthBelow(i)) + (Diagonal(m, n, i) + Diagonal(m, n, -i))
  {
    var withUp := (r, c) => FifthBelow(i)(r, c) || c - r == i;
    forall r, c
      ensures FifthBelow(i + 12)(r, c) == (withUp(r, c) || c - r == -i)
    {
      FifthStep(i, c - r);
      FifthStep(i, r - c);
      assert withUp(r, c) == (FifthBelow(i)(r, c) || c - r == i);
      assert FifthBelow(i)(r, c) == (IsFifthApart(r, c) && -i < c - r < i);
      assert FifthBelow(i + 12)(r, c) == (IsFifthApart(r, c) && -(i + 12) < c - r < i + 12);
    }
    MaskedAddDiagonal(m, n, FifthBelow(i), i, withUp);
    MaskedAddDiagonal(m, n, withUp, -i, FifthBelow(i + 12));
  }

  /** Sum of the diagonals 12, 24, ... above and below the main one inside
      the notes corner (NoteEvaluationStats.cpp:44-53): every cell an octave
      or more apart. */
  method OctaveErrors(s: NoteStats) returns (d: real)
    ensures d == Masked(s.matrix, s.numNotes, OctaveApart())
  {
    var m, n := s.matrix, s.numNotes;
    d := 0.0;
    MaskedNowhere(m, n, OctaveBelow(12));
    var i: int := 12;
    while i < n
      invariant i >= 12 && i % 12 == 0
      invariant d == Masked(m, n, OctaveBelow(i))
    {
      OctaveBelowStep(m, n, i);
      d := d + (Diagonal(m, n, i) + Diagonal(m, n, -i));
      i := i + 12;
    }
    MaskedCongruent(m, n, OctaveBelow(i), OctaveApart());
  }

  /** Sum of the diagonals 5, 17, 29, ... above and below the main one inside
      the notes corner (NoteEvaluationStats.cpp:55-64). */
  method FifthErrors(s: NoteStats) returns (d: real)
    ensures d == Masked(s.matrix, s.numNotes, FifthApart())
  {
    var m, n := s.matrix, s.numNotes;
    d := 0.0;
    forall r, c
      ensures !FifthBelow(5)(r, c)
    {
      FifthAtLeastFive(c - r);
      FifthAtLeastFive(r - c);
    }
    MaskedNowhere(m, n, FifthBelow(5));
    var i: int := 5;
    while i < n
      invariant i >= 5 && i % 12 == 5
      invariant d == Masked(m, n, FifthBelow(i))
    {
      FifthBelowStep(m, n, i);
      d := d + (Diagonal(m, n, i) + Diagonal(m, n, -i));
      i := i + 12;
    }
    MaskedCongruent(m, n, FifthBelow(i), FifthApart());
  }

  // ----------------------------------------------------------------- lemmas

  /** Notes block, deletions, insertions and correct silence add up to the
      whole of a square matrix. */
  lemma NotePartition(s: NoteStats)
    requires IsMatrix(s.matrix, s.numNotes + 1, s.numNotes + 1)
    ensures Region(s.matrix, 0, s.numNotes, 0, s.numNotes) + NoteDeletions(s) + NoteInsertions(s) + CorrectNoNotes(s)
            == Total(s.matrix)
  {
    CornerPartition(s.matrix, s.numNotes);
  }

  /** The cells counted as correct, octave, fifth, chromatic-up and
      chromatic-down errors are pairwise disjoint, so on a matrix of durations
      together they never exceed the notes block. */
  lemma NoteErrorsWithinBlock(s: NoteStats)
    requires NonNegative(s.matrix)
    ensures 0.0 <= CorrectNotes(s) + Masked(s.matrix, s.numNotes, OctaveApart()) + Masked(s.matrix, s.numNotes, FifthApart())
                   + ChromaticUpErrors(s) + ChromaticDownErrors(s)
    ensures CorrectNotes(s) + Masked(s.matrix, s.numNotes, OctaveApart()) + Masked(s.matrix, s.numNotes, FifthApart())
            + ChromaticUpErrors(s) + ChromaticDownErrors(s) <= Region(s.matrix, 0, s.numNotes, 0, s.numNotes)
  {
    var m, n := s.matrix, s.numNotes;
    var octaves := (i, j) => OnDiagonal(0)(i, j) || OctaveApart()(i, j);
    var fifths := (i, j) => octaves(i, j) || FifthApart()(i, j);
    var ups := (i, j) => fifths(i, j) || j - i == -1;
    var all := (i, j) => ups(i, j) || j - i == 1;
    DiagonalIsMasked(m, n, 0);
    MaskedUnion(m, n, OnDiagonal(0), OctaveApart(), octaves);
    MaskedUnion(m, n, octaves, FifthApart(), fifths);
    MaskedAddDiagonal(m, n, fifths, -1, ups);
    MaskedAddDiagonal(m, n, ups, 1, all);
    MaskedMono(m, n, all, Everywhere());
    MaskedEverywhere(m, n);
  }
}
