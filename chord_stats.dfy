/** Statistics of a chord confusion matrix (ChordEvaluationStats). The top-left
    numChords x numChords corner holds the chords, indexed root by root:
    chord index r stands for root r / numTypes and type r % numTypes. The
    row and column after the corner hold the "no chord" category. These
    statistics read the columns as the reference (the opposite of the key
    and note statistics), so each getter is stated by its rows and columns. */
module ChordStats {
  import opened Sums
  import opened Matrices

  datatype ChordStats = ChordStats(
    matrix: Matrix, numChromas: nat, numTypes: nat,
    onlyRoots: seq<real>, onlyTypes: seq<real>,
    correctChords: real, allWrong: real)

  function NumChords(s: ChordStats): nat
  {
    s.numTypes * s.numChromas
  }

  // ------------------------------------------------------ block coordinates

  /** Root and type of chord index r, with T types per root. */
  function RootOf(T: int, r: int): int
  {
    if T > 0 then r / T else 0
  }

  function TypeOf(T: int, r: int): int
  {
    if T > 0 then r % T else 0
  }

  lemma Coordinates(T: int, r: int)
    requires T > 0
    ensures r == RootOf(T, r) * T + TypeOf(T, r) && 0 <= TypeOf(T, r) < T
    ensures r >= 0 ==> RootOf(T, r) >= 0
  {
  }

  lemma MulMono(a: int, b: int, T: int)
    requires a <= b && T >= 0
    ensures a * T <= b * T
  {
    assert b * T - a * T == (b - a) * T;
  }

  /** Index r has root i exactly when it lies in the i-th block of T. */
  lemma RootInBlock(T: int, r: int, i: int)
    requires T > 0
    ensures RootOf(T, r) == i <==> i * T <= r < i * T + T
  {
    Coordinates(T, r);
    var q := RootOf(T, r);
    if q < i {
      MulMono(q + 1, i, T);
      assert q * T + T == (q + 1) * T;
    } else if q > i {
      MulMono(i + 1, q, T);
      assert i * T + T == (i + 1) * T;
    }
  }

  /** root * T + type has that root and that type. */
  lemma CoordinatesOf(T: int, root: int, kind: int)
    requires 0 <= kind < T
    ensures RootOf(T, root * T + kind) == root && TypeOf(T, root * T + kind) == kind
  {
    RootInBlock(T, root * T + kind, root);
    Coordinates(T, root * T + kind);
  }

  /** Indices of the corner have a root below the number of roots. */
  lemma RootBelow(T: int, roots: int, r: int)
    requires T > 0 && r < roots * T
    ensures RootOf(T, r) < roots
  {
    Coordinates(T, r);
    if RootOf(T, r) >= roots {
      MulMono(roots, RootOf(T, r), T);
    }
  }

  /** Block i lies inside the corner of `roots` blocks. */
  lemma BlockInside(T: int, roots: int, i: int)
    requires T >= 0 && 0 <= i < roots
    ensures 0 <= i * T && i * T + T <= roots * T
  {
    MulMono(0, i, T);
    MulMono(i + 1, roots, T);
    assert i * T + T == (i + 1) * T;
  }

  // ------------------------------------------------------------- cell sets

  predicate InRootBlock(T: int, i: int, r: int)
  {
    i * T <= r < i * T + T
  }

  /** Cells of root block i off its diagonal: root i in both, other type. */
  function RootCells(T: int, i: int): (int, int) -> bool
  {
    (r, c) => InRootBlock(T, i, r) && InRootBlock(T, i, c) && r != c
  }

  /** Type t in both, other root. */
  predicate IsTypeCell(T: int, t: int, r: int, c: int)
  {
    T > 0 && TypeOf(T, r) == t && TypeOf(T, c) == t && RootOf(T, r) != RootOf(T, c)
  }

  function TypeCells(T: int, t: int): (int, int) -> bool
  {
    (r, c) => IsTypeCell(T, t, r, c)
  }

  /** Same root, other type. */
  predicate IsSameRootCell(T: int, r: int, c: int)
  {
    T > 0 && RootOf(T, r) == RootOf(T, c) && r != c
  }

  /** Same type, other root. */
  predicate IsSameTypeCell(T: int, r: int, c: int)
  {
    T > 0 && TypeOf(T, r) == TypeOf(T, c) && RootOf(T, r) != RootOf(T, c)
  }

  /** Other root and other type. */
  predicate IsAllWrongCell(T: int, r: int, c: int)
  {
    T > 0 && RootOf(T, r) != RootOf(T, c) && TypeOf(T, r) != TypeOf(T, c)
  }

  function SameRoot(T: int): (int, int) -> bool
  {
    (r, c) => IsSameRootCell(T, r, c)
  }

  function SameType(T: int): (int, int) -> bool
  {
    (r, c) => IsSameTypeCell(T, r, c)
  }

  function AllWrongCells(T: int): (int, int) -> bool
  {
    (r, c) => IsAllWrongCell(T, r, c)
  }

  /** Same root, other type, for the roots below b. */
  function RootsBelow(T: int, b: int): (int, int) -> bool
  {
    (r, c) => IsSameRootCell(T, r, c) && RootOf(T, r) < b
  }

  /** Same root, other type, for the roots from b on. */
  function RootsFrom(T: int, b: int): (int, int) -> bool
  {
    (r, c) => IsSameRootCell(T, r, c) && RootOf(T, r) >= b
  }

  /** Same type, other root, for the types below b. */
  function TypesBelow(T: int, b: int): (int, int) -> bool
  {
    (r, c) => IsSameTypeCell(T, r, c) && TypeOf(T, r) < b
  }

  /** Every cell is on the diagonal or in exactly one of the three error sets. */
  lemma CellKinds(T: int, r: int, c: int)
    requires T > 0
    ensures r == c || IsSameRootCell(T, r, c) || IsSameTypeCell(T, r, c) || IsAllWrongCell(T, r, c)
    ensures r == c ==> !IsSameRootCell(T, r, c) && !IsSameTypeCell(T, r, c) && !IsAllWrongCell(T, r, c)
    ensures IsSameRootCell(T, r, c) ==> !IsSameTypeCell(T, r, c) && !IsAllWrongCell(T, r, c)
    ensures IsSameTypeCell(T, r, c) ==> !IsAllWrongCell(T, r, c)
  {
    Coordinates(T, r);
    Coordinates(T, c);
  }

  // ------------------------------------------------------------ root blocks

  function BlockDiagonalTerms(m: Matrix, T: int, i: int): int -> real
  {
    x => At(m, i * T + x, i * T + x)
  }

  /** Sum of root block i minus its diagonal (ChordEvaluationStats.cpp:23-26). */
  function RootBlockOff(m: Matrix, T: int, i: int): real
  {
    Region(m, i * T, i * T + T, i * T, i * T + T) - Sum(0, T, BlockDiagonalTerms(m, T, i))
  }

  /** A root block minus its diagonal is the sum of its same-root cells. */
  lemma RootBlockMeaning(m: Matrix, T: int, n: int, i: int)
    requires T >= 0 && 0 <= i * T && i * T + T <= n
    ensures RootBlockOff(m, T, i) == Masked(m, n, RootCells(T, i))
  {
    var lo, hi := i * T, i * T + T;
    MaskedRegion(m, n, lo, hi, lo, hi);
    MaskedDiagonalRange(m, n, lo, hi);
    MaskedUnion(m, n, RootCells(T, i), DiagonalRange(lo, hi), InRegion(lo, hi, lo, hi));
    SumShift(0, T, lo, DiagonalCells(m), BlockDiagonalTerms(m, T, i));
  }

  // -------------------------------------------------------- type traversal

  /** Type cells of type t visited by the loops over (j, k) after row j has
      reached column k. */
  predicate IsTypeVisited(T: int, t: int, j: int, k: int, r: int, c: int)
  {
    IsTypeCell(T, t, r, c) && (RootOf(T, r) < j || (RootOf(T, r) == j && RootOf(T, c) < k))
  }

  function TypeVisited(T: int, t: int, j: int, k: int): (int, int) -> bool
  {
    (r, c) => IsTypeVisited(T, t, j, k, r, c)
  }

  /** Visiting (j, k) adds the cell (j T + t, k T + t) when j != k. */
  lemma TypeStep(m: Matrix, T: int, roots: int, t: int, j: int, k: int)
    requires 0 <= t < T && 0 <= j < roots && 0 <= k < roots
    ensures Masked(m, T * roots, TypeVisited(T, t, j, k + 1))
            == Masked(m, T * roots, TypeVisited(T, t, j, k)) + (if j != k then At(m, j * T + t, k * T + t) else 0.0)
  {
    var n := T * roots;
    if j != k {
      var R, C := j * T + t, k * T + t;
      CoordinatesOf(T, j, t);
      CoordinatesOf(T, k, t);
      BlockInside(T, roots, j);
      BlockInside(T, roots, k);
      forall r, c | 0 <= r < n && 0 <= c < n
        ensures IsTypeVisited(T, t, j, k + 1, r, c) == (IsTypeVisited(T, t, j, k, r, c) || (r == R && c == C))
      {
        Coordinates(T, r);
        Coordinates(T, c);
      }
      MaskedAddCell(m, n, TypeVisited(T, t, j, k), R, C, TypeVisited(T, t, j, k + 1));
    } else {
      MaskedCongruent(m, n, TypeVisited(T, t, j, k), TypeVisited(T, t, j, k + 1));
    }
  }

  /** Finishing row j is starting row j + 1. */
  lemma TypeRowDone(m: Matrix, T: int, roots: int, t: int, j: int)
    requires 0 <= t < T
    ensures Masked(m, T * roots, TypeVisited(T, t, j, roots)) == Masked(m, T * roots, TypeVisited(T, t, j + 1, 0))
  {
    var n := T * roots;
    forall r, c | 0 <= r < n && 0 <= c < n
      ensures IsTypeVisited(T, t, j, roots, r, c) == IsTypeVisited(T, t, j + 1, 0, r, c)
    {
      Coordinates(T, c);
      RootBelow(T, roots, c);
    }
    MaskedCongruent(m, n, TypeVisited(T, t, j, roots), TypeVisited(T, t, j + 1, 0));
  }

  /** Before the first row nothing is visited; after the last every type
      cell of type t is. */
  lemma TypeEnds(m: Matrix, T: int, roots: int, t: int)
    requires 0 <= t < T
    ensures Masked(m, T * roots, TypeVisited(T, t, 0, 0)) == 0.0
    ensures Masked(m, T * roots, TypeVisited(T, t, roots, 0)) == Masked(m, T * roots, TypeCells(T, t))
  {
    var n := T * roots;
    forall r, c | 0 <= r < n && 0 <= c < n
      ensures !IsTypeVisited(T, t, 0, 0, r, c)
      ensures IsTypeVisited(T, t, roots, 0, r, c) == IsTypeCell(T, t, r, c)
    {
      Coordinates(T, r);
      Coordinates(T, c);
      RootBelow(T, roots, r);
    }
    MaskedNowhere(m, n, TypeVisited(T, t, 0, 0));
    MaskedCongruent(m, n, TypeVisited(T, t, roots, 0), TypeCells(T, t));
  }

  /** Durations with type t in reference and test but another root
      (ChordEvaluationStats.cpp:30-39): the cells (j T + t, k T + t) with
      j != k. */
  method OnlyTypeOf(m: Matrix, T: nat, roots: nat, t: nat) returns (total: real)
    requires t < T
    ensures total == Masked(m, T * roots, TypeCells(T, t))
  {
    total := 0.0;
    TypeEnds(m, T, roots, t);
    for j := 0 to roots
      invariant total == Masked(m, T * roots, TypeVisited(T, t, j, 0))
    {
      for k := 0 to roots
        invariant total == Masked(m, T * roots, TypeVisited(T, t, j, k))
      {
        TypeStep(m, T, roots, t, j, k);
        if j != k {
          total := total + At(m, j * T + t, k * T + t);
        }
      }
      TypeRowDone(m, T, roots, t, j);
    }
  }

  // ----------------------------------------------------------- construction

  /** Per root: the same-root cells of the first twelve roots, 0 for the
      others. */
  function RootsSeq(m: Matrix, T: int, n: int, k: nat): seq<real>
  {
    RootsUpTo(m, T, n, k, 12)
  }

  /** The root entries once the loop has filled the roots below `done`. */
  function RootsUpTo(m: Matrix, T: int, n: int, k: nat, done: int): seq<real>
  {
    seq(k, i => if i < done && i < 12 then Masked(m, n, RootCells(T, i)) else 0.0)
  }

  /** Per type: its same-type cells. */
  function TypesSeq(m: Matrix, T: int, n: int, k: nat): seq<real>
  {
    TypesUpTo(m, T, n, k, k)
  }

  /** The type entries once the loop has filled the types below `done`. */
  function TypesUpTo(m: Matrix, T: int, n: int, k: nat, done: int): seq<real>
  {
    seq(k, t => if t < done then Masked(m, n, TypeCells(T, t)) else 0.0)
  }

  lemma RootsFill(m: Matrix, T: int, n: int, k: nat, i: int)
    requires 0 <= i < k && i < 12
    ensures RootsUpTo(m, T, n, k, i)[i := RootsUpTo(m, T, n, k, i)[i] + Masked(m, n, RootCells(T, i))]
            == RootsUpTo(m, T, n, k, i + 1)
  {
  }

  lemma TypesFill(m: Matrix, T: int, n: int, k: nat, t: int)
    requires 0 <= t < k
    ensures TypesUpTo(m, T, n, k, t)[t := TypesUpTo(m, T, n, k, t)[t] + Masked(m, n, TypeCells(T, t))]
            == TypesUpTo(m, T, n, k, t + 1)
  {
  }

  /** What the statistics hold, stated by the cell sets each figure sums. */
  function ChordStatsOf(m: Matrix, numChromas: nat): ChordStats
    requires |m| >= 1 && numChromas > 0
  {
    var T := (|m| - 1) / numChromas;
    var n := T * numChromas;
    var roots := RootsSeq(m, T, n, numChromas);
    var types := TypesSeq(m, T, n, T);
    var correct := Trace(m, n);
    ChordStats(m, numChromas, T, roots, types, correct,
               Region(m, 0, n, 0, n) - correct - SeqSum(roots) - SeqSum(types))
  }

  /** The statistics of a confusion matrix (ChordEvaluationStats.cpp:13-44):
      the rows before the last hold whole groups of numChromas roots. The
      root loop runs over twelve roots whatever numChromas is, writing into
      an array of numChromas entries, so fewer than twelve chromas would
      write outside it. */
  method NewChordStats(m: Matrix, numChromas: nat) returns (s: ChordStats)
    requires |m| >= 1 && numChromas >= 12
    ensures s == ChordStatsOf(m, numChromas)
  {
    var numTypes := (|m| - 1) / numChromas;
    var n := numTypes * numChromas;
    var onlyRoots := new real[numChromas](_ => 0.0);
    assert onlyRoots[..] == RootsUpTo(m, numTypes, n, numChromas, 0);
    for i := 0 to 12
      invariant onlyRoots[..] == RootsUpTo(m, numTypes, n, numChromas, i)
    {
      BlockInside(numTypes, numChromas, i);
      RootBlockMeaning(m, numTypes, n, i);
      RootsFill(m, numTypes, n, numChromas, i);
      onlyRoots[i] := onlyRoots[i] + RootBlockOff(m, numTypes, i);
    }
    var roots := onlyRoots[..];
    assert roots == RootsSeq(m, numTypes, n, numChromas);
    var onlyTypes := new real[numTypes](_ => 0.0);
    assert onlyTypes[..] == TypesUpTo(m, numTypes, n, numTypes, 0);
    for t := 0 to numTypes
      invariant onlyTypes[..] == TypesUpTo(m, numTypes, n, numTypes, t)
    {
      var total := OnlyTypeOf(m, numTypes, numChromas, t);
      TypesFill(m, numTypes, n, numTypes, t);
      onlyTypes[t] := onlyTypes[t] + total;
    }
    var types := onlyTypes[..];
    assert types == TypesSeq(m, numTypes, n, numTypes);
    var correct := Trace(m, n);
    s := ChordStats(m, numChromas, numTypes, roots, types, correct,
                    Region(m, 0, n, 0, n) - correct - SeqSum(roots) - SeqSum(types));
  }

  // ---------------------------------------------------------------- getters

  function CorrectChords(s: ChordStats): real
  {
    s.correctChords
  }

  function CorrectNoChords(s: ChordStats): real
  {
    At(s.matrix, NumChords(s), NumChords(s))
  }

  /** The first numChords cells of the last row. */
  function ChordDeletions(s: ChordStats): real
  {
    RowSum(s.matrix, |s.matrix| - 1, 0, NumChords(s))
  }

  /** The first numChords cells of the last column. */
  function ChordInsertions(s: ChordStats): real
  {
    ColSum(s.matrix, Cols(s.matrix) - 1, 0, NumChords(s))
  }

  function OnlyRootCorrect(s: ChordStats): real
  {
    SeqSum(s.onlyRoots)
  }

  function OnlyTypeCorrect(s: ChordStats): real
  {
    SeqSum(s.onlyTypes)
  }

  function AllWrong(s: ChordStats): real
  {
    s.allWrong
  }

  /** The first numChords columns, all rows. */
  function RefChordsDuration(s: ChordStats): real
  {
    Region(s.matrix, 0, |s.matrix|, 0, NumChords(s))
  }

  /** The whole last column. */
  function RefNoChordsDuration(s: ChordStats): real
  {
    ColSum(s.matrix, Cols(s.matrix) - 1, 0, |s.matrix|)
  }

  /** Columns of the chord corner with a positive cell. */
  function UniquesInRef(s: ChordStats): (u: nat)
    ensures u <= NumChords(s)
    ensures u == |set j | 0 <= j < NumChords(s) && ColUsed(s.matrix, NumChords(s), j)|
  {
    CountUsedCols(s.matrix, NumChords(s), NumChords(s))
  }

  /** Rows of the chord corner with a positive cell. */
  function UniquesInTest(s: ChordStats): (u: nat)
    ensures u <= NumChords(s)
    ensures u == |set i | 0 <= i < NumChords(s) && RowUsed(s.matrix, NumChords(s), i)|
  {
    CountUsedRows(s.matrix, NumChords(s), NumChords(s))
  }

  // ----------------------------------------------------------------- totals

  /** The root entries add up to the same-root cells of the first twelve
      roots (of the first k roots when k < 12). */
  lemma {:induction false} RootsSeqSum(m: Matrix, T: int, n: int, k: nat)
    ensures SeqSum(RootsSeq(m, T, n, k)) == Masked(m, n, RootsBelow(T, if k < 12 then k else 12))
    decreases k
  {
    var b := if k < 12 then k else 12;
    if k == 0 {
      MaskedNowhere(m, n, RootsBelow(T, 0));
    } else {
      var a := if k - 1 < 12 then k - 1 else 12;
      assert RootsSeq(m, T, n, k)[..k - 1] == RootsSeq(m, T, n, k - 1);
      RootsSeqSum(m, T, n, k - 1);
      if k - 1 < 12 {
        forall r, c | 0 <= r < n && 0 <= c < n
          ensures !(RootsBelow(T, a)(r, c) && RootCells(T, k - 1)(r, c))
          ensures RootsBelow(T, b)(r, c) == (RootsBelow(T, a)(r, c) || RootCells(T, k - 1)(r, c))
        {
          if T > 0 {
            RootInBlock(T, r, k - 1);
            RootInBlock(T, c, k - 1);
          }
        }
        MaskedUnion(m, n, RootsBelow(T, a), RootCells(T, k - 1), RootsBelow(T, b));
      }
    }
  }

  /** The type entries add up to the same-type cells of the first k types. */
  lemma {:induction false} TypesSeqSum(m: Matrix, T: int, n: int, k: nat)
    ensures SeqSum(TypesSeq(m, T, n, k)) == Masked(m, n, TypesBelow(T, k))
    decreases k
  {
    if k == 0 {
      forall r, c | 0 <= r < n && 0 <= c < n
        ensures !TypesBelow(T, 0)(r, c)
      {
        if T > 0 {
          Coordinates(T, r);
        }
      }
      MaskedNowhere(m, n, TypesBelow(T, 0));
    } else {
      assert TypesSeq(m, T, n, k)[..k - 1] == TypesSeq(m, T, n, k - 1);
      TypesSeqSum(m, T, n, k - 1);
      MaskedUnion(m, n, TypesBelow(T, k - 1), TypeCells(T, k - 1), TypesBelow(T, k));
    }
  }

  /** Every cell of the corner is correct, same-root, same-type or all wrong,
      and no cell is two of these. */
  lemma CornerKinds(m: Matrix, T: int, n: int)
    requires T > 0
    ensures Region(m, 0, n, 0, n)
            == Trace(m, n) + Masked(m, n, SameRoot(T)) + Masked(m, n, SameType(T)) + Masked(m, n, AllWrongCells(T))
  {
    var diag := OnDiagonal(0);
    var a := (r, c) => diag(r, c) || SameRoot(T)(r, c);
    var b := (r, c) => a(r, c) || SameType(T)(r, c);
    forall r, c | 0 <= r < n && 0 <= c < n
      ensures !(diag(r, c) && SameRoot(T)(r, c)) && !(a(r, c) && SameType(T)(r, c))
      ensures !(b(r, c) && AllWrongCells(T)(r, c))
      ensures Everywhere()(r, c) == (b(r, c) || AllWrongCells(T)(r, c))
    {
      CellKinds(T, r, c);
    }
    DiagonalIsMasked(m, n, 0);
    MaskedUnion(m, n, diag, SameRoot(T), a);
    MaskedUnion(m, n, a, SameType(T), b);
    MaskedUnion(m, n, b, AllWrongCells(T), Everywhere());
    MaskedEverywhere(m, n);
  }

  /** The same-root cells split at root 12. */
  lemma SameRootSplit(m: Matrix, T: int, n: int)
    ensures Masked(m, n, SameRoot(T)) == Masked(m, n, RootsBelow(T, 12)) + Masked(m, n, RootsFrom(T, 12))
  {
    MaskedUnion(m, n, RootsBelow(T, 12), RootsFrom(T, 12), SameRoot(T));
  }

  /** Inside a corner of `roots` blocks every same-root cell has a root below
      `roots`. */
  lemma RootsFromEmpty(m: Matrix, T: int, roots: int)
    requires T > 0
    ensures Masked(m, T * roots, RootsFrom(T, roots)) == 0.0
  {
    forall r, c | 0 <= r < T * roots && 0 <= c < T * roots
      ensures !RootsFrom(T, roots)(r, c)
    {
      RootBelow(T, roots, r);
    }
    MaskedNowhere(m, T * roots, RootsFrom(T, roots));
  }

  /** Inside the corner every type is below the number of types. */
  lemma SameTypeAll(m: Matrix, T: int, n: int)
    ensures Masked(m, n, TypesBelow(T, T)) == Masked(m, n, SameType(T))
  {
    forall r, c | 0 <= r < n && 0 <= c < n
      ensures TypesBelow(T, T)(r, c) == SameType(T)(r, c)
    {
      if T > 0 {
        Coordinates(T, r);
      }
    }
    MaskedCongruent(m, n, TypesBelow(T, T), SameType(T));
  }

  /** onlyRoots adds up the cells of the first twelve roots whose test chord
      has the reference root and another type: all same-root cells when there
      are twelve chromas. */
  lemma OnlyRootMeaning(m: Matrix, numChromas: nat)
    requires |m| >= 1 && numChromas >= 12
    ensures var s := ChordStatsOf(m, numChromas);
            OnlyRootCorrect(s) == Masked(m, NumChords(s), RootsBelow(s.numTypes, 12))
    ensures var s := ChordStatsOf(m, numChromas);
            numChromas == 12 ==> OnlyRootCorrect(s) == Masked(m, NumChords(s), SameRoot(s.numTypes))
  {
    var s := ChordStatsOf(m, numChromas);
    var T, n := s.numTypes, NumChords(s);
    RootsSeqSum(m, T, n, numChromas);
    if numChromas == 12 {
      SameRootSplit(m, T, n);
      if T > 0 {
        RootsFromEmpty(m, T, 12);
      } else {
        MaskedNowhere(m, n, RootsFrom(T, 12));
      }
    }
  }

  /** onlyTypes adds up every cell whose test chord has the reference type
      and another root. */
  lemma OnlyTypeMeaning(m: Matrix, numChromas: nat)
    requires |m| >= 1 && numChromas >= 12
    ensures var s := ChordStatsOf(m, numChromas);
            OnlyTypeCorrect(s) == Masked(m, NumChords(s), SameType(s.numTypes))
  {
    var s := ChordStatsOf(m, numChromas);
    TypesSeqSum(m, s.numTypes, NumChords(s), s.numTypes);
    SameTypeAll(m, s.numTypes, NumChords(s));
  }

  /** allWrong is what remains of the corner: the cells with another root
      and another type, plus the same-root cells of the roots from 12 on,
      which the root loop never visits. With twelve chromas it is exactly
      the cells with another root and another type, so it is never negative
      on a matrix of durations. */
  lemma AllWrongMeaning(m: Matrix, numChromas: nat)
    requires |m| >= 1 && numChromas >= 12
    ensures var s := ChordStatsOf(m, numChromas);
            AllWrong(s) == Masked(m, NumChords(s), AllWrongCells(s.numTypes)) + Masked(m, NumChords(s), RootsFrom(s.numTypes, 12))
    ensures var s := ChordStatsOf(m, numChromas);
            numChromas == 12 ==> AllWrong(s) == Masked(m, NumChords(s), AllWrongCells(s.numTypes))
    ensures var s := ChordStatsOf(m, numChromas);
            numChromas == 12 && NonNegative(m) ==> AllWrong(s) >= 0.0
  {
    var s := ChordStatsOf(m, numChromas);
    var T, n := s.numTypes, NumChords(s);
    OnlyRootMeaning(m, numChromas);
    OnlyTypeMeaning(m, numChromas);
    if T > 0 {
      CornerKinds(m, T, n);
      SameRootSplit(m, T, n);
      if numChromas == 12 {
        RootsFromEmpty(m, T, 12);
        if NonNegative(m) {
          MaskedMono(m, n, AllWrongCells(T), AllWrongCells(T));
        }
      }
    } else {
      assert n == 0;
      MaskedNowhere(m, n, Everywhere());
      MaskedEverywhere(m, n);
      DiagonalIsMasked(m, n, 0);
      MaskedNowhere(m, n, OnDiagonal(0));
      MaskedNowhere(m, n, SameType(T));
      MaskedNowhere(m, n, RootsBelow(T, 12));
      MaskedNowhere(m, n, RootsFrom(T, 12));
      MaskedNowhere(m, n, AllWrongCells(T));
    }
  }

  /** Chord corner, deletions (last row), insertions (last column) and
      correct "no chord" add up to the whole of a square matrix. */
  lemma ChordPartition(s: ChordStats)
    requires IsMatrix(s.matrix, NumChords(s) + 1, NumChords(s) + 1)
    ensures Region(s.matrix, 0, NumChords(s), 0, NumChords(s)) + ChordDeletions(s) + ChordInsertions(s) + CorrectNoChords(s)
            == Total(s.matrix)
  {
    CornerPartition(s.matrix, NumChords(s));
  }

  /** Durations with a reference chord and with reference "no chord" add up
      to the whole matrix when the last column is the "no chord" one. */
  lemma ChordDurationsCover(s: ChordStats)
    requires |s.matrix| >= 1 && IsMatrix(s.matrix, |s.matrix|, NumChords(s) + 1)
    ensures RefChordsDuration(s) + RefNoChordsDuration(s) == Total(s.matrix)
  {
    RegionSplitCols(s.matrix, 0, |s.matrix|, 0, NumChords(s), NumChords(s) + 1);
    assert Cols(s.matrix) == NumChords(s) + 1;
  }
}
