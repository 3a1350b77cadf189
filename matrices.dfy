/** Dense real matrices as sequences of rows, with the four primitive views the
    statistics use: rectangular region sums (block, slice, total), the trace,
    the k-th diagonal of a square corner, and sums masked by a cell predicate. */
module Matrices {
  import opened Sums

  type Matrix = seq<seq<real>>

  /** m has the given number of rows, each of the given length. */
  ghost predicate IsMatrix(m: Matrix, rows: nat, cols: nat)
  {
    |m| == rows && forall i :: 0 <= i < rows ==> |m[i]| == cols
  }

  /** Every cell of m is non-negative (confusion matrices hold durations). */
  ghost predicate NonNegative(m: Matrix)
  {
    forall i, j :: 0 <= i < |m| && 0 <= j < |m[i]| ==> 0.0 <= m[i][j]
  }

  /** Cell (i, j), read as 0 outside the matrix, so that every sum below is a
      sum of a total term function. */
  function At(m: Matrix, i: int, j: int): real
  {
    if 0 <= i < |m| && 0 <= j < |m[i]| then m[i][j] else 0.0
  }

  function Cols(m: Matrix): nat
  {
    if |m| == 0 then 0 else |m[0]|
  }

  /** The all-zero rows x cols matrix (Eigen's ArrayXXd::Zero). */
  function Zero(rows: nat, cols: nat): (z: Matrix)
    ensures IsMatrix(z, rows, cols)
    ensures forall i, j :: At(z, i, j) == 0.0
  {
    seq(rows, _ => seq(cols, _ => 0.0))
  }

  /** m with x added to cell (r, c). */
  function AddCell(m: Matrix, r: nat, c: nat, x: real): (n: Matrix)
    requires r < |m| && c < |m[r]|
    ensures |n| == |m| && forall i :: 0 <= i < |m| ==> |n[i]| == |m[i]|
    ensures forall i, j :: At(n, i, j) == if i == r && j == c then At(m, i, j) + x else At(m, i, j)
  {
    m[r := m[r][c := m[r][c] + x]]
  }

  /** Element-wise sum of two matrices of the same shape. */
  function Add(a: Matrix, b: Matrix): (s: Matrix)
    requires |a| == |b| && forall i :: 0 <= i < |a| ==> |a[i]| == |b[i]|
    ensures |s| == |a| && forall i :: 0 <= i < |a| ==> |s[i]| == |a[i]|
    ensures forall i, j :: At(s, i, j) == At(a, i, j) + At(b, i, j)
  {
    seq(|a|, i requires 0 <= i < |a| => seq(|a[i]|, j requires 0 <= j < |a[i]| => a[i][j] + b[i][j]))
  }

  // ---------------------------------------------------------------- regions

  function RowTerms(m: Matrix, i: int): int -> real
  {
    j => At(m, i, j)
  }

  /** Sum of row i over the columns c0 <= j < c1. */
  function RowSum(m: Matrix, i: int, c0: int, c1: int): real
  {
    Sum(c0, c1, RowTerms(m, i))
  }

  function RegionTerms(m: Matrix, c0: int, c1: int): int -> real
  {
    i => RowSum(m, i, c0, c1)
  }

  /** Sum of the cells in rows r0 <= i < r1 and columns c0 <= j < c1 (Eigen's
      block(r0, c0, r1 - r0, c1 - c0).sum()). */
  function Region(m: Matrix, r0: int, r1: int, c0: int, c1: int): real
  {
    Sum(r0, r1, RegionTerms(m, c0, c1))
  }

  /** Sum of every cell. */
  function Total(m: Matrix): real
  {
    Region(m, 0, |m|, 0, Cols(m))
  }

  /** Sum of column j over the rows r0 <= i < r1. */
  function ColSum(m: Matrix, j: int, r0: int, r1: int): real
  {
    Region(m, r0, r1, j, j + 1)
  }

  // -------------------------------------------------------- traces, diagonals

  function DiagonalTerms(m: Matrix, n: int, k: int): int -> real
  {
    i => if 0 <= i + k < n then At(m, i, i + k) else 0.0
  }

  /** Sum of the k-th diagonal of the top-left n x n corner: the cells (i, i + k)
      inside the corner (Eigen's diagonal(k): above the main one for k > 0,
      below it for k < 0). */
  function Diagonal(m: Matrix, n: int, k: int): real
  {
    Sum(0, n, DiagonalTerms(m, n, k))
  }

  /** Trace of the top-left n x n corner. */
  function Trace(m: Matrix, n: int): real
  {
    Diagonal(m, n, 0)
  }

  // ------------------------------------------------------------ masked sums

  function MaskedCell(m: Matrix, mask: (int, int) -> bool, i: int, j: int): real
  {
    if mask(i, j) then At(m, i, j) else 0.0
  }

  function MaskedRowTerms(m: Matrix, mask: (int, int) -> bool, i: int): int -> real
  {
    j => MaskedCell(m, mask, i, j)
  }

  function MaskedRow(m: Matrix, n: int, mask: (int, int) -> bool, i: int): real
  {
    Sum(0, n, MaskedRowTerms(m, mask, i))
  }

  function MaskedTerms(m: Matrix, n: int, mask: (int, int) -> bool): int -> real
  {
    i => MaskedRow(m, n, mask, i)
  }

  /** Sum of the cells (i, j) of the top-left n x n corner that satisfy mask:
      the reference definition every statistic below is compared against. */
  function Masked(m: Matrix, n: int, mask: (int, int) -> bool): real
  {
    Sum(0, n, MaskedTerms(m, n, mask))
  }

  /** The mask of every cell. */
  function Everywhere(): (int, int) -> bool
  {
    (i, j) => true
  }

  /** The mask of the k-th diagonal. */
  function OnDiagonal(k: int): (int, int) -> bool
  {
    (i, j) => j - i == k
  }

  // ------------------------------------------------------------------ lemmas

  /** Adding x to one cell adds x to the total. */
  lemma TotalAddCell(m: Matrix, rows: nat, cols: nat, r: nat, c: nat, x: real)
    requires IsMatrix(m, rows, cols) && r < rows && c < cols
    ensures IsMatrix(AddCell(m, r, c, x), rows, cols)
    ensures Total(AddCell(m, r, c, x)) == Total(m) + x
  {
    var n := AddCell(m, r, c, x);
    assert Cols(n) == cols && Cols(m) == cols;
    forall i | 0 <= i < rows && i != r
      ensures RowSum(n, i, 0, cols) == RowSum(m, i, 0, cols)
    {
      SumCongruent(0, cols, RowTerms(n, i), RowTerms(m, i));
    }
    SumBump(0, cols, c, x, RowTerms(m, r), RowTerms(n, r));
    SumBump(0, rows, r, x, RegionTerms(m, 0, cols), RegionTerms(n, 0, cols));
  }

  /** The total of an element-wise sum is the sum of the totals. */
  lemma TotalAdd(a: Matrix, b: Matrix, rows: nat, cols: nat)
    requires IsMatrix(a, rows, cols) && IsMatrix(b, rows, cols)
    ensures IsMatrix(Add(a, b), rows, cols)
    ensures Total(Add(a, b)) == Total(a) + Total(b)
  {
    var s := Add(a, b);
    if rows == 0 {
      return;
    }
    assert Cols(s) == cols && Cols(a) == cols && Cols(b) == cols;
    forall i | 0 <= i < rows
      ensures RowSum(s, i, 0, cols) == RowSum(a, i, 0, cols) + RowSum(b, i, 0, cols)
    {
      SumAdd(0, cols, RowTerms(a, i), RowTerms(b, i), RowTerms(s, i));
    }
    SumAdd(0, rows, RegionTerms(a, 0, cols), RegionTerms(b, 0, cols), RegionTerms(s, 0, cols));
  }

  /** The zero matrix has total 0. */
  lemma TotalZero(rows: nat, cols: nat)
    ensures Total(Zero(rows, cols)) == 0.0
  {
    var z := Zero(rows, cols);
    forall i | 0 <= i < rows
      ensures RowSum(z, i, 0, Cols(z)) == 0.0
    {
      SumZero(0, Cols(z), RowTerms(z, i));
    }
    SumZero(0, rows, RegionTerms(z, 0, Cols(z)));
  }

  /** Splitting a region between two row ranges. */
  lemma RegionSplitRows(m: Matrix, r0: int, r1: int, r2: int, c0: int, c1: int)
    requires r0 <= r1 <= r2
    ensures Region(m, r0, r2, c0, c1) == Region(m, r0, r1, c0, c1) + Region(m, r1, r2, c0, c1)
  {
    SumSplit(r0, r1, r2, RegionTerms(m, c0, c1));
  }

  /** Splitting a region between two column ranges. */
  lemma RegionSplitCols(m: Matrix, r0: int, r1: int, c0: int, c1: int, c2: int)
    requires c0 <= c1 <= c2
    ensures Region(m, r0, r1, c0, c2) == Region(m, r0, r1, c0, c1) + Region(m, r0, r1, c1, c2)
  {
    forall i | r0 <= i < r1
      ensures RowSum(m, i, c0, c2) == RowSum(m, i, c0, c1) + RowSum(m, i, c1, c2)
    {
      SumSplit(c0, c1, c2, RowTerms(m, i));
    }
    var f := RegionTerms(m, c0, c1);
    var g := RegionTerms(m, c1, c2);
    var h := RegionTerms(m, c0, c2);
    SumAdd(r0, r1, f, g, h);
  }

  /** A one-cell region is that cell. */
  lemma RegionCell(m: Matrix, i: int, j: int)
    ensures Region(m, i, i + 1, j, j + 1) == At(m, i, j)
  {
    SumOne(j, RowTerms(m, i));
    SumOne(i, RegionTerms(m, j, j + 1));
  }

  /** Masks that agree on the corner give the same masked sum. */
  lemma MaskedCongruent(m: Matrix, n: int, p: (int, int) -> bool, q: (int, int) -> bool)
    requires forall i, j :: 0 <= i < n && 0 <= j < n ==> p(i, j) == q(i, j)
    ensures Masked(m, n, p) == Masked(m, n, q)
  {
    forall i | 0 <= i < n
      ensures MaskedRow(m, n, p, i) == MaskedRow(m, n, q, i)
    {
      SumCongruent(0, n, MaskedRowTerms(m, p, i), MaskedRowTerms(m, q, i));
    }
    SumCongruent(0, n, MaskedTerms(m, n, p), MaskedTerms(m, n, q));
  }

  /** Disjoint masks add up: the sum over p-or-q is the sum over p plus the
      sum over q. */
  lemma MaskedUnion(m: Matrix, n: int, p: (int, int) -> bool, q: (int, int) -> bool, pq: (int, int) -> bool)
    requires forall i, j :: 0 <= i < n && 0 <= j < n ==> !(p(i, j) && q(i, j))
    requires forall i, j :: 0 <= i < n && 0 <= j < n ==> pq(i, j) == (p(i, j) || q(i, j))
    ensures Masked(m, n, pq) == Masked(m, n, p) + Masked(m, n, q)
  {
    forall i | 0 <= i < n
      ensures MaskedRow(m, n, pq, i) == MaskedRow(m, n, p, i) + MaskedRow(m, n, q, i)
    {
      SumAdd(0, n, MaskedRowTerms(m, p, i), MaskedRowTerms(m, q, i), MaskedRowTerms(m, pq, i));
    }
    SumAdd(0, n, MaskedTerms(m, n, p), MaskedTerms(m, n, q), MaskedTerms(m, n, pq));
  }

  /** On a non-negative matrix a smaller mask gives a smaller sum. */
  lemma MaskedMono(m: Matrix, n: int, p: (int, int) -> bool, q: (int, int) -> bool)
    requires NonNegative(m)
    requires forall i, j :: 0 <= i < n && 0 <= j < n && p(i, j) ==> q(i, j)
    ensures 0.0 <= Masked(m, n, p) <= Masked(m, n, q)
  {
    forall i | 0 <= i < n
      ensures 0.0 <= MaskedRow(m, n, p, i) <= MaskedRow(m, n, q, i)
    {
      SumNonneg(0, n, MaskedRowTerms(m, p, i));
      SumMono(0, n, MaskedRowTerms(m, p, i), MaskedRowTerms(m, q, i));
    }
    SumNonneg(0, n, MaskedTerms(m, n, p));
    SumMono(0, n, MaskedTerms(m, n, p), MaskedTerms(m, n, q));
  }

  /** The unmasked sum over the corner is the corner's region sum. */
  lemma MaskedEverywhere(m: Matrix, n: int)
    ensures Masked(m, n, Everywhere()) == Region(m, 0, n, 0, n)
  {
    forall i | 0 <= i < n
      ensures MaskedRow(m, n, Everywhere(), i) == RowSum(m, i, 0, n)
    {
      SumCongruent(0, n, MaskedRowTerms(m, Everywhere(), i), RowTerms(m, i));
    }
    SumCongruent(0, n, MaskedTerms(m, n, Everywhere()), RegionTerms(m, 0, n));
  }

  /** A masked row whose mask holds at exactly one column c is that cell. */
  lemma MaskedRowSingle(m: Matrix, n: int, mask: (int, int) -> bool, i: int, c: int)
    requires 0 <= c < n
    requires mask(i, c)
    requires forall j :: 0 <= j < n && j != c ==> !mask(i, j)
    ensures MaskedRow(m, n, mask, i) == At(m, i, c)
  {
    SumSingle(0, n, c, MaskedRowTerms(m, mask, i));
  }

  /** A masked row whose mask holds nowhere is 0. */
  lemma MaskedRowEmpty(m: Matrix, n: int, mask: (int, int) -> bool, i: int)
    requires forall j :: 0 <= j < n ==> !mask(i, j)
    ensures MaskedRow(m, n, mask, i) == 0.0
  {
    SumZero(0, n, MaskedRowTerms(m, mask, i));
  }

  /** The k-th diagonal is the sum masked by "column minus row is k". */
  lemma DiagonalIsMasked(m: Matrix, n: int, k: int)
    ensures Diagonal(m, n, k) == Masked(m, n, OnDiagonal(k))
  {
    forall i | 0 <= i < n
      ensures MaskedRow(m, n, OnDiagonal(k), i) == DiagonalTerms(m, n, k)(i)
    {
      if 0 <= i + k < n {
        MaskedRowSingle(m, n, OnDiagonal(k), i, i + k);
      } else {
        MaskedRowEmpty(m, n, OnDiagonal(k), i);
      }
    }
    SumCongruent(0, n, MaskedTerms(m, n, OnDiagonal(k)), DiagonalTerms(m, n, k));
  }

  /** Adding the k-th diagonal to a masked sum that does not touch it gives
      the sum masked by the union. */
  lemma MaskedAddDiagonal(m: Matrix, n: int, p: (int, int) -> bool, k: int, q: (int, int) -> bool)
    requires forall i, j :: 0 <= i < n && 0 <= j < n ==> !(p(i, j) && j - i == k)
    requires forall i, j :: 0 <= i < n && 0 <= j < n ==> q(i, j) == (p(i, j) || j - i == k)
    ensures Masked(m, n, q) == Masked(m, n, p) + Diagonal(m, n, k)
  {
    DiagonalIsMasked(m, n, k);
    MaskedUnion(m, n, p, OnDiagonal(k), q);
  }

  /** The mask that holds nowhere sums to 0. */
  lemma MaskedNowhere(m: Matrix, n: int, p: (int, int) -> bool)
    requires forall i, j :: 0 <= i < n && 0 <= j < n ==> !p(i, j)
    ensures Masked(m, n, p) == 0.0
  {
    forall i | 0 <= i < n
      ensures MaskedRow(m, n, p, i) == 0.0
    {
      MaskedRowEmpty(m, n, p, i);
    }
    SumZero(0, n, MaskedTerms(m, n, p));
  }

  /** The total of an (n+1) x (n+1) matrix is its top-left n x n corner, the
      first n cells of the last row, the first n cells of the last column and
      the last diagonal cell. */
  lemma CornerPartition(m: Matrix, n: nat)
    requires IsMatrix(m, n + 1, n + 1)
    ensures Total(m) == Region(m, 0, n, 0, n) + RowSum(m, n, 0, n) + ColSum(m, n, 0, n) + At(m, n, n)
  {
    assert Cols(m) == n + 1;
    RegionSplitRows(m, 0, n, n + 1, 0, n + 1);
    RegionSplitCols(m, 0, n, 0, n, n + 1);
    RegionSplitCols(m, n, n + 1, 0, n, n + 1);
    SumOne(n, RegionTerms(m, 0, n));
    RegionCell(m, n, n);
  }

  // -------------------------------------------------------- used rows/columns

  /** Row i has a positive cell among its first n columns. */
  predicate RowUsed(m: Matrix, n: int, i: int)
  {
    exists j :: 0 <= j < n && At(m, i, j) > 0.0
  }

  /** Column j has a positive cell among its first n rows. */
  predicate ColUsed(m: Matrix, n: int, j: int)
  {
    exists i :: 0 <= i < n && At(m, i, j) > 0.0
  }

  /** How many of the first k rows of the n x n corner hold a positive cell
      (Eigen's (corner > 0).rowwise().any().count()). */
  function CountUsedRows(m: Matrix, n: int, k: nat): (c: nat)
    ensures c <= k
    ensures c == |set i | 0 <= i < k && RowUsed(m, n, i)|
  {
    if k == 0 then 0
    else
      var below := set i | 0 <= i < k - 1 && RowUsed(m, n, i);
      assert (set i | 0 <= i < k && RowUsed(m, n, i)) == below + if RowUsed(m, n, k - 1) then {k - 1} else {};
      CountUsedRows(m, n, k - 1) + if RowUsed(m, n, k - 1) then 1 else 0
  }

  /** How many of the first k columns of the n x n corner hold a positive cell
      (Eigen's (corner > 0).colwise().any().count()). */
  function CountUsedCols(m: Matrix, n: int, k: nat): (c: nat)
    ensures c <= k
    ensures c == |set j | 0 <= j < k && ColUsed(m, n, j)|
  {
    if k == 0 then 0
    else
      var below := set j | 0 <= j < k - 1 && ColUsed(m, n, j);
      assert (set j | 0 <= j < k && ColUsed(m, n, j)) == below + if ColUsed(m, n, k - 1) then {k - 1} else {};
      CountUsedCols(m, n, k - 1) + if ColUsed(m, n, k - 1) then 1 else 0
  }

  /** Adding one cell outside a mask gives the sum masked by the mask with
      that cell. */
  lemma MaskedAddCell(m: Matrix, n: int, p: (int, int) -> bool, r: int, c: int, q: (int, int) -> bool)
    requires 0 <= r < n && 0 <= c < n && !p(r, c)
    requires forall i, j :: 0 <= i < n && 0 <= j < n ==> q(i, j) == (p(i, j) || (i == r && j == c))
    ensures Masked(m, n, q) == Masked(m, n, p) + At(m, r, c)
  {
    var cell := (i, j) => i == r && j == c;
    MaskedUnion(m, n, p, cell, q);
    forall i | 0 <= i < n
      ensures MaskedRow(m, n, cell, i) == if i == r then At(m, r, c) else 0.0
    {
      if i == r {
        MaskedRowSingle(m, n, cell, i, c);
      } else {
        MaskedRowEmpty(m, n, cell, i);
      }
    }
    SumSingle(0, n, r, MaskedTerms(m, n, cell));
  }

  /** Four distinct diagonals together are the corner masked by them. */
  lemma FourDiagonals(m: Matrix, n: int, a: int, b: int, c: int, d: int, mask: (int, int) -> bool)
    requires a != b && a != c && a != d && b != c && b != d && c != d
    requires forall i, j :: 0 <= i < n && 0 <= j < n ==>
               mask(i, j) == (j - i == a || j - i == b || j - i == c || j - i == d)
    ensures Diagonal(m, n, a) + Diagonal(m, n, b) + Diagonal(m, n, c) + Diagonal(m, n, d) == Masked(m, n, mask)
  {
    var ab := (i, j) => j - i == a || j - i == b;
    var abc := (i, j) => ab(i, j) || j - i == c;
    var abcd := (i, j) => abc(i, j) || j - i == d;
    DiagonalIsMasked(m, n, a);
    MaskedAddDiagonal(m, n, OnDiagonal(a), b, ab);
    MaskedAddDiagonal(m, n, ab, c, abc);
    MaskedAddDiagonal(m, n, abc, d, abcd);
    MaskedCongruent(m, n, abcd, mask);
  }

  /** The cells of the rectangle [r0, r1) x [c0, c1). */
  function InRegion(r0: int, r1: int, c0: int, c1: int): (int, int) -> bool
  {
    (i, j) => r0 <= i < r1 && c0 <= j < c1
  }

  /** A rectangle inside the corner is the corner masked by it. */
  lemma MaskedRegion(m: Matrix, n: int, r0: int, r1: int, c0: int, c1: int)
    requires 0 <= r0 <= r1 <= n && 0 <= c0 <= c1 <= n
    ensures Masked(m, n, InRegion(r0, r1, c0, c1)) == Region(m, r0, r1, c0, c1)
  {
    var mask := InRegion(r0, r1, c0, c1);
    forall i | 0 <= i < n
      ensures MaskedRow(m, n, mask, i) == if r0 <= i < r1 then RowSum(m, i, c0, c1) else 0.0
    {
      if r0 <= i < r1 {
        SumRestrict(0, n, c0, c1, RowTerms(m, i), MaskedRowTerms(m, mask, i));
      } else {
        MaskedRowEmpty(m, n, mask, i);
      }
    }
    SumRestrict(0, n, r0, r1, RegionTerms(m, c0, c1), MaskedTerms(m, n, mask));
  }

  /** The diagonal cells (i, i), read through At. */
  function DiagonalCells(m: Matrix): int -> real
  {
    i => At(m, i, i)
  }

  /** The diagonal cells (i, i) for lo <= i < hi. */
  function DiagonalRange(lo: int, hi: int): (int, int) -> bool
  {
    (i, j) => lo <= i < hi && i == j
  }

  /** A stretch of the main diagonal inside the corner is the corner masked
      by it. */
  lemma MaskedDiagonalRange(m: Matrix, n: int, lo: int, hi: int)
    requires 0 <= lo <= hi <= n
    ensures Masked(m, n, DiagonalRange(lo, hi)) == Sum(lo, hi, DiagonalCells(m))
  {
    var mask := DiagonalRange(lo, hi);
    forall i | 0 <= i < n
      ensures MaskedRow(m, n, mask, i) == if lo <= i < hi then At(m, i, i) else 0.0
    {
      if lo <= i < hi {
        MaskedRowSingle(m, n, mask, i, i);
      } else {
        MaskedRowEmpty(m, n, mask, i);
      }
    }
    SumRestrict(0, n, lo, hi, DiagonalCells(m), MaskedTerms(m, n, mask));
  }

  /** On a matrix of durations a row sum is at least each cell it covers. */
  lemma RowSumCovers(m: Matrix, i: int, j: int, c1: int)
    requires NonNegative(m) && 0 <= j < c1
    ensures 0.0 <= At(m, i, j) <= RowSum(m, i, 0, c1)
  {
    var f := RowTerms(m, i);
    SumSplit(0, j, c1, f);
    SumFirst(j, c1, f);
    SumNonneg(0, j, f);
    SumNonneg(j + 1, c1, f);
  }

  // ------------------------------------------------------------------ arrays

  /** Reads the array into a matrix value. */
  function Snapshot(a: array2<real>): (m: Matrix)
    reads a
    ensures IsMatrix(m, a.Length0, a.Length1)
    ensures forall i, j :: 0 <= i < a.Length0 && 0 <= j < a.Length1 ==> m[i][j] == a[i, j]
  {
    seq(a.Length0, i requires 0 <= i < a.Length0 reads a =>
      seq(a.Length1, j requires 0 <= j < a.Length1 reads a => a[i, j]))
  }

  /** Two matrices of the same shape with the same cells are equal. */
  lemma MatrixEqual(a: Matrix, b: Matrix, rows: nat, cols: nat)
    requires IsMatrix(a, rows, cols) && IsMatrix(b, rows, cols)
    requires forall i, j :: 0 <= i < rows && 0 <= j < cols ==> At(a, i, j) == At(b, i, j)
    ensures a == b
  {
    forall i | 0 <= i < rows
      ensures a[i] == b[i]
    {
      assert forall j :: 0 <= j < cols ==> a[i][j] == At(a, i, j) == At(b, i, j) == b[i][j];
    }
  }

  /** The array holds the matrix m. */
  ghost predicate Holds(a: array2<real>, m: Matrix)
    reads a
  {
    IsMatrix(m, a.Length0, a.Length1) &&
    forall i, j :: 0 <= i < a.Length0 && 0 <= j < a.Length1 ==> a[i, j] == m[i][j]
  }

  /** Adds x to one cell of the accumulating matrix. */
  method AddToCell(a: array2<real>, ghost m: Matrix, r: nat, c: nat, x: real)
    requires Holds(a, m) && r < a.Length0 && c < a.Length1
    modifies a
    ensures Holds(a, AddCell(m, r, c, x))
  {
    a[r, c] := a[r, c] + x;
  }
}
