/** Sequential dense arithmetic of the `dmath` namespace: element-wise addition,
    SAXPY on vectors and matrix-multiply-accumulate, each in an unchecked form over
    flat row-major buffers and in a checked form over length-bearing containers.
    Elements are exact integers; `size_t` is the 64-bit unsigned type. */
module DMath {

  // ---------------------------------------------------------------------------
  // size_t arithmetic and row-major indexing
  // ---------------------------------------------------------------------------

  /** 2^64: one more than the largest `size_t`. */
  const SizeLimit: nat := 0x1_0000_0000_0000_0000

  type SizeT = x: nat | x < SizeLimit

  /** `a * b` on `size_t`, which wraps modulo 2^64. */
  function MulSize(a: SizeT, b: SizeT): SizeT {
    (a * b) % SizeLimit
  }

  /** `a + b` on `size_t`, which wraps modulo 2^64. */
  function AddSize(a: SizeT, b: SizeT): SizeT {
    (a + b) % SizeLimit
  }

  /** A C buffer's element count is itself a `size_t`. */
  predicate Addressable(a: array<int>) {
    a.Length < SizeLimit
  }

  /** The linear position of cell (row, col) in a row-major buffer of the given width. */
  function RowMajor(row: nat, col: nat, width: nat): nat {
    row * width + col
  }

  /** Every cell of a rows-by-width block lies below rows * width. */
  lemma RowMajorInBounds(row: nat, col: nat, rows: nat, width: nat)
    requires row < rows && col < width
    ensures RowMajor(row, col, width) < rows * width
  {
    calc {
      RowMajor(row, col, width);
      < row * width + width;
      == (row + 1) * width;
      <= { assert row + 1 <= rows; }
      rows * width;
    }
  }

  /** Row-major positions follow the order in which the loops visit the cells. */
  lemma RowMajorOrdered(r: nat, c: nat, row: nat, col: nat, width: nat)
    requires c < width && col < width
    requires r < row || (r == row && c < col)
    ensures RowMajor(r, c, width) < RowMajor(row, col, width)
  {
    if r < row {
      RowMajorInBounds(r, c, row, width);
    }
  }

  /** Every cell the loops visit before (row, col) lies at a smaller position. */
  lemma RowMajorsBelow(row: nat, col: nat, width: nat)
    requires col < width
    ensures forall r, c :: (0 <= r < row && 0 <= c < width) || (r == row && 0 <= c < col) ==>
      RowMajor(r, c, width) < RowMajor(row, col, width)
  {
    forall r, c | (0 <= r < row && 0 <= c < width) || (r == row && 0 <= c < col)
      ensures RowMajor(r, c, width) < RowMajor(row, col, width)
    {
      RowMajorOrdered(r, c, row, col, width);
    }
  }

  /** The `size_t` computation `row*width + col` does not wrap inside an
      addressable buffer, and it lands inside the block. */
  lemma RowMajorNoWrap(row: SizeT, col: SizeT, rows: nat, width: SizeT)
    requires row < rows && col < width && rows * width < SizeLimit
    ensures AddSize(MulSize(row, width), col) == RowMajor(row, col, width)
    ensures RowMajor(row, col, width) < rows * width
  {
    RowMajorInBounds(row, col, rows, width);
    assert row * width <= RowMajor(row, col, width);
  }

  // ---------------------------------------------------------------------------
  // Specification predicates and functions
  // ---------------------------------------------------------------------------

  /** The outcome of a checked entry point; `InvalidInput` stands for the thrown
      "invalid input". */
  datatype Outcome = Done | InvalidInput

  /** c holds the element-wise sum of a and b on its first n positions. */
  ghost predicate IsSum(a: seq<int>, b: seq<int>, c: seq<int>, n: nat)
    requires n <= |a| && n <= |b| && n <= |c|
  {
    forall i :: 0 <= i < n ==> c[i] == a[i] + b[i]
  }

  /** z holds alpha*x + y on its first n positions. */
  ghost predicate IsSaxpy(alpha: int, x: seq<int>, y: seq<int>, z: seq<int>, n: nat)
    requires n <= |x| && n <= |y| && n <= |z|
  {
    forall i :: 0 <= i < n ==> z[i] == alpha * x[i] + y[i]
  }

  /** Rows of x below k are at least col + 1 long. */
  ghost predicate HasColumn(x: seq<seq<int>>, col: nat, k: nat)
    requires k <= |x|
  {
    forall inner :: 0 <= inner < k ==> col < |x[inner]|
  }

  /** Sum over inner < k of a[row][inner] * x[inner][col]: one entry of the
      product a·x, taken over the first k terms. */
  ghost function Dot(a: seq<seq<int>>, x: seq<seq<int>>, row: nat, col: nat, k: nat): int
    requires row < |a| && k <= |a[row]| && k <= |x| && HasColumn(x, col, k)
    decreases k
  {
    if k == 0 then 0 else Dot(a, x, row, col, k - 1) + a[row][k - 1] * x[k - 1][col]
  }

  /** The same sum over flat row-major buffers: a is m-by-m and x is m-by-n. */
  ghost function FlatDot(a: seq<int>, x: seq<int>, m: nat, n: nat, row: nat, col: nat, k: nat): int
    requires row < m && col < n && k <= m && m * m <= |a| && m * n <= |x|
    decreases k
  {
    if k == 0 then 0
    else
      RowMajorInBounds(row, k - 1, m, m);
      RowMajorInBounds(k - 1, col, m, n);
      FlatDot(a, x, m, n, row, col, k - 1) + a[RowMajor(row, k - 1, m)] * x[RowMajor(k - 1, col, n)]
  }

  /** flat is the row-major layout of the rows-by-cols block of m. */
  ghost predicate Encodes(flat: seq<int>, m: seq<seq<int>>, rows: nat, cols: nat) {
    rows <= |m| && rows * cols <= |flat| &&
    (forall r :: 0 <= r < rows ==> cols <= |m[r]|) &&
    (forall r, c :: 0 <= r < rows && 0 <= c < cols ==>
      c < |m[r]| && RowMajor(r, c, cols) < |flat| && flat[RowMajor(r, c, cols)] == m[r][c])
  }

  /** Both layouts describe the same product entry. */
  lemma {:induction false} FlatDotMatchesDot(fa: seq<int>, fx: seq<int>, a: seq<seq<int>>, x: seq<seq<int>>,
                                             m: nat, n: nat, row: nat, col: nat, k: nat)
    requires Encodes(fa, a, m, m) && Encodes(fx, x, m, n)
    requires row < m && col < n && k <= m
    ensures HasColumn(x, col, k)
    ensures FlatDot(fa, fx, m, n, row, col, k) == Dot(a, x, row, col, k)
  {
    if k > 0 {
      FlatDotMatchesDot(fa, fx, a, x, m, n, row, col, k - 1);
      assert fa[RowMajor(row, k - 1, m)] == a[row][k - 1];
      assert fx[RowMajor(k - 1, col, n)] == x[k - 1][col];
    }
  }

  /** a is the m-by-m identity matrix. */
  ghost predicate IsIdentity(a: seq<seq<int>>, m: nat) {
    |a| == m &&
    (forall r :: 0 <= r < m ==> m <= |a[r]|) &&
    (forall r, c :: 0 <= r < m && 0 <= c < m ==> c < |a[r]| && a[r][c] == (if r == c then 1 else 0))
  }

  /** Multiplying by the identity takes the first k rows of x's column as they are. */
  lemma {:induction false} IdentityDotPrefix(a: seq<seq<int>>, x: seq<seq<int>>, m: nat, row: nat, col: nat, k: nat)
    requires IsIdentity(a, m) && row < m && k <= m && m <= |x| && HasColumn(x, col, m)
    ensures HasColumn(x, col, k)
    ensures Dot(a, x, row, col, k) == if row < k then x[row][col] else 0
  {
    if k > 0 {
      IdentityDotPrefix(a, x, m, row, col, k - 1);
      assert a[row][k - 1] == if row == k - 1 then 1 else 0;
    }
  }

  /** With the identity for a, each product entry is the entry of x itself. */
  lemma IdentityDot(a: seq<seq<int>>, x: seq<seq<int>>, m: nat, row: nat, col: nat)
    requires IsIdentity(a, m) && row < m && m <= |x| && HasColumn(x, col, m)
    ensures Dot(a, x, row, col, m) == x[row][col]
  {
    IdentityDotPrefix(a, x, m, row, col, m);
  }

  // ---------------------------------------------------------------------------
  // verifyAdd and add
  // ---------------------------------------------------------------------------

  /** The correctness oracle: C is A + B on the first width*height (taken as a
      `size_t`) positions. On failure `at` is the first position that differs. */
  method VerifyAdd(A: array<int>, B: array<int>, C: array<int>, width: SizeT, height: SizeT)
    returns (ok: bool, ghost at: nat)
    requires MulSize(width, height) <= A.Length
    requires MulSize(width, height) <= B.Length
    requires MulSize(width, height) <= C.Length
    ensures ok <==> IsSum(A[..], B[..], C[..], MulSize(width, height))
    ensures !ok ==> at < MulSize(width, height) && C[at] != A[at] + B[at] && IsSum(A[..], B[..], C[..], at)
  {
    var s := MulSize(width, height);
    at := 0;
    for i := 0 to s
      invariant IsSum(A[..], B[..], C[..], i)
    {
      if C[i] != A[i] + B[i] {
        return false, i;
      }
    }
    return true, 0;
  }

  /** The inputs the checked `add` refuses: an empty operand, operands of different
      lengths, or no output container. */
  predicate AddRejects(A: seq<int>, B: seq<int>, C: array?<int>) {
    A == [] || B == [] || |A| != |B| || C == null
  }

  /** Checked `add`: rejects before writing anything; otherwise writes A + B into the
      first |A| cells of C, whose size the caller guarantees. */
  method AddChecked(A: seq<int>, B: seq<int>, C: array?<int>) returns (r: Outcome)
    requires !AddRejects(A, B, C) ==> |A| <= C.Length
    modifies C
    ensures r == InvalidInput <==> AddRejects(A, B, C)
    ensures r == InvalidInput && C != null ==> C[..] == old(C[..])
    ensures r == Done ==> C != null && |A| <= C.Length && IsSum(A, B, C[..], |A|)
    ensures r == Done ==> forall i :: |A| <= i < C.Length ==> C[i] == old(C[i])
  {
    if A == [] || B == [] || |A| != |B| || C == null {
      return InvalidInput;
    }
    var size := |A|;
    for i := 0 to size
      invariant IsSum(A, B, C[..], i)
      invariant forall j :: i <= j < C.Length ==> C[j] == old(C[j])
    {
      C[i] := A[i] + B[i];
    }
    return Done;
  }

  /** Unchecked `add` over flat buffers of width*height (a `size_t` product) cells. */
  method Add(A: array<int>, B: array<int>, C: array<int>, width: SizeT, height: SizeT)
    requires C != A && C != B
    requires MulSize(width, height) <= A.Length
    requires MulSize(width, height) <= B.Length
    requires MulSize(width, height) <= C.Length
    modifies C
    ensures IsSum(A[..], B[..], C[..], MulSize(width, height))
    ensures forall i :: MulSize(width, height) <= i < C.Length ==> C[i] == old(C[i])
  {
    var s := MulSize(width, height);
    for i := 0 to s
      invariant IsSum(A[..], B[..], C[..], i)
      invariant forall j :: i <= j < C.Length ==> C[j] == old(C[j])
    {
      C[i] := A[i] + B[i];
    }
  }

  /** The oracle accepts whatever the unchecked `add` produces. */
  method AddThenVerify(A: array<int>, B: array<int>, C: array<int>, width: SizeT, height: SizeT)
    returns (ok: bool)
    requires C != A && C != B
    requires MulSize(width, height) <= A.Length
    requires MulSize(width, height) <= B.Length
    requires MulSize(width, height) <= C.Length
    modifies C
    ensures ok
  {
    Add(A, B, C, width, height);
    ghost var at;
    ok, at := VerifyAdd(A, B, C, width, height);
  }

  // ---------------------------------------------------------------------------
  // saxpy_1d
  // ---------------------------------------------------------------------------

  /** Unchecked `saxpy_1d`: Z[i] := a*X[i] + Y[i] for i < width. */
  method Saxpy1d(a: int, X: array<int>, Y: array<int>, Z: array<int>, width: SizeT)
    requires Z != X && Z != Y
    requires width <= X.Length && width <= Y.Length && width <= Z.Length
    modifies Z
    ensures IsSaxpy(a, X[..], Y[..], Z[..], width)
    ensures forall i :: width <= i < Z.Length ==> Z[i] == old(Z[i])
  {
    for i := 0 to width
      invariant IsSaxpy(a, X[..], Y[..], Z[..], i)
      invariant forall j :: i <= j < Z.Length ==> Z[j] == old(Z[j])
    {
      Z[i] := a * X[i] + Y[i];
    }
  }

  /** The inputs the checked `saxpy_1d` refuses. */
  predicate Saxpy1dRejects(X: seq<int>, Y: seq<int>, Z: array?<int>) {
    X == [] || Y == [] || Z == null || |X| != |Y|
  }

  /** Checked `saxpy_1d`: rejects empty or mismatched vectors and a missing output
      before writing; otherwise writes a*X + Y into the first |X| cells of Z. */
  method Saxpy1dChecked(a: int, X: seq<int>, Y: seq<int>, Z: array?<int>) returns (r: Outcome)
    requires !Saxpy1dRejects(X, Y, Z) ==> |X| <= Z.Length
    modifies Z
    ensures r == InvalidInput <==> Saxpy1dRejects(X, Y, Z)
    ensures r == InvalidInput && Z != null ==> Z[..] == old(Z[..])
    ensures r == Done ==> Z != null && |X| <= Z.Length && IsSaxpy(a, X, Y, Z[..], |X|)
    ensures r == Done ==> forall i :: |X| <= i < Z.Length ==> Z[i] == old(Z[i])
  {
    if X == [] || Y == [] || Z == null || |X| != |Y| {
      return InvalidInput;
    }
    var n := |X|;
    for i := 0 to n
      invariant IsSaxpy(a, X, Y, Z[..], i)
      invariant forall j :: i <= j < Z.Length ==> Z[j] == old(Z[j])
    {
      Z[i] := a * X[i] + Y[i];
    }
    return Done;
  }

  // ---------------------------------------------------------------------------
  // saxpy_2d over nested containers
  // ---------------------------------------------------------------------------

  /** The row objects of a nested output. */
  ghost function Rows(Z: array?<array<int>>): set<array<int>>
    reads Z
  {
    if Z == null then {} else set r | 0 <= r < Z.Length :: Z[r]
  }

  /** The inputs the checked `saxpy_2d` refuses: only the first row of A is checked
      for squareness, and X's and Y's row counts are compared with A's. */
  predicate Saxpy2dRejects(A: seq<seq<int>>, X: seq<seq<int>>, Y: seq<seq<int>>, Z: array?<array<int>>) {
    A == [] || X == [] || Y == [] || Z == null ||
    |A| != |A[0]| || |A| != |X| || |A| != |Y|
  }

  /** What the checked `saxpy_2d` relies on without checking: with M = |A| and
      N = |X[0]|, every row of A has M entries, every row of X and Y has N, Z has
      M rows of at least N cells, and Z's rows are distinct objects. */
  ghost predicate Saxpy2dShapes(A: seq<seq<int>>, X: seq<seq<int>>, Y: seq<seq<int>>, Z: array<array<int>>)
    requires X != [] && |X| == |A| && |Y| == |A|
    reads Z
  {
    var M, N := |A|, |X[0]|;
    (forall r :: 0 <= r < M ==> M <= |A[r]| && N <= |X[r]| && N <= |Y[r]|) &&
    M <= Z.Length &&
    (forall r :: 0 <= r < M ==> N <= Z[r].Length) &&
    (forall r, s :: 0 <= r < s < Z.Length ==> Z[r] != Z[s])
  }

  /** Checked `saxpy_2d`: Z[row][col] += (A·X)[row][col] + Y[row][col] for
      row < |A| and col < |X[0]|, accumulating into what Z already holds. */
  method Saxpy2dChecked(A: seq<seq<int>>, X: seq<seq<int>>, Y: seq<seq<int>>, Z: array?<array<int>>)
    returns (r: Outcome)
    requires !Saxpy2dRejects(A, X, Y, Z) ==> Saxpy2dShapes(A, X, Y, Z)
    modifies Rows(Z)
    ensures r == InvalidInput <==> Saxpy2dRejects(A, X, Y, Z)
    ensures r == InvalidInput ==> unchanged(Rows(Z))
    ensures r == Done ==> Z != null && X != [] && |X| == |A| && |Y| == |A| && Saxpy2dShapes(A, X, Y, Z)
    ensures r == Done ==> forall row, col :: 0 <= row < |A| && 0 <= col < |X[0]| ==>
      HasColumn(X, col, |A|) && Z[row][col] == old(Z[row][col]) + Dot(A, X, row, col, |A|) + Y[row][col]
    ensures r == Done ==> forall row, col ::
      0 <= row < Z.Length && 0 <= col < Z[row].Length && (|A| <= row || |X[0]| <= col) ==>
        Z[row][col] == old(Z[row][col])
  {
    if A == [] || X == [] || Y == [] || Z == null || |A| != |A[0]| || |A| != |X| || |A| != |Y| {
      return InvalidInput;
    }
    var M := |A|;
    var N := |X[0]|;
    for row := 0 to M
      invariant forall r, c :: 0 <= r < row && 0 <= c < N ==>
        HasColumn(X, c, M) && Z[r][c] == old(Z[r][c]) + Dot(A, X, r, c, M) + Y[r][c]
      invariant forall r, c :: 0 <= r < Z.Length && 0 <= c < Z[r].Length && (row <= r || N <= c) ==>
        Z[r][c] == old(Z[r][c])
    {
      AccumulateRow(A, X, Y, row, Z[row], N);
    }
    return Done;
  }

  /** The body of the row loop of the checked `saxpy_2d`: for col < n, the cell
      zRow[col] gains (A·X)[row][col] through the inner loop and then Y[row][col]. */
  method AccumulateRow(A: seq<seq<int>>, X: seq<seq<int>>, Y: seq<seq<int>>, row: nat, zRow: array<int>, n: nat)
    requires row < |A| && |X| == |A| && |Y| == |A|
    requires |A| <= |A[row]| && n <= |Y[row]| && n <= zRow.Length
    requires forall inner :: 0 <= inner < |A| ==> n <= |X[inner]|
    modifies zRow
    ensures forall c :: 0 <= c < n ==>
      HasColumn(X, c, |A|) && zRow[c] == old(zRow[c]) + Dot(A, X, row, c, |A|) + Y[row][c]
    ensures forall c :: n <= c < zRow.Length ==> zRow[c] == old(zRow[c])
  {
    var M := |A|;
    for col := 0 to n
      invariant forall c :: 0 <= c < col ==>
        HasColumn(X, c, M) && zRow[c] == old(zRow[c]) + Dot(A, X, row, c, M) + Y[row][c]
      invariant forall c :: col <= c < zRow.Length ==> zRow[c] == old(zRow[c])
    {
      assert HasColumn(X, col, M);
      label BeforeInner:
      for inner := 0 to M
        invariant zRow[col] == old(zRow[col]) + Dot(A, X, row, col, inner)
        invariant forall c :: 0 <= c < zRow.Length && c != col ==> zRow[c] == old@BeforeInner(zRow[c])
      {
        zRow[col] := zRow[col] + A[row][inner] * X[inner][col];
      }
      zRow[col] := zRow[col] + Y[row][col];
    }
  }

  // ---------------------------------------------------------------------------
  // saxpy_2d over flat row-major buffers
  // ---------------------------------------------------------------------------

  /** The value the unchecked `saxpy_2d` leaves in cell (row, col) that held z0:
      Y's cell is added first, then the product terms. */
  ghost function FlatSaxpyCell(z0: int, A: seq<int>, X: seq<int>, Y: seq<int>, M: nat, N: nat, row: nat, col: nat): int
    requires row < M && col < N && M * M <= |A| && M * N <= |X| && M * N <= |Y|
  {
    RowMajorInBounds(row, col, M, N);
    z0 + Y[RowMajor(row, col, N)] + FlatDot(A, X, M, N, row, col, M)
  }

  /** Unchecked `saxpy_2d`: A is M-by-M and X, Y, Z are M-by-N, all row-major;
      Z[row*N+col] += Y[row*N+col] + (A·X)[row][col]. */
  method Saxpy2d(A: array<int>, X: array<int>, Y: array<int>, Z: array<int>, M: SizeT, N: SizeT)
    requires Z != A && Z != X && Z != Y
    requires Addressable(A) && Addressable(X) && Addressable(Y) && Addressable(Z)
    requires M * M <= A.Length && M * N <= X.Length && M * N <= Y.Length && M * N <= Z.Length
    modifies Z
    ensures forall row, col :: 0 <= row < M && 0 <= col < N ==>
      RowMajor(row, col, N) < Z.Length &&
      Z[RowMajor(row, col, N)] == FlatSaxpyCell(old(Z[RowMajor(row, col, N)]), A[..], X[..], Y[..], M, N, row, col)
    ensures forall j :: M * N <= j < Z.Length ==> Z[j] == old(Z[j])
  {
    for row := 0 to M
      invariant FlatDone(Z[..], old(Z[..]), A[..], X[..], Y[..], M, N, row, 0)
      invariant forall j :: RowMajor(row, 0, N) <= j < Z.Length ==> Z[j] == old(Z[j])
    {
      for col := 0 to N
        invariant FlatDone(Z[..], old(Z[..]), A[..], X[..], Y[..], M, N, row, col)
        invariant forall j :: RowMajor(row, col, N) <= j < Z.Length ==> Z[j] == old(Z[j])
      {
        RowMajorsBelow(row, col, N);
        AccumulateFlatCell(A, X, Y, Z, M, N, row, col);
      }
      assert RowMajor(row, N, N) == RowMajor(row + 1, 0, N);
    }
  }

  /** The cells the loops of the unchecked `saxpy_2d` have finished before reaching
      (row, col) hold their final values, computed from the initial contents z0. */
  ghost predicate FlatDone(z: seq<int>, z0: seq<int>, a: seq<int>, x: seq<int>, y: seq<int>,
                           m: nat, n: nat, row: nat, col: nat)
    requires |z| == |z0| && m * m <= |a| && m * n <= |x| && m * n <= |y|
  {
    forall r, c :: 0 <= r < m && 0 <= c < n && (r < row || (r == row && c < col)) ==>
      RowMajor(r, c, n) < |z| && z[RowMajor(r, c, n)] == FlatSaxpyCell(z0[RowMajor(r, c, n)], a, x, y, m, n, r, c)
  }

  /** The body of the column loop of the unchecked `saxpy_2d`: cell (row, col) of Z
      gains Y's cell and then, through the inner loop, the product terms. */
  method AccumulateFlatCell(A: array<int>, X: array<int>, Y: array<int>, Z: array<int>,
                            M: SizeT, N: SizeT, row: SizeT, col: SizeT)
    requires Z != A && Z != X && Z != Y
    requires Addressable(A) && Addressable(X) && Addressable(Y) && Addressable(Z)
    requires M * M <= A.Length && M * N <= X.Length && M * N <= Y.Length && M * N <= Z.Length
    requires row < M && col < N
    modifies Z
    ensures RowMajor(row, col, N) < Z.Length
    ensures Z[RowMajor(row, col, N)] == FlatSaxpyCell(old(Z[RowMajor(row, col, N)]), A[..], X[..], Y[..], M, N, row, col)
    ensures forall j :: 0 <= j < Z.Length && j != RowMajor(row, col, N) ==> Z[j] == old(Z[j])
  {
    var aWidth := M;
    var xyzWidth := N;
    RowMajorNoWrap(row, col, M, xyzWidth);
    var xyzId := AddSize(MulSize(row, xyzWidth), col);
    Z[xyzId] := Z[xyzId] + Y[xyzId];
    for inner := 0 to aWidth
      invariant Z[xyzId] == old(Z[xyzId]) + Y[xyzId] + FlatDot(A[..], X[..], M, N, row, col, inner)
      invariant forall j :: 0 <= j < Z.Length && j != xyzId ==> Z[j] == old(Z[j])
    {
      RowMajorNoWrap(row, inner, M, aWidth);
      RowMajorNoWrap(inner, col, M, xyzWidth);
      var innerRowId := AddSize(MulSize(row, aWidth), inner);
      var innerColId := AddSize(MulSize(inner, xyzWidth), col);
      Z[xyzId] := Z[xyzId] + A[innerRowId] * X[innerColId];
    }
  }

  /** On the same matrices, the unchecked form (Y's cell first, then the products)
      and the checked form (the products first, then Y's cell) leave the same value. */
  lemma Saxpy2dFormsAgree(fa: seq<int>, fx: seq<int>, fy: seq<int>,
                          a: seq<seq<int>>, x: seq<seq<int>>, y: seq<seq<int>>,
                          m: nat, n: nat, row: nat, col: nat, z0: int)
    requires Encodes(fa, a, m, m) && Encodes(fx, x, m, n) && Encodes(fy, y, m, n)
    requires row < m && col < n
    ensures HasColumn(x, col, m) && col < |y[row]|
    ensures FlatSaxpyCell(z0, fa, fx, fy, m, n, row, col) == z0 + Dot(a, x, row, col, m) + y[row][col]
  {
    FlatDotMatchesDot(fa, fx, a, x, m, n, row, col, m);
  }
}
