# Dense arithmetic of `dmath`, modelled in Dafny

This project models the sequential dense-arithmetic routines of the `dmath`
namespace: the element-wise equality oracle `verifyAdd`, and `add`, `saxpy_1d` and
`saxpy_2d`. Each of the last three comes in an unchecked C-style form over flat
row-major buffers and in a checked form over length-bearing containers. The checked
form rejects malformed input before it writes anything.

The module `DMath` (`dmath.dfy`) holds the model:

- Elements are exact `int`s.
- `size_t` is `SizeT`, a `nat` below 2^64. The product `width*height` that
  `verifyAdd` and the flat `add` loop over is taken modulo 2^64, as C++ unsigned
  arithmetic does (`MulSize`).
- The flat `saxpy_2d` computes its row-major indices with the same wrapping
  operations (`MulSize`, `AddSize`) and proves they never wrap, because each
  buffer's length is itself a `size_t` (`Addressable`).
- Flat buffers are `array<int>`.
- Container inputs are `seq<int>` / `seq<seq<int>>`.
- Container outputs are `array?<int>` and `array?<array<int>>`. `null` stands for
  the source's missing output pointer.
- The thrown `"invalid input"` is the `InvalidInput` value of `Outcome`.
- Each routine is a method whose loops follow the source's `for` loops.
- The body of the row loop of the checked `saxpy_2d` is the helper method
  `AccumulateRow`. The body of the column loop of the flat `saxpy_2d` is the
  helper method `AccumulateFlatCell`. Both keep the nesting and the order of the
  writes.
- Specification: the predicates `IsSum` and `IsSaxpy` say what each cell holds. The
  functions `Dot` and `FlatDot` give one entry of the matrix product in each
  layout, and `FlatSaxpyCell` gives what the flat `saxpy_2d` leaves in a cell.

The module `DMathExamples` (`dmath_examples.dfy`) contains client methods that
work through small concrete cases using only the contracts:

- `[1,2,3] + [4,5,6] = [5,7,9]`;
- the oracle accepts that result, and rejects `[5,7,10]` at position 2;
- `2·[1,1,1] + [1,2,3] = [3,4,5]`;
- the identity times `[[1,2],[3,4]]`, accumulated into a zeroed Z, gives `[[1,2],[3,4]]`;
- on a non-zeroed Z the product is added to what Z already holds.

What the code does beyond its header comments (arithmetic.cpp:19-22, 41-44, 70-73), which the model follows:

- The checked `add` and `saxpy_1d` also reject a null output pointer.
- The loop bound `width*height` is a wrapping `size_t` product, not an exact one.
- The flat `saxpy_2d` adds Y's cell before the product terms, not after them.
  `Saxpy2dFormsAgree` shows that over exact arithmetic the result is the same.

## Model

| member | source | states |
|---|---|---|
| `DMath.VerifyAdd` | hwk1/hwk1/arithmetic.cpp:7-16 | returns true exactly when C[i] == A[i] + B[i] for every i below width*height (as a wrapping `size_t` product); when it returns false, `at` is the first index that differs |
| `DMath.AddChecked` | hwk1/hwk1/arithmetic.cpp:23-31 | rejects exactly when A or B is empty, their lengths differ, or the output is null, and then C is unchanged; otherwise C[i] == A[i] + B[i] for i < len(A) and the cells from len(A) on are unchanged; the output's size is a caller obligation only when the checks pass |
| `DMath.Add` | hwk1/hwk1/arithmetic.cpp:34-39 | C[i] == A[i] + B[i] for every i below width*height; C's cells from there on are unchanged; A and B are not modified |
| `DMath.AddThenVerify` | hwk1/hwk1/arithmetic.cpp:6-39 | after the unchecked `add`, `verifyAdd` on the same buffers and dimensions returns true |
| `DMath.Saxpy1d` | hwk1/hwk1/arithmetic.cpp:45-51 | Z[i] == a*X[i] + Y[i] for every i < width, and nothing else in Z changes |
| `DMath.Saxpy1dChecked` | hwk1/hwk1/arithmetic.cpp:57-68 | rejects exactly when X or Y is empty, the output is null, or len(X) != len(Y), and then Z is unchanged; otherwise Z[i] == a*X[i] + Y[i] for i < len(X) and nothing else in Z changes |
| `DMath.Saxpy2dChecked` | hwk1/hwk1/arithmetic.cpp:74-97 | rejects exactly when A, X or Y is empty, Z is null, len(A) != len(A[0]), len(A) != len(X) or len(A) != len(Y), and then no row of Z changes; otherwise, with M = len(A) and N = len(X[0]), Z[row][col] becomes its old value plus the sum over inner < M of A[row][inner]*X[inner][col] plus Y[row][col] for row < M and col < N; every other cell of Z is unchanged |
| `DMath.AccumulateRow` | hwk1/hwk1/arithmetic.cpp:86-95 | one pass of the row loop: each cell col < n of the row gains its product entry and then Y's cell; the rest of the row is unchanged |
| `DMath.Saxpy2d` | hwk1/hwk1/arithmetic.cpp:99-118 | for row < M and col < N, Z[row*N+col] becomes its old value plus Y[row*N+col] plus the sum over inner < M of A[row*M+inner]*X[inner*N+col]; cells from M*N on are unchanged |
| `DMath.AccumulateFlatCell` | hwk1/hwk1/arithmetic.cpp:108-115 | one pass of the column loop: only cell row*N+col of Z changes, and it gains Y's cell and then the product terms |
| `DMath.RowMajorNoWrap` | hwk1/hwk1/arithmetic.cpp:108-113 | for row < rows and col < width inside an addressable block, the `size_t` computation row*width + col does not wrap and lies below rows*width; this covers xyz_id, innerRowId and innerColId |
| `DMath.RowMajorInBounds` | hwk1/hwk1/arithmetic.cpp:108-113 | every cell (row, col) of a rows-by-width block has a row-major index below rows*width |
| `DMath.RowMajorOrdered` | hwk1/hwk1/arithmetic.cpp:103-108 | a cell visited earlier by the row and column loops has a smaller row-major index than a later one, so no cell is written twice |
| `DMath.RowMajorsBelow` | hwk1/hwk1/arithmetic.cpp:103-108 | every cell visited before (row, col) has an index below row*width + col |
| `DMath.FlatDotMatchesDot` | hwk1/hwk1/arithmetic.cpp:110-115 | when flat buffers hold the row-major layout of nested matrices, the flat product entry equals the nested one |
| `DMath.Saxpy2dFormsAgree` | hwk1/hwk1/arithmetic.cpp:84-118 | on the same matrices and the same starting cell, the flat form (Y first, then the products) and the checked form (the products first, then Y) leave the same value |
| `DMath.IdentityDotPrefix` | hwk1/hwk1/arithmetic.cpp:89-92 | with the identity for A, the first k product terms sum to X[row][col] when row < k, and to 0 otherwise |
| `DMath.IdentityDot` | hwk1/hwk1/arithmetic.cpp:84-96 | with the M-by-M identity for A, every product entry (A·X)[row][col] is X[row][col] |

## Left out

- The problem-menu harness in `hwk1/hwk1/ProblemGroups.h` is not modelled. It stores opaque function pointers in maps, and the bodies of `Run` and `PrintGroupMenu`, which do console I/O, are not part of this model.
- IEEE-754 `float` behaviour is not modelled: rounding, NaN (which makes `!=` in `verifyAdd` true even for identical cells), and the different summation orders of the two `saxpy_2d` forms. Elements are exact integers, where the order of addition does not matter.
- Aliasing between the buffers is not modelled. The flat forms require the output to be a different array from every input. The checked `saxpy_2d` requires the rows of Z to be distinct arrays, as the rows of a `std::vector` of vectors always are.
- Pointer validity is modelled only as the null test of the output in the checked forms. Beyond that, arrays are always valid references.
- The exception mechanism is not modelled. A throw is the `InvalidInput` result, returned before any write.
- What the source does not check is a precondition:
  - the size of each output;
  - for the checked `saxpy_2d`, the lengths of the rows of A and X after the first, and of every row of Y;
  - the number of rows of Z and the length of each;
  - for the flat `add` and `saxpy_1d`, that the buffers hold at least the number of cells the loops visit;
  - for the flat `saxpy_2d`, that A holds at least M·M cells and X, Y and Z at least M·N cells, the shapes documented in the header comment of the container form (arithmetic.cpp:70-73), even when N is 0 and no cell of A is read.
- The nested rows of A, X and Y are only required to be long enough (at least M or N entries), not exactly rectangular, since the loops read no further.
