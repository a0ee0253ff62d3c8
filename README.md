# Dlantb: norms of a triangular band matrix

This project models gonum's `Dlantb` in Dafny and proves properties of
the model. `Dlantb` returns a norm of an n×n triangular band matrix with
k+1 diagonals. The matrix is stored row-major in a flat slice `a` with row
pitch `lda`:

- an upper row holds the diagonal at slot 0 and the superdiagonals after it;
- a lower row holds the subdiagonals right-aligned, with the diagonal at slot k.

Under the unit-diagonal convention the diagonal is implicitly 1 and its
slot is not meant to be read.

The model covers these parts of the routine:

- the argument checks, in the routine's order (`Validation`);
- the quick return for n == 0, which skips the length checks;
- the MaxAbs, MaxRowSum and MaxColumnSum branches as imperative methods with
  loop invariants (`Gonum`). The MaxColumnSum branch resets and accumulates
  into the caller's `work` array in place, then folds over it.

Element values are `real` and `|x|` is `Band.Abs`. `a` is a `seq<real>`,
since the routine only reads it. `work` is an `array<real>`, since the
routine writes it. A panic is an `Err` carrying one `Band.Error` value.

The four loop bounds of each branch (upper/lower × unit/non-unit) are
written once, as window functions: `Band.RowLo`, `Band.RowHi` (MaxAbs and
MaxRowSum) and `Band.ColHi` (MaxColumnSum). Every read goes through
`Band.Index`, whose contract is the bounds proof for `a[i*lda+j]`.
`Band.Column` is the target column `i+j` or `i+j-k`, and its contract keeps
every `work` index inside `[0, n)`.

Two layers of specification sit above the methods:

- `NormSpec` states each norm over the stored band: window sums, per-column
  totals, and the predicates `IsMaxAbs`, `IsMaxRowSum` and `IsMaxColSum`.
- `Dense` defines the logical matrix entry by entry (`Dense.Entry`) and its
  row and column sums. Lemmas tie the band-level totals to it.

The lower, unit column-sum loop runs to `j < k+1`, and the model keeps this
bound as the code has it. As a result, `Gonum.Dlantb` computes what the code
computes. The intended column sums of the matrix are given beside it; see
"## Findings".

## Model

| member | source | states |
|---|---|---|
| `Validation.ArgumentError` | lapack/gonum/dlantb.go:19-30 | each entry panic (bad norm, bad uplo, n<0, k<0, lda<k+1) is raised exactly when its check fails and all earlier checks passed; none is raised iff all five hold |
| `Validation.LengthError` | lapack/gonum/dlantb.go:37-42 | a short `a` is reported first; a short `work` is reported only for MaxColumnSum and only when `a` is long enough |
| `Validation.Validate` | lapack/gonum/dlantb.go:19-42 | with n == 0 only the entry checks can fail; an accepted call with n > 0 has the band shape under which every read is in bounds, and `work` covers n entries for MaxColumnSum; every call of that shape is accepted; entry panics take precedence over length panics |
| `Band.Index` | lapack/gonum/dlantb.go:52 | the position `i*lda+j` of slot j ≤ k of row i < n lies inside row i's pitch and at most at `(n-1)*lda+k`, so below `len(a)` once the length check passed |
| `Band.RowLo` | lapack/gonum/dlantb.go:50-87 | the first slot scanned (1 for upper unit, 0 for upper non-unit, `max(0,k-i)` for lower) lies in `[0, k+1]` |
| `Band.RowHi` | lapack/gonum/dlantb.go:50-87 | the MaxAbs/MaxRowSum scan stops by slot k+1 (`min(n-i,k+1)` upper; `k` lower unit; `k+1` lower non-unit) |
| `Band.ColHi` | lapack/gonum/dlantb.go:136-166 | the MaxColumnSum scan stops by slot k+1, at `k+1` for lower whatever the diagonal convention |
| `Band.UnitDiagonalNotScanned` | lapack/gonum/dlantb.go:47-121 | under the unit convention the MaxAbs and MaxRowSum windows of row i never contain the slot that holds column i (slot 0 upper, slot k lower) |
| `Band.Column` | lapack/gonum/dlantb.go:157 | the column `i+j` (upper) or `i+j-k` (lower) of every scanned slot lies in `[0, n)`, and slot j is the one that holds that column |
| `Band.Seed` | lapack/gonum/dlantb.go:47-48 | the seed is 1 exactly under the unit convention, else 0, and is never negative |
| `NormSpec.SlotSum` | lapack/gonum/dlantb.go:96-97 | a sum of abs(`a[i*lda+j]`) over a window is non-negative |
| `NormSpec.RowTotal` | lapack/gonum/dlantb.go:93-121 | a row total is at least its seed |
| `NormSpec.Contrib` | lapack/gonum/dlantb.go:137 | what one row adds to one column is non-negative |
| `NormSpec.ColPartial` | lapack/gonum/dlantb.go:135-139 | what the first m rows add to one column is non-negative |
| `NormSpec.ColTotal` | lapack/gonum/dlantb.go:128-170 | a column total is at least its seed |
| `Gonum.MaxAbsNorm` | lapack/gonum/dlantb.go:46-89 | the result is at least the seed and every scanned abs(`a[i*lda+j]`), and equals the seed or one of them; by `Band.UnitDiagonalNotScanned` no scanned slot is a unit diagonal slot |
| `Gonum.MaxRowSumNorm` | lapack/gonum/dlantb.go:90-126 | the result is at least every row total and equals one of them, so it is at least the seed and non-negative |
| `Gonum.MaxWork` | lapack/gonum/dlantb.go:171-176 | the fold from 0 is non-negative, at least every `work[c]` with c < n, and is 0 or one of them |
| `Gonum.AddRowToColumns` | lapack/gonum/dlantb.go:135-139 | scanning row i adds to each `work[c]`, c < n, exactly row i's contribution to column c; entries from n on are untouched |
| `Gonum.MaxColumnSumNorm` | lapack/gonum/dlantb.go:127-176 | afterwards `work[c]` is column c's total for every c < n, `work[n..]` is unchanged, and the result is the largest column total |
| `Gonum.Dlantb` | lapack/gonum/dlantb.go:18-176 | a failed check yields its error and leaves `work` untouched; n == 0 yields 0 without touching `work`; otherwise the result is the requested norm, `work` changes only for MaxColumnSum, and then only in `work[0..n)` |
| `Dense.EntryAsRowSlot` | lapack/gonum/dlantb.go:47-126 | each entry of the matrix is the slot the row windows read for it, except the unit diagonal, which the seed 1 stands for |
| `Dense.ColumnScanSlot` | lapack/gonum/dlantb.go:150-159 | the column scan reads the same slots as the row windows, plus the diagonal slot k of each row in the lower, unit case |
| `Dense.RowTotalIsDenseRowSum` | lapack/gonum/dlantb.go:90-126 | each row total equals the absolute row sum of the matrix |
| `Dense.ColTotalVsDenseColSum` | lapack/gonum/dlantb.go:127-170 | each column total equals the absolute column sum of the matrix, plus the stored diagonal slot's abs(`a`) in the lower, unit case |
| `Dense.MaxAbsIsLargestEntry` | lapack/gonum/dlantb.go:46-89 | the MaxAbs result is the largest absolute entry of the matrix |
| `Dense.MaxRowSumIsLargestRow` | lapack/gonum/dlantb.go:90-126 | the MaxRowSum result is the largest absolute row sum of the matrix |
| `Dense.MaxColSumIsLargestColumn` | lapack/gonum/dlantb.go:127-176 | outside the lower, unit case the MaxColumnSum result is the largest absolute column sum of the matrix |
| `Findings.LowerUnitColumnSumCountsDiagonalSlot` | lapack/gonum/dlantb.go:150-159 | on the 1×1 lower unit matrix whose diagonal slot holds 5, MaxRowSum is 1, and so is the matrix's column sum, but MaxColumnSum is 6 |
| `Findings.IntendedColTotal` | lapack/gonum/dlantb.go:151-159 | the corrected column total, with the scan stopped before the diagonal slot under the unit convention, is at least its seed |
| `Findings.IntendedColTotalIsDenseColSum` | lapack/gonum/dlantb.go:151-159 | the corrected column total equals the matrix's column sum for both triangles and both diagonal conventions |
| `Findings.UpperExample` | lapack/gonum/dlantb.go:46-176 | for the 3×3 upper matrix with diagonal 2, 4, 6 and superdiagonal 3, 5, MaxAbs is 6, MaxRowSum is 9 and MaxColumnSum is 11 |

## Left out

- Gonum.Dlantb: the Frobenius branch (lapack/gonum/dlantb.go:177-207) is not modelled. It uses `kd`, `ab` and `ldab`, which the function never declares, so it does not compile as written. It also calls `Dlassq` and `Dcombssq`, which are not part of this model, and it is scaled floating-point arithmetic. `Dlantb` therefore requires that a Frobenius call is rejected by the checks or has n == 0. Both of those paths are modelled.
- NaN and infinity are not modelled. Values are `real`, so the `|| math.IsNaN(...)` disjuncts of the running maxima drop out, and so do the special cases of `math.Abs`.
- Rounding of `float64` sums and comparisons is not modelled. Sums are exact.
- Go `int` is 64 bits wide, and `(n-1)*lda+k+1` and `i*lda+j` can overflow for huge arguments. The model uses unbounded integers.
- Aliasing between `a` and `work` is not modelled. `a` is an immutable sequence, so a caller passing overlapping slices is not represented.
- The panic message constants and the values of the `blas` and `lapack` enums are defined elsewhere. They are replaced by the datatypes `Band.Error`, `Band.MatrixNorm`, `Band.Uplo` and `Band.Diag`. Any diag value other than `blas.Unit` behaves as non-unit in the code, so `Band.Diag` has just two cases.
- The `Implementation` receiver carries no state and is not modelled.

## Findings

| source | as written | input that shows it | evidently intended | confidence | as-written member | corrected member |
|---|---|---|---|---|---|---|
| lapack/gonum/dlantb.go:156 | the lower, unit column-sum loop runs `j < k+1`, so it adds the stored diagonal slot's abs(`a`) on top of the implicit 1 already in `work` | n=1, k=0, lda=1, a=[5], lower, unit, MaxColumnSum: the matrix is [1], the result is 6 | `j < k`, as in the matching MaxAbs and MaxRowSum loops (lines 60 and 113), giving the matrix's column sums | high; not executed | `Findings.LowerUnitColumnSumCountsDiagonalSlot` | `Findings.IntendedColTotalIsDenseColSum` |

`Gonum.Dlantb` keeps the bound as the code has it. The general form of the
discrepancy is `Dense.ColTotalVsDenseColSum`, and the corrected totals are
`Findings.IntendedColTotal`.
