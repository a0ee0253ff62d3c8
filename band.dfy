/** Band storage of an n×n triangular band matrix with k+1 diagonals, kept
    row-major in a flat sequence with row pitch `lda`.

    Upper: row i holds the diagonal at slot 0 and the superdiagonals after
    it, so slot j of row i is column i+j.
    Lower: row i holds the subdiagonals right-aligned with the diagonal at
    slot k, so slot j of row i is column i+j-k. */
module Band {

  /** The norm requested; `OtherNorm` stands for any value of the enum type
      that is none of the four known kinds. */
  datatype MatrixNorm = MaxAbs | MaxRowSum | MaxColumnSum | Frobenius | OtherNorm

  /** Which triangle is stored; `OtherUplo` stands for any other value. */
  datatype Uplo = Upper | Lower | OtherUplo

  /** Only `Unit` is compared against; every other value behaves as non-unit. */
  datatype Diag = Unit | NonUnit

  /** The panics of the routine, one per failed argument check. */
  datatype Error = BadNorm | BadUplo | NLT0 | KdLT0 | BadLdA | ShortAB | ShortWork

  datatype Option<T> = None | Some(value: T)

  datatype Result<T> = Ok(value: T) | Err(error: Error)

  function Min(x: int, y: int): int { if x < y then x else y }

  function Max(x: int, y: int): int { if x > y then x else y }

  function Abs(x: real): real { if x < 0.0 then -x else x }

  /** The shape every accepted call with n > 0 has: the band fits in the
      row pitch and `a` covers the last row's band. */
  predicate ValidShape(n: int, k: int, lda: int, alen: int)
  {
    n > 0 && k >= 0 && lda >= k + 1 && alen >= (n - 1) * lda + k + 1
  }

  /** The flat position of slot j of row i, as every read `a[i*lda+j]`
      computes it. It lies inside row i's pitch and below the last offset
      the length check guarantees. */
  function Index(n: int, k: int, lda: int, i: int, j: int): (p: nat)
    requires n > 0 && 0 <= k < lda
    requires 0 <= i < n && 0 <= j <= k
    ensures i * lda <= p < (i + 1) * lda
    ensures p <= (n - 1) * lda + k
  {
    RowStartMonotone(i, n - 1, lda);
    i * lda + j
  }

  lemma RowStartMonotone(i: int, m: int, lda: int)
    requires 0 <= i <= m && lda >= 0
    ensures 0 <= i * lda <= m * lda
  {
  }

  /** The value the running maximum or running sum starts from: the
      implicit diagonal 1 under the unit convention, 0 otherwise. */
  function Seed(diag: Diag): (s: real)
    ensures s >= 0.0
    ensures s == 1.0 <==> diag == Unit
    ensures diag != Unit ==> s == 0.0
  {
    if diag == Unit then 1.0 else 0.0
  }

  /** First slot of row i that the MaxAbs, MaxRowSum and MaxColumnSum loops
      read: upper skips the diagonal slot 0 when unit; lower starts where
      the row's band meets column 0. */
  function RowLo(uplo: Uplo, diag: Diag, k: int, i: int): (lo: int)
    requires k >= 0 && i >= 0
    ensures 0 <= lo <= k + 1
  {
    if uplo == Upper then (if diag == Unit then 1 else 0) else Max(0, k - i)
  }

  /** One past the last slot of row i that the MaxAbs and MaxRowSum loops
      read: upper stops at the matrix edge; lower stops before the diagonal
      slot k when unit. */
  function RowHi(uplo: Uplo, diag: Diag, n: int, k: int, i: int): (hi: int)
    requires k >= 0 && 0 <= i < n
    ensures hi <= k + 1
  {
    if uplo == Upper then Min(n - i, k + 1) else if diag == Unit then k else k + 1
  }

  /** Under the unit convention the MaxAbs and MaxRowSum windows never
      reach the diagonal slot of their row (slot 0 upper, slot k lower). */
  lemma UnitDiagonalNotScanned(uplo: Uplo, diag: Diag, n: int, k: int, i: int)
    requires diag == Unit && k >= 0 && 0 <= i < n
    ensures !(RowLo(uplo, diag, k, i) <= SlotOf(uplo, k, i, i) < RowHi(uplo, diag, n, k, i))
  {
  }

  /** One past the last slot of row i that the MaxColumnSum loop reads.
      Unlike RowHi, the lower case stops after slot k for both diagonal
      conventions. */
  function ColHi(uplo: Uplo, n: int, k: int, i: int): (hi: int)
    requires k >= 0 && 0 <= i < n
    ensures hi <= k + 1
  {
    if uplo == Upper then Min(n - i, k + 1) else k + 1
  }

  /** The matrix column that slot j of row i holds; every slot a loop reads
      maps to a column in [0, n), the range of `work` that is written. */
  function Column(uplo: Uplo, n: int, k: int, i: int, j: int): (c: int)
    requires k >= 0 && 0 <= i < n
    requires 0 <= j && (uplo != Upper ==> Max(0, k - i) <= j)
    requires j < ColHi(uplo, n, k, i)
    ensures 0 <= c < n
    ensures SlotOf(uplo, k, i, c) == j
  {
    if uplo == Upper then i + j else i + j - k
  }

  /** The slot of row i that holds column c: the inverse of Column. */
  function SlotOf(uplo: Uplo, k: int, i: int, c: int): int
  {
    if uplo == Upper then c - i else c - i + k
  }
}
