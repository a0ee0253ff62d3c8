/** What the three amplitude norms of Dlantb compute, stated over the
    stored band: sums of |a[i*lda+j]| over each row's window of slots, the
    per-column totals the column-sum scan accumulates, and what it means
    for a value to be the maximum of them. */
module NormSpec {
  import opened Band

  /** The sum of |a[i*lda+j]| over the slots lo <= j < hi of row i. */
  function SlotSum(n: int, k: int, a: seq<real>, lda: int, i: int, lo: int, hi: int): (s: real)
    requires ValidShape(n, k, lda, |a|) && 0 <= i < n
    requires 0 <= lo && hi <= k + 1
    ensures s >= 0.0
    decreases hi - lo
  {
    if hi <= lo then 0.0 else SlotSum(n, k, a, lda, i, lo, hi - 1) + Abs(a[Index(n, k, lda, i, hi - 1)])
  }

  /** The absolute row sum of row i as the MaxRowSum branch forms it: the
      seed (the implicit unit diagonal, or 0) plus the row's window. */
  function RowTotal(uplo: Uplo, diag: Diag, n: int, k: int, a: seq<real>, lda: int, i: int): (s: real)
    requires ValidShape(n, k, lda, |a|) && 0 <= i < n
    ensures s >= Seed(diag)
  {
    Seed(diag) + SlotSum(n, k, a, lda, i, RowLo(uplo, diag, k, i), RowHi(uplo, diag, n, k, i))
  }

  /** What row i adds to column c when its slots lo <= j < hi are scanned:
      |a| of the one slot that holds column c, if that slot is scanned. */
  function Contrib(uplo: Uplo, n: int, k: int, a: seq<real>, lda: int, i: int, c: int, lo: int, hi: int): (s: real)
    requires ValidShape(n, k, lda, |a|) && 0 <= i < n
    requires 0 <= lo && hi <= k + 1
    ensures s >= 0.0
  {
    var j := SlotOf(uplo, k, i, c);
    if lo <= j < hi then Abs(a[Index(n, k, lda, i, j)]) else 0.0
  }

  /** Scanning one more slot j of row i adds its |a| to its own column
      and nothing to the others. */
  lemma ContribStep(uplo: Uplo, diag: Diag, n: int, k: int, a: seq<real>, lda: int, i: int, j: int, c: int)
    requires ValidShape(n, k, lda, |a|) && 0 <= i < n && 0 <= c < n
    requires RowLo(uplo, diag, k, i) <= j < ColHi(uplo, n, k, i)
    ensures Contrib(uplo, n, k, a, lda, i, c, RowLo(uplo, diag, k, i), j + 1)
            == Contrib(uplo, n, k, a, lda, i, c, RowLo(uplo, diag, k, i), j)
               + (if c == Column(uplo, n, k, i, j) then Abs(a[Index(n, k, lda, i, j)]) else 0.0)
  {
  }

  /** What rows 0 <= i < m of the MaxColumnSum scan add to column c. */
  function ColPartial(uplo: Uplo, diag: Diag, n: int, k: int, a: seq<real>, lda: int, c: int, m: int): (s: real)
    requires ValidShape(n, k, lda, |a|) && 0 <= m <= n
    ensures s >= 0.0
  {
    if m == 0 then 0.0
    else ColPartial(uplo, diag, n, k, a, lda, c, m - 1)
         + Contrib(uplo, n, k, a, lda, m - 1, c, RowLo(uplo, diag, k, m - 1), ColHi(uplo, n, k, m - 1))
  }

  /** The total `work[c]` holds after the MaxColumnSum scan: the seed plus
      |a| of every scanned slot that holds column c. */
  function ColTotal(uplo: Uplo, diag: Diag, n: int, k: int, a: seq<real>, lda: int, c: int): (s: real)
    requires ValidShape(n, k, lda, |a|)
    ensures s >= Seed(diag)
  {
    Seed(diag) + ColPartial(uplo, diag, n, k, a, lda, c, n)
  }

  /** v is the largest of the seed and every |a[i*lda+j]| in the row
      windows the MaxAbs branch scans. */
  predicate IsMaxAbs(v: real, uplo: Uplo, diag: Diag, n: int, k: int, a: seq<real>, lda: int)
    requires ValidShape(n, k, lda, |a|)
  {
    && v >= Seed(diag)
    && (forall i, j :: 0 <= i < n && RowLo(uplo, diag, k, i) <= j < RowHi(uplo, diag, n, k, i) ==>
          Abs(a[Index(n, k, lda, i, j)]) <= v)
    && (v == Seed(diag) ||
        exists i, j :: 0 <= i < n && RowLo(uplo, diag, k, i) <= j < RowHi(uplo, diag, n, k, i) &&
          v == Abs(a[Index(n, k, lda, i, j)]))
  }

  /** v is the largest row total. */
  predicate IsMaxRowSum(v: real, uplo: Uplo, diag: Diag, n: int, k: int, a: seq<real>, lda: int)
    requires ValidShape(n, k, lda, |a|)
  {
    && (forall i :: 0 <= i < n ==> RowTotal(uplo, diag, n, k, a, lda, i) <= v)
    && (exists i :: 0 <= i < n && v == RowTotal(uplo, diag, n, k, a, lda, i))
  }

  /** v is the largest column total. */
  predicate IsMaxColSum(v: real, uplo: Uplo, diag: Diag, n: int, k: int, a: seq<real>, lda: int)
    requires ValidShape(n, k, lda, |a|)
  {
    && (forall c :: 0 <= c < n ==> ColTotal(uplo, diag, n, k, a, lda, c) <= v)
    && (exists c :: 0 <= c < n && v == ColTotal(uplo, diag, n, k, a, lda, c))
  }
}
