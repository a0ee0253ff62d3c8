/** The lower, unit-diagonal column-sum scan of Dlantb reads the diagonal
    slot k of each row and adds it on top of the implicit 1, so the column
    sums it forms are not those of the matrix. This module shows that on a
    concrete input and gives the column totals the scan evidently means,
    proved equal to the matrix's column sums in every case. It also works
    the three norms out on one small upper band matrix. */
module Findings {
  import opened Band
  import opened NormSpec
  import opened Dense

  /** What rows 0 <= r < m add to column c when the lower, unit scan stops
      before the diagonal slot, as the MaxAbs and MaxRowSum scans do. */
  function IntendedColPartial(uplo: Uplo, diag: Diag, n: int, k: int, a: seq<real>, lda: int, c: int, m: int): (s: real)
    requires ValidShape(n, k, lda, |a|) && 0 <= m <= n
    ensures s >= 0.0
  {
    if m == 0 then 0.0
    else IntendedColPartial(uplo, diag, n, k, a, lda, c, m - 1)
         + Contrib(uplo, n, k, a, lda, m - 1, c, RowLo(uplo, diag, k, m - 1), RowHi(uplo, diag, n, k, m - 1))
  }

  /** The column total with the diagonal slot left out under the unit
      convention. */
  function IntendedColTotal(uplo: Uplo, diag: Diag, n: int, k: int, a: seq<real>, lda: int, c: int): (s: real)
    requires ValidShape(n, k, lda, |a|)
    ensures s >= Seed(diag)
  {
    Seed(diag) + IntendedColPartial(uplo, diag, n, k, a, lda, c, n)
  }

  lemma {:induction false} IntendedColPartialVsPrefix(uplo: Uplo, diag: Diag, n: int, k: int, a: seq<real>, lda: int, c: int, m: int)
    requires ValidShape(n, k, lda, |a|) && 0 <= c < n && 0 <= m <= n
    ensures IntendedColPartial(uplo, diag, n, k, a, lda, c, m) + (if m > c && diag == Unit then 1.0 else 0.0)
            == ColPrefix(uplo, diag, n, k, a, lda, c, m)
  {
    if m > 0 {
      IntendedColPartialVsPrefix(uplo, diag, n, k, a, lda, c, m - 1);
      EntryAsRowSlot(uplo, diag, n, k, a, lda, m - 1, c);
    }
  }

  /** For both triangles and both diagonal conventions, the intended column
      total is the absolute sum of column c of the matrix. */
  lemma IntendedColTotalIsDenseColSum(uplo: Uplo, diag: Diag, n: int, k: int, a: seq<real>, lda: int, c: int)
    requires ValidShape(n, k, lda, |a|) && 0 <= c < n
    ensures IntendedColTotal(uplo, diag, n, k, a, lda, c) == DenseColSum(uplo, diag, n, k, a, lda, c)
  {
    IntendedColPartialVsPrefix(uplo, diag, n, k, a, lda, c, n);
  }

  /** The 1×1 lower, unit matrix whose unread diagonal slot holds 5: the
      matrix is [1], its row sum and its intended column sum are 1, and so
      is its MaxRowSum norm, but the column-sum scan leaves 6 in work[0]
      and the MaxColumnSum norm is 6. */
  lemma LowerUnitColumnSumCountsDiagonalSlot(v: real, w: real)
    requires IsMaxColSum(v, Lower, Unit, 1, 0, [5.0], 1)
    requires IsMaxRowSum(w, Lower, Unit, 1, 0, [5.0], 1)
    ensures Entry(Lower, Unit, 1, 0, [5.0], 1, 0, 0) == 1.0
    ensures DenseColSum(Lower, Unit, 1, 0, [5.0], 1, 0) == 1.0
    ensures IntendedColTotal(Lower, Unit, 1, 0, [5.0], 1, 0) == 1.0
    ensures ColTotal(Lower, Unit, 1, 0, [5.0], 1, 0) == 6.0
    ensures w == 1.0 && v == 6.0
  {
    ColTotalVsDenseColSum(Lower, Unit, 1, 0, [5.0], 1, 0);
    IntendedColTotalIsDenseColSum(Lower, Unit, 1, 0, [5.0], 1, 0);
    RowTotalIsDenseRowSum(Lower, Unit, 1, 0, [5.0], 1, 0);
  }

  /** The 3×3 upper matrix with diagonal 2, 4, 6 and superdiagonal 3, 5,
      stored with pitch 2 (the last slot x is outside the band): MaxAbs is
      6, MaxRowSum is max(2+3, 4+5, 6) = 9, MaxColumnSum is
      max(2, 3+4, 5+6) = 11. */
  lemma UpperExample(x: real, u: real, v: real, w: real)
    requires IsMaxAbs(u, Upper, NonUnit, 3, 1, [2.0, 3.0, 4.0, 5.0, 6.0, x], 2)
    requires IsMaxRowSum(v, Upper, NonUnit, 3, 1, [2.0, 3.0, 4.0, 5.0, 6.0, x], 2)
    requires IsMaxColSum(w, Upper, NonUnit, 3, 1, [2.0, 3.0, 4.0, 5.0, 6.0, x], 2)
    ensures u == 6.0 && v == 9.0 && w == 11.0
  {
    var a := [2.0, 3.0, 4.0, 5.0, 6.0, x];
    assert RowTotal(Upper, NonUnit, 3, 1, a, 2, 0) == 5.0;
    assert RowTotal(Upper, NonUnit, 3, 1, a, 2, 1) == 9.0;
    assert RowTotal(Upper, NonUnit, 3, 1, a, 2, 2) == 6.0;
    assert ColPartial(Upper, NonUnit, 3, 1, a, 2, 0, 1) == 2.0;
    assert ColPartial(Upper, NonUnit, 3, 1, a, 2, 0, 2) == 2.0;
    assert ColPartial(Upper, NonUnit, 3, 1, a, 2, 1, 1) == 3.0;
    assert ColPartial(Upper, NonUnit, 3, 1, a, 2, 1, 2) == 7.0;
    assert ColPartial(Upper, NonUnit, 3, 1, a, 2, 2, 1) == 0.0;
    assert ColPartial(Upper, NonUnit, 3, 1, a, 2, 2, 2) == 5.0;
    assert ColTotal(Upper, NonUnit, 3, 1, a, 2, 0) == 2.0;
    assert ColTotal(Upper, NonUnit, 3, 1, a, 2, 1) == 7.0;
    assert ColTotal(Upper, NonUnit, 3, 1, a, 2, 2) == 11.0;
    assert Abs(a[Index(3, 1, 2, 2, 0)]) == 6.0;
    forall i, j | 0 <= i < 3 && RowLo(Upper, NonUnit, 1, i) <= j < RowHi(Upper, NonUnit, 3, 1, i)
      ensures Abs(a[Index(3, 1, 2, i, j)]) <= 6.0
    {
    }
  }
}
