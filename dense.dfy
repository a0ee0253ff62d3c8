/** The n×n triangular matrix that the band storage stands for, and its
    norms defined entry by entry, independently of the storage layout.
    The lemmas here tie the band-level totals the loops compute to them. */
module Dense {
  import opened Band
  import opened NormSpec

  /** Entry (r, c) of the matrix: inside the band it is the stored slot, or
      1 on the diagonal under the unit convention; outside it is 0. */
  function Entry(uplo: Uplo, diag: Diag, n: int, k: int, a: seq<real>, lda: int, r: int, c: int): real
    requires ValidShape(n, k, lda, |a|) && 0 <= r < n && 0 <= c < n
  {
    if uplo == Upper then
      if r <= c <= r + k then (if r == c && diag == Unit then 1.0 else a[Index(n, k, lda, r, c - r)])
      else 0.0
    else
      if c <= r <= c + k then (if r == c && diag == Unit then 1.0 else a[Index(n, k, lda, r, c - r + k)])
      else 0.0
  }

  /** Σ |Entry(r, c)| over columns 0 <= c < m. */
  function RowPrefix(uplo: Uplo, diag: Diag, n: int, k: int, a: seq<real>, lda: int, r: int, m: int): real
    requires ValidShape(n, k, lda, |a|) && 0 <= r < n && 0 <= m <= n
  {
    if m == 0 then 0.0
    else RowPrefix(uplo, diag, n, k, a, lda, r, m - 1) + Abs(Entry(uplo, diag, n, k, a, lda, r, m - 1))
  }

  /** Σ |Entry(r, c)| over rows 0 <= r < m. */
  function ColPrefix(uplo: Uplo, diag: Diag, n: int, k: int, a: seq<real>, lda: int, c: int, m: int): real
    requires ValidShape(n, k, lda, |a|) && 0 <= c < n && 0 <= m <= n
  {
    if m == 0 then 0.0
    else ColPrefix(uplo, diag, n, k, a, lda, c, m - 1) + Abs(Entry(uplo, diag, n, k, a, lda, m - 1, c))
  }

  /** The absolute sum of row r of the matrix. */
  function DenseRowSum(uplo: Uplo, diag: Diag, n: int, k: int, a: seq<real>, lda: int, r: int): real
    requires ValidShape(n, k, lda, |a|) && 0 <= r < n
  {
    RowPrefix(uplo, diag, n, k, a, lda, r, n)
  }

  /** The absolute sum of column c of the matrix. */
  function DenseColSum(uplo: Uplo, diag: Diag, n: int, k: int, a: seq<real>, lda: int, c: int): real
    requires ValidShape(n, k, lda, |a|) && 0 <= c < n
  {
    ColPrefix(uplo, diag, n, k, a, lda, c, n)
  }

  /** Entry by entry, a row's scanned window holds the matrix row except for
      the diagonal under the unit convention, which the seed stands for. */
  lemma EntryAsRowSlot(uplo: Uplo, diag: Diag, n: int, k: int, a: seq<real>, lda: int, r: int, c: int)
    requires ValidShape(n, k, lda, |a|) && 0 <= r < n && 0 <= c < n
    ensures Abs(Entry(uplo, diag, n, k, a, lda, r, c))
            == Contrib(uplo, n, k, a, lda, r, c, RowLo(uplo, diag, k, r), RowHi(uplo, diag, n, k, r))
               + (if r == c && diag == Unit then 1.0 else 0.0)
  {
  }

  /** The column-sum scan reads the same slots as the row windows, plus the
      stored diagonal slot k of each row in the lower, unit case. */
  lemma ColumnScanSlot(uplo: Uplo, diag: Diag, n: int, k: int, a: seq<real>, lda: int, r: int, c: int)
    requires ValidShape(n, k, lda, |a|) && 0 <= r < n && 0 <= c < n
    ensures Contrib(uplo, n, k, a, lda, r, c, RowLo(uplo, diag, k, r), ColHi(uplo, n, k, r))
            == Contrib(uplo, n, k, a, lda, r, c, RowLo(uplo, diag, k, r), RowHi(uplo, diag, n, k, r))
               + (if r == c && uplo != Upper && diag == Unit then Abs(a[Index(n, k, lda, r, k)]) else 0.0)
  {
  }

  lemma {:induction false} RowPrefixAsSlots(uplo: Uplo, diag: Diag, n: int, k: int, a: seq<real>, lda: int, r: int, m: int)
    requires ValidShape(n, k, lda, |a|) && 0 <= r < n && 0 <= m <= n
    ensures RowPrefix(uplo, diag, n, k, a, lda, r, m)
            == SlotSum(n, k, a, lda, r, RowLo(uplo, diag, k, r), Min(SlotOf(uplo, k, r, m), RowHi(uplo, diag, n, k, r)))
               + (if m > r && diag == Unit then 1.0 else 0.0)
  {
    var lo, hi := RowLo(uplo, diag, k, r), RowHi(uplo, diag, n, k, r);
    if m == 0 {
      assert Min(SlotOf(uplo, k, r, 0), hi) <= lo;
    } else {
      RowPrefixAsSlots(uplo, diag, n, k, a, lda, r, m - 1);
      EntryAsRowSlot(uplo, diag, n, k, a, lda, r, m - 1);
      var t := SlotOf(uplo, k, r, m - 1);
      assert SlotOf(uplo, k, r, m) == t + 1;
      if t < lo {
        assert Min(t + 1, hi) <= lo;
      } else if t < hi {
        assert Min(t + 1, hi) == t + 1;
      }
    }
  }

  /** The row total the MaxRowSum branch forms is the absolute sum of that
      row of the matrix. */
  lemma RowTotalIsDenseRowSum(uplo: Uplo, diag: Diag, n: int, k: int, a: seq<real>, lda: int, r: int)
    requires ValidShape(n, k, lda, |a|) && 0 <= r < n
    ensures RowTotal(uplo, diag, n, k, a, lda, r) == DenseRowSum(uplo, diag, n, k, a, lda, r)
  {
    RowPrefixAsSlots(uplo, diag, n, k, a, lda, r, n);
  }

  lemma {:induction false} ColPartialVsPrefix(uplo: Uplo, diag: Diag, n: int, k: int, a: seq<real>, lda: int, c: int, m: int)
    requires ValidShape(n, k, lda, |a|) && 0 <= c < n && 0 <= m <= n
    ensures ColPartial(uplo, diag, n, k, a, lda, c, m) + (if m > c && diag == Unit then 1.0 else 0.0)
            == ColPrefix(uplo, diag, n, k, a, lda, c, m)
               + (if m > c && uplo != Upper && diag == Unit then Abs(a[Index(n, k, lda, c, k)]) else 0.0)
  {
    if m > 0 {
      ColPartialVsPrefix(uplo, diag, n, k, a, lda, c, m - 1);
      EntryAsRowSlot(uplo, diag, n, k, a, lda, m - 1, c);
      ColumnScanSlot(uplo, diag, n, k, a, lda, m - 1, c);
    }
  }

  /** The column total the MaxColumnSum branch leaves in `work[c]` is the
      absolute sum of column c of the matrix, except in the lower, unit
      case, where it also holds |a| of the stored diagonal slot of row c,
      on top of the implicit 1. */
  lemma ColTotalVsDenseColSum(uplo: Uplo, diag: Diag, n: int, k: int, a: seq<real>, lda: int, c: int)
    requires ValidShape(n, k, lda, |a|) && 0 <= c < n
    ensures ColTotal(uplo, diag, n, k, a, lda, c)
            == DenseColSum(uplo, diag, n, k, a, lda, c)
               + (if uplo != Upper && diag == Unit then Abs(a[Index(n, k, lda, c, k)]) else 0.0)
  {
    ColPartialVsPrefix(uplo, diag, n, k, a, lda, c, n);
  }

  /** The MaxAbs result is the largest |Entry| of the matrix. */
  lemma MaxAbsIsLargestEntry(v: real, uplo: Uplo, diag: Diag, n: int, k: int, a: seq<real>, lda: int)
    requires ValidShape(n, k, lda, |a|)
    requires IsMaxAbs(v, uplo, diag, n, k, a, lda)
    ensures forall r, c :: 0 <= r < n && 0 <= c < n ==> Abs(Entry(uplo, diag, n, k, a, lda, r, c)) <= v
    ensures exists r, c :: 0 <= r < n && 0 <= c < n && v == Abs(Entry(uplo, diag, n, k, a, lda, r, c))
  {
    forall r, c | 0 <= r < n && 0 <= c < n
      ensures Abs(Entry(uplo, diag, n, k, a, lda, r, c)) <= v
    {
      EntryAsRowSlot(uplo, diag, n, k, a, lda, r, c);
      var j := SlotOf(uplo, k, r, c);
      if RowLo(uplo, diag, k, r) <= j < RowHi(uplo, diag, n, k, r) {
        assert Abs(a[Index(n, k, lda, r, j)]) <= v;
      }
    }
    if v == Seed(diag) {
      EntryAsRowSlot(uplo, diag, n, k, a, lda, 0, 0);
      var j0 := SlotOf(uplo, k, 0, 0);
      if diag == NonUnit {
        assert Abs(a[Index(n, k, lda, 0, j0)]) <= v;
      }
      assert v == Abs(Entry(uplo, diag, n, k, a, lda, 0, 0));
    } else {
      var i, j :| 0 <= i < n && RowLo(uplo, diag, k, i) <= j < RowHi(uplo, diag, n, k, i) &&
                  v == Abs(a[Index(n, k, lda, i, j)]);
      var c := Column(uplo, n, k, i, j);
      EntryAsRowSlot(uplo, diag, n, k, a, lda, i, c);
      assert v == Abs(Entry(uplo, diag, n, k, a, lda, i, c));
    }
  }

  /** The MaxRowSum result is the largest absolute row sum of the matrix. */
  lemma MaxRowSumIsLargestRow(v: real, uplo: Uplo, diag: Diag, n: int, k: int, a: seq<real>, lda: int)
    requires ValidShape(n, k, lda, |a|)
    requires IsMaxRowSum(v, uplo, diag, n, k, a, lda)
    ensures forall r :: 0 <= r < n ==> DenseRowSum(uplo, diag, n, k, a, lda, r) <= v
    ensures exists r :: 0 <= r < n && v == DenseRowSum(uplo, diag, n, k, a, lda, r)
  {
    forall r | 0 <= r < n
      ensures DenseRowSum(uplo, diag, n, k, a, lda, r) == RowTotal(uplo, diag, n, k, a, lda, r)
    {
      RowTotalIsDenseRowSum(uplo, diag, n, k, a, lda, r);
    }
  }

  /** Outside the lower, unit case, the MaxColumnSum result is the largest
      absolute column sum of the matrix. */
  lemma MaxColSumIsLargestColumn(v: real, uplo: Uplo, diag: Diag, n: int, k: int, a: seq<real>, lda: int)
    requires ValidShape(n, k, lda, |a|)
    requires uplo == Upper || diag == NonUnit
    requires IsMaxColSum(v, uplo, diag, n, k, a, lda)
    ensures forall c :: 0 <= c < n ==> DenseColSum(uplo, diag, n, k, a, lda, c) <= v
    ensures exists c :: 0 <= c < n && v == DenseColSum(uplo, diag, n, k, a, lda, c)
  {
    forall c | 0 <= c < n
      ensures DenseColSum(uplo, diag, n, k, a, lda, c) == ColTotal(uplo, diag, n, k, a, lda, c)
    {
      ColTotalVsDenseColSum(uplo, diag, n, k, a, lda, c);
    }
  }
}
