/** Dlantb: the MaxAbs, MaxRowSum and MaxColumnSum norms of a triangular
    band matrix, with the argument checks that precede them. */
module Gonum {
  import opened Band
  import opened Validation
  import opened NormSpec

  /** The MaxAbs branch: the running maximum of |a[i*lda+j]| over every
      row window, started from the seed (1 under the unit convention, whose
      diagonal slots are never read, and 0 otherwise). */
  method MaxAbsNorm(uplo: Uplo, diag: Diag, n: int, k: int, a: seq<real>, lda: int) returns (value: real)
    requires ValidShape(n, k, lda, |a|)
    ensures IsMaxAbs(value, uplo, diag, n, k, a, lda)
  {
    value := Seed(diag);
    ghost var found, wi, wj := false, 0, 0;
    var i := 0;
    while i < n
      invariant 0 <= i <= n
      invariant value >= Seed(diag)
      invariant forall r, j :: 0 <= r < i && RowLo(uplo, diag, k, r) <= j < RowHi(uplo, diag, n, k, r) ==>
                  Abs(a[Index(n, k, lda, r, j)]) <= value
      invariant found ==> 0 <= wi < i && RowLo(uplo, diag, k, wi) <= wj < RowHi(uplo, diag, n, k, wi) &&
                          value == Abs(a[Index(n, k, lda, wi, wj)])
      invariant !found ==> value == Seed(diag)
    {
      var lo, hi := RowLo(uplo, diag, k, i), RowHi(uplo, diag, n, k, i);
      var j := lo;
      while j < hi
        invariant lo <= j && (j <= hi || j == lo)
        invariant value >= Seed(diag)
        invariant forall r, jj :: 0 <= r < i && RowLo(uplo, diag, k, r) <= jj < RowHi(uplo, diag, n, k, r) ==>
                    Abs(a[Index(n, k, lda, r, jj)]) <= value
        invariant forall jj :: lo <= jj < j ==> Abs(a[Index(n, k, lda, i, jj)]) <= value
        invariant found ==> 0 <= wi <= i && RowLo(uplo, diag, k, wi) <= wj < RowHi(uplo, diag, n, k, wi) &&
                            (wi < i || wj < j) && value == Abs(a[Index(n, k, lda, wi, wj)])
        invariant !found ==> value == Seed(diag)
      {
        var aij := Abs(a[Index(n, k, lda, i, j)]);
        if aij > value {
          value := aij;
          found, wi, wj := true, i, j;
        }
        j := j + 1;
      }
      i := i + 1;
    }
  }

  /** The MaxRowSum branch: the running maximum, from 0, of the row totals,
      each formed by a running sum over the row's window. */
  method MaxRowSumNorm(uplo: Uplo, diag: Diag, n: int, k: int, a: seq<real>, lda: int) returns (value: real)
    requires ValidShape(n, k, lda, |a|)
    ensures IsMaxRowSum(value, uplo, diag, n, k, a, lda)
    ensures value >= Seed(diag)
  {
    value := 0.0;
    ghost var wi := 0;
    var i := 0;
    while i < n
      invariant 0 <= i <= n
      invariant forall r :: 0 <= r < i ==> RowTotal(uplo, diag, n, k, a, lda, r) <= value
      invariant i == 0 ==> value == 0.0
      invariant i > 0 ==> 0 <= wi < i && value == RowTotal(uplo, diag, n, k, a, lda, wi)
    {
      var lo, hi := RowLo(uplo, diag, k, i), RowHi(uplo, diag, n, k, i);
      var sum := Seed(diag);
      var j := lo;
      while j < hi
        invariant lo <= j && (j <= hi || j == lo)
        invariant sum == Seed(diag) + SlotSum(n, k, a, lda, i, lo, j)
      {
        sum := sum + Abs(a[Index(n, k, lda, i, j)]);
        j := j + 1;
      }
      if sum > value {
        value := sum;
        wi := i;
      } else if i == 0 {
        wi := 0;
      }
      i := i + 1;
    }
  }

  /** The final fold of the MaxColumnSum branch: the running maximum, from
      0, of work[0..n). */
  method MaxWork(work: array<real>, n: int) returns (value: real)
    requires 0 <= n <= work.Length
    ensures value >= 0.0
    ensures forall c :: 0 <= c < n ==> work[c] <= value
    ensures value == 0.0 || exists c :: 0 <= c < n && value == work[c]
  {
    value := 0.0;
    var c := 0;
    while c < n
      invariant 0 <= c <= n
      invariant value >= 0.0
      invariant forall c' :: 0 <= c' < c ==> work[c'] <= value
      invariant value == 0.0 || exists c' :: 0 <= c' < c && value == work[c']
    {
      if work[c] > value {
        value := work[c];
      }
      c := c + 1;
    }
  }

  /** One row of the MaxColumnSum scan: add |a| of each slot of row i's
      window into the entry of `work` for that slot's column. */
  method AddRowToColumns(uplo: Uplo, diag: Diag, n: int, k: int, a: seq<real>, lda: int, work: array<real>, i: int)
    requires ValidShape(n, k, lda, |a|) && work.Length >= n && 0 <= i < n
    modifies work
    ensures forall c :: 0 <= c < n ==>
              work[c] == old(work[c]) + Contrib(uplo, n, k, a, lda, i, c, RowLo(uplo, diag, k, i), ColHi(uplo, n, k, i))
    ensures forall c :: n <= c < work.Length ==> work[c] == old(work[c])
  {
    var lo, hi := RowLo(uplo, diag, k, i), ColHi(uplo, n, k, i);
    var j := lo;
    while j < hi
      invariant lo <= j && (j <= hi || j == lo)
      invariant forall c :: 0 <= c < n ==> work[c] == old(work[c]) + Contrib(uplo, n, k, a, lda, i, c, lo, j)
      invariant forall c :: n <= c < work.Length ==> work[c] == old(work[c])
    {
      var col := Column(uplo, n, k, i, j);
      work[col] := work[col] + Abs(a[Index(n, k, lda, i, j)]);
      forall c | 0 <= c < n
        ensures work[c] == old(work[c]) + Contrib(uplo, n, k, a, lda, i, c, lo, j + 1)
      {
        ContribStep(uplo, diag, n, k, a, lda, i, j, c);
      }
      j := j + 1;
    }
  }

  /** The MaxColumnSum branch: reset work[0..n) to the seed, add |a| of
      every scanned slot into the entry of its column, then take the
      maximum. Entries of `work` from n on are left as they were. */
  method MaxColumnSumNorm(uplo: Uplo, diag: Diag, n: int, k: int, a: seq<real>, lda: int, work: array<real>)
    returns (value: real)
    requires ValidShape(n, k, lda, |a|) && work.Length >= n
    modifies work
    ensures forall c :: 0 <= c < n ==> work[c] == ColTotal(uplo, diag, n, k, a, lda, c)
    ensures forall c :: n <= c < work.Length ==> work[c] == old(work[c])
    ensures IsMaxColSum(value, uplo, diag, n, k, a, lda)
  {
    var seed := Seed(diag);
    var c := 0;
    while c < n
      invariant 0 <= c <= n
      invariant forall c' :: 0 <= c' < c ==> work[c'] == seed
      invariant forall c' :: n <= c' < work.Length ==> work[c'] == old(work[c'])
    {
      work[c] := seed;
      c := c + 1;
    }
    var i := 0;
    while i < n
      invariant 0 <= i <= n
      invariant forall c' :: 0 <= c' < n ==> work[c'] == seed + ColPartial(uplo, diag, n, k, a, lda, c', i)
      invariant forall c' :: n <= c' < work.Length ==> work[c'] == old(work[c'])
    {
      AddRowToColumns(uplo, diag, n, k, a, lda, work, i);
      i := i + 1;
    }
    value := MaxWork(work, n);
    if value == 0.0 {
      // Every total is at least 0, so the fold's start value is column 0's.
      assert work[0] <= value;
    }
  }

  /** Dlantb restricted to the three amplitude norms: the argument checks
      in the routine's order, the quick return for n == 0, then the branch
      for the requested norm. A panic is an `Err` and leaves `work` as it
      was. */
  method Dlantb(norm: MatrixNorm, uplo: Uplo, diag: Diag, n: int, k: int, a: seq<real>, lda: int, work: array<real>)
    returns (r: Result<real>)
    requires norm == Frobenius ==> Validate(norm, uplo, n, k, lda, |a|, work.Length) != None || n == 0
    modifies work
    ensures Validate(norm, uplo, n, k, lda, |a|, work.Length) != None ==>
              r == Err(Validate(norm, uplo, n, k, lda, |a|, work.Length).value) && unchanged(work)
    ensures Validate(norm, uplo, n, k, lda, |a|, work.Length) == None && n == 0 ==>
              r == Ok(0.0) && unchanged(work)
    ensures Validate(norm, uplo, n, k, lda, |a|, work.Length) == None && n != 0 ==>
              && r.Ok?
              && (norm == MaxAbs ==> IsMaxAbs(r.value, uplo, diag, n, k, a, lda) && unchanged(work))
              && (norm == MaxRowSum ==> IsMaxRowSum(r.value, uplo, diag, n, k, a, lda) && unchanged(work))
              && (norm == MaxColumnSum ==>
                    && IsMaxColSum(r.value, uplo, diag, n, k, a, lda)
                    && (forall c :: 0 <= c < n ==> work[c] == ColTotal(uplo, diag, n, k, a, lda, c))
                    && (forall c :: n <= c < work.Length ==> work[c] == old(work[c])))
  {
    var e := ArgumentError(norm, uplo, n, k, lda);
    if e.Some? {
      return Err(e.value);
    }
    if n == 0 {
      return Ok(0.0);
    }
    e := LengthError(norm, n, k, lda, |a|, work.Length);
    if e.Some? {
      return Err(e.value);
    }
    var value := 0.0;
    match norm {
      case MaxAbs =>
        value := MaxAbsNorm(uplo, diag, n, k, a, lda);
      case MaxRowSum =>
        value := MaxRowSumNorm(uplo, diag, n, k, a, lda);
      case MaxColumnSum =>
        value := MaxColumnSumNorm(uplo, diag, n, k, a, lda, work);
      case Frobenius =>
        assert false;
      case OtherNorm =>
        assert false;
    }
    return Ok(value);
  }
}
