/** The argument checks of Dlantb, in the order the routine makes them. */
module Validation {
  import opened Band

  /** The checks made on entry, before anything else (the panics on a bad
      norm, a bad uplo, n < 0, k < 0 and lda < k+1). Each error is the one
      reported exactly when its own check fails and every earlier one
      passed. */
  function ArgumentError(norm: MatrixNorm, uplo: Uplo, n: int, k: int, lda: int): (e: Option<Error>)
    ensures e == Some(BadNorm) <==> norm == OtherNorm
    ensures e == Some(BadUplo) <==> norm != OtherNorm && uplo == OtherUplo
    ensures e == Some(NLT0) <==> norm != OtherNorm && uplo != OtherUplo && n < 0
    ensures e == Some(KdLT0) <==> norm != OtherNorm && uplo != OtherUplo && n >= 0 && k < 0
    ensures e == Some(BadLdA) <==>
              norm != OtherNorm && uplo != OtherUplo && n >= 0 && k >= 0 && lda < k + 1
    ensures e == None <==>
              norm != OtherNorm && uplo != OtherUplo && n >= 0 && k >= 0 && lda >= k + 1
  {
    if norm == OtherNorm then Some(BadNorm)
    else if uplo == OtherUplo then Some(BadUplo)
    else if n < 0 then Some(NLT0)
    else if k < 0 then Some(KdLT0)
    else if lda < k + 1 then Some(BadLdA)
    else None
  }

  /** The length checks made only once n > 0: `a` must cover the last row's
      band, and `work` must hold n entries, but only for MaxColumnSum. */
  function LengthError(norm: MatrixNorm, n: int, k: int, lda: int, alen: int, wlen: int): (e: Option<Error>)
    ensures e == Some(ShortAB) <==> alen < (n - 1) * lda + k + 1
    ensures e == Some(ShortWork) <==>
              alen >= (n - 1) * lda + k + 1 && wlen < n && norm == MaxColumnSum
    ensures e == None <==>
              alen >= (n - 1) * lda + k + 1 && (norm == MaxColumnSum ==> wlen >= n)
  {
    if alen < (n - 1) * lda + k + 1 then Some(ShortAB)
    else if wlen < n && norm == MaxColumnSum then Some(ShortWork)
    else None
  }

  /** The panic, if any, of a call with these arguments: the entry checks,
      then the quick return for n == 0, which skips the length checks. A
      call is accepted with n > 0 exactly when it has the shape under which
      every read `a[i*lda+j]` is in bounds (see Band.Index) and, for
      MaxColumnSum, `work` holds at least n entries. */
  function Validate(norm: MatrixNorm, uplo: Uplo, n: int, k: int, lda: int, alen: int, wlen: int): (e: Option<Error>)
    ensures n == 0 ==>
              (e == None <==> norm != OtherNorm && uplo != OtherUplo && k >= 0 && lda >= k + 1)
    ensures e == None && n != 0 ==>
              ValidShape(n, k, lda, alen) && (uplo == Upper || uplo == Lower) &&
              (norm == MaxColumnSum ==> wlen >= n)
    ensures (ValidShape(n, k, lda, alen) && norm != OtherNorm && uplo != OtherUplo &&
             (norm == MaxColumnSum ==> wlen >= n)) ==> e == None
    ensures ArgumentError(norm, uplo, n, k, lda) != None ==> e == ArgumentError(norm, uplo, n, k, lda)
    ensures n != 0 && ArgumentError(norm, uplo, n, k, lda) == None ==>
              e == LengthError(norm, n, k, lda, alen, wlen)
  {
    var e := ArgumentError(norm, uplo, n, k, lda);
    if e.Some? || n == 0 then e else LengthError(norm, n, k, lda, alen, wlen)
  }
}
