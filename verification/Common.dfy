/** The outcome types of `common/Result.h` and `common/Error.h`, and `std::optional`. */
module Common {
  datatype Option<+T> = None | Some(value: T) {
    predicate IsFailure() {
      None?
    }

    function PropagateFailure<U>(): Option<U>
      requires None?
    {
      None
    }

    function Extract(): T
      requires Some?
    {
      value
    }
  }

  datatype ErrorCode =
    | InvalidInput
    | Unauthenticated
    | Forbidden
    | NotFound
    | Conflict
    | QuotaExceeded
    | DependencyFailure
    | Internal

  datatype Result<+T> = Ok(value: T) | Err(code: ErrorCode)

  lemma EqualCountsEqualSets<T>(a: set<T>, b: set<T>)
    requires a <= b && |a| == |b|
    ensures a == b
  {
    assert b == a + (b - a);
    assert |b| == |a| + |b - a|;
  }
}
