/** Go's multi-value return `(T, error)`, as returned by the capital-gains tax methods. */
module GoErrors {

  datatype Option<+T> = None | Some(value: T)

  /** A Go `error`; callers only ever read its message. */
  type Error = string

  /** The pair `(value, err)` a Go function returns: the value is present even
      when `err` is non-nil, and then it is whatever the function chose (here 0). */
  datatype Returned<+T> = Returned(value: T, err: Option<Error>) {

    /** True when the error half is non-nil. */
    predicate Failed() {
      err.Some?
    }
  }

  /** The message of the error `fmt.Errorf` builds when a negative profit reaches a tax method. */
  const NegativeProfit: Error := "profit must be greater than or equal to zero"
}
