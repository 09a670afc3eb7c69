/** Small result types shared by all modules. */
module Values {

  /** std::optional */
  datatype Option<+T> = None | Some(value: T)

  /**
   * The outcome of code that may throw: `Threw` when an `at` lookup (or an
   * out-of-range index) fails. An exception leaves the handler and ends the
   * server, so no state follows it.
   */
  datatype Attempt<+T> = Threw | Did(value: T) {
    predicate IsFailure() {
      Threw?
    }

    function PropagateFailure<U>(): Attempt<U>
      requires Threw?
    {
      Threw
    }

    function Extract(): T
      requires Did?
    {
      value
    }
  }
}
