/** Values shared by every stage of the pipeline: optional values, results
    of steps that can fail, and the floating-point numbers pandas stores in
    derived columns. */
module Values {

  /** A value that may be absent. `None` plays the role of pandas' NaN / NaT. */
  datatype Option<+T> = None | Some(value: T)

  /** The outcome of a step that either produces a value or aborts the run. */
  datatype Result<+T, +E> = Ok(value: T) | Err(error: E)

  /** A floating-point cell of a derived column. Division by zero in pandas
      yields an infinity rather than NaN (unless the numerator is zero too),
      and `dropna` removes only NaN, so the three cases are kept apart. */
  datatype Num = NaN | Finite(value: real) | Infinite(negative: bool)
}
