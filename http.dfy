/**
 * The shape of every Express handler result in the server routes:
 * `res.status(s).json({ success: true, data })` or `{ success: false, error }`.
 */
module Http {
  import opened Wrappers

  datatype Response<T> = Ok(status: int, data: T) | Err(status: int, message: string)

  /** A request field that JavaScript treats as falsy: absent, or the empty string. */
  predicate Missing(field: Option<string>) {
    field.None? || field.value == ""
  }
}
