/** Small value wrappers shared by the whole model. */
module Values {

  datatype Option<+T> = None | Some(value: T)

  datatype Result<+T, +E> = Ok(value: T) | Err(error: E)

  /** One member of a JSON object as Python's `dict.get` sees it:
      the key is missing, the key maps to JSON `null`, or it maps to a value. */
  datatype Field<+T> = Absent | Null | Val(v: T)

  /** `dict.get(key)` with no default: a missing key and `null` both give `None`. */
  function FieldToOption<T>(f: Field<T>): (r: Option<T>)
    ensures r.Some? <==> f.Val?
    ensures r.Some? ==> r.value == f.v
  {
    if f.Val? then Some(f.v) else None
  }

  function Min(a: int, b: int): int
  {
    if a <= b then a else b
  }
}
