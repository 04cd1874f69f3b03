/** Small value types shared by every module of the model. */
module Common {

  /** Python's `None` versus a present value. */
  datatype Option<+T> = None | Some(value: T)

  /** A value, or the exception the Python code would raise instead. */
  datatype Result<+T, +E> = Success(value: T) | Failure(error: E)

  /**
   * `name.split(",")[0]`: the text of a city name before its first comma,
   * or the whole name when it has no comma.
   */
  function ShortName(name: string): (r: string)
    ensures r <= name
    ensures ',' !in r
    ensures |r| < |name| ==> name[|r|] == ','
    ensures ',' !in name ==> r == name
  {
    if name == [] || name[0] == ',' then [] else [name[0]] + ShortName(name[1..])
  }

  /** The smaller of two integers (Python's `min`). */
  function Min(a: int, b: int): (r: int)
    ensures r <= a && r <= b && (r == a || r == b)
  {
    if a <= b then a else b
  }
}
