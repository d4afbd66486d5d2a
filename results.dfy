/** Option and Result: the shapes the Go code's `(value, error)` pairs and nil-able
    pointers are modelled with. */
module Results {

  datatype Option<+T> = None | Some(value: T)

  datatype Result<+T, +E> = Ok(value: T) | Err(error: E)

  /** Go's index expression on a `map[string]string`: a missing key reads as "". */
  function Lookup(m: map<string, string>, key: string): (v: string)
    ensures key in m ==> v == m[key]
    ensures key !in m ==> v == ""
  {
    if key in m then m[key] else ""
  }
}
