/** Vocabulary shared by every module: optional values, results carrying a
    Python exception, and the torch floating-point dtypes the code compares
    against. */
module Base {

  datatype Option<+T> = None | Some(value: T)

  /** The outcome of a Python call that either returns or raises. */
  datatype Result<+T, +E> = Ok(value: T) | Err(error: E)

  /** torch dtypes; only the three floating types the code names are told apart. */
  datatype DType = Float32 | Float16 | BFloat16 | OtherDType(name: string)

  /** Python's `s.lower()` restricted to ASCII letters. */
  function Lower(s: string): (r: string)
    ensures |r| == |s|
    ensures forall i :: 0 <= i < |s| && 'A' <= s[i] <= 'Z' ==> r[i] == s[i] - 'A' + 'a'
    ensures forall i :: 0 <= i < |s| && !('A' <= s[i] <= 'Z') ==> r[i] == s[i]
  {
    if |s| == 0 then ""
    else
      var c := if 'A' <= s[0] <= 'Z' then s[0] - 'A' + 'a' else s[0];
      [c] + Lower(s[1..])
  }

  /** Python's `sub in s` for strings. */
  predicate Contains(s: string, sub: string) {
    sub <= s || (|s| > 0 && Contains(s[1..], sub))
  }
}
