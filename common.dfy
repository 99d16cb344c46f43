/** Small shared vocabulary: optional values, results, and decimal rendering of integers. */
module Common {

  datatype Option<+T> = None | Some(value: T)

  /** A computation that either produced a value or stopped with an error (a Go panic, a JavaScript rejection). */
  datatype Result<+T, +E> = Ok(value: T) | Err(error: E)

  /** A lookup in a map that yields `dflt` for a missing key, as Go's `m[k]` yields the zero value. */
  function GetOr<K, V>(m: map<K, V>, k: K, dflt: V): V
  {
    if k in m then m[k] else dflt
  }

  function DigitChar(d: nat): char
    requires d < 10
  {
    "0123456789"[d]
  }

  function NatToString(n: nat): string
    decreases n
  {
    if n < 10 then [DigitChar(n)] else NatToString(n / 10) + [DigitChar(n % 10)]
  }

  /** Decimal rendering of an integer, as Go's `%v` and JavaScript's template literals print an integral number. */
  function IntToString(i: int): string
  {
    if i < 0 then "-" + NatToString(-i) else NatToString(i)
  }
}
