/** Small value types shared by every module of the model. */
module Common {

  /** A JavaScript value that may be `null` or `undefined`. */
  datatype Option<+T> = None | Some(value: T) {
    function GetOr(default: T): T {
      match this
      case Some(v) => v
      case None => default
    }
  }

  type UserId = string

  /** An awaited call: it returns a value or the promise rejects. */
  datatype Call<T> = Returned(value: T) | Threw

  /** An ASCII decimal digit: `\d` in a pattern, and what `toString` prints. */
  predicate IsDigit(c: char) {
    '0' <= c <= '9'
  }

  /** `x || 0` on a nullable number column: `null` (and `0` itself) give 0. */
  function OrZero(x: Option<real>): (r: real)
    ensures x.Some? ==> r == x.value
    ensures x.None? ==> r == 0.0
  {
    x.GetOr(0.0)
  }

  /** `s || null` on a string: the empty string is falsy and becomes `null`. */
  function OrNull(s: string): (r: Option<string>)
    ensures r.None? <==> s == ""
    ensures r.Some? ==> r.value == s
  {
    if s == "" then None else Some(s)
  }
}
