/** The JavaScript operators the two pages apply to values that may be
    `null` or `undefined`. */
module Js {

  /** A value that is either missing (`null`/`undefined`) or present. */
  datatype Option<+T> = None | Some(value: T)

  /** `v ?? fallback`: only a missing value is replaced; a present one,
      even the empty string, is kept as it is. */
  function Coalesce<T>(v: Option<T>, fallback: T): (r: T)
    ensures v.Some? ==> r == v.value
    ensures v.None? ==> r == fallback
  {
    match v
    case Some(x) => x
    case None => fallback
  }

  /** `s || fallback` on a string: the missing value and the falsy empty
      string are both replaced, every other string is kept. */
  function OrElse(v: Option<string>, fallback: string): (r: string)
    ensures v.Some? && v.value != "" ==> r == v.value
    ensures v.None? || v.value == "" ==> r == fallback
  {
    if v.Some? && v.value != "" then v.value else fallback
  }
}
