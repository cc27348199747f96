/** The few pieces of PHP value semantics the return-operation handler relies
    on: `empty()`, the `(int)` cast of a possibly missing array key, and the
    `?:` shorthand. Only ints and strings occur; no string-to-int coercion. */
module Php {

  datatype Option<+T> = None | Some(value: T)

  /** A scalar stored in a PHP array that the handler builds. */
  datatype Value = IntV(i: int) | StrV(s: string)

  /** `empty($s)` for a string: both "" and "0" are empty. */
  predicate EmptyString(s: string)
  {
    s == "" || s == "0"
  }

  /** `empty($v)` for an int or a string. */
  predicate Empty(v: Value)
  {
    match v
    case IntV(i) => i == 0
    case StrV(s) => EmptyString(s)
  }

  /** `empty($data[$key])` for a key that holds an int or is missing. */
  predicate EmptyKey(v: Option<int>)
  {
    v.None? || v.value == 0
  }

  /** `(int)$data[$key]`: a missing key reads as null, and null casts to 0. */
  function IntCast(v: Option<int>): (i: int)
    ensures i == 0 <==> EmptyKey(v)
    ensures v.Some? ==> i == v.value
  {
    match v
    case None => 0
    case Some(x) => x
  }

  /** `(string)$data[$key]` for a key that holds a string or is missing. */
  function StringCast(v: Option<string>): string
  {
    match v
    case None => ""
    case Some(s) => s
  }

  /** `$a ?: $b` on strings: `$a` unless it is falsy. */
  function Elvis(a: string, b: string): string
  {
    if EmptyString(a) then b else a
  }
}
