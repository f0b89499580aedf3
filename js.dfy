/** JavaScript value semantics that the token-session code relies on:
    nullable values, truthiness of strings, template-literal text of an
    absent value, and `String.prototype.substring`. */
module Js {

  datatype Option<+T> = None | Some(value: T) {
    /** `v ?? fallback` */
    function GetOr(fallback: T): T {
      match this
      case Some(v) => v
      case None => fallback
    }
  }

  /** A string-or-absent value is truthy when present and non-empty. */
  predicate Truthy(v: Option<string>) {
    v.Some? && v.value != ""
  }

  /** The two absent values JavaScript distinguishes. */
  datatype Absent = Null | Undefined

  /** The text `${v}` produces in a template literal. */
  function Text(v: Option<string>, absent: Absent): (r: string)
    ensures v.None? ==> r == (if absent == Null then "null" else "undefined")
    ensures v.Some? ==> r == v.value
  {
    match v
    case Some(s) => s
    case None => if absent == Null then "null" else "undefined"
  }

  function Min(a: int, b: int): int {
    if a <= b then a else b
  }

  /** An index argument of `substring`, clamped into 0..len. */
  function Clamp(i: int, len: nat): (r: nat)
    ensures r <= len
  {
    if i < 0 then 0 else if i > len then len else i
  }

  /** `s.substring(start, end)`: both indices are clamped into the string
      and swapped when the first exceeds the second. */
  function Substring(s: string, start: int, end: int): (r: string)
    ensures |r| <= |s|
  {
    var a := Clamp(start, |s|);
    var b := Clamp(end, |s|);
    if a <= b then s[a..b] else s[b..a]
  }
}
