/** The `T | null` values of the storefront, and JavaScript's truthiness of them. */
module Opt {

  /** A value that may be `null` (or `undefined`) in the storefront. */
  datatype Option<+T> = None | Some(value: T) {

    /** The value, or `default` when there is none (the `??` operator). */
    function GetOr(default: T): T {
      match this
      case Some(v) => v
      case None => default
    }
  }

  /** A `string | null` is truthy exactly when it is a non-empty string. */
  predicate TruthyString(s: Option<string>) {
    s.Some? && s.value != ""
  }

  /** `s || null` for a string: the empty string becomes `null`. */
  function BlankToNull(s: string): (r: Option<string>)
    ensures r.None? <==> s == ""
    ensures r.Some? ==> r.value == s
  {
    if s == "" then None else Some(s)
  }

  /** `s || ""` for a `string | null`: `null` becomes the empty string. */
  function NullToBlank(s: Option<string>): (r: string)
    ensures s.Some? ==> r == s.value
    ensures s.None? ==> r == ""
  {
    s.GetOr("")
  }

  /** `BlankToNull` undoes `NullToBlank` except on `Some("")`, which collapses to `null`. */
  lemma BlankNullRoundTrip(s: Option<string>)
    ensures BlankToNull(NullToBlank(s)) == s <==> s != Some("")
  {
  }
}
