/** Input defaulting of the poster route: the JavaScript idioms
    `parseFloat(v) || d`, `v || d` on strings and the string coercion of a
    possibly-null form value. */
module Defaults {
  import opened Common

  /** The candidate name drawn when none is given. */
  const DefaultName: string := "سردار حنظلہ طارق"

  /** `parseFloat(v) || d`: `parsed` is the parse result (None for NaN). Both
      NaN and an exact 0 are falsy, so both fall back to `d`; any other value,
      negative or beyond 100 included, is kept as it is. */
  function NumberOr(parsed: Option<real>, d: real): (r: real)
    ensures parsed.Some? && parsed.value != 0.0 ==> r == parsed.value
    ensures parsed.None? || parsed.value == 0.0 ==> r == d
  {
    match parsed
    case Some(v) => if v != 0.0 then v else d
    case None => d
  }

  /** A defaulted number is never zero when the default is not, so a position
      of 0 sent by the client is read as the default. */
  lemma NumberOrNonZero(parsed: Option<real>, d: real)
    requires d != 0.0
    ensures NumberOr(parsed, d) != 0.0
    ensures NumberOr(parsed, d) == d <==> (parsed.None? || parsed.value == 0.0 || parsed.value == d)
  {
  }

  /** `(formData.get(k) as string) || d`: null and the empty string fall back
      to `d`. */
  function TextOr(s: Option<string>, d: string): (r: string)
    ensures s.Some? && s.value != "" ==> r == s.value
    ensures s.None? || s.value == "" ==> r == d
  {
    match s
    case Some(v) => if v != "" then v else d
    case None => d
  }

  /** A text defaulted to a non-empty string is never empty. */
  lemma TextOrNonEmpty(s: Option<string>, d: string)
    requires d != ""
    ensures TextOr(s, d) != ""
    ensures TextOr(Some(TextOr(s, d)), d) == TextOr(s, d)
  {
  }

  /** JavaScript's string conversion of a form value that may be null, as a
      template literal or `fillText` applies it: null becomes "null". */
  function Coerce(s: Option<string>): (r: string)
    ensures s.Some? ==> r == s.value
    ensures s.None? ==> r == "null"
  {
    s.GetOr("null")
  }
}
