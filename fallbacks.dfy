/**
 * JavaScript's `value || fallback` as the components use it on stored and
 * typed-in values: a missing or falsy value gives way to the fallback.
 * For text the falsy value is the empty string; for a number it is 0 or NaN
 * (a `parseFloat` that found no number), modelled here as `None`.
 */
module Fallbacks {
  import opened Wrappers

  /** `text || fallback` on an optional stored string. */
  function TextOr(text: Option<string>, fallback: string): (r: string)
    ensures text.Some? && text.value != "" ==> r == text.value
    ensures text.None? || text.value == "" ==> r == fallback
    ensures r == "" ==> fallback == ""
  {
    if text.Some? && text.value != "" then text.value else fallback
  }

  /** `number || fallback`, where `None` stands for NaN. */
  function NumberOr(number: Option<real>, fallback: real): (r: real)
    ensures number.Some? && number.value != 0.0 ==> r == number.value
    ensures number.None? || number.value == 0.0 ==> r == fallback
    ensures fallback != 0.0 ==> r != 0.0
  {
    if number.Some? && number.value != 0.0 then number.value else fallback
  }

  /** With a fallback of 0, `|| 0` only replaces NaN: a present number is kept as it is. */
  lemma NumberOrZeroKeepsNumbers(number: Option<real>)
    ensures NumberOr(number, 0.0) == number.GetOr(0.0)
  {
  }
}
