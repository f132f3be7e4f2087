/**
 * lib/helpers.js: `checkValue`, the clamp that bounds an LED intensity to [0, 255].
 * The clamp receives an arbitrary JavaScript value, a `JsValue`.
 */
module Helpers {
  import opened Wrappers
  import opened NumberText

  function Distance(x: real, y: real): real {
    if x < y then y - x else x - y
  }

  /** `y` is the point of [0, 255] closest to `x`: the reference meaning of a clamp. */
  ghost predicate IsNearestInRange(x: real, y: real) {
    && 0.0 <= y <= 255.0
    && forall z :: 0.0 <= z <= 255.0 ==> Distance(x, y) <= Distance(x, z)
  }

  /**
   * `checkValue(val)`: NaN and anything above 255 give the number 255, anything
   * below 0 gives the number 0, and everything else is returned as it was
   * passed in, NOT as the parsed number (so the string "12abc" stays "12abc").
   */
  function CheckValue(v: JsValue): (r: JsValue)
    ensures r.number.Some? && 0.0 <= r.number.value <= 255.0
    ensures v.number.Some? ==> IsNearestInRange(v.number.value, r.number.value)
    ensures r == v || r == IntValue(0) || r == IntValue(255)
  {
    if v.number.None? || v.number.value > 255.0 then IntValue(255)
    else if v.number.value < 0.0 then IntValue(0)
    else v
  }

  lemma CheckValueNotANumber(v: JsValue)
    requires v.number.None?
    ensures CheckValue(v) == IntValue(255)
  {
  }

  lemma CheckValueAboveMax(v: JsValue)
    requires v.number.Some? && v.number.value > 255.0
    ensures CheckValue(v) == IntValue(255)
  {
  }

  lemma CheckValueBelowMin(v: JsValue)
    requires v.number.Some? && v.number.value < 0.0
    ensures CheckValue(v) == IntValue(0)
  {
  }

  /** In range, the caller's own value comes back, text and all. */
  lemma CheckValueInRange(v: JsValue)
    requires v.number.Some? && 0.0 <= v.number.value <= 255.0
    ensures CheckValue(v) == v
    ensures CheckValue(v).text == v.text
  {
  }

  /** Clamping twice is clamping once, for every input. */
  lemma CheckValueIdempotent(v: JsValue)
    ensures CheckValue(CheckValue(v)) == CheckValue(v)
  {
  }
}
