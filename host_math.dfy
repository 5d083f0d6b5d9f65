/**
 * The host's `Math` facilities that the star field relies on: `Math.PI`,
 * `Math.sin`, `Math.cos`, `Math.acos` and `Math.random`. The trigonometric
 * functions are not defined here: they are supplied as function values, and
 * only the properties written out below are ever assumed of them. Random
 * draws are supplied as reals that lie in [0, 1).
 */
module HostMath {

  /** `Math.PI`: the IEEE double nearest to pi, read as an exact real. */
  const Pi: real := 3.141592653589793

  /** The host's trigonometric functions, as the star field calls them. */
  datatype Trig = Trig(sin: real -> real, cos: real -> real, acos: real -> real)

  /** `Math.sin` never leaves [-1, 1]. */
  ghost predicate SineBounded(m: Trig) {
    forall x :: -1.0 <= m.sin(x) <= 1.0
  }

  /** sin(x)^2 + cos(x)^2 = 1 at every angle x. */
  ghost predicate Pythagorean(m: Trig) {
    forall x :: m.sin(x) * m.sin(x) + m.cos(x) * m.cos(x) == 1.0
  }

  /** A value `Math.random()` can return. */
  predicate IsDraw(r: real) {
    0.0 <= r < 1.0
  }

  /** Every element of `ds` is a value `Math.random()` can return. */
  predicate AllDraws(ds: seq<real>) {
    forall k :: 0 <= k < |ds| ==> IsDraw(ds[k])
  }
}
