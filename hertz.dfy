/** Frequencies as the tuner handles them: possibly absent, in hertz, already
    rounded to a tenth of a hertz by the listening loop. */
module Hertz {

  datatype Option<T> = None | Some(value: T)

  /** The pitch filter of the listening loop accepts only estimates strictly
      between these two bounds. */
  const MIN_HZ: real := 30.0
  const MAX_HZ: real := 1000.0

  /** JavaScript truthiness of a number-or-null: `null` and `0` are falsy. */
  predicate Truthy(f: Option<real>)
  {
    f.Some? && f.value != 0.0
  }

  /** A frequency that can reach the store after filtering and rounding. */
  predicate Audible(f: real)
  {
    MIN_HZ <= f <= MAX_HZ
  }

  /** `Math.round(f * 10) / 10`; JavaScript's Math.round is floor(x + 0.5). */
  function RoundTenth(f: real): (r: real)
    ensures f - 0.05 < r <= f + 0.05
    ensures MIN_HZ < f < MAX_HZ ==> Audible(r)
    ensures (r * 10.0).Floor as real == r * 10.0
  {
    var k := (f * 10.0 + 0.5).Floor;
    assert MIN_HZ < f ==> k >= 300;
    assert f < MAX_HZ ==> k <= 10000;
    k as real / 10.0
  }
}
