/** How far a frequency is from the target: the colour band used for a lug
    or the live reading, and the text label under the live reading. */
module Deviation {
  import opened Hertz

  /** Below this distance from the target a frequency is on target. */
  const ON_TARGET_HZ: real := 3.0
  /** Below this distance (and not on target) a frequency is close. */
  const CLOSE_HZ: real := 8.0

  /** The theme colours the classification picks (`textMuted`, `success`,
      `warning`, `danger`). */
  datatype Tone = Muted | Success | Warning | Danger

  /** The label: empty, "ON TARGET", or a signed difference marked HIGH or
      LOW (its `toFixed(1)` text formatting is not modelled). */
  datatype Label = NoLabel | OnTarget | High(diff: real) | Low(diff: real)

  function Abs(x: real): real
  {
    if x < 0.0 then -x else x
  }

  /** `getDeviationColor(freq)` against `targetFreq`: neutral unless both are
      set and non-zero, otherwise the band the distance between them falls in. */
  function Color(freq: Option<real>, target: Option<real>): (t: Tone)
    ensures t == Muted <==> !Truthy(freq) || !Truthy(target)
    ensures t == Success <==>
            Truthy(freq) && Truthy(target) && Abs(freq.value - target.value) < ON_TARGET_HZ
    ensures t == Warning <==>
            Truthy(freq) && Truthy(target) && ON_TARGET_HZ <= Abs(freq.value - target.value) < CLOSE_HZ
    ensures t == Danger <==>
            Truthy(freq) && Truthy(target) && CLOSE_HZ <= Abs(freq.value - target.value)
  {
    if !Truthy(freq) || !Truthy(target) then Muted
    else
      var diff := Abs(freq.value - target.value);
      if diff < ON_TARGET_HZ then Success
      else if diff < CLOSE_HZ then Warning
      else Danger
  }

  /** `getDeviationLabel(freq)` against `targetFreq`: empty unless both are
      set and non-zero, "ON TARGET" within 3 Hz, otherwise the signed
      difference, HIGH above the target and LOW below it. */
  function LabelOf(freq: Option<real>, target: Option<real>): (l: Label)
    ensures l == NoLabel <==> !Truthy(freq) || !Truthy(target)
    ensures l == OnTarget <==>
            Truthy(freq) && Truthy(target) && Abs(freq.value - target.value) < ON_TARGET_HZ
    ensures l.High? <==> Truthy(freq) && Truthy(target) && freq.value - target.value >= ON_TARGET_HZ
    ensures l.Low? <==> Truthy(freq) && Truthy(target) && freq.value - target.value <= -ON_TARGET_HZ
    ensures l.High? || l.Low? ==> l.diff == freq.value - target.value
  {
    if !Truthy(freq) || !Truthy(target) then NoLabel
    else
      var diff := freq.value - target.value;
      if Abs(diff) < ON_TARGET_HZ then OnTarget
      else if diff > 0.0 then High(diff)
      else Low(diff)
  }

  /** Severity order of the tones, muted lowest. */
  function Rank(t: Tone): nat
  {
    match t
    case Muted => 0
    case Success => 1
    case Warning => 2
    case Danger => 3
  }

  /** The colour and the label agree: both are neutral together, success is
      "ON TARGET", and otherwise the label carries `freq - target` with the
      sign deciding HIGH or LOW. */
  lemma ColorMatchesLabel(freq: Option<real>, target: Option<real>)
    ensures Color(freq, target) == Muted <==> LabelOf(freq, target) == NoLabel
    ensures Color(freq, target) == Muted <==> !Truthy(freq) || !Truthy(target)
    ensures Color(freq, target) == Success <==> LabelOf(freq, target) == OnTarget
    ensures LabelOf(freq, target).High? || LabelOf(freq, target).Low? <==>
            Color(freq, target) == Warning || Color(freq, target) == Danger
    ensures LabelOf(freq, target).High? ==>
            LabelOf(freq, target).diff == freq.value - target.value > 0.0
    ensures LabelOf(freq, target).Low? ==>
            LabelOf(freq, target).diff == freq.value - target.value < 0.0
  {
  }

  /** The colour depends only on the distance to the target, and a frequency
      further away is never in a milder band. */
  lemma ColorMonotone(f1: real, f2: real, t: real)
    requires f1 != 0.0 && f2 != 0.0 && t != 0.0
    requires Abs(f1 - t) <= Abs(f2 - t)
    ensures Rank(Color(Some(f1), Some(t))) <= Rank(Color(Some(f2), Some(t)))
    ensures Abs(f1 - t) == Abs(f2 - t) ==> Color(Some(f1), Some(t)) == Color(Some(f2), Some(t))
  {
  }

  /** The bands are half-open: a distance of exactly 3 Hz is already close and
      one of exactly 8 Hz is already off. */
  lemma BandEdges(t: real)
    requires t > 3.0
    ensures Color(Some(t + 2.99), Some(t)) == Success
    ensures Color(Some(t + 3.0), Some(t)) == Warning
    ensures Color(Some(t - 3.0), Some(t)) == Warning
    ensures Color(Some(t + 7.99), Some(t)) == Warning
    ensures Color(Some(t + 8.0), Some(t)) == Danger
    ensures LabelOf(Some(t - 3.0), Some(t)) == Low(-3.0)
  {
  }
}
