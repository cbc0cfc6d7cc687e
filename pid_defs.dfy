/** The helpers of PID.h that are not part of the class: the `constrain`
    macro and the integer encoding of the controller's two modes. */
module PidDefs {

  /** `constrain(value, low, high)`: `low` below the range, `high` above it,
      the value itself otherwise. For a well-ordered range the result always
      lies in it, and a value already inside is left alone. */
  function Constrain(value: real, low: real, high: real): (r: real)
    ensures low <= high ==> low <= r <= high
    ensures low <= value <= high ==> r == value
  {
    if value < low then low else if value > high then high else value
  }

  /** Clamping saturates: below the range gives the lower bound, above
      a well-ordered range gives the upper bound. */
  lemma ConstrainSaturates(value: real, low: real, high: real)
    requires low <= high
    ensures value <= low ==> Constrain(value, low, high) == low
    ensures value >= high ==> Constrain(value, low, high) == high
  {
  }

  /** Clamping twice is clamping once. */
  lemma ConstrainIdempotent(value: real, low: real, high: real)
    requires low <= high
    ensures Constrain(Constrain(value, low, high), low, high) == Constrain(value, low, high)
  {
  }

  /** Clamping keeps the order of its arguments. */
  lemma ConstrainMonotone(a: real, b: real, low: real, high: real)
    requires low <= high && a <= b
    ensures Constrain(a, low, high) <= Constrain(b, low, high)
  {
  }

  /** `setMode` takes an int: 0 is Manual, anything else is Auto. */
  const ManualMode: int := 0
  const AutoMode: int := 1

  predicate IsAuto(mode: int)
  {
    mode != ManualMode
  }

  /** The two named modes decode to the two states, and every non-zero
      value selects Auto. */
  lemma ModeEncoding(mode: int)
    ensures !IsAuto(ManualMode) && IsAuto(AutoMode)
    ensures IsAuto(mode) <==> mode != 0
  {
  }
}
