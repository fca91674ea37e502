/** The look angles, in degrees, that `update` accumulates from the pointer
    offset: longitude grows without bound, latitude is clamped to a
    symmetric range whose size each controller version fixes. */
module Orientation {

  /** `lookSpeed`, the same constant in both versions. */
  const LookSpeed: real := 0.01

  datatype Angles = Angles(latitude: real, longitude: real)

  /** `Math.min` and `Math.max` on reals. */
  function Min(a: real, b: real): real
  {
    if a <= b then a else b
  }

  function Max(a: real, b: real): real
  {
    if a >= b then a else b
  }

  /** `Math.max(-bound, Math.min(bound, x))`. */
  function Clamp(x: real, bound: real): (r: real)
    requires 0.0 <= bound
    ensures -bound <= r <= bound
    ensures -bound <= x <= bound ==> r == x
    ensures x > bound ==> r == bound
    ensures x < -bound ==> r == -bound
  {
    Max(-bound, Min(bound, x))
  }

  /** The angle step of one `update(delta)` with the pointer at offset
      (`mouseX`, `mouseY`): longitude moves by exactly `mouseX * delta * 0.01`
      and is never clamped, latitude moves by `-mouseY * delta * 0.01` and is
      then held inside [-bound, bound], whatever its previous value. */
  function Turn(a: Angles, mouseX: real, mouseY: real, delta: real, bound: real): (r: Angles)
    requires 0.0 <= bound
    ensures r.longitude - a.longitude == mouseX * delta * LookSpeed
    ensures -bound <= r.latitude <= bound
    ensures r.latitude == Clamp(a.latitude - mouseY * delta * LookSpeed, bound)
    ensures var raw := a.latitude - mouseY * delta * LookSpeed;
            (-bound <= raw <= bound ==> r.latitude == raw)
            && (raw > bound ==> r.latitude == bound)
            && (raw < -bound ==> r.latitude == -bound)
  {
    var lookDelta := delta * LookSpeed;
    Angles(Clamp(a.latitude - mouseY * lookDelta, bound), a.longitude + mouseX * lookDelta)
  }

  /** Longitude is additive over frames: two updates of `d1` and `d2` with the
      pointer held still turn as far as one update of `d1 + d2`. */
  lemma LongitudeAdditive(a: Angles, mouseX: real, mouseY: real, d1: real, d2: real, bound: real)
    requires 0.0 <= bound
    ensures Turn(Turn(a, mouseX, mouseY, d1, bound), mouseX, mouseY, d2, bound).longitude
         == Turn(a, mouseX, mouseY, d1 + d2, bound).longitude
  {
  }

  /** `update(0)` leaves angles that are already in range where they are. */
  lemma ZeroDeltaKeepsAngles(a: Angles, mouseX: real, mouseY: real, bound: real)
    requires 0.0 <= bound && -bound <= a.latitude <= bound
    ensures Turn(a, mouseX, mouseY, 0.0, bound) == a
  {
  }

  /** Clamping twice is clamping once. */
  lemma ClampIdempotent(x: real, bound: real)
    requires 0.0 <= bound
    ensures Clamp(Clamp(x, bound), bound) == Clamp(x, bound)
  {
  }
}
