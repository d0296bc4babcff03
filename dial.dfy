/** Angles on the 24-hour dial, in degrees: 0 is the top of the ring (midnight) and
    angles grow clockwise. */
module Dial {
  /** The range the knob angles are resolved into. */
  predicate OnDial(a: real) {
    0.0 <= a < 360.0
  }

  /** `x` differs from `y` by a whole number of turns. */
  predicate SameDirection(x: real, y: real) {
    (x - y) / 360.0 == ((x - y) / 360.0).Floor as real
  }

  /** The angle on the dial pointing the same way as `x`. */
  function Wrap360(x: real): (r: real)
    ensures OnDial(r) && SameDirection(x, r)
  {
    x - 360.0 * (x / 360.0).Floor as real
  }

  /** Two dial angles pointing the same way are equal, so `Wrap360` is the only
      angle on the dial in the direction of its argument. */
  lemma SameDirectionOnDial(a: real, b: real)
    requires OnDial(a) && OnDial(b) && SameDirection(a, b)
    ensures a == b
  {
    var k := ((a - b) / 360.0).Floor;
    assert a - b == 360.0 * k as real;
    assert -1 < k < 1;
  }

  /** Turning by whole turns does not change where an angle points on the dial. */
  lemma Wrap360Turns(x: real, k: int)
    ensures Wrap360(x + 360.0 * k as real) == Wrap360(x)
  {
    var r1, r2 := Wrap360(x + 360.0 * k as real), Wrap360(x);
    var j1 := ((x + 360.0 * k as real - r1) / 360.0).Floor;
    var j2 := ((x - r2) / 360.0).Floor;
    assert x + 360.0 * k as real - r1 == 360.0 * j1 as real;
    assert x - r2 == 360.0 * j2 as real;
    assert (r1 - r2) / 360.0 == (j2 + k - j1) as real;
    SameDirectionOnDial(r1, r2);
  }
}
