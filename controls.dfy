/**
 * Orientation and engine control (src/controls.rs).
 *
 * Key states are passed in as booleans. The HUD flag, which the game hands
 * over by mutable reference, goes in as a parameter and comes back out.
 */
module Controls {
  import opened State

  /** The rotation speed in degrees per second: a full turn takes 4 seconds. */
  const RotationSpeed: real := 360.0 / 4.0

  /** The remainder of `%` on floats: it keeps the sign of x, since the
      quotient is truncated towards zero. */
  function TruncatedRem(x: real, m: real): (r: real)
    requires 0.0 < m
    ensures -m < r < m
    ensures 0.0 <= x ==> 0.0 <= r
    ensures x <= 0.0 ==> r <= 0.0
  {
    var q := x / m;
    var n := Trunc(q);
    ScaledFraction(x, m, q, n);
    x - m * n as real
  }

  /** A quotient truncated towards zero, as float division followed by
      dropping the fraction does: it moves by less than one, and never across
      zero. */
  function Trunc(q: real): (n: int)
    ensures 0.0 <= q ==> 0.0 <= q - n as real < 1.0
    ensures q < 0.0 ==> -1.0 < q - n as real <= 0.0
  {
    if 0.0 <= q then q.Floor else -((-q).Floor)
  }

  /** x - m * n is m times the fraction q - n dropped by the truncation, so
      it keeps that fraction's sign and stays within one m of zero. */
  lemma ScaledFraction(x: real, m: real, q: real, n: int)
    requires 0.0 < m && q == x / m && -1.0 < q - n as real < 1.0
    ensures -m < x - m * n as real < m
    ensures 0.0 <= q - n as real ==> 0.0 <= x - m * n as real
    ensures q - n as real <= 0.0 ==> x - m * n as real <= 0.0
  {
    var d := q - n as real;
    var r := x - m * n as real;
    assert x == m * q;
    assert r == m * d;
    ScaleStrict(m, d, 1.0);
    assert m * 1.0 == m;
    assert r < m;
    ScaleStrict(m, -1.0, d);
    assert m * -1.0 == -m;
    assert -m < r;
    if 0.0 <= d {
      ScaleMonotone(m, 0.0, d);
      assert 0.0 <= r;
    } else {
      ScaleMonotone(m, d, 0.0);
      assert r <= 0.0;
    }
  }

  lemma ScaleStrict(m: real, a: real, b: real)
    requires 0.0 < m && a < b
    ensures m * a < m * b
  {
    assert m * b - m * a == m * (b - a);
  }

  lemma ScaleMonotone(m: real, a: real, b: real)
    requires 0.0 < m && a <= b
    ensures m * a <= m * b
  {
    assert m * b - m * a == m * (b - a);
  }

  /** `rem_euclid`: the truncated remainder, shifted up by m when negative.
      The result always lies in [0, m). */
  function RemEuclid(x: real, m: real): (r: real)
    requires 0.0 < m
    ensures 0.0 <= r < m
  {
    var r := TruncatedRem(x, m);
    if r < 0.0 then r + m else r
  }

  /** The number of whole m's the Euclidean remainder takes off x. */
  function EuclidQuotient(x: real, m: real): int
    requires 0.0 < m
  {
    var n := Trunc(x / m);
    if TruncatedRem(x, m) < 0.0 then n - 1 else n
  }

  /** The Euclidean remainder differs from x by a whole number of m's. */
  lemma RemEuclidCongruent(x: real, m: real)
    requires 0.0 < m
    ensures x - RemEuclid(x, m) == m * EuclidQuotient(x, m) as real
  {
    var n := Trunc(x / m);
    var r := TruncatedRem(x, m);
    assert x - r == m * n as real;
    if r < 0.0 {
      assert m * (n - 1) as real == m * n as real - m;
    }
  }

  /** Two numbers in [0, m) that differ by a whole number of m's are equal. */
  lemma CongruentInRangeEqual(a: real, b: real, m: real, k: int)
    requires 0.0 < m && 0.0 <= a < m && 0.0 <= b < m
    requires a - b == m * k as real
    ensures a == b
  {
    if 1 <= k {
      ScaleMonotone(m, 1.0, k as real);
      assert false;
    } else if k <= -1 {
      ScaleMonotone(m, k as real, -1.0);
      assert false;
    }
  }

  /** The Euclidean remainder is THE member of [0, m) congruent to x: any r
      in range that differs from x by a whole number of m's is the result. */
  lemma RemEuclidUnique(x: real, m: real, r: real, k: int)
    requires 0.0 < m && 0.0 <= r < m && x - r == m * k as real
    ensures RemEuclid(x, m) == r
  {
    RemEuclidCongruent(x, m);
    var k' := EuclidQuotient(x, m);
    assert RemEuclid(x, m) - r == m * k as real - m * k' as real;
    assert m * k as real - m * k' as real == m * (k - k') as real;
    CongruentInRangeEqual(RemEuclid(x, m), r, m, k - k');
  }

  /** A value already in [0, m) is left alone, and adding or removing whole
      turns does not change the result. */
  lemma RemEuclidIdentityAndPeriod(x: real, m: real, k: int)
    requires 0.0 < m
    ensures 0.0 <= x < m ==> RemEuclid(x, m) == x
    ensures RemEuclid(x + m * k as real, m) == RemEuclid(x, m)
  {
    if 0.0 <= x < m {
      RemEuclidUnique(x, m, x, 0);
    }
    RemEuclidCongruent(x, m);
    var j := EuclidQuotient(x, m);
    assert m * (j + k) as real == m * j as real + m * k as real;
    RemEuclidUnique(x + m * k as real, m, RemEuclid(x, m), j + k);
  }

  /** The orientation after `update_orientation`: right adds 90 * dt, left
      subtracts it, and the sum is wrapped into [0, 360). */
  function Rotated(orientation: real, dt: real, rotateLeft: bool, rotateRight: bool): (r: real)
    ensures 0.0 <= r < 360.0
  {
    var turned := orientation + (if rotateRight then RotationSpeed * dt else 0.0)
                              - (if rotateLeft then RotationSpeed * dt else 0.0);
    RemEuclid(turned, 360.0)
  }

  /** The new orientation differs from the turned angle by whole turns. */
  lemma RotatedCongruent(orientation: real, dt: real, rotateLeft: bool, rotateRight: bool)
    ensures var turned := orientation + (if rotateRight then RotationSpeed * dt else 0.0)
                                      - (if rotateLeft then RotationSpeed * dt else 0.0);
            turned - Rotated(orientation, dt, rotateLeft, rotateRight) == 360.0 * EuclidQuotient(turned, 360.0) as real
  {
    var turned := orientation + (if rotateRight then RotationSpeed * dt else 0.0)
                              - (if rotateLeft then RotationSpeed * dt else 0.0);
    RemEuclidCongruent(turned, 360.0);
  }

  /** With no key, or with both keys, an orientation already in range stays
      where it is. */
  lemma NeutralKeysKeepOrientation(orientation: real, dt: real, keys: bool)
    requires 0.0 <= orientation < 360.0
    ensures Rotated(orientation, dt, keys, keys) == orientation
  {
    RemEuclidIdentityAndPeriod(orientation, 360.0, 0);
  }

  /** Turning right for 4 seconds is a full turn back to the start. */
  lemma FullTurnInFourSeconds(orientation: real)
    requires 0.0 <= orientation < 360.0
    ensures Rotated(orientation, 4.0, false, true) == orientation
  {
    RemEuclidUnique(orientation + 360.0, 360.0, orientation, 1);
  }

  /** The worked examples at dt = 1: 0 to 90 turning right, 90 to 0 turning
      left, 350 wraps to 80 and 10 wraps to 280. */
  lemma RotationExamples()
    ensures Rotated(0.0, 1.0, false, true) == 90.0
    ensures Rotated(90.0, 1.0, true, false) == 0.0
    ensures Rotated(350.0, 1.0, false, true) == 80.0
    ensures Rotated(10.0, 1.0, true, false) == 280.0
  {
    RemEuclidUnique(90.0, 360.0, 90.0, 0);
    RemEuclidUnique(0.0, 360.0, 0.0, 0);
    RemEuclidUnique(440.0, 360.0, 80.0, 1);
    RemEuclidUnique(-80.0, 360.0, 280.0, -1);
  }

  /** `update_orientation`, in place on the live rocket. */
  method UpdateOrientation(rocket: Rocket, dt: real, rotateLeft: bool, rotateRight: bool)
    modifies rocket
    ensures rocket.Value() == old(rocket.Value()).(orientation := Rotated(old(rocket.orientation), dt, rotateLeft, rotateRight))
  {
    if rotateRight {
      rocket.orientation := rocket.orientation + RotationSpeed * dt;
    }
    if rotateLeft {
      rocket.orientation := rocket.orientation - RotationSpeed * dt;
    }
    rocket.orientation := RemEuclid(rocket.orientation, 360.0);
  }

  /** The engine flag after the Z (on) and X (off) presses of one frame: X
      is handled last, so it wins when both are pressed. */
  function EngineAfterKeys(engineOn: bool, onPressed: bool, offPressed: bool): (r: bool)
    ensures offPressed ==> !r
    ensures onPressed && !offPressed ==> r
    ensures !onPressed && !offPressed ==> r == engineOn
  {
    if offPressed then false else if onPressed then true else engineOn
  }

  /** `handle_input`: rotate, then Z turns the engine on, X turns it off and
      H flips the HUD. Position, velocity, fuel and `landed` do not change.
      Returns the new HUD flag. */
  method HandleInput(rocket: Rocket, dt: real, rotateLeft: bool, rotateRight: bool,
                     onPressed: bool, offPressed: bool, hudPressed: bool, showHud: bool)
    returns (showHudAfter: bool)
    modifies rocket
    ensures rocket.Value() == old(rocket.Value()).(
              orientation := Rotated(old(rocket.orientation), dt, rotateLeft, rotateRight),
              engineOn := EngineAfterKeys(old(rocket.engineOn), onPressed, offPressed))
    ensures showHudAfter == (showHud != hudPressed)
  {
    UpdateOrientation(rocket, dt, rotateLeft, rotateRight);
    if onPressed {
      rocket.engineOn := true;
    }
    if offPressed {
      rocket.engineOn := false;
    }
    showHudAfter := showHud;
    if hudPressed {
      showHudAfter := !showHudAfter;
    }
  }
}
