/**
 * Real-number stand-ins for the floating-point library calls the game makes.
 *
 * The game computes in f32; this model reads every operation as exact
 * arithmetic over `real`. The only calls that leave exact arithmetic are the
 * square root, sine and cosine. They are not given definitions: a
 * `Transcendental` value carries them as opaque functions, and `Lawful`
 * states the few facts about them that the properties of the game need.
 */
module Maths {

  /** The library functions `f32::sqrt`, `f32::sin`, `f32::cos`, and the value of pi
      that `f32::to_radians` scales by. */
  datatype Transcendental = Transcendental(sqrt: real -> real, sin: real -> real, cos: real -> real, pi: real)

  /** What is known of the library: the square root of a non-negative number is
      non-negative and squares back to it; sine and cosine agree with the
      unit circle at angle zero. */
  ghost predicate Lawful(t: Transcendental) {
    && (forall x :: 0.0 <= x ==> 0.0 <= t.sqrt(x) && t.sqrt(x) * t.sqrt(x) == x)
    && t.sin(0.0) == 0.0
    && t.cos(0.0) == 1.0
  }

  /** `f32::to_radians`: degrees times pi / 180. */
  function ToRadians(degrees: real, t: Transcendental): real {
    degrees * (t.pi / 180.0)
  }

  /** `f32::max` on the values the game passes it. */
  function Max(a: real, b: real): real {
    if a < b then b else a
  }

  lemma SquareStrictlyMonotone(a: real, b: real)
    requires 0.0 <= a < b
    ensures a * a < b * b
  {
    var gap, sum := b - a, b + a;
    assert 0.0 < gap && 0.0 < sum;
    assert 0.0 < gap * sum;
    assert b * b - a * a == gap * sum;
  }

  /** A square is never negative, and positive unless the number is zero. */
  lemma SquareSign(a: real)
    ensures 0.0 <= a * a
    ensures a != 0.0 <==> 0.0 < a * a
  {
    if a < 0.0 {
      SquareStrictlyMonotone(0.0, -a);
      assert (-a) * (-a) == a * a;
    } else if 0.0 < a {
      SquareStrictlyMonotone(0.0, a);
    }
  }

  lemma SquareMonotone(a: real, b: real)
    requires 0.0 <= a <= b
    ensures a * a <= b * b
  {
    if a < b {
      SquareStrictlyMonotone(a, b);
    }
  }

  /** Dividing a positive amount by a larger positive number gives less. */
  lemma DivisionAntitone(g: real, a: real, b: real)
    requires 0.0 < g && 0.0 < a < b
    ensures g / b < g / a
  {
    var qa, qb := g / a, g / b;
    assert qa * a == g && qb * b == g;
    assert 0.0 < qb;
    assert qb * a < qb * b;
  }

  /** The root of a positive number is positive, so it can be divided by. */
  lemma SqrtPositive(t: Transcendental, x: real)
    requires Lawful(t) && 0.0 < x
    ensures 0.0 < t.sqrt(x)
  {
    var s := t.sqrt(x);
    assert 0.0 <= s && s * s == x;
    assert s != 0.0;
  }

  /** The square root of a square of a non-negative number is that number:
      the facts in `Lawful` pin the root down uniquely. */
  lemma SqrtOfSquare(t: Transcendental, q: real, a: real)
    requires Lawful(t) && 0.0 <= a && q == a * a
    ensures t.sqrt(q) == a
  {
    var s := t.sqrt(q);
    assert 0.0 <= s && s * s == a * a;
    if s < a {
      SquareStrictlyMonotone(s, a);
    } else if a < s {
      SquareStrictlyMonotone(a, s);
    }
  }

  /** Monotonicity of the root is derived from the two facts about it above. */
  lemma SqrtMonotone(t: Transcendental, x: real, y: real)
    requires Lawful(t) && 0.0 <= x <= y
    ensures t.sqrt(x) <= t.sqrt(y)
  {
    var sx, sy := t.sqrt(x), t.sqrt(y);
    assert 0.0 <= sx && sx * sx == x;
    assert 0.0 <= sy && sy * sy == y;
    if sy < sx {
      SquareStrictlyMonotone(sy, sx);
    }
  }

  /** Comparing a root with a bound is comparing the squares, provided the
      bound is positive: `sqrt(q) < m` exactly when `0 < m` and `q < m * m`. */
  lemma SqrtBelowIff(t: Transcendental, q: real, m: real)
    requires Lawful(t) && 0.0 <= q
    ensures t.sqrt(q) < m <==> 0.0 < m && q < m * m
  {
    var s := t.sqrt(q);
    assert 0.0 <= s && s * s == q;
    if s < m {
      SquareStrictlyMonotone(s, m);
    } else if 0.0 <= m {
      SquareMonotone(m, s);
    }
  }
}
