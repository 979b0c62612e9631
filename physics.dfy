/**
 * One tick of rocket physics and the trajectory projector (src/physics.rs).
 *
 * Gravity, engine, thrust and the position step are each given twice: as a
 * function on rocket values, which the lemmas reason about, and as a method
 * that updates the live `Rocket` object field by field, as the game does,
 * proved to agree with the function. Collision and win are pure predicates,
 * as in the game, and a whole tick is the function `Tick`.
 * Gravity divides by the distance to the planet's centre, so it is defined
 * only when the rocket is not exactly at that centre.
 */
module Physics {
  import opened Options
  import opened Maths
  import opened State

  /** What a tick reports besides the new state. */
  datatype PhysicsEvent = Collision | Win

  // ---------------------------------------------------------------------------
  // Gravity
  // ---------------------------------------------------------------------------

  /** The squared distance from the rocket to a planet's centre. */
  function DistSq(v: RocketValue, p: Planet): real {
    (p.x - v.x) * (p.x - v.x) + (p.y - v.y) * (p.y - v.y)
  }

  /** The rocket is away from the planet's centre: both quantities the gravity
      step divides by, the squared distance and the distance, are non-zero.
      At the centre the game's floats would produce NaN. */
  predicate Apart(v: RocketValue, p: Planet, t: Transcendental) {
    0.0 < DistSq(v, p) && t.sqrt(DistSq(v, p)) != 0.0
  }

  /** With a lawful square root, being apart is just not being at the centre. */
  lemma ApartIffNotAtCentre(v: RocketValue, p: Planet, t: Transcendental)
    requires Lawful(t)
    ensures Apart(v, p, t) <==> v.x != p.x || v.y != p.y
  {
    var dx, dy := p.x - v.x, p.y - v.y;
    SquareMonotone(0.0, if dx < 0.0 then -dx else dx);
    SquareMonotone(0.0, if dy < 0.0 then -dy else dy);
    assert dx * dx == (-dx) * (-dx) && dy * dy == (-dy) * (-dy);
    if v.x != p.x || v.y != p.y {
      if dx != 0.0 {
        SquareStrictlyMonotone(0.0, if dx < 0.0 then -dx else dx);
      } else {
        SquareStrictlyMonotone(0.0, if dy < 0.0 then -dy else dy);
      }
      SqrtPositive(t, DistSq(v, p));
    }
  }

  /** Gravity's preconditions look only at the two centres. */
  lemma ApartDependsOnlyOnCentres(a: RocketValue, p: Planet, b: RocketValue, q: Planet, t: Transcendental)
    requires a.x == b.x && a.y == b.y && p.x == q.x && p.y == q.y
    ensures DistSq(a, p) == DistSq(b, q)
    ensures Apart(a, p, t) == Apart(b, q, t)
  {
  }

  /** The strength of a planet's pull, 4,000,000 * (radius / 30)^3: it grows
      with the volume of the planet. */
  function GravityOf(p: Planet): real {
    var r := p.radius / 30.0;
    4000000.0 * r * r * r
  }

  /** The acceleration a planet gives the rocket, per axis: the unit vector
      towards the centre times strength / distance^2. */
  function Pull(v: RocketValue, p: Planet, t: Transcendental): (r: (real, real))
    requires Apart(v, p, t)
    ensures p.x == v.x ==> r.0 == 0.0
    ensures p.y == v.y ==> r.1 == 0.0
  {
    var dx := p.x - v.x;
    var dy := p.y - v.y;
    var dist := t.sqrt(DistSq(v, p));
    var accel := GravityOf(p) / DistSq(v, p);
    ((dx / dist) * accel, (dy / dist) * accel)
  }

  /** `apply_gravity` on a value: the velocity gains the pull times dt. */
  function Gravity(v: RocketValue, p: Planet, dt: real, t: Transcendental): (r: RocketValue)
    requires Apart(v, p, t)
    ensures r == v.(speedX := r.speedX, speedY := r.speedY)
  {
    var pull := Pull(v, p, t);
    v.(speedX := v.speedX + pull.0 * dt, speedY := v.speedY + pull.1 * dt)
  }

  /** A tick of length zero leaves the velocity as it was. */
  lemma GravityZeroDt(v: RocketValue, p: Planet, t: Transcendental)
    requires Apart(v, p, t)
    ensures Gravity(v, p, 0.0, t) == v
  {
  }

  /** The pull per axis in terms of the squared distance d, the distance and
      the planet's strength g. */
  lemma PullComponents(v: RocketValue, p: Planet, t: Transcendental, d: real, dist: real, g: real)
    requires Apart(v, p, t) && d == DistSq(v, p) && dist == t.sqrt(d) && g == GravityOf(p)
    ensures Pull(v, p, t).0 == ((p.x - v.x) / dist) * (g / d)
    ensures Pull(v, p, t).1 == ((p.y - v.y) / dist) * (g / d)
  {
  }

  /** The change of velocity under gravity, per axis, in terms of the squared
      distance d, the distance and the planet's strength g. */
  lemma GravityComponents(v: RocketValue, p: Planet, dt: real, t: Transcendental, d: real, dist: real, g: real)
    requires Apart(v, p, t) && d == DistSq(v, p) && dist == t.sqrt(d) && g == GravityOf(p)
    ensures Gravity(v, p, dt, t).speedX - v.speedX == ((p.x - v.x) / dist) * (g / d) * dt
    ensures Gravity(v, p, dt, t).speedY - v.speedY == ((p.y - v.y) / dist) * (g / d) * dt
  {
  }

  lemma GravityOfPositive(p: Planet)
    requires 0.0 < p.radius
    ensures 0.0 < GravityOf(p)
  {
    var r := p.radius / 30.0;
    assert 0.0 < r * r;
    assert 0.0 < r * r * r;
  }

  /** An offset a, over a positive distance, times a positive acceleration and
      a positive dt keeps the sign of a. */
  lemma SignKept(change: real, a: real, dist: real, g: real, d: real, dt: real)
    requires 0.0 < dist && 0.0 < g && 0.0 < d && 0.0 < dt
    requires change == (a / dist) * (g / d) * dt
    ensures (0.0 < a <==> 0.0 < change) && (a == 0.0 <==> change == 0.0) && (a < 0.0 <==> change < 0.0)
  {
    var c := (g / d) / dist * dt;
    assert 0.0 < g / d;
    assert 0.0 < c;
    assert change == a * c;
  }

  /** A planet of positive size pulls the rocket towards its centre along each
      axis separately: the velocity grows on an axis where the planet lies
      ahead, shrinks where it lies behind and is unchanged where the two are
      level; equal offsets on both axes give equal changes. */
  lemma GravityPullsTowardPlanet(v: RocketValue, p: Planet, dt: real, t: Transcendental)
    requires Lawful(t) && Apart(v, p, t)
    requires 0.0 < p.radius && 0.0 < dt
    ensures var r := Gravity(v, p, dt, t);
            && (v.x < p.x ==> v.speedX < r.speedX)
            && (v.x == p.x ==> v.speedX == r.speedX)
            && (p.x < v.x ==> r.speedX < v.speedX)
            && (v.y < p.y ==> v.speedY < r.speedY)
            && (v.y == p.y ==> v.speedY == r.speedY)
            && (p.y < v.y ==> r.speedY < v.speedY)
            && (p.x - v.x == p.y - v.y ==> r.speedX - v.speedX == r.speedY - v.speedY)
  {
    var d := DistSq(v, p);
    var dist := t.sqrt(d);
    SqrtPositive(t, d);
    GravityOfPositive(p);
    var g := GravityOf(p);
    GravityComponents(v, p, dt, t, d, dist, g);
    SignKept(Gravity(v, p, dt, t).speedX - v.speedX, p.x - v.x, dist, g, d, dt);
    SignKept(Gravity(v, p, dt, t).speedY - v.speedY, p.y - v.y, dist, g, d, dt);
  }

  /** Scaling a planet's radius by k scales its strength by k^3. */
  lemma GravityOfScales(p: Planet, k: real)
    ensures GravityOf(p.(radius := k * p.radius)) == k * k * k * GravityOf(p)
  {
    var r := p.radius / 30.0;
    assert (k * p.radius) / 30.0 == k * r;
    assert (k * r) * (k * r) * (k * r) == (k * k * k) * (r * r * r);
  }

  lemma ScaledPull(after: real, base: real, a: real, dist: real, g: real, gc: real, d: real, c: real)
    requires dist != 0.0 && d != 0.0 && gc == c * g
    requires after == (a / dist) * (gc / d) && base == (a / dist) * (g / d)
    ensures after == c * base
  {
    assert gc / d == c * (g / d);
  }

  /** The pull scales with the cube of the planet's radius: the same planet
      k times as large pulls k^3 times as hard on both axes (doubling the
      radius gives 8 times the pull, halving it one eighth). */
  lemma PullScalesWithRadiusCubed(v: RocketValue, p: Planet, k: real, t: Transcendental)
    requires Apart(v, p, t)
    ensures var big := p.(radius := k * p.radius);
            && Apart(v, big, t)
            && Pull(v, big, t).0 == k * k * k * Pull(v, p, t).0
            && Pull(v, big, t).1 == k * k * k * Pull(v, p, t).1
  {
    var big := p.(radius := k * p.radius);
    ApartDependsOnlyOnCentres(v, p, v, big, t);
    GravityOfScales(p, k);
    var d := DistSq(v, p);
    var dist := t.sqrt(d);
    var g, gc := GravityOf(p), GravityOf(big);
    PullComponents(v, p, t, d, dist, g);
    PullComponents(v, big, t, d, dist, gc);
    ScaledPull(Pull(v, big, t).0, Pull(v, p, t).0, p.x - v.x, dist, g, gc, d, k * k * k);
    ScaledPull(Pull(v, big, t).1, Pull(v, p, t).1, p.y - v.y, dist, g, gc, d, k * k * k);
  }

  /** On a line, a planet farther off pulls less than a nearer one of the
      same strength: g / df^2 < g / dn^2 when 0 < dn < df. */
  lemma InverseSquareFalls(changeNear: real, changeFar: real, g: real, dn: real, df: real, dt: real)
    requires 0.0 < g && 0.0 < dn < df && 0.0 < dt
    requires changeNear == (dn / dn) * (g / (dn * dn)) * dt
    requires changeFar == (df / df) * (g / (df * df)) * dt
    ensures changeFar < changeNear
  {
    SquareStrictlyMonotone(dn, df);
    assert 0.0 < dn * dn;
    DivisionAntitone(g, dn * dn, df * df);
    assert df / df == 1.0 && dn / dn == 1.0;
    var an, af := g / (dn * dn), g / (df * df);
    assert af * dt < an * dt;
  }

  lemma DistSqOnLevel(v: RocketValue, p: Planet)
    requires p.y == v.y
    ensures DistSq(v, p) == (p.x - v.x) * (p.x - v.x)
  {
  }

  /** Of two equal planets straight ahead of the rocket on the x axis, the
      nearer one changes the velocity more. */
  lemma GravityWeakerFartherAway(v: RocketValue, near: Planet, far: Planet, dt: real, t: Transcendental)
    requires Lawful(t)
    requires near.y == v.y && far.y == v.y && v.x < near.x < far.x
    requires near.radius == far.radius && 0.0 < near.radius && 0.0 < dt
    ensures Apart(v, near, t) && Apart(v, far, t)
    ensures Gravity(v, far, dt, t).speedX < Gravity(v, near, dt, t).speedX
  {
    var dn, df := near.x - v.x, far.x - v.x;
    DistSqOnLevel(v, near);
    DistSqOnLevel(v, far);
    SquareStrictlyMonotone(0.0, dn);
    SquareStrictlyMonotone(0.0, df);
    SqrtOfSquare(t, DistSq(v, near), dn);
    SqrtOfSquare(t, DistSq(v, far), df);
    GravityOfPositive(near);
    var g := GravityOf(near);
    assert GravityOf(far) == g;
    GravityComponents(v, near, dt, t, dn * dn, dn, g);
    GravityComponents(v, far, dt, t, df * df, df, g);
    InverseSquareFalls(Gravity(v, near, dt, t).speedX - v.speedX, Gravity(v, far, dt, t).speedX - v.speedX, g, dn, df, dt);
  }

  /** The squared size of the pull, summed over both axes. */
  function PullSq(v: RocketValue, p: Planet, t: Transcendental): real
    requires Apart(v, p, t)
  {
    var pull := Pull(v, p, t);
    pull.0 * pull.0 + pull.1 * pull.1
  }

  /** The inverse-square law in any direction: the pull points along the
      line to the centre, so its size is strength / distance^2. */
  lemma PullMagnitudeSq(v: RocketValue, p: Planet, t: Transcendental)
    requires Lawful(t) && Apart(v, p, t)
    ensures PullSq(v, p, t) == (GravityOf(p) / DistSq(v, p)) * (GravityOf(p) / DistSq(v, p))
  {
    var d := DistSq(v, p);
    var dist := t.sqrt(d);
    var g := GravityOf(p);
    PullComponents(v, p, t, d, dist, g);
    assert dist * dist == d;
  }

  /** Of two equal planets anywhere around the rocket, the farther one pulls
      strictly less hard. */
  lemma PullWeakerFartherAway(v: RocketValue, near: Planet, far: Planet, t: Transcendental)
    requires Lawful(t)
    requires 0.0 < DistSq(v, near) < DistSq(v, far)
    requires near.radius == far.radius && 0.0 < near.radius
    ensures Apart(v, near, t) && Apart(v, far, t)
    ensures PullSq(v, far, t) < PullSq(v, near, t)
  {
    SqrtPositive(t, DistSq(v, near));
    SqrtPositive(t, DistSq(v, far));
    GravityOfPositive(near);
    var g := GravityOf(near);
    assert GravityOf(far) == g;
    PullMagnitudeSq(v, near, t);
    PullMagnitudeSq(v, far, t);
    DivisionAntitone(g, DistSq(v, near), DistSq(v, far));
    assert 0.0 < g / DistSq(v, far);
    SquareStrictlyMonotone(g / DistSq(v, far), g / DistSq(v, near));
  }

  /** No planet's centre coincides with the rocket's position. */
  predicate Clear(v: RocketValue, planets: seq<Planet>, t: Transcendental) {
    forall i :: 0 <= i < |planets| ==> Apart(v, planets[i], t)
  }

  /** Gravity from every planet in turn, in the order given. Only the velocity
      changes: position, orientation, engine and fuel are left as they were. */
  function GravityAll(v: RocketValue, planets: seq<Planet>, dt: real, t: Transcendental): (r: RocketValue)
    requires Clear(v, planets, t)
    ensures r.x == v.x && r.y == v.y && r.orientation == v.orientation
    ensures r.landed == v.landed && r.engineOn == v.engineOn && r.fuel == v.fuel
    decreases |planets|
  {
    if planets == [] then v
    else
      var before := GravityAll(v, planets[..|planets| - 1], dt, t);
      ApartDependsOnlyOnCentres(before, planets[|planets| - 1], v, planets[|planets| - 1], t);
      Gravity(before, planets[|planets| - 1], dt, t)
  }

  /** Gravity from the first i + 1 planets is gravity from the first i, then
      from planet i, which is well defined along the way. */
  lemma GravityAllPrefix(v: RocketValue, planets: seq<Planet>, i: nat, dt: real, t: Transcendental)
    requires Clear(v, planets, t) && i < |planets|
    ensures Clear(v, planets[..i], t) && Clear(v, planets[..i + 1], t)
    ensures Apart(GravityAll(v, planets[..i], dt, t), planets[i], t)
    ensures GravityAll(v, planets[..i + 1], dt, t) == Gravity(GravityAll(v, planets[..i], dt, t), planets[i], dt, t)
  {
    assert planets[..i + 1][..i] == planets[..i];
    ApartDependsOnlyOnCentres(GravityAll(v, planets[..i], dt, t), planets[i], v, planets[i], t);
  }

  /** With no time passing, no number of planets changes the velocity. */
  lemma {:induction false} GravityAllZeroDt(v: RocketValue, planets: seq<Planet>, t: Transcendental)
    requires Clear(v, planets, t)
    ensures GravityAll(v, planets, 0.0, t) == v
    decreases |planets|
  {
    if planets != [] {
      var init := planets[..|planets| - 1];
      GravityAllZeroDt(v, init, t);
      GravityZeroDt(v, planets[|planets| - 1], t);
    }
  }

  // ---------------------------------------------------------------------------
  // Engine
  // ---------------------------------------------------------------------------

  /** `engine_accel`: a force of 10 over a mass of 0.5 + 0.5 * fuel / 20, so a
      lighter rocket accelerates harder. The mass is zero only at fuel -20. */
  function EngineAccel(v: RocketValue): (r: real)
    requires v.fuel != -20.0
    ensures 0.0 <= v.fuel ==> 0.0 < r <= 20.0
    ensures 0.0 <= v.fuel <= 20.0 ==> 10.0 <= r
  {
    var force := 10.0;
    var mass := 0.5 + 0.5 * (v.fuel / 20.0);
    force / mass
  }

  /** The acceleration is 10 with a full tank of 20, 40/3 with 10 and 20 when
      empty: an empty rocket accelerates exactly twice as hard as a full one. */
  lemma EngineAccelReferenceValues(v: RocketValue)
    ensures v.fuel == 20.0 ==> EngineAccel(v) == 10.0
    ensures v.fuel == 10.0 ==> EngineAccel(v) == 40.0 / 3.0
    ensures v.fuel == 0.0 ==> EngineAccel(v) == 20.0
    ensures EngineAccel(v.(fuel := 0.0)) == 2.0 * EngineAccel(v.(fuel := 20.0))
  {
  }

  /** Less fuel means strictly more acceleration, for any non-negative fuel. */
  lemma EngineAccelDecreasesWithFuel(low: RocketValue, high: RocketValue)
    requires 0.0 <= low.fuel < high.fuel
    ensures EngineAccel(high) < EngineAccel(low)
  {
    var ml := 0.5 + 0.5 * (low.fuel / 20.0);
    var mh := 0.5 + 0.5 * (high.fuel / 20.0);
    DivisionAntitone(10.0, ml, mh);
  }

  /** `apply_thrust` on a value: the engine's acceleration along the
      orientation (0 degrees is up, the negative y direction, and angles grow
      clockwise). */
  function Thrust(v: RocketValue, dt: real, t: Transcendental): (r: RocketValue)
    requires v.fuel != -20.0
    ensures r == v.(speedX := r.speedX, speedY := r.speedY)
  {
    var accel := EngineAccel(v);
    var angle := ToRadians(v.orientation, t);
    v.(speedX := v.speedX + t.sin(angle) * accel * dt, speedY := v.speedY - t.cos(angle) * accel * dt)
  }

  /** Pointing straight up, thrust only reduces the vertical speed, by the
      engine's acceleration times dt; nothing but the velocity changes. */
  lemma ThrustPointingUp(v: RocketValue, dt: real, t: Transcendental)
    requires Lawful(t) && v.fuel != -20.0 && v.orientation == 0.0
    ensures Thrust(v, dt, t) == v.(speedY := v.speedY - EngineAccel(v) * dt)
  {
    var angle := ToRadians(v.orientation, t);
    assert angle == 0.0;
    assert t.sin(angle) == 0.0 && t.cos(angle) == 1.0;
    var r, accel := Thrust(v, dt, t), EngineAccel(v);
    assert r.speedX == v.speedX + t.sin(angle) * accel * dt;
    assert t.sin(angle) * accel * dt == 0.0;
    assert r.speedY == v.speedY - t.cos(angle) * accel * dt;
    assert t.cos(angle) * accel * dt == accel * dt;
  }

  /** Pointing up for the same dt, a rocket with less fuel gains more upward
      speed than one with more. */
  lemma ThrustStrongerWithLessFuel(low: RocketValue, high: RocketValue, dt: real, t: Transcendental)
    requires Lawful(t) && low.orientation == 0.0 && high.orientation == 0.0
    requires 0.0 <= low.fuel < high.fuel && 0.0 < dt
    ensures Thrust(low, dt, t).speedY - low.speedY < Thrust(high, dt, t).speedY - high.speedY
  {
    ThrustPointingUp(low, dt, t);
    ThrustPointingUp(high, dt, t);
    EngineAccelDecreasesWithFuel(low, high);
    assert EngineAccel(high) * dt < EngineAccel(low) * dt;
  }

  /** `apply_engine` on a value: a running engine with fuel left thrusts, burns
      dt seconds of fuel (never below zero) and shuts itself off when the tank
      is empty; otherwise nothing happens. */
  function Engine(v: RocketValue, dt: real, t: Transcendental): (r: RocketValue)
    ensures r.x == v.x && r.y == v.y && r.orientation == v.orientation && r.landed == v.landed
    ensures !v.engineOn ==> r == v
    ensures r.engineOn ==> v.engineOn
  {
    if v.engineOn && 0.0 < v.fuel then
      var thrusted := Thrust(v, dt, t);
      var fuel := Max(thrusted.fuel - dt, 0.0);
      if fuel == 0.0 then thrusted.(fuel := fuel, engineOn := false) else thrusted.(fuel := fuel)
    else
      v
  }

  /** The fuel rules: an idle or empty engine changes nothing; a burning one
      thrusts, leaves fuel max(fuel - dt, 0), never negative, and is still on
      exactly when fuel remains, which for a non-negative dt is exactly when
      dt is less than the fuel there was. */
  lemma EngineFuelRules(v: RocketValue, dt: real, t: Transcendental)
    ensures !(v.engineOn && 0.0 < v.fuel) ==> Engine(v, dt, t) == v
    ensures v.engineOn && 0.0 < v.fuel ==>
      var r := Engine(v, dt, t);
      && r.fuel == Max(v.fuel - dt, 0.0)
      && 0.0 <= r.fuel
      && (r.engineOn <==> r.fuel != 0.0)
      && (0.0 <= dt ==> (r.engineOn <==> dt < v.fuel) && r.fuel <= v.fuel)
      && r == Thrust(v, dt, t).(fuel := r.fuel, engineOn := r.engineOn)
  {
  }

  // ---------------------------------------------------------------------------
  // Motion, collision and winning
  // ---------------------------------------------------------------------------

  /** `move_rocket` on a value: one explicit Euler step of the position. */
  function Move(v: RocketValue, dt: real): (r: RocketValue)
    ensures r == v.(x := r.x, y := r.y)
  {
    v.(x := v.x + v.speedX * dt, y := v.y + v.speedY * dt)
  }

  /** A step of zero length, or a rocket at rest, stays put; and since the
      velocity is kept, two steps make one step of the summed length. */
  lemma MoveProperties(v: RocketValue, dt: real, dt2: real)
    ensures Move(v, 0.0) == v
    ensures v.speedX == 0.0 && v.speedY == 0.0 ==> Move(v, dt) == v
    ensures Move(Move(v, dt), dt2) == Move(v, dt + dt2)
  {
    var once, twice := Move(v, dt), Move(Move(v, dt), dt2);
    assert once.speedX == v.speedX && once.speedY == v.speedY;
    assert twice.x == v.x + v.speedX * dt + v.speedX * dt2;
    assert twice.y == v.y + v.speedY * dt + v.speedY * dt2;
    assert v.speedX * dt + v.speedX * dt2 == v.speedX * (dt + dt2);
    assert v.speedY * dt + v.speedY * dt2 == v.speedY * (dt + dt2);
  }

  /** `check_collision`: the rocket's centre is strictly inside the planet.
      A planet of radius zero is never hit. */
  function CheckCollision(v: RocketValue, p: Planet): (r: bool)
    ensures r ==> p.radius != 0.0
  {
    var dx := v.x - p.x;
    var dy := v.y - p.y;
    SquareSign(dx);
    SquareSign(dy);
    dx * dx + dy * dy < p.radius * p.radius
  }

  /** The collision test is strict in every direction: the rocket collides
      exactly when its distance to the planet's centre is less than the
      radius, so a rocket exactly on the surface does not. */
  lemma CollisionWithinRadius(v: RocketValue, p: Planet, t: Transcendental)
    requires Lawful(t) && 0.0 <= p.radius
    ensures CheckCollision(v, p) <==> t.sqrt(DistSq(v, p)) < p.radius
  {
    var dx, dy := p.x - v.x, p.y - v.y;
    assert (v.x - p.x) * (v.x - p.x) == dx * dx;
    assert (v.y - p.y) * (v.y - p.y) == dy * dy;
    SquareMonotone(0.0, if dx < 0.0 then -dx else dx);
    SquareMonotone(0.0, if dy < 0.0 then -dy else dy);
    assert dx * dx == (-dx) * (-dx) && dy * dy == (-dy) * (-dy);
    assert CheckCollision(v, p) <==> DistSq(v, p) < p.radius * p.radius;
    SqrtBelowIff(t, DistSq(v, p), p.radius);
  }

  /** The same on the planet's horizontal line, without square roots: to the
      right of the centre, the rocket collides exactly when it is closer than
      the radius. */
  lemma CollisionIsStrict(v: RocketValue, p: Planet)
    requires v.y == p.y && p.x <= v.x && 0.0 <= p.radius
    ensures CheckCollision(v, p) <==> v.x - p.x < p.radius
  {
    var d := v.x - p.x;
    assert CheckCollision(v, p) <==> d * d < p.radius * p.radius;
    if d < p.radius {
      SquareStrictlyMonotone(d, p.radius);
    } else {
      SquareMonotone(p.radius, d);
    }
  }

  /** The rocket is strictly inside the circle of the given centre and radius. */
  predicate InsideCircle(v: RocketValue, x: real, y: real, radius: real) {
    (v.x - x) * (v.x - x) + (v.y - y) * (v.y - y) < radius * radius
  }

  /** The square of the rocket's speed. */
  function SpeedSq(v: RocketValue): real {
    v.speedX * v.speedX + v.speedY * v.speedY
  }

  /** `check_win`: both conditions need the rocket strictly inside the goal
      circle with its engine off. */
  function CheckWin(v: RocketValue, condition: WinCondition, t: Transcendental): (r: bool)
    ensures r ==> !v.engineOn && InsideCircle(v, condition.x, condition.y, condition.radius)
  {
    match condition
    case Circle(x, y, radius, maxSpeed) =>
      var speed := t.sqrt(SpeedSq(v));
      InsideCircle(v, x, y, radius) && speed < maxSpeed && !v.engineOn
    case CircleAnySpeed(x, y, radius) =>
      InsideCircle(v, x, y, radius) && !v.engineOn
  }

  /** The speed-limited win holds exactly when all three of: strictly inside
      the circle, speed under the limit (for a positive limit, the squared
      speed under its square) and engine off. */
  lemma CircleWinIff(v: RocketValue, x: real, y: real, radius: real, maxSpeed: real, t: Transcendental)
    requires Lawful(t)
    ensures CheckWin(v, Circle(x, y, radius, maxSpeed), t) <==>
            InsideCircle(v, x, y, radius) && 0.0 < maxSpeed && SpeedSq(v) < maxSpeed * maxSpeed && !v.engineOn
  {
    assert 0.0 <= v.speedX * v.speedX && 0.0 <= v.speedY * v.speedY;
    SqrtBelowIff(t, SpeedSq(v), maxSpeed);
  }

  /** A running engine rules out a win under either condition, and the
      any-speed condition does not look at the velocity at all. */
  lemma WinNeedsEngineOffAndAnySpeedIgnoresVelocity(v: RocketValue, condition: WinCondition, speedX: real, speedY: real, t: Transcendental)
    ensures v.engineOn ==> !CheckWin(v, condition, t)
    ensures condition.CircleAnySpeed? ==>
            CheckWin(v.(speedX := speedX, speedY := speedY), condition, t) == CheckWin(v, condition, t)
  {
  }

  /** The worked example: a coasting rocket at the centre of a circle of
      radius 50 moving at speed 1 under a limit of 2 wins; with the engine
      running it does not. */
  lemma WinExample(t: Transcendental)
    requires Lawful(t)
    ensures var v := RocketValue(100.0, 100.0, 1.0, 0.0, 0.0, false, false, 20.0);
            var goal := Circle(100.0, 100.0, 50.0, 2.0);
            CheckWin(v, goal, t) && !CheckWin(v.(engineOn := true), goal, t)
  {
    var v := RocketValue(100.0, 100.0, 1.0, 0.0, 0.0, false, false, 20.0);
    CircleWinIff(v, 100.0, 100.0, 50.0, 2.0, t);
  }

  // ---------------------------------------------------------------------------
  // The tick
  // ---------------------------------------------------------------------------

  /** The integration part of `update`: gravity from every planet, then the
      engine, then the position step. */
  function Tick(v: RocketValue, planets: seq<Planet>, dt: real, t: Transcendental): (r: RocketValue)
    requires Clear(v, planets, t)
    ensures r.orientation == v.orientation && r.landed == v.landed
    ensures r.engineOn ==> v.engineOn
  {
    Move(Engine(GravityAll(v, planets, dt, t), dt, t), dt)
  }

  /** Some current planet collides with the rocket. */
  predicate AnyCollision(v: RocketValue, planets: seq<Planet>) {
    exists i :: 0 <= i < |planets| && CheckCollision(v, planets[i])
  }

  /** A tick of length zero changes nothing at all, engine and fuel included. */
  lemma TickZeroDtIsIdentity(v: RocketValue, planets: seq<Planet>, t: Transcendental)
    requires Clear(v, planets, t)
    ensures Tick(v, planets, 0.0, t) == v
  {
    GravityAllZeroDt(v, planets, t);
    if v.engineOn && 0.0 < v.fuel {
      assert Thrust(v, 0.0, t) == v;
    }
  }

  /** With no planets and the engine off, a tick is a plain Euler step: from
      (0, 0) at velocity (100, 0), one second lands at (100, 0). */
  lemma TickWithoutPlanets(v: RocketValue, dt: real, t: Transcendental)
    requires !v.engineOn
    ensures Tick(v, [], dt, t) == Move(v, dt)
    ensures v.x == 0.0 && v.y == 0.0 && v.speedX == 100.0 && v.speedY == 0.0 && dt == 1.0 ==>
            Tick(v, [], dt, t).x == 100.0 && Tick(v, [], dt, t).y == 0.0
  {
  }

  // ---------------------------------------------------------------------------
  // In-place updates of the live rocket
  // ---------------------------------------------------------------------------

  /** `apply_gravity`. */
  method ApplyGravity(rocket: Rocket, planet: Planet, dt: real, t: Transcendental)
    requires Apart(rocket.Value(), planet, t)
    modifies rocket
    ensures rocket.Value() == Gravity(old(rocket.Value()), planet, dt, t)
  {
    var pull := Pull(rocket.Value(), planet, t);
    rocket.speedX := rocket.speedX + pull.0 * dt;
    rocket.speedY := rocket.speedY + pull.1 * dt;
  }

  /** `apply_thrust`. */
  method ApplyThrust(rocket: Rocket, dt: real, t: Transcendental)
    requires rocket.fuel != -20.0
    modifies rocket
    ensures rocket.Value() == Thrust(old(rocket.Value()), dt, t)
  {
    var accel := EngineAccel(rocket.Value());
    var angle := ToRadians(rocket.orientation, t);
    rocket.speedX := rocket.speedX + t.sin(angle) * accel * dt;
    rocket.speedY := rocket.speedY - t.cos(angle) * accel * dt;
  }

  /** `apply_engine`. */
  method ApplyEngine(rocket: Rocket, dt: real, t: Transcendental)
    modifies rocket
    ensures rocket.Value() == Engine(old(rocket.Value()), dt, t)
  {
    if rocket.engineOn && 0.0 < rocket.fuel {
      ApplyThrust(rocket, dt, t);
      rocket.fuel := Max(rocket.fuel - dt, 0.0);
      if rocket.fuel == 0.0 {
        rocket.engineOn := false;
      }
    }
  }

  /** `move_rocket`. */
  method MoveRocket(rocket: Rocket, dt: real)
    modifies rocket
    ensures rocket.Value() == Move(old(rocket.Value()), dt)
  {
    rocket.x := rocket.x + rocket.speedX * dt;
    rocket.y := rocket.y + rocket.speedY * dt;
  }

  /** `update`: integrate the live rocket against the planets at the current
      time; a collision with any of them puts the level's initial rocket back
      and reports `Collision` without looking at the win condition; otherwise
      the tick reports `Win` exactly when the win condition holds. */
  method Update(game: GameState, dt: real, now: real, t: Transcendental) returns (event: Option<PhysicsEvent>)
    requires Clear(game.level.rocket.Value(), game.level.CurrentPlanets(now, t), t)
    modifies game.level.rocket
    ensures var planets := game.level.CurrentPlanets(now, t);
            var moved := Tick(old(game.level.rocket.Value()), planets, dt, t);
            if AnyCollision(moved, planets) then
              && game.level.rocket.Value() == game.level.level.initialRocket
              && event == Some(Collision)
            else
              && game.level.rocket.Value() == moved
              && event == (if CheckWin(moved, game.level.level.winCondition, t) then Some(Win) else None)
  {
    var rocket := game.level.rocket;
    var planets := game.level.CurrentPlanets(now, t);
    ghost var start := rocket.Value();
    for i := 0 to |planets|
      invariant Clear(start, planets[..i], t)
      invariant rocket.Value() == GravityAll(start, planets[..i], dt, t)
    {
      GravityAllPrefix(start, planets, i, dt, t);
      ApplyGravity(rocket, planets[i], dt, t);
    }
    assert planets[..|planets|] == planets;
    ApplyEngine(rocket, dt, t);
    MoveRocket(rocket, dt);
    if AnyCollision(rocket.Value(), planets) {
      game.level.ResetRocket();
      return Some(Collision);
    }
    if CheckWin(rocket.Value(), game.level.level.winCondition, t) {
      return Some(Win);
    }
    return None;
  }

  // ---------------------------------------------------------------------------
  // Trajectory projection
  // ---------------------------------------------------------------------------

  /** The length of one projected step, `duration / steps`. With no steps the
      length is never used (the game's f32 division would give a non-finite
      value: an infinity, or NaN for a zero duration). */
  function StepLength(duration: real, steps: nat): real {
    if steps == 0 then 0.0 else duration / steps as real
  }

  /** The time at which step i of a projection places the planets. */
  function StepTime(start: real, dt: real, i: nat): real {
    start + (i as real + 1.0) * dt
  }

  /** One projected step: gravity from the planets at `time`, no engine, then
      the position step. */
  function Drift(v: RocketValue, defs: seq<PlanetDef>, time: real, dt: real, t: Transcendental): (r: RocketValue)
    requires Clear(v, PlanetsAt(defs, time, t), t)
    ensures r.orientation == v.orientation && r.engineOn == v.engineOn && r.fuel == v.fuel
  {
    Move(GravityAll(v, PlanetsAt(defs, time, t), dt, t), dt)
  }

  /** Steps i up to n of a projection never put the rocket on a planet's
      centre, so gravity is defined throughout. */
  predicate DriftDefined(v: RocketValue, defs: seq<PlanetDef>, start: real, dt: real, i: nat, n: nat, t: Transcendental)
    decreases n - i
  {
    i < n ==>
      && Clear(v, PlanetsAt(defs, StepTime(start, dt, i), t), t)
      && DriftDefined(Drift(v, defs, StepTime(start, dt, i), dt, t), defs, start, dt, i + 1, n, t)
  }

  /** The positions a drifting rocket passes through in steps i up to n:
      exactly one point per step. */
  function Trajectory(v: RocketValue, defs: seq<PlanetDef>, start: real, dt: real, i: nat, n: nat, t: Transcendental)
    : (path: seq<(real, real)>)
    requires i <= n && DriftDefined(v, defs, start, dt, i, n, t)
    ensures |path| == n - i
    decreases n - i
  {
    if i == n then []
    else
      var next := Drift(v, defs, StepTime(start, dt, i), dt, t);
      [(next.x, next.y)] + Trajectory(next, defs, start, dt, i + 1, n, t)
  }

  /** The first step of a trajectory: the rocket drifts once, the point it
      reaches is recorded, and the rest of the trajectory starts from there. */
  lemma TrajectoryUnfold(v: RocketValue, defs: seq<PlanetDef>, start: real, dt: real, i: nat, n: nat, t: Transcendental)
    requires i < n && DriftDefined(v, defs, start, dt, i, n, t)
    ensures Clear(v, PlanetsAt(defs, StepTime(start, dt, i), t), t)
    ensures var next := Drift(v, defs, StepTime(start, dt, i), dt, t);
            && DriftDefined(next, defs, start, dt, i + 1, n, t)
            && Trajectory(v, defs, start, dt, i, n, t) == [(next.x, next.y)] + Trajectory(next, defs, start, dt, i + 1, n, t)
  {
  }

  /** The loop invariant of `project_path` carried over one step: the points
      recorded so far followed by the rest of the trajectory stay the whole
      trajectory when the next point moves from the second part to the first. */
  lemma TrajectoryStep(path: seq<(real, real)>, before: RocketValue, after: RocketValue, defs: seq<PlanetDef>,
                       start: real, dt: real, i: nat, n: nat, t: Transcendental, whole: seq<(real, real)>)
    requires i < n && DriftDefined(before, defs, start, dt, i, n, t)
    requires path + Trajectory(before, defs, start, dt, i, n, t) == whole
    requires Clear(before, PlanetsAt(defs, StepTime(start, dt, i), t), t)
    requires after == Drift(before, defs, StepTime(start, dt, i), dt, t)
    ensures DriftDefined(after, defs, start, dt, i + 1, n, t)
    ensures (path + [(after.x, after.y)]) + Trajectory(after, defs, start, dt, i + 1, n, t) == whole
  {
    TrajectoryUnfold(before, defs, start, dt, i, n, t);
    var rest := Trajectory(after, defs, start, dt, i + 1, n, t);
    assert path + ([(after.x, after.y)] + rest) == (path + [(after.x, after.y)]) + rest;
  }

  /** Without planets every projection is defined, and the rocket moves in a
      straight line at its starting velocity: point k is the start plus k + 1
      steps of velocity times dt. */
  lemma {:induction false} StraightLineWithoutPlanets(v: RocketValue, start: real, dt: real, i: nat, n: nat, t: Transcendental)
    requires i <= n
    ensures DriftDefined(v, [], start, dt, i, n, t)
    ensures forall k :: 0 <= k < n - i ==>
              Trajectory(v, [], start, dt, i, n, t)[k] == (v.x + (k as real + 1.0) * (v.speedX * dt), v.y + (k as real + 1.0) * (v.speedY * dt))
    decreases n - i
  {
    if i < n {
      var time := StepTime(start, dt, i);
      assert PlanetsAt([], time, t) == [];
      var next := Drift(v, [], time, dt, t);
      assert next == Move(v, dt);
      StraightLineWithoutPlanets(next, start, dt, i + 1, n, t);
      var path := Trajectory(v, [], start, dt, i, n, t);
      var rest := Trajectory(next, [], start, dt, i + 1, n, t);
      assert path == [(next.x, next.y)] + rest;
      forall k | 0 <= k < |path|
        ensures path[k] == (v.x + (k as real + 1.0) * (v.speedX * dt), v.y + (k as real + 1.0) * (v.speedY * dt))
      {
        if 0 < k {
          assert path[k] == rest[k - 1];
          assert rest[k - 1] == (next.x + ((k - 1) as real + 1.0) * (next.speedX * dt), next.y + ((k - 1) as real + 1.0) * (next.speedY * dt));
          assert next.x == v.x + v.speedX * dt && next.speedX == v.speedX;
          assert next.y == v.y + v.speedY * dt && next.speedY == v.speedY;
          ShiftStep(v.x, v.speedX * dt, k);
          ShiftStep(v.y, v.speedY * dt, k);
          assert path[k].0 == v.x + (k as real + 1.0) * (v.speedX * dt);
          assert path[k].1 == v.y + (k as real + 1.0) * (v.speedY * dt);
        } else {
          assert k as real == 0.0;
          assert path[k].0 == v.x + (k as real + 1.0) * (v.speedX * dt);
          assert path[k].1 == v.y + (k as real + 1.0) * (v.speedY * dt);
        }
      }
    }
  }

  /** One more step of a straight line: x + c, then k further steps of c, is
      x plus k + 1 steps of c. */
  lemma ShiftStep(x: real, c: real, k: nat)
    requires 0 < k
    ensures (x + c) + ((k - 1) as real + 1.0) * c == x + (k as real + 1.0) * c
  {
  }

  /** Without planets and without vertical speed, every projected point stays
      at the starting height, and with a positive horizontal speed and step
      each point lies strictly to the right of the one before. */
  lemma LevelFlightWithoutPlanets(v: RocketValue, start: real, dt: real, n: nat, t: Transcendental)
    requires v.speedY == 0.0
    ensures DriftDefined(v, [], start, dt, 0, n, t)
    ensures var path := Trajectory(v, [], start, dt, 0, n, t);
            && |path| == n
            && (forall k :: 0 <= k < n ==> path[k].1 == v.y)
            && (0.0 < v.speedX && 0.0 < dt ==>
                  (0 < n ==> v.x < path[0].0) &&
                  forall k :: 0 < k < n ==> path[k - 1].0 < path[k].0)
  {
    StraightLineWithoutPlanets(v, start, dt, 0, n, t);
    var path := Trajectory(v, [], start, dt, 0, n, t);
    if 0.0 < v.speedX && 0.0 < dt {
      var step := v.speedX * dt;
      assert 0.0 < step;
      forall k | 0 < k < n
        ensures path[k - 1].0 < path[k].0
      {
        assert path[k].0 == path[k - 1].0 + step by {
          assert (k as real + 1.0) * step == ((k - 1) as real + 1.0) * step + step;
        }
      }
    }
  }

  /** The inner loop of `project_path`: each planet definition is placed at
      the given time and pulls the simulated rocket in turn. */
  method ApplyGravityOfDefs(sim: Rocket, defs: seq<PlanetDef>, time: real, dt: real, t: Transcendental)
    requires Clear(sim.Value(), PlanetsAt(defs, time, t), t)
    modifies sim
    ensures sim.Value() == GravityAll(old(sim.Value()), PlanetsAt(defs, time, t), dt, t)
  {
    ghost var before := sim.Value();
    ghost var planets := PlanetsAt(defs, time, t);
    for j := 0 to |defs|
      invariant Clear(before, planets[..j], t)
      invariant sim.Value() == GravityAll(before, planets[..j], dt, t)
    {
      GravityAllPrefix(before, planets, j, dt, t);
      var planet := PlanetAt(defs[j], time, t);
      ApplyGravity(sim, planet, dt, t);
    }
    assert planets[..|defs|] == planets;
  }

  /** One step of `project_path`: gravity from every planet at the step's
      time, then the move. */
  method DriftRocket(sim: Rocket, defs: seq<PlanetDef>, time: real, dt: real, t: Transcendental)
    requires Clear(sim.Value(), PlanetsAt(defs, time, t), t)
    modifies sim
    ensures sim.Value() == Drift(old(sim.Value()), defs, time, dt, t)
  {
    ApplyGravityOfDefs(sim, defs, time, dt, t);
    MoveRocket(sim, dt);
  }

  /** `project_path`: runs the drift on a clone of the rocket with its engine
      forced off, recording one point per step. The live rocket is only read. */
  method ProjectPath(rocket: Rocket, defs: seq<PlanetDef>, duration: real, steps: nat, startTime: real, t: Transcendental)
    returns (path: seq<(real, real)>)
    requires DriftDefined(rocket.Value().(engineOn := false), defs, startTime, StepLength(duration, steps), 0, steps, t)
    ensures |path| == steps
    ensures rocket.Value() == old(rocket.Value())
    ensures path == Trajectory(rocket.Value().(engineOn := false), defs, startTime, StepLength(duration, steps), 0, steps, t)
  {
    var dt := StepLength(duration, steps);
    var sim := new Rocket(rocket.Value());
    sim.engineOn := false;
    ghost var first := sim.Value();
    path := [];
    for i := 0 to steps
      invariant DriftDefined(sim.Value(), defs, startTime, dt, i, steps, t)
      invariant path + Trajectory(sim.Value(), defs, startTime, dt, i, steps, t) == Trajectory(first, defs, startTime, dt, 0, steps, t)
    {
      var time := StepTime(startTime, dt, i);
      ghost var before := sim.Value();
      TrajectoryUnfold(before, defs, startTime, dt, i, steps, t);
      DriftRocket(sim, defs, time, dt, t);
      TrajectoryStep(path, before, sim.Value(), defs, startTime, dt, i, steps, t, Trajectory(first, defs, startTime, dt, 0, steps, t));
      path := path + [(sim.x, sim.y)];
    }
    assert Trajectory(sim.Value(), defs, startTime, dt, steps, steps, t) == [];
    assert path == Trajectory(first, defs, startTime, dt, 0, steps, t);
    assert first == rocket.Value().(engineOn := false);
  }
}
