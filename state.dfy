/**
 * Bodies, the rocket and the per-level state of the game (src/state.rs).
 *
 * Level data is immutable and held as datatypes; the live rocket is an
 * object whose fields the physics and the controls update in place. The
 * wall clock is not read: every query that needs the current time takes it
 * as the parameter `now`.
 */
module State {
  import opened Options
  import opened Maths

  /** A planet at one instant: its centre and body radius. */
  datatype Planet = Planet(x: real, y: real, radius: real)

  /** A circular orbit: radius, angular speed in radians per second, and the
      phase in radians at time zero. */
  datatype Orbit = Orbit(radius: real, speed: real, initialAngle: real)

  /** A planet as the level defines it: a fixed centre (the position of a
      static planet, or the centre of an orbit), the body radius, and an
      optional orbit. */
  datatype PlanetDef = PlanetDef(centerX: real, centerY: real, radius: real, orbit: Option<Orbit>)

  /** The rocket's fields as a value: what a level stores as its initial rocket
      and what a clone of the live rocket holds. Orientation is in degrees with
      0 pointing up; fuel is in seconds of burn. `landed` is carried but never
      read by the physics. */
  datatype RocketValue = RocketValue(
    x: real, y: real,
    speedX: real, speedY: real,
    orientation: real,
    landed: bool,
    engineOn: bool,
    fuel: real)

  /** The win region of a level: a circle to reach with the engine off, with
      or without a speed limit. */
  datatype WinCondition =
    | Circle(x: real, y: real, radius: real, maxSpeed: real)
    | CircleAnySpeed(x: real, y: real, radius: real)

  /** A level: its planets in order, the rocket it starts (and restarts) with,
      and how it is won. */
  datatype Level = Level(name: string, planets: seq<PlanetDef>, initialRocket: RocketValue, winCondition: WinCondition)

  /** The angle, in radians, an orbit has turned to after `time` seconds. */
  function OrbitAngle(orbit: Orbit, time: real): real {
    orbit.initialAngle + orbit.speed * time
  }

  /** The position of a defined planet at a given time (`PlanetDef::planet_at`).
      Whatever the time, and whether or not the planet orbits, its body radius is
      the one the definition gives; a planet without an orbit sits at its centre. */
  function PlanetAt(def: PlanetDef, time: real, t: Transcendental): (r: Planet)
    ensures r.radius == def.radius
    ensures def.orbit.None? ==> r.x == def.centerX && r.y == def.centerY
  {
    match def.orbit
    case None => Planet(def.centerX, def.centerY, def.radius)
    case Some(orbit) =>
      var angle := OrbitAngle(orbit, time);
      Planet(def.centerX + orbit.radius * t.cos(angle), def.centerY + orbit.radius * t.sin(angle), def.radius)
  }

  /** A static planet does not move: it is at the same place at any two times. */
  lemma StaticPlanetIsFixed(def: PlanetDef, time1: real, time2: real, t: Transcendental)
    requires def.orbit.None?
    ensures PlanetAt(def, time1, t) == PlanetAt(def, time2, t)
  {
  }

  /** An orbiting planet lies on the orbit's circle at the angle reached after
      `time` seconds; at the phase angle zero it is on the positive x side of
      the centre, one orbit radius away. */
  lemma OrbitPosition(def: PlanetDef, time: real, t: Transcendental)
    requires def.orbit.Some?
    ensures PlanetAt(def, time, t).x - def.centerX
            == def.orbit.value.radius * t.cos(OrbitAngle(def.orbit.value, time))
    ensures PlanetAt(def, time, t).y - def.centerY
            == def.orbit.value.radius * t.sin(OrbitAngle(def.orbit.value, time))
    ensures Lawful(t) && OrbitAngle(def.orbit.value, time) == 0.0 ==>
            PlanetAt(def, time, t) == Planet(def.centerX + def.orbit.value.radius, def.centerY, def.radius)
  {
  }

  /** An orbit with angular speed zero degenerates to a fixed point. */
  lemma StillOrbitIsFixed(def: PlanetDef, time1: real, time2: real, t: Transcendental)
    requires def.orbit.Some? && def.orbit.value.speed == 0.0
    ensures PlanetAt(def, time1, t) == PlanetAt(def, time2, t)
  {
  }

  /** Every definition evaluated at one time, in definition order (the
      `map(|p| p.planet_at(elapsed)).collect()` of `current_planets`). */
  function PlanetsAt(defs: seq<PlanetDef>, time: real, t: Transcendental): (planets: seq<Planet>)
    ensures |planets| == |defs|
    ensures forall i :: 0 <= i < |defs| ==> planets[i] == PlanetAt(defs[i], time, t)
  {
    if defs == [] then [] else [PlanetAt(defs[0], time, t)] + PlanetsAt(defs[1..], time, t)
  }

  /** The live rocket. The physics and the controls change its fields in place. */
  class Rocket {
    var x: real
    var y: real
    var speedX: real
    var speedY: real
    var orientation: real
    var landed: bool
    var engineOn: bool
    var fuel: real

    /** The rocket's fields as a value. */
    function Value(): RocketValue
      reads this
    {
      RocketValue(x, y, speedX, speedY, orientation, landed, engineOn, fuel)
    }

    /** A fresh rocket holding a copy of `v` (Rust's `clone()` of a rocket value). */
    constructor (v: RocketValue)
      ensures Value() == v
    {
      x, y := v.x, v.y;
      speedX, speedY := v.speedX, v.speedY;
      orientation := v.orientation;
      landed := v.landed;
      engineOn := v.engineOn;
      fuel := v.fuel;
    }
  }

  /** One round of a level: the level, the live rocket and when the round began. */
  class LevelState {
    const level: Level
    const rocket: Rocket
    const startTime: real

    /** `LevelState::new`: the rocket starts as the level's initial rocket and
        the round starts now. */
    constructor (design: Level, now: real)
      ensures level == design && startTime == now
      ensures fresh(rocket) && rocket.Value() == design.initialRocket
    {
      level := design;
      rocket := new Rocket(design.initialRocket);
      startTime := now;
    }

    /** `reset_rocket`: the rocket is overwritten with the level's initial rocket;
        the level and the start time are constants and stay as they were. */
    method ResetRocket()
      modifies rocket
      ensures rocket.Value() == level.initialRocket
    {
      var initial := level.initialRocket;
      rocket.x, rocket.y := initial.x, initial.y;
      rocket.speedX, rocket.speedY := initial.speedX, initial.speedY;
      rocket.orientation := initial.orientation;
      rocket.landed := initial.landed;
      rocket.engineOn := initial.engineOn;
      rocket.fuel := initial.fuel;
    }

    /** Seconds since the round began: zero exactly at the start instant and
        never negative afterwards. */
    function Elapsed(now: real): (r: real)
      ensures r == 0.0 <==> now == startTime
      ensures startTime <= now ==> 0.0 <= r
    {
      now - startTime
    }

    /** The clock that `Elapsed` reads advances exactly as `now` does. */
    lemma ElapsedTracksClock(now: real, later: real)
      ensures Elapsed(later) - Elapsed(now) == later - now
    {
    }

    /** `current_planets`: one planet per definition, in definition order, all
        placed at the round's elapsed time. */
    function CurrentPlanets(now: real, t: Transcendental): (planets: seq<Planet>)
      ensures |planets| == |level.planets|
      ensures forall i :: 0 <= i < |planets| ==> planets[i] == PlanetAt(level.planets[i], Elapsed(now), t)
    {
      PlanetsAt(level.planets, Elapsed(now), t)
    }
  }

  /** The whole game state: the round in play and the two display toggles. */
  class GameState {
    const level: LevelState
    var showHud: bool
    var showPath: bool

    /** `GameState::new`: a fresh round of `design`, with the HUD and the
        projected path both shown. */
    constructor (design: Level, now: real)
      ensures showHud && showPath
      ensures fresh(level) && fresh(level.rocket)
      ensures level.level == design && level.startTime == now
      ensures level.rocket.Value() == design.initialRocket
    {
      level := new LevelState(design, now);
      showHud := true;
      showPath := true;
    }
  }
}
