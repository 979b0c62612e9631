# Gravioli core in Dafny

Gravioli is a 2D rocket game. A rocket flies among static and orbiting
planets. Each frame, every planet's gravity bends the rocket's velocity. A
fuel-limited engine, which grows stronger as the tank empties, pushes it
along its orientation. The position then takes one explicit Euler step. Hitting
a planet puts the level's starting rocket back. Coasting into the goal
circle with the engine off (and, for some levels, slowly enough) wins. A
dotted path shows where the rocket would drift with the engine off.

This project models that simulation core over exact `real` arithmetic:

- `options.dfy`: the `Option` type.
- `maths.dfy`: square root, sine, cosine and pi as an uninterpreted
  `Transcendental` value, with the predicate `Lawful`. `Lawful` holds only the
  facts the proofs need: a root is non-negative and squares back, sin 0 = 0,
  cos 0 = 1. Monotonicity of the root is proved from these.
- `state.dfy`: the game's entities.
  - Values: planets, orbits, planet definitions, levels and win conditions.
  - `Rocket`: a class whose fields the game updates in place. `RocketValue`
    is its value form.
  - The per-round `LevelState` and the `GameState`.
- `physics.dfy`: the pieces of one tick.
  - Gravity, engine, thrust and the position step: each a function on rocket
    values plus an in-place method proved against that function.
  - Collision and win: pure predicates, as in the game.
  - `Tick`: a whole tick as a function on rocket values.
  - `Update`: the tick protocol on the live rocket.
  - `ProjectPath`: the trajectory projector.
- `controls.dfy`: wrapping the orientation with Euclidean remainder, and the
  engine and HUD keys.
- `menu.dfy`: the level-select cursor and its Enter-to-choice mapping.

The wall clock enters as a `now` parameter. Key states enter as booleans.

## Model

| member | source | states |
|---|---|---|
| Physics.ApartIffNotAtCentre | src/physics.rs:43-50 | gravity is defined (non-zero squared distance and a non-zero root) exactly when the rocket is not at the planet's centre |
| Physics.Pull | src/physics.rs:43-51 | a planet level with the rocket on an axis pulls nothing along that axis |
| Physics.Gravity | src/physics.rs:43-53 | gravity changes only the rocket's velocity; position, orientation, landed, engine and fuel stay as they were |
| Physics.PullMagnitudeSq | src/physics.rs:43-51 | in every direction the pull has size strength / distance^2, the inverse-square law |
| Physics.PullWeakerFartherAway | src/physics.rs:43-51 | of two planets of the same radius anywhere around the rocket, the farther one pulls strictly less hard |
| Physics.GravityZeroDt | src/physics.rs:189-196 | a gravity step of length zero leaves the rocket unchanged |
| Physics.GravityPullsTowardPlanet | src/physics.rs:43-53 | on each axis, velocity rises when the planet lies ahead, is unchanged when level with it and falls when it lies behind; equal offsets on both axes give equal changes |
| Physics.PullScalesWithRadiusCubed | src/physics.rs:48-49 | a planet k times as large pulls k^3 times as hard on both axes; doubling the radius gives 8 times the pull, halving it 1/8 |
| Physics.GravityWeakerFartherAway | src/physics.rs:178-187 | of two equal planets on the rocket's line, the farther one adds strictly less horizontal speed |
| Physics.GravityAll | src/physics.rs:11-13 | gravity from a list of planets changes only the velocity; position, orientation, landed, engine and fuel are untouched |
| Physics.GravityAllZeroDt | src/physics.rs:11-13 | gravity from any list of planets over zero time is the identity |
| Physics.EngineAccel | src/physics.rs:65-69 | with non-negative fuel the engine's acceleration is positive and at most 20, and with at most a full tank (20) it is at least 10 |
| Physics.EngineAccelReferenceValues | src/physics.rs:65-69 | the engine gives 10 at fuel 20, 40/3 at fuel 10 and 20 at fuel 0, so an empty tank doubles the push of a full one |
| Physics.EngineAccelDecreasesWithFuel | src/physics.rs:65-69 | with non-negative fuel, less fuel means strictly more acceleration |
| Physics.Thrust | src/physics.rs:71-76 | thrust changes only the rocket's velocity |
| Physics.ThrustPointingUp | src/physics.rs:71-76 | pointing up (orientation 0), thrust leaves speed_x and only lowers speed_y by accel * dt |
| Physics.ThrustStrongerWithLessFuel | src/physics.rs:271-280 | pointing up, the rocket with less fuel gains more upward speed over the same positive dt |
| Physics.Engine | src/physics.rs:55-63 | the engine never moves or turns the rocket, an engine that is off changes nothing, and it never switches itself on |
| Physics.EngineFuelRules | src/physics.rs:55-63 | an idle or empty engine changes nothing; a burning one thrusts, leaves fuel max(fuel - dt, 0) >= 0, and stays on exactly when fuel is left |
| Physics.Move | src/physics.rs:78-81 | the position step changes only x and y |
| Physics.MoveProperties | src/physics.rs:78-81 | a zero step and zero speed are the identity, and two steps compose into one of the summed length |
| Physics.CheckCollision | src/physics.rs:100-104 | a planet of radius zero is never hit |
| Physics.CollisionWithinRadius | src/physics.rs:100-104 | in every direction, the rocket collides exactly when its distance to the centre is less than the radius; a rocket exactly on the surface does not collide |
| Physics.CollisionIsStrict | src/physics.rs:327-339 | on the planet's horizontal line, to the right of the centre, the rocket collides exactly when it is closer than the radius, without square roots |
| Physics.CheckWin | src/physics.rs:26-41 | under either condition a win needs the rocket strictly inside the goal circle with the engine off |
| Physics.CircleWinIff | src/physics.rs:26-35 | the speed-limited win holds exactly when strictly inside, 0 < max_speed, squared speed < max_speed^2 and the engine is off |
| Physics.WinNeedsEngineOffAndAnySpeedIgnoresVelocity | src/physics.rs:26-41 | a running engine rules out a win under either condition; the any-speed condition gives the same answer for every velocity |
| Physics.WinExample | src/physics.rs:369-389 | at the goal centre at speed 1 under limit 2 the rocket wins, and with the engine on it does not |
| Physics.Tick | src/physics.rs:9-15 | a tick never turns the rocket or touches `landed`, and never switches the engine on |
| Physics.TickZeroDtIsIdentity | src/physics.rs:9-15 | a tick of length zero changes nothing: gravity, engine and move are all the identity |
| Physics.TickWithoutPlanets | src/physics.rs:9-15 | with no planets and the engine off, a tick is just the position step |
| Physics.ApplyGravity | src/physics.rs:43-53 | updates the live rocket to the gravity function of its old value |
| Physics.ApplyThrust | src/physics.rs:71-76 | updates the live rocket to the thrust function of its old value |
| Physics.ApplyEngine | src/physics.rs:55-63 | updates the live rocket to the engine function of its old value |
| Physics.MoveRocket | src/physics.rs:78-81 | updates the live rocket to the position step of its old value |
| Physics.Update | src/physics.rs:9-24 | gravity from every current planet, then the engine, then the move; any collision resets the rocket to the level's initial rocket and reports Collision without a win check; otherwise the moved rocket stays and Win is reported exactly when the win condition holds |
| Physics.Trajectory | src/physics.rs:86-97 | the engine-off drift path has exactly one point per remaining step |
| Physics.StraightLineWithoutPlanets | src/physics.rs:426-436 | without planets, point k of the path is the start plus k + 1 steps of velocity * dt |
| Physics.LevelFlightWithoutPlanets | src/physics.rs:426-443 | without planets and vertical speed, every point keeps the start's y, and x strictly increases for positive speed_x and dt |
| Physics.ApplyGravityOfDefs | src/physics.rs:89-92 | applies the gravity of every definition's planet at one instant to the simulated rocket |
| Physics.Drift | src/physics.rs:88-94 | a projected step burns no fuel and keeps the orientation and the engine flag |
| Physics.DriftRocket | src/physics.rs:88-94 | one projected step: gravity from the planets at that step's time, then the move |
| Physics.ProjectPath | src/physics.rs:83-98 | returns exactly `steps` points, leaves the input rocket unchanged, and the points are the engine-off drift trajectory at times start + (i + 1) * dt |
| State.PlanetAt | src/state.rs:26-42 | the planet always has its definition's radius, and a static definition gives its centre |
| State.StaticPlanetIsFixed | src/state.rs:28-32 | a static planet is in the same place at every time |
| State.OrbitPosition | src/state.rs:33-40 | an orbiting planet sits at centre + radius * (cos θ, sin θ) with θ = initial_angle + speed * time; for every root and trigonometry; with lawful ones, at θ = 0 it is one orbit radius to the right of the centre |
| State.StillOrbitIsFixed | src/state.rs:33-40 | an orbit with speed zero keeps the planet in one place |
| State.PlanetsAt | src/state.rs:286-289 | one planet per definition, in order, each placed at the same time |
| State.Rocket.constructor | src/state.rs:45-55 | a rocket holding exactly the given field values |
| State.LevelState.constructor | src/state.rs:273-276 | the round starts with a fresh copy of the design's initial rocket, at start time now |
| State.LevelState.ResetRocket | src/state.rs:278-280 | the rocket becomes the level's initial rocket; level and start time are constants |
| State.LevelState.Elapsed | src/state.rs:282-284 | elapsed time is zero exactly at the start instant and never negative after it |
| State.LevelState.ElapsedTracksClock | src/state.rs:282-284 | elapsed time advances exactly as the clock does |
| State.LevelState.CurrentPlanets | src/state.rs:286-289 | one planet per level definition, in order, at the elapsed time |
| State.GameState.constructor | src/state.rs:300-306 | HUD and path shown, wrapping a fresh round of the given level that starts now |
| Controls.Trunc | src/controls.rs:25 | truncating a quotient towards zero moves it by less than one and never across zero |
| Controls.TruncatedRem | src/controls.rs:25 | the float remainder `%` lies strictly between -m and m and has the sign of x |
| Controls.RemEuclid | src/controls.rs:25 | the wrapped value lies in [0, m) |
| Controls.RemEuclidUnique | src/controls.rs:25 | the wrapped value is the only number in [0, m) that differs from x by a whole number of m's |
| Controls.RemEuclidIdentityAndPeriod | src/controls.rs:25 | values already in [0, m) are kept, and adding whole turns does not change the result |
| Controls.Rotated | src/controls.rs:17-25 | the new orientation lies in [0, 360) |
| Controls.RotatedCongruent | src/controls.rs:17-25 | the new orientation differs from the turned angle by whole turns |
| Controls.RotationExamples | src/controls.rs:37-63 | at dt = 1: 0 to 90 right, 90 to 0 left, 350 wraps to 80, 10 wraps to 280 |
| Controls.NeutralKeysKeepOrientation | src/controls.rs:65-77 | no key, or both keys, leave an in-range orientation unchanged |
| Controls.FullTurnInFourSeconds | src/controls.rs:79-84 | turning right for 4 seconds returns to the starting orientation |
| Controls.UpdateOrientation | src/controls.rs:17-26 | only the orientation changes, to the wrapped rotated angle |
| Controls.EngineAfterKeys | src/controls.rs:6-11 | X switches the engine off even together with Z; Z alone switches it on; neither leaves it as it was |
| Controls.HandleInput | src/controls.rs:4-15 | orientation rotated, engine set by the keys, no other rocket field changes, and the HUD flag flips exactly when H is pressed |
| Menu.ChoiceAt | src/menu.rs:28-33 | Enter on the last option exits, and on any other option plays a level between 1 and count - 1 |
| Menu.ChoiceAtOneToOne | src/menu.rs:28-33 | distinct positions give distinct choices, and the level played from option i is i + 1 |
| Menu.CursorAfter | src/menu.rs:22-27 | the cursor stays within the options and moves by at most one place |
| Menu.CursorKeys | src/menu.rs:22-27 | the cursor moves only when a key is pressed; Up stops at the top, Down at the bottom, and both together cancel out except at the top |
| Menu.Menu.constructor | src/menu.rs:14-19 | the cursor starts on the first of the three options "Level 1", "Level 2", "Exit" |
| Menu.Menu.Update | src/menu.rs:21-35 | the cursor moves by Up then Down within bounds, and the choice is reported only on Enter, for the cursor's new position |

## Left out

- f32 arithmetic: every computation is exact over `real`. The tests' epsilon comparisons are read as equalities, and rounding, overflow and NaN are not modelled.
- The sqrt, sin, cos and pi calls are uninterpreted. Only the facts in `Lawful` are known, so periodicity of sine and cosine (and hence anything about full orbits) is not stated.
- Physics.Pull, Physics.Gravity, Physics.Update, Physics.ProjectPath: require the rocket not to sit on a planet's centre (`Apart`, `Clear`, `DriftDefined`). The game divides by zero there and its f32 velocity becomes NaN.
- Physics.EngineAccel: requires fuel != -20, where the mass is zero. The game never reaches negative fuel, because fuel is clamped at 0.
- Controls.RemEuclid: does not model the f32 case where a tiny negative remainder plus 360 rounds up to exactly 360.
- Physics.ProjectPath: does not model the f64/f32 mixing of the step times. With zero steps it returns no points, and the non-finite step length f32 would give (an infinity, or NaN for a zero duration) is never used.
- Physics.LevelFlightWithoutPlanets: covers the straight-line tests; the curving test with a planet below (src/physics.rs:445-453) and the test where the orbiting and static paths diverge (src/physics.rs:455-473) depend on many steps of f32 values and are not stated.
- `Level::all` (level data laid out from the screen size) and `WinCondition::description` (float formatting) are not part of this model.
- Rendering (src/drawing.rs, `Menu::draw`), audio (src/sound.rs), asset loading (src/images.rs) and the standalone demo in src/main.rs are not part of this model.
- Key polling: `is_key_down` and `is_key_pressed` become boolean parameters. The `&mut bool` HUD flag of `handle_input` becomes a parameter plus a returned value.
- `get_time()` becomes the `now` parameter of `LevelState` construction, `Elapsed` and `CurrentPlanets`.
- The controls tests build a `Rocket` without the `fuel` field. The model follows the struct definition in src/state.rs, which has it.
- `landed` is carried as an inert boolean, as in the game, which never reads it.
