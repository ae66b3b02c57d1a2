# Pendulum demos — a verified model of their physics core

The repository is a set of small pygame pendulum demos. Each script mixes a small
physics core with window, event and drawing code. This project models that core in
Dafny, over the reals:

- `RealMath` — the part of Python's `math` module the demos use (`pi`, `sin`, `cos`,
  `sqrt`, `atan2`). The functions are uninterpreted. Each lemma assumes only the facts it
  names: sin is odd, cos is even, sin(0) = 0, −1 ≤ sin ≤ 1, sin² + cos² = 1, and sqrt is a
  non-negative square root.
- `Geometry` — screen points, the `distance` helper, the bob position
  `pivot + L·(sin θ, cos θ)`, the angle `atan2(dx, dy)` of a point, and one free-fall tick.
- `Integrators` — `pendulum_acceleration`, `euler_update` and `rk4_update`. GPTEulerRK4.py
  defines all three; GPTFreefall.py and GPTDragDetection.py define `pendulum_acceleration`
  and `rk4_update` with the same bodies and constants, so one definition serves all three
  scripts.
- `PendulumClass` — `PendulumObject`: its fields, setters, `computeAcceleration`,
  `computeRK4Step`, `eulerUpdate`, `RK4_UPDATE` and `is_slack`. `RK4_UPDATE` is modelled
  as written, and lemmas state how it differs from the scripts' Runge–Kutta step.
- `EulerRk4Demo` — the `e`/`r` key toggle and the per-frame dispatch of GPTEulerRK4.py.
- `CollisionDemo` — `rk4_step`, `draw_pendulum`'s position formula, the two mirrored
  pendulums and the strict `distance < 20` collision test of RK4CollisionDetection.py.
- `RopeSolver` and `RopeDemo` — GPTRopeObject.py. `RopeSolver` specifies the rope as
  values. `RopeDemo` holds the nodes in an array and changes them in place with the
  script's loops: gravity, a Verlet step, then 5 relaxation sweeps. It also has the
  drag and free-fall handlers.
- `FreefallDemo`, `DragDetectionDemo`, `LooseStringDemo` — the drag / free-fall / swing,
  drag / swing and taut / slack mode machines of GPTFreefall.py, GPTDragDetection.py and
  GPTLooseString.py.

Each script's module globals become the fields of a class. Each pygame event branch
becomes a method: `Press(mouse)`, `Move(mouse)`, `Release(…)` and `Tick()`. Pointer
coordinates and key codes are parameters. Python floats are modelled as reals.

Where the written design and the code disagree, the model follows the code:

- In `constrain_nodes`, the pivot pair moves node 1 by half the correction, not the full
  correction (GPTRopeObject.py:62-64).
- `constrain_nodes` divides by the distance with no guard, so two coincident neighbours
  raise ZeroDivisionError rather than being skipped. `ConstrainNodes` reports this as
  `ok == false`.
- GPTLooseString.py enters slack when ω < 0.01 and cos(angle) < 0, not by a tension test.
  Its re-taut test compares |PIVOT_y + L·sin(angle) − HEIGHT| with L.
- The scripts keep separate `dragging` / `free_fall` / `slack` flags, not one mode value.
  The model keeps the flags and proves that the invalid combination (held and falling)
  never arises.
- `PendulumObject.RK4_UPDATE` is not classical Runge–Kutta (see Findings). The object's
  method keeps the as-written scheme. GPTEulerRK4.py, GPTFreefall.py and
  GPTDragDetection.py use `Integrators.Rk4Update`, which is also the correction of the
  finding; RK4CollisionDetection.py's `rk4_step` is proved equal to it
  (`CollisionDemo.Rk4StepIsRk4Update`). GPTRopeObject.py and GPTLooseString.py take no
  Runge–Kutta step.

## Model

| member | source | states |
|---|---|---|
| Geometry.SquaredDistance | GPTFreefall.py:49-51 | the squared distance under `distance`'s square root is never negative |
| Geometry.DistanceAtMost | GPTFreefall.py:61 | `distance(p, q) <= r` holds exactly when the squared distance is at most r² (for r ≥ 0) |
| Geometry.DistanceBelow | RK4CollisionDetection.py:124-129 | `distance < r` holds exactly when the squared distance is below r² |
| Geometry.DistanceSymmetric | GPTFreefall.py:49-51 | `distance(p, q) == distance(q, p)` |
| Geometry.BobOnCircle | GPTEulerRK4.py:72-73 | given sin² + cos² = 1, the bob's squared distance from the pivot is L² |
| Geometry.BobAtLength | GPTEulerRK4.py:72-73 | with sqrt a square root as well, the bob is exactly L from the pivot |
| Geometry.FallStepUsesUpdatedVelocity | GPTFreefall.py:90-92 | a free-fall tick raises vy by g·dt first, then moves by the new velocity: y gains vy·dt + g·dt²; vx and the x step use the unchanged vx |
| Integrators.AccelerationOdd | GPTEulerRK4.py:24-26 | given sin odd, the acceleration at −θ is minus the acceleration at θ |
| Integrators.AccelerationBounded | GPTEulerRK4.py:24-26 | given −1 ≤ sin ≤ 1, \|acceleration\| ≤ g/L |
| Integrators.EulerZeroStep | GPTEulerRK4.py:28-33 | `euler_update` with dt = 0 returns (θ, ω) |
| Integrators.EulerRestIsFixed | GPTEulerRK4.py:28-33 | given sin 0 = 0, the rest state (0, 0) is a fixed point of `euler_update` |
| Integrators.EulerOdd | GPTEulerRK4.py:28-33 | given sin odd, `euler_update` maps (−θ, −ω) to the negation of its result at (θ, ω) |
| Integrators.EulerVelocityChangeBounded | GPTEulerRK4.py:28-33 | given −1 ≤ sin ≤ 1, one Euler step changes ω by at most dt·g/L |
| Integrators.CombineZeroStep | GPTEulerRK4.py:49-50 | the Simpson combination x + dt/6·(k1 + 2k2 + 2k3 + k4) with dt = 0 returns the inputs |
| Integrators.CombineNegated | GPTEulerRK4.py:49-50 | combining negated inputs with negated slopes gives the negated result |
| Integrators.CombineVelocityBounded | GPTEulerRK4.py:50 | if every ω slope lies within [−c, c], the combination changes ω by at most dt·c |
| Integrators.StageAtRest | GPTEulerRK4.py:40-47 | given sin 0 = 0, a Runge–Kutta stage at rest with zero slopes is zero |
| Integrators.StageOdd | GPTEulerRK4.py:40-47 | given sin odd, a stage from the mirrored state and slopes is the mirrored stage |
| Integrators.StageOmegaBounded | GPTEulerRK4.py:40-47 | given −1 ≤ sin ≤ 1, every stage's ω slope is within g/L |
| Integrators.Rk4ZeroStep | GPTEulerRK4.py:35-51 | `rk4_update` with dt = 0 returns (θ, ω) |
| Integrators.Rk4RestIsFixed | GPTEulerRK4.py:35-51 | given sin 0 = 0, (0, 0) is a fixed point of `rk4_update` |
| Integrators.Rk4Odd | GPTEulerRK4.py:35-51 | given sin odd, `rk4_update` maps (−θ, −ω) to the negation of its result |
| Integrators.Rk4SlopesOmegaBounded | GPTEulerRK4.py:37-47 | given −1 ≤ sin ≤ 1, all four ω slopes of an RK4 step lie within [−g/L, g/L] |
| Integrators.Rk4VelocityChangeBounded | GPTEulerRK4.py:35-51 | given −1 ≤ sin ≤ 1, one RK4 step changes ω by at most dt·g/L |
| PendulumClass.ConstructionAsWrittenRaises | PendulumClass.py:5-12 | as written, constructing a `PendulumObject` raises TypeError for every argument list and builds nothing |
| PendulumClass.PendulumObject.constructor | PendulumClass.py:11-23 | the intended constructor: the arguments, then acceleration 0, origin (0, 0), GRAVITY 9.8, dt 0.05, not dragged |
| PendulumClass.PendulumObject.SetOrigin | PendulumClass.py:25-27 | sets origin_x and origin_y; every other field is unchanged |
| PendulumClass.PendulumObject.SetLength | PendulumClass.py:29-30 | sets length only |
| PendulumClass.PendulumObject.SetRadius | PendulumClass.py:32-33 | sets radius only |
| PendulumClass.PendulumObject.SetTheta | PendulumClass.py:35-36 | sets theta only |
| PendulumClass.PendulumObject.SetVelocity | PendulumClass.py:38-39 | sets omega only |
| PendulumClass.PendulumObject.SetSlack | PendulumClass.py:41-42 | sets slack only |
| PendulumClass.PendulumObject.SetAcceleration | PendulumClass.py:44-45 | sets acceleration only |
| PendulumClass.PendulumObject.SetTimeStep | PendulumClass.py:47-48 | sets dt only |
| PendulumClass.PendulumObject.ComputeAccelerationIsPendulumAcceleration | PendulumClass.py:75-76 | `computeAcceleration` is −GRAVITY/length·sin θ of the object's own fields, the scripts' `pendulum_acceleration` |
| PendulumClass.PendulumObject.EulerUpdate | PendulumClass.py:82-88 | θ advances by the pre-update ω·dt and ω by the acceleration at the pre-update θ (the scripts' `euler_update`); no other field changes |
| PendulumClass.PendulumObject.Rk4Update | PendulumClass.py:90-108 | stores exactly the as-written RK4_UPDATE result in θ and ω; no other field changes |
| PendulumClass.AsWrittenStageStoresAngle | PendulumClass.py:79-80 | a later stage's ω slope is the angle θ + ½·dt·k_θ from `computeRK4Step`; a true stage holds the acceleration at that angle |
| PendulumClass.AsWrittenFourthStageHalfStep | PendulumClass.py:100-101 | k4 steps by ½·dt: for dt ≠ 0 and k3's ω slope ≠ 0, k4_Theta differs from the full-step stage |
| PendulumClass.Rk4AsWrittenUsesSinOnlyAtTheta | PendulumClass.py:90-104 | RK4_UPDATE evaluates sin only at the current θ: two math libraries that agree there give the same update |
| PendulumClass.Rk4AsWrittenZeroStep | PendulumClass.py:90-108 | RK4_UPDATE with dt = 0 leaves θ and ω unchanged |
| PendulumClass.AsWrittenStageOdd | PendulumClass.py:94-101 | an as-written stage from mirrored inputs is the mirrored stage |
| PendulumClass.Rk4AsWrittenOdd | PendulumClass.py:90-104 | given sin odd, RK4_UPDATE maps (−θ, −ω) to the negation of its result |
| PendulumClass.Rk4AsWrittenExceedsVelocityBound | PendulumClass.py:90-104 | at g 9.8, L 300, θ 0, ω 10, dt 0.05, RK4_UPDATE changes ω by more than dt·g/L, the bound every true RK4 step keeps |
| PendulumClass.TensionCentripetal | PendulumClass.py:111-112 | the tension (L·ω)²/L + g·cos θ equals L·ω² + g·cos θ |
| PendulumClass.TautBelowPivot | PendulumClass.py:110-113 | for L > 0, g > 0 and cos θ > 0 the tension is positive, so `is_slack` sets slack to false |
| PendulumClass.SlackAtRest | PendulumClass.py:110-113 | at ω = 0 and g > 0, the string is slack exactly when cos θ ≤ 0 |
| PendulumClass.PendulumObject.IsSlack | PendulumClass.py:110-114 | slack := (tension ≤ 0); no other field changes |
| EulerRk4Demo.SelectMethodChoosesByKey | GPTEulerRK4.py:59-63 | K_e selects "euler" and K_r selects "rk4"; other keys keep the method; a known method stays known |
| EulerRk4Demo.AdvanceOdd | GPTEulerRK4.py:66-69 | given sin odd, a frame maps the mirrored pendulum to the mirror of its result under either method |
| EulerRk4Demo.AdvanceAtRest | GPTEulerRK4.py:66-69 | given sin 0 = 0, a pendulum at rest stays at rest under either method |
| EulerRk4Demo.AdvanceVelocityChangeBounded | GPTEulerRK4.py:66-69 | given −1 ≤ sin ≤ 1, a frame changes ω by at most TIME_STEP·g/L |
| EulerRk4Demo.Simulation.constructor | GPTEulerRK4.py:19-22 | starts at π/4, at rest, with method "rk4" |
| EulerRk4Demo.Simulation.KeyDown | GPTEulerRK4.py:59-63 | the method becomes SelectMethod(method, key); angle and velocity are unchanged |
| EulerRk4Demo.Simulation.Tick | GPTEulerRK4.py:65-69 | each frame applies exactly the integrator the method names |
| CollisionDemo.DerivativesAtHalfStep | RK4CollisionDetection.py:57-64 | the derivatives at the half-step point reached with slope k are the half-step stage of `rk4_update` |
| CollisionDemo.DerivativesAtFullStep | RK4CollisionDetection.py:67-69 | the derivatives at the full-step point reached with k3 are the full-step stage |
| CollisionDemo.Rk4StepIsRk4Update | RK4CollisionDetection.py:42-82 | `rk4_step` equals `rk4_update` (GPTEulerRK4.py:35-51) for gravity 9.81 and length 100 |
| CollisionDemo.Rk4StepZeroStep | RK4CollisionDetection.py:48-82 | `rk4_step` with h = 0 returns its inputs |
| CollisionDemo.Rk4StepOdd | RK4CollisionDetection.py:48-82 | given sin odd, `rk4_step` maps (−θ, −ω) to the negation of its result |
| CollisionDemo.MirroredBobs | RK4CollisionDetection.py:85-99 | given sin odd and cos even, mirrored bobs have equal y and dx = 2·length·sin θ |
| CollisionDemo.CollisionIsStrict | RK4CollisionDetection.py:123-132 | RED exactly when the squared distance is below 400; at distance exactly 20 the colour is BLUE |
| CollisionDemo.CollisionSymmetric | RK4CollisionDetection.py:123-132 | the colour does not depend on which bob comes first |
| CollisionDemo.MirroredCollision | RK4CollisionDetection.py:116-132 | for the mirrored pair, RED exactly when \|sin θ1\| < 0.1 |
| CollisionDemo.TwoPendulums.constructor | RK4CollisionDetection.py:31-35 | starts at π/4 and −π/4, both at rest, mirrored |
| CollisionDemo.TwoPendulums.Tick | RK4CollisionDetection.py:111-132 | both pendulums take one `rk4_step`; given sin odd they stay mirrored (θ2 = −θ1, ω2 = −ω1); the colour is the test on the new bobs |
| RopeSolver.InitialRopeHangsStraight | GPTRopeObject.py:21-28 | node 0 is the pivot at rest, the last node is LENGTH below it, and every segment has rest length |
| RopeSolver.GravityMovesOnlyDown | GPTRopeObject.py:36-39 | gravity adds GRAVITY·TIME_STEP to y for every node from index 1; node 0, every x and every prev_pos are unchanged |
| RopeSolver.VerletKeepsVelocity | GPTRopeObject.py:41-50 | a Verlet step keeps pos − prev_pos, moves prev_pos to the old pos, and leaves a node at rest unchanged |
| RopeSolver.CorrectPairFailsIffCoincident | GPTRopeObject.py:58-61 | given sqrt a square root, a pair raises ZeroDivisionError exactly when its two positions coincide |
| RopeSolver.CorrectPairFrame | GPTRopeObject.py:62-69 | a correction never touches prev_pos, and the pivot pair never moves node 0 |
| RopeSolver.CorrectPairKeepsMidpoint | GPTRopeObject.py:65-69 | for i > 0 the ends move by opposite vectors, so the pair's midpoint stays put |
| RopeSolver.CorrectPairScalesOffset | GPTRopeObject.py:61-69 | the pair's offset is scaled by 1 − diff (i > 0) or by 1 − diff/2 (pivot pair) |
| RopeSolver.CorrectPairRestoresRestLength | GPTRopeObject.py:65-69 | given sqrt a square root, an i > 0 pair ends exactly at rest length |
| RopeSolver.CorrectPairPinnedHalvesGap | GPTRopeObject.py:62-64 | the pivot pair closes only half the gap: node 1 ends at the mean of its old distance and the rest length |
| RopeSolver.CorrectPairAtRest | GPTRopeObject.py:58-69 | a pair already at rest length is left unchanged |
| RopeSolver.SweepFromPair | GPTRopeObject.py:55-69 | a sweep continues from pair i + 1 on the rope with pair i corrected |
| RopeSolver.SweepFromKeepsFrame | GPTRopeObject.py:55-69 | a sweep keeps the node count, node 0 and every prev_pos |
| RopeSolver.RelaxKeepsFrame | GPTRopeObject.py:52-69 | `constrain_nodes` keeps the node count, never moves node 0 and never touches prev_pos |
| RopeSolver.SweepFromAtRest | GPTRopeObject.py:55-69 | a sweep over a rope at rest length changes nothing |
| RopeSolver.RelaxAtRest | GPTRopeObject.py:52-69 | a rope at rest length is a fixed point of `constrain_nodes` |
| RopeDemo.RopePendulum.constructor | GPTRopeObject.py:20-34 | node i is InitialNode(i) for all ROPE_SEGMENTS + 1 nodes; the bob is still and not held |
| RopeDemo.RopePendulum.ApplyGravity | GPTRopeObject.py:36-39 | the in-place loop leaves exactly Gravity(old nodes) |
| RopeDemo.RopePendulum.VerletIntegration | GPTRopeObject.py:41-50 | the in-place loop leaves exactly Verlet(old nodes) |
| RopeDemo.RopePendulum.ConstrainNodes | GPTRopeObject.py:52-69 | the nested loops succeed exactly when Relax succeeds, and then leave its result; node 0 never changes |
| RopeDemo.RopePendulum.Press | GPTRopeObject.py:81-85 | a press within BOB_RADIUS (≤) of the bob sets dragging and clears free_fall; otherwise nothing changes |
| RopeDemo.RopePendulum.Release | GPTRopeObject.py:86-90 | release always clears dragging; beyond LENGTH it enters free fall with velocity (0, 0) |
| RopeDemo.RopePendulum.Move | GPTRopeObject.py:91-93 | while dragging, the last node's position (the bob) becomes the mouse; otherwise nothing changes |
| RopeDemo.RopePendulum.Tick | GPTRopeObject.py:95-115 | held: nothing moves; falling: the bob takes a FallStep and the fall ends when dist ≤ LENGTH; otherwise the rope takes Relax(Verlet(Gravity(nodes))); never held and falling at once |
| FreefallDemo.FallIsVertical | GPTFreefall.py:90-92 | a fall from vx = 0 keeps vx = 0 and the bob's x |
| FreefallDemo.FallEndsInsideCircle | GPTFreefall.py:95-98 | the fall ends exactly when the bob's squared distance from the pivot is at most LENGTH² |
| FreefallDemo.FreefallPendulum.constructor | GPTFreefall.py:19-25 | starts at π/4 and at rest, with the bob on the string and velocity (0, 0) |
| FreefallDemo.FreefallPendulum.Press | GPTFreefall.py:59-63 | a press within BOB_RADIUS (≤) of the bob sets dragging and clears free_fall |
| FreefallDemo.FreefallPendulum.Release | GPTFreefall.py:64-78 | does nothing unless dragging; beyond LENGTH it enters free fall with velocity (0, 0), otherwise the angle becomes atan2(dx, dy) and ω becomes 0 |
| FreefallDemo.FreefallPendulum.Move | GPTFreefall.py:80-82 | while dragging the bob becomes the mouse; otherwise nothing changes |
| FreefallDemo.FreefallPendulum.Tick | GPTFreefall.py:84-106 | held: nothing changes; falling: FallStep, leaving free fall at atan2(dx, dy) with ω = 0 once dist ≤ LENGTH; swinging: `rk4_update`, with the bob placed on the string (LENGTH from the pivot) |
| DragDetectionDemo.DraggablePendulum.constructor | GPTDragDetection.py:19-22 | starts at π/4, at rest, not held |
| DragDetectionDemo.DraggablePendulum.BobOnString | GPTDragDetection.py:83-85 | given sin² + cos² = 1, the bob is always LENGTH from the pivot |
| DragDetectionDemo.DraggablePendulum.Press | GPTDragDetection.py:56-61 | grabs the bob exactly when the mouse is within BOB_RADIUS (≤) of the bob computed from the angle; nothing else changes |
| DragDetectionDemo.DraggablePendulum.Release | GPTDragDetection.py:62-70 | a held bob is released at atan2 of the mouse offset with ω = 0; otherwise nothing changes |
| DragDetectionDemo.DraggablePendulum.Move | GPTDragDetection.py:72-77 | while held, the angle becomes atan2 of the mouse offset and ω becomes 0 |
| DragDetectionDemo.DraggablePendulum.Tick | GPTDragDetection.py:79-81 | integrates with `rk4_update` only when not held; while held the angle and ω are unchanged |
| LooseStringDemo.TautTickIsSemiImplicit | GPTLooseString.py:33-37 | the taut tick updates ω first and then advances the angle with the new ω; it differs from `euler_update` by acceleration·dt² in the angle |
| LooseStringDemo.TautTickVelocityChangeBounded | GPTLooseString.py:34-36 | given −1 ≤ sin ≤ 1, a taut tick changes ω by at most TIME_STEP·g/L |
| LooseStringDemo.FastTautTickStaysTaut | GPTLooseString.py:34-41 | given −1 ≤ sin ≤ 1, a taut string with ω ≥ 0.01 + TIME_STEP·g/L does not go slack this tick, whatever the angle |
| LooseStringDemo.SlackTickDamps | GPTLooseString.py:42-45 | a slack tick keeps ω's sign, strictly shrinks \|ω\| when ω ≠ 0, and advances the angle by the damped ω alone |
| LooseStringDemo.PullsTautIff | GPTLooseString.py:47-49 | given sqrt a square root and −1 ≤ sin ≤ 1, the re-taut test holds exactly when sin(angle) ≤ 2/3 |
| LooseStringDemo.SlackTickTautensExactly | GPTLooseString.py:42-49 | a slack tick ends slack exactly when sin of the new angle is at most 2/3 |
| LooseStringDemo.LooseString.constructor | GPTLooseString.py:19-23 | starts at π/4, at rest, zero acceleration, taut |
| LooseStringDemo.LooseString.Tick | GPTLooseString.py:32-49 | the step-by-step updates leave exactly Frame(old state) |

## Left out

- pygame: window, event queue, mouse and keyboard polling, drawing, fonts, `flip` and
  `Clock.tick`. Pointer positions and key codes are method parameters. A `Tick` is the
  physics part of one frame.
- Floating point: every quantity is a real. Rounding, overflow and Python's int/float
  distinction are not modelled.
- Concrete values of `sin`, `cos`, `sqrt`, `atan2` and `pi` beyond the stated axioms.
  Nothing is claimed about where `atan2` puts a released bob. The ≈141 px starting
  separation of the collision demo is not derived.
- Numerical-accuracy claims: energy drift, period, Euler versus RK4 error and
  relaxation convergence.
- The `PendulumObject` getters (plain field reads) and the `mass` variable of
  RK4CollisionDetection.py, which nothing uses.
- The decorative `circle` dict of RK4CollisionDetection.py. Only its colour is kept, as
  the result of the collision test.
- PendulumClass.PendulumObject.EulerUpdate: requires length ≠ 0 where Python raises
  ZeroDivisionError. The same holds for `Rk4Update`, `IsSlack` and `ComputeAcceleration`.
- RopeDemo.RopePendulum.ConstrainNodes: when a pair raises ZeroDivisionError, the contract
  says only that `ok` is false. It does not describe the part-way state the nodes are
  left in.
- RopeDemo.RopePendulum.Tick: `ok == false` stands for the exception, which would end the
  script. The contract does not describe the state after it.
- FreefallDemo.FreefallPendulum.Tick: while dragging, the script's `continue` also skips
  drawing and `clock.tick`. Frame timing is not modelled.

## Findings

| source | as written | input that shows it | evidently intended | confidence | as-written member | corrected member |
|---|---|---|---|---|---|---|
| PendulumClass.py:12 | `super().__init__(mass_input)()` calls the None that `Object.__init__` returns | any arguments, e.g. `PendulumObject(1.0, 300.0, 15.0)`: TypeError after `Object.__init__` has stored `mass_kg`, before any `PendulumObject` field is set | `super().__init__(mass_input)`: store the mass, then set the remaining fields | high; not executed | PendulumClass.ConstructionAsWrittenRaises | PendulumClass.PendulumObject.constructor |
| PendulumClass.py:94-101 | stages 2–4 store the angle θ + ½·dt·k_θ as their ω slope, and k4 steps by ½·dt | g 9.8, L 300, θ 0, ω 10, dt 0.05: ω changes by 0.05/6·1.25015625 ≈ 0.0104, above dt·g/L ≈ 0.00163 | classical RK4, as in `rk4_update` (GPTEulerRK4.py:35-51) | medium; not executed | PendulumClass.Rk4AsWrittenExceedsVelocityBound | Integrators.Rk4VelocityChangeBounded |
