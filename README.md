# Particle swarm optimisation, modelled in Dafny

This project models the core of a small particle swarm optimiser (PSO) and
proves properties of that model. The optimiser is a Python class `PSO`
driving a population of `Particle` objects. Four example objectives come
with it.

- `fitness.dfy`, module `Fitness`: the four example objectives, as pure
  functions of the first two components of a position. Himmelblau's,
  Booth's and Beale's functions are minimised; the fourth example is
  maximised.
- `pso.dfy`, module `Swarm`:
  - the clip rule `min(max(x, lo), hi)` and position clipping;
  - the velocity rule (inertia, cognitive pull, social pull, then the cap);
  - the strict selection rule `optimum`, shared by personal and global bests,
    with its tie-break;
  - the linear coefficient schedules;
  - the class `Particle`: construction, `clip_X`, `update_velocity`,
    `update_position`;
  - the class `Pso`: `initialize`, `update_coeff`, `move` and `execute`.

Both classes keep the source's mutable fields. Vectors are `seq<real>`
fields that the methods reassign. Some source statements update an array
in place (`V +=` at pso/pso.py:107-108, `X += V` at pso/pso.py:121), and
`optimum` returns `best` itself when it keeps it (pso/pso.py:232). But every
assignment of one field from another makes a copy (pso/pso.py:54, 74, 228,
231, 258), so no two fields share storage. A sequence value therefore
captures each field exactly.

The swarm invariant `Pso.Ready` holds after initialisation and through the
main loop. It says the swarm has P pairwise distinct, valid particles of the
optimiser's shape. It also says the global best lies in the box and is no
worse than every personal best.

The model turns the following into explicit parameters:

- Random draws: the uniform generator's values are parameters in `[0, 1)`.
  - `SpawnDraws` holds the per-dimension draws of one particle's
    construction.
  - `Draws` holds the two scalar draws `r1` and `r2` of one velocity update.
    The same pair scales every dimension.
  - `Initialize` takes one `SpawnDraws` per particle. `Move` takes one row
    of `Draws` per iteration, with one entry per particle.
- The objective: an arbitrary total function `seq<real> -> real`. Each
  example in `Fitness` needs a position of at least two components.
- The velocity-cap schedule `1.5 * exp(1 - t/Tmax)`: a function parameter
  `vmaxCurve`, because Dafny's reals have no exponential.

Floating point numbers are exact reals. `t / Tmax` is true division.

The main results:

- Clipping puts every component into its interval, keeps components that
  are already inside, and does nothing without bounds.
- The new velocity is the clamped inertia + cognitive + social update, and
  it never exceeds the cap.
- The selection rule returns one of its two arguments. It replaces the best
  only on a strict improvement. The result is the better of the two.
- Initialisation builds exactly P particles. The global best is the first
  start position of best fitness, and no particle starts at a better one.
- The coefficient schedules have the endpoints of the source (0.9 to 0.4,
  3.5 to 0.5, 0.5 to 3.5). `c1 + c2 = 4`, and the schedules are monotone.
- Each pass of the main loop moves the particles in order. Particle i's
  new velocity uses the global best as particles 0 .. i-1 left it. Its
  position moves by that velocity and is clipped, and both bests then see
  the new position through the selection rule.
- The main loop runs exactly `Tmax + 1` iterations, with `time == [0, ..., Tmax]`
  (none when `Tmax < 0`).
  - The fitness history improves from entry to entry, so it is monotone,
    and it ends with the final global best's fitness.
  - Neither the global best nor any personal best ever gets worse.
  - After every particle step, the global best is no worse than every
    personal best.

## Model

| member | source | states |
|---|---|---|
| Fitness.HimmelblauAt | pso/fitness.py:22-35 | Himmelblau's formula is never negative and is zero at the documented optimum (3, 2) |
| Fitness.Himmelblau | pso/fitness.py:34-36 | on a position of at least two components, the fitness is never negative and is zero when x = 3, y = 2 |
| Fitness.BoothAt | pso/fitness.py:50-63 | Booth's formula is never negative and is zero at the documented optimum (1, 3) |
| Fitness.Booth | pso/fitness.py:62-64 | on a position of at least two components, the fitness is never negative and is zero when x = 1, y = 3 |
| Fitness.BealeAt | pso/fitness.py:82-93 | Beale's formula as coded (`1.5 - x + x*y`) is never negative and is zero at the documented optimum (3, 0.5) |
| Fitness.Beale | pso/fitness.py:92-94 | on a position of at least two components, the fitness is never negative and is zero when x = 3, y = 0.5 |
| Fitness.ConcaveQuadraticAt | pso/fitness.py:106-118 | 2xy + 2x - x^2 - 2y^2 equals 2 - (x - y - 1)^2 - (y - 1)^2, so it is at most 2, with 2 at the documented maximiser (2, 1) |
| Fitness.ConcaveQuadratic | pso/fitness.py:117-119 | on a position of at least two components, the fitness is at most 2, and equals 2 when x = 2, y = 1 |
| Fitness.OnlyFirstTwoComponentsMatter | pso/fitness.py:34 | positions agreeing in their first two components have equal fitness under every example, whatever follows |
| Fitness.DocumentedOptimaAreGlobal | pso/fitness.py:24-26 | the documented optima of all four examples are global: no position is better |
| Swarm.Clamp | pso/pso.py:83 | `np.clip` of one value: in [lo, hi] when lo <= hi; a value inside is kept; below gives lo, above gives hi; with lo > hi the result is hi |
| Swarm.Clipped | pso/pso.py:76-83 | each component is clamped into its own interval; without bounds, or for a position already in the box, the position is unchanged; with well-formed bounds the result is in the box |
| Swarm.ClippedIdempotent | pso/pso.py:76-83 | clipping an already clipped position changes nothing |
| Swarm.ClampAll | pso/pso.py:109 | component-wise clip into [-vmax, vmax]; a velocity already within the cap is unchanged, and a non-negative cap bounds the result |
| Swarm.NewVelocity | pso/pso.py:105-109 | the updated velocity has n components, never exceeds a non-negative cap, and each component is the uncapped inertia + cognitive + social value when that lies within the cap, else the nearer end of the cap |
| Swarm.RawVelocityAt | pso/pso.py:106-108 | one component of the three vector statements is w v + c1 r1 (p - x) + c2 r2 (g - x) |
| Swarm.VelocityStepsCompose | pso/pso.py:106-109 | the vector statements followed by the clip compute exactly the velocity rule |
| Swarm.NewVelocityAtRest | pso/pso.py:106-109 | a particle sitting at both bests keeps only its capped inertia w V |
| Swarm.SpawnPosition | pso/pso.py:51-52 | a random start position has components 2r - 1 in [-1, 1) |
| Swarm.SpawnVelocity | pso/pso.py:59-69 | a random start velocity has components 2 vmax r - vmax in [-vmax, vmax), strictly below vmax when the cap is positive |
| Swarm.ScaleDraws | pso/pso.py:61-65 | a draw in [0, 1) scaled by a non-negative cap lies in [0, vmax], strictly below a positive cap |
| Swarm.Optimum | pso/pso.py:226-232 | the result is `best` or `particle_x`; it differs from `best` only on a strict improvement, so ties keep `best`; its fitness is no worse than either argument's |
| Swarm.OptimumMirrored | pso/pso.py:226-232 | maximising is the minimising rule applied to the negated objective |
| Swarm.FoldBestIsFirstBest | pso/pso.py:254-260 | the fold over the first m start positions returns the first position of best fitness: every earlier one is strictly worse, and none is better |
| Swarm.FoldBestNext | pso/pso.py:257-260 | one more particle applies the selection rule once more to the best so far |
| Swarm.FoldBestIsBest | pso/pso.py:254-260 | the folded best is one of the first m positions and no worse than any of them |
| Swarm.KeptFirstBest | pso/pso.py:260 | a new position that is not strictly better leaves the first best in place |
| Swarm.NewFirstBest | pso/pso.py:260 | a strictly better new position becomes the first best |
| Swarm.HistoryMonotone | pso/pso.py:336-338 | a history improving from entry to entry is monotone: each entry is no worse than every earlier one |
| Swarm.Progress | pso/pso.py:290 | t / Tmax is 0 at t = 0, 1 at t = Tmax, and within [0, 1] in between |
| Swarm.InertiaSchedule | pso/pso.py:289-290 | w is 0.9 at t = 0 and 0.4 at t = Tmax, and stays within [0.4, 0.9] |
| Swarm.CognitiveSchedule | pso/pso.py:291-292 | c1 is 3.5 at t = 0 and 0.5 at t = Tmax, and stays within [0.5, 3.5] |
| Swarm.SocialSchedule | pso/pso.py:293-294 | c2 is 0.5 at t = 0 and 3.5 at t = Tmax, and c1 + c2 = 4 at every t |
| Swarm.SchedulesMonotone | pso/pso.py:289-294 | later iterations have no more inertia, no more cognitive weight and no less social weight |
| Swarm.ProgressMonotone | pso/pso.py:290 | t / Tmax grows with t |
| Swarm.Range | pso/pso.py:339 | the time list of k iterations is [0, 1, ..., k - 1] |
| Swarm.Particle.constructor | pso/pso.py:19-74 | the particle is valid; X is the clipped X0 (X0 itself when already in the box), or without X0 the clipped random start 2r - 1; V is the scaled velocity draw; pbest is a copy of X |
| Swarm.Particle.ClipX | pso/pso.py:76-83 | the loop clamps each component of X into its interval in place, so X becomes Clipped(old X); V and pbest are untouched |
| Swarm.Particle.UpdateVelocity | pso/pso.py:85-109 | after the first clip (a no-op on a valid particle), V becomes the velocity rule applied to the old state; X and pbest are unchanged and the particle stays valid |
| Swarm.Particle.UpdatePosition | pso/pso.py:111-122 | X becomes Clipped(X + V), so it stays in the box; V and pbest are unchanged |
| Swarm.Pso.constructor | pso/pso.py:128-196 | every configuration field holds its argument |
| Swarm.HimmelblauObjective | pso/fitness.py:34-36 | Himmelblau's example as an objective on positions is never negative |
| Swarm.ConcaveObjective | pso/fitness.py:117-119 | the maximised example as an objective on positions is at most 2 |
| Swarm.HimmelblauBestReachesZero | pso/pso.py:254-260 | minimising Himmelblau's function, once a start position is the optimum (3, 2) the global best has fitness 0 |
| Swarm.ConcaveBestReachesTwo | pso/pso.py:254-260 | maximising the concave example, once a start position is the optimum (2, 1) the global best has fitness 2 |
| Swarm.Pso.StartPositions | pso/pso.py:254-256 | one clipped start position per spawned particle |
| Swarm.Pso.StartPositionAt | pso/pso.py:256 | the start position of particle i is the clipped start of its own draws |
| Swarm.Pso.ClippedStart | pso/pso.py:51-74 | a particle's clipped start position has n components and lies in the box |
| Swarm.Pso.StartedAt | pso/pso.py:255-256 | particle j of an initialised swarm is in the start state its own draws give |
| Swarm.Pso.Admit | pso/pso.py:255-260 | one step of the initialisation loop appends a freshly built particle and folds its position into the best so far |
| Swarm.Pso.Initialize | pso/pso.py:254-260 | exactly P fresh, pairwise distinct particles, particle i built from draws i with this optimiser's shape and cap; the global best is the fold of the selection rule over their start positions |
| Swarm.Pso.SpawnedSwarmIsReady | pso/pso.py:254-260 | after initialisation, the global best is the start position of the particle the fold picks, no particle starts at a better one, and the swarm invariant holds |
| Swarm.Pso.UpdateCoeff | pso/pso.py:289-296 | for 0 <= t <= Tmax, each flagged coefficient becomes its schedule at t, and each unflagged one is unchanged |
| Swarm.Pso.StepParticle | pso/pso.py:334-337 | particle k's new velocity is the velocity rule on its old velocity, position and personal best, the current global best and its draws; its position is the clipped sum of old position and new velocity; its personal best and then the global best take the new position through the selection rule; no other particle changes and the swarm invariant holds |
| Swarm.Pso.SteppedNoWorse | pso/pso.py:336-337 | a particle's turn leaves neither its personal best nor the global best worse |
| Swarm.Pso.Sweep | pso/pso.py:333-337 | the particles take their turns in order: there are global bests G[0] = old gbest, ..., G[P] = new gbest such that particle i steps with G[i] and turns G[i] into G[i + 1]; the swarm invariant holds and neither the global best nor any personal best is worse |
| Swarm.Pso.Record | pso/pso.py:338-342 | the history grows by the global best's fitness and the time list by t, and t advances by one |
| Swarm.Pso.Iterate | pso/pso.py:331-342 | one pass of the main loop: the coefficients follow the schedules at t, then every particle steps in order exactly as in Sweep with the new coefficients, the bests do not get worse, the history grows by the global best's fitness and the time list by t, and t advances by one |
| Swarm.Pso.Move | pso/pso.py:329-342 | with Tmax >= 0, t ends at Tmax + 1 and time is [0, ..., Tmax]; with Tmax < 0 both lists stay empty; the fitness history has Tmax + 1 entries, improves from entry to entry, starts no worse than the initial best and ends with the final best's fitness; no best gets worse; with a positive horizon the scheduled coefficients end at 0.4, 0.5, 3.5 and vmaxCurve(1), the others keep their values; with Tmax <= 0 no coefficient changes; with Tmax < 0 the global best and every particle's X, V and pbest are unchanged |
| Swarm.Pso.Execute | pso/pso.py:344-357 | initialise then move; the reported solution is the final global best, in the box, with a fitness no worse than any start position's; the fitness history has Tmax + 1 entries (none when Tmax < 0), is monotone and ends with the reported cost |

## Left out

- Printing and plotting: the per-iteration report, the final report with its
  7-decimal rounding, and `Fplot` are output only.
- Random number generation: draws are parameters in [0, 1). Seeding and
  determinism are not modelled.
- Floating point: reals are exact. Nothing is claimed about agreement with
  64-bit floats.
- The velocity-cap schedule: the exponential is the parameter `vmaxCurve`.
  As in the source, only the optimiser's `vmax` changes. Every particle keeps
  the cap it was built with, so the schedule never reaches the velocity clamp.
- Numpy's `(n, 1)` column shape is dropped: a position is a flat sequence.
- Convergence: reaching an optimum within a tolerance is empirical
  behaviour and is not stated.
- Configuration errors are preconditions rather than modelled exceptions:
  - P >= 1, without which `gbest` is never assigned;
  - the bound list has n entries and X0 has n components;
  - `Tmax != 0` when a schedule flag is set, because each pass divides by
    Tmax. A negative Tmax is accepted: the loop then never runs, so nothing
    divides.
  - `xmin <= xmax` for every interval (`BoundsOk`, part of `Configured`).
    The source never checks this and runs with an inverted interval.
    The members that exclude it:
    - `Particle`'s constructor, directly;
    - `Particle.UpdateVelocity` and `Particle.UpdatePosition`, through
      `Particle.Valid`;
    - `Initialize` and `Execute`, through `Configured`;
    - `StepParticle`, `Sweep`, `Iterate` and `Move`, through `Ready`.

    The members that model the library's clip for every pair, including
    `lo > hi`, are `Clamp`, `Clipped` and `Particle.ClipX`. They need only
    one interval per component.
- Default arguments: the constructor's defaults (P = 30, n = 2,
  w = 0.72984, c1 = 2.8, c2 = 2.05, Tmax = 300, vmax = 1, no X0, no bounds,
  all schedule flags off, minimising) are not modelled. Dafny's constructor
  takes every argument explicitly.
- The `plot` and `verbose` flags only switch output, so they are not fields
  of the model.
- The Beale formula in the documentation comment (`1.5 - x - xy`) differs
  from the coded one (`1.5 - x + x*y`). The model follows the code.
- The construction comment claims velocities in the open interval
  (-vmax, vmax). The generator yields [0, 1), so the model states [-vmax, vmax).
- Swarm.Pso.Move: states the run as a whole:
  - the iteration count and the time list;
  - the history;
  - the final coefficients, for every sign of Tmax;
  - that neither best ever gets worse;
  - with Tmax < 0, that the global best and every particle are unchanged.

  It does not restate the per-particle dynamics of each iteration. Those
  are stated once per pass by `Iterate` and `Sweep`, whose contracts the
  loop applies. The history is
  tied to the final global best through its last entry. Each earlier entry
  is tied to its own iteration's global best by `Iterate`'s contract only.
- Swarm.Pso.Execute: inherits `Move`'s contract, so it too states the
  per-iteration particle dynamics only through `Iterate` and `Sweep`.
- Swarm.HimmelblauObjective, Swarm.ConcaveObjective: these wrap the
  examples as total objectives. A position with fewer than two components
  scores 0, where the source's examples raise an index error
  (pso/fitness.py:34, 117). The lemmas about them need only the optimum
  position to have two components.
- Packaging metadata (`setup.py`) has no logic.
