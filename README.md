# Zivu Creative particle field: a Dafny model

This project models the particle simulation behind the Zivu Creative landing
page, together with its small companion state machines, and proves properties
of that model. The page shows image-filled shapes that drift from left to
right. The simulation consists of:

- **Particles** (`js/particle.js`). Each shape is a three-state machine:
  SLEEPING → LIVE → POOFING → destroyed.
  - A sleeping particle counts down a random delay, then eases in.
  - A live particle travels at its natural velocity. It is pushed by the
    pointer and by neighbours, and its excess velocity decays each frame. It
    grows with x, fades in and out, and is destroyed past x = 1.18.
  - A poofing particle bursts outward, shrinks cubically, and is destroyed.
  - Every visible change is copied into three meshes: stencil, solid colour
    and image.
- **The pool** (`js/system.js`). A system state DORMANT/RUNNING/POOFING, a
  z-counter, and the per-frame `update`:
  1. the pointer impulse;
  2. an O(n²) wake-propagation pass between neighbours;
  3. a reverse step-and-cull loop with `splice`;
  4. a rate-limited spawn capped at PEAK_COUNT.
- **Texture bookkeeping** (`js/assets.js`). The round-robin `next`, the
  Fisher–Yates `_shuffle`, the `coverFit` crop, the media-item dispatch, the
  Vimeo-ID digit extraction, and the filter-and-shuffle step that ends `load`.
- **The text fade** (`js/text.js`). A clamped step of one opacity toward a
  target, which `show` and `hide` set.
- **The pointer** (`js/input.js`). The position plus an exponentially
  smoothed velocity.

## How the model is built

Numbers are Dafny `real`s. The simulation is parameterised by three kinds of
outside input:

- **Random draws.** Each `Math.random()` draw is a parameter in [0, 1). See
  `Numeric.Unit`, `ParticleSpec.Draws` and `ParticleSpec.PoofDraws`.
- **Transcendental functions.** `Math.sqrt`, the non-integer `Math.pow`,
  `Math.cos` and `Math.sin` are fields of an `Ops` record. Only the range
  facts in `Numeric.Lawful` are assumed about them: a square root is the
  non-negative root, a positive power of a number in [0, 1] stays in [0, 1],
  and cosine and sine lie in [-1, 1].
- **Frame time.** The frame driver clamps `dt` to at most 0.05 s
  (`js/scene.js:107`). Updates therefore require `Config.FrameDt(dt)`.

Each stateful part is a class whose methods update fields in place. Each
method is specified by a pure function of the state before the call, and the
lemmas prove properties about those functions.

| source | state (class) | specification (functions) |
|---|---|---|
| `Particle` | `Particles.Particle` (`particle.dfy`) | `ParticleSpec` (`particle_spec.dfy`), on the record `Body` that `Snapshot()` returns |
| `ParticleSystem` | `Pool.ParticleSystem` (`system.dfy`) | `SystemSpec` (`system_spec.dfy`), on sequences of `Body` and the record `Sys` that `Record()` returns |
| Assets | `Assets.TextureSet` | functions in the same file (`assets.dfy`) |
| Text fade | `TextOverlay.TextFade` | functions in the same file (`text.dfy`) |
| Input | `Input.Pointer` | functions in the same file (`input.dfy`) |

The three particle scenes are modelled as sets of z-orders (`Scene.Layers`)
held by the class `Scene.Scenes`. The pool invariant `Pool.PoolValid` holds
after every pool method. It requires:

- z-orders strictly increase along the pool and stay below the z-counter;
- the scenes hold exactly the meshes of the pooled particles;
- every pooled particle is alive and satisfies the particle invariant
  `ParticleSpec.Valid`.

Where the code does something other than its comments or the natural reading
suggest, the model follows the code:

- `poof()` also starts a SLEEPING particle poofing. Only POOFING and
  destroyed particles are skipped (`js/particle.js:148`).
- The sleep countdown runs from construction. `wake()` only resets it to 0.
  The `p.wake()` in `_spawnLiveAt` therefore changes nothing, because the
  timer of a new particle is already 0.
- In the propagation pass, a source's excess is read when the outer loop
  reaches that source. Earlier sources in the same pass may already have
  pushed into it.
- `init` and `_spawnLiveAt` assign `p.x` after construction. The meshes keep
  the constructor's position until the next transform.
- `load` does not reset the cursor. It shuffles the new textures together
  with those already in the list.
- `a.aspect || 1` in the propagation pass is modelled, but the `|| 1` branch
  is never taken: a particle's aspect is always positive.

## Model

| member | source | states |
|---|---|---|
| Config.PeakCount | js/config.js:10 | PEAK_COUNT is 20 exactly when the viewport is at most 600 px wide, otherwise 18 |
| Config.SizeScale | js/config.js:20 | the size scale is positive and at most 0.8 |
| Easing.EaseOutCubic | js/particle.js:335 | on [0,1] the ease-out lies in [0,1] and never below its argument; it maps 0 to 0 and 1 to 1 |
| Easing.EaseInCubic | js/particle.js:336 | on [0,1] the ease-in lies between 0 and its argument; it maps 0 to 0 and 1 to 1 |
| Easing.EasingMonotone | js/particle.js:335-336 | both easings are non-decreasing on [0,1] |
| Easing.Rand | js/particle.js:339-341 | a draw lies in [min, max], strictly below max when min < max, and equals min when the range is empty |
| Easing.RandInt | js/particle.js:339-342 | the rounded integer draw stays within [min, max] |
| Geometry.BuildFan | js/particle.js:29-47 | the fan has segments + 2 vertices: the centre, then rim vertices at turn k/segments for k = 0..segments, closing at a full turn. It has 3·segments indices forming the triangles (0, t+1, t+2), and every index is below the vertex count |
| Scene.Layers.With | js/particle.js:89-91 | a particle's id is added to all three scenes, and membership of every other id is unchanged |
| Scene.Layers.Without | js/particle.js:322-324 | a particle's id is removed from all three scenes, and membership of every other id is unchanged |
| Scene.Scenes.AddMeshes | js/particle.js:89-91 | the scenes' contents become the old contents with the id added |
| Scene.Scenes.RemoveMeshes | js/particle.js:322-324 | the scenes' contents become the old contents with the id removed |
| ParticleSpec.Depth | js/particle.js:308 | the mesh depth (zOrder mod 100)·0.08 − 4 lies in [−4, 3.92] |
| ParticleSpec.ApplyTransform | js/particle.js:305-317 | all three meshes receive the same transform, and no other field changes |
| ParticleSpec.TransformCouplesMeshes | js/particle.js:305-316 | the three meshes are identical; each sits at (x, y) with scale (size/aspect, size) and the particle's opacity, and is visible exactly when the opacity is positive |
| ParticleSpec.InitialStartSize | js/particle.js:103-104 | the start size lies in START_SIZE scaled by SIZE_SCALE |
| ParticleSpec.InitialMaxSize | js/particle.js:106-109 | the small tier (drawn below SMALL_PROBABILITY) grows to at most SMALL_MAX_SIZE, the other tier to at least MAX_SIZE.min; both tiers stay within [SMALL_MAX_SIZE.min, MAX_SIZE.max] scaled |
| ParticleSpec.TierOrder | js/config.js:21-31 | the size ranges are ordered: START_SIZE.max ≤ SMALL_MAX_SIZE.min ≤ MAX_SIZE.min and SMALL_MAX_SIZE.max ≤ MAX_SIZE.max, under any positive scale |
| ParticleSpec.Around | js/particle.js:99-101 | center + (r − 0.5)·2·spread lies within spread of the center |
| ParticleSpec.Initial | js/particle.js:95-138 | a new particle is valid, SLEEPING and alive, with size, opacity, fade age and wake timer 0, vx equal to its natural velocity and vy = 0; every drawn parameter lies in its configured range, and its meshes are invisible |
| ParticleSpec.Wake | js/particle.js:141-144 | definition of wake() on a record; see WakeOnlyRestartsCountdown |
| ParticleSpec.Poof | js/particle.js:147-159 | definition of poof() on a record; see PoofStarts and PoofingIsTerminal |
| ParticleSpec.WakeOnlyRestartsCountdown | js/particle.js:141-144 | wake() changes at most the wake timer, and only for a SLEEPING particle, for which it resets the timer to 0 |
| ParticleSpec.PoofStarts | js/particle.js:147-159 | poof() leaves a POOFING or destroyed particle unchanged. Any other particle, SLEEPING included, becomes POOFING with sizeAtPoof = size, poofTimer = 0, a duration in POOF_DURATION and burst components within ±POOF_SPEED.max. Nothing else changes, and the result is valid |
| ParticleSpec.Falloff | js/particle.js:173-174 | the cubic proximity weight lies in [0,1] inside the radius, is below 1 away from the centre, and is positive short of the radius |
| ParticleSpec.FalloffDecreasing | js/particle.js:173-174 | the proximity weight strictly decreases with distance |
| ParticleSpec.Hypot | js/particle.js:168 | definition of Math.sqrt(dx·dx + dy·dy); see HypotIsLength |
| ParticleSpec.ImpulseMagnitude | js/particle.js:176-178 | definition of the impulse magnitude; see MagnitudeNonNegative and FalloffDecreasing |
| ParticleSpec.Impulse | js/particle.js:162-186 | definition of applyImpulse on a record; see ImpulseDispatch and ImpulseAtEffect |
| ParticleSpec.ImpulseAt | js/particle.js:170-185 | definition of the impulse once the distance is known; see ImpulseAtEffect |
| ParticleSpec.PushAway | js/particle.js:181-185 | definition of the push added to vx and vy; see PushAwayEffect |
| ParticleSpec.HypotIsLength | js/particle.js:168 | the computed distance is non-negative and squares to dx² + dy² |
| ParticleSpec.ImpulseDispatch | js/particle.js:162-168 | applyImpulse leaves a particle that is not LIVE unchanged; for a LIVE particle it acts through the aspect-corrected distance to the cursor and the cursor speed |
| ParticleSpec.ImpulseAtEffect | js/particle.js:170-185 | outside [0.001, INTERACTION_RADIUS] the impulse changes nothing. Inside, the weight lies in [0,1), and only vx and vy change, by a push pointing away from the cursor whose length is the magnitude weight·IMPULSE_STRENGTH·(1 + speed·VELOCITY_SCALE) |
| ParticleSpec.PushAwayEffect | js/particle.js:181-185 | the push is along (dx, dy)/dist, has length exactly the magnitude, and changes only vx and vy |
| ParticleSpec.MagnitudeNonNegative | js/particle.js:176-178 | the impulse magnitude is non-negative inside the interaction radius |
| ParticleSpec.Excess | js/particle.js:289-296 | definition of getExcess(): (vx − velocity, vy − natural vy); see QuietSourceGivesNothing and RoundTarget |
| ParticleSpec.Receive | js/particle.js:300-304 | definition of receiveWake on a record; see ReceiveEffect |
| ParticleSpec.ReceiveEffect | js/particle.js:300-304 | receiveWake changes only vx and vy, adds (ex, ey) to the excess of a LIVE particle, leaves any other particle unchanged, and keeps the particle valid |
| ParticleSpec.Growth | js/particle.js:213-214 | definition of the growth curve; see GrowthRange |
| ParticleSpec.NaturalSize | js/particle.js:213-215 | definition of the natural size at x; see NaturalSizeInRange |
| ParticleSpec.GrowthRange | js/particle.js:213-214 | the growth curve pow(clamp(x,0,1), 1/GROWTH_EASE) lies in [0,1] |
| ParticleSpec.NaturalSizeInRange | js/particle.js:213-215 | the natural size lies between startSize and maxSize |
| ParticleSpec.SleepStep | js/particle.js:198-226 | definition of _updateSleeping on a record; see SleepStepWaiting, SleepStepRamp, SleepStepValid and SleeperWakesOnTime |
| ParticleSpec.LiveStep | js/particle.js:228-269 | definition of _updateLive on a record; see LiveStepEffect |
| ParticleSpec.Restored | js/particle.js:242-247 | definition of friction then flow restore on one excess component; see RestoredIsDecay |
| ParticleSpec.LiveOpacity | js/particle.js:259-264 | definition of the live opacity; see LiveOpacityRange |
| ParticleSpec.PoofStep | js/particle.js:271-285 | definition of _updatePoofing on a record; see PoofMoveEffect and PoofStepEffect |
| ParticleSpec.Step | js/particle.js:189-196 | definition of update(dt) on a record, dispatching on the state; see StepPreservesValid and PoofingIsTerminal |
| ParticleSpec.SleepStepWaiting | js/particle.js:199-200 | while the wake delay has not run out, a sleeping step only advances the wake timer |
| ParticleSpec.SleepStepRamp | js/particle.js:198-226 | after the delay, progress lies in [0,1], opacity is easeOutCubic(progress), and size is that fraction of the natural size (itself within [startSize, maxSize]). The meshes show the new state. At progress 1 the particle is LIVE with fadeAge = FADE_IN_DURATION, full opacity and natural size; before that it is still SLEEPING |
| ParticleSpec.SleepStepValid | js/particle.js:198-226 | a sleeping step keeps the particle valid and alive |
| ParticleSpec.SleeperWakesOnTime | js/particle.js:202-223 | once the timer passes wakeDelay + wakeDuration, the step makes the particle LIVE |
| ParticleSpec.LiveStepEffect | js/particle.js:228-269 | a live step keeps the particle valid and LIVE. Both excess components are multiplied by FRICTION·(1 − FLOW_RESTORE·dt), a factor in (0,1). Size stays in [startSize, maxSize]. Opacity is min(fadeIn, max(0, fadeOut)) in [0,1] and is 0 from x = 1.18 on. The particle survives exactly when x ≤ 1.18, and a survivor's meshes show the new state |
| ParticleSpec.RestoredIsDecay | js/particle.js:242-247 | friction followed by the flow restore scales an excess by FRICTION·(1 − FLOW_RESTORE·dt), which lies in (0,1) |
| ParticleSpec.LiveOpacityRange | js/particle.js:259-264 | live opacity lies in [0,1]; it is 0 past the exit, and 1 once faded in and left of FADE_OUT_START |
| ParticleSpec.PoofFade | js/particle.js:279-280 | 1 − easeIn(t) lies in [0,1] for t in [0,1], so the shrunk size lies in [0, sizeAtPoof] |
| ParticleSpec.PoofMoveEffect | js/particle.js:271-280 | the poof timer advances by dt; with t = min(1, timer/duration), size = sizeAtPoof·(1 − t³) and opacity = 1 − t³; the particle stays valid and POOFING |
| ParticleSpec.PoofStepEffect | js/particle.js:271-285 | a poofing step gives size = sizeAtPoof·(1 − t³) and opacity = 1 − t³, keeps the particle valid and POOFING, and the particle survives exactly when t < 1 |
| ParticleSpec.PoofScenario | js/particle.js:271-285 | a worked example: a particle of poof size 0.3 and duration 0.5 at timer 0.2 shrinks to 0.2625 in a 50 ms frame and survives; at timer 0.45 the frame ends it at size 0 |
| ParticleSpec.StepPreservesValid | js/particle.js:189-196 | every step keeps the particle invariant |
| ParticleSpec.PoofingIsTerminal | js/particle.js:141-196 | a destroyed particle is left unchanged by update, poof and wake. A POOFING particle ignores wake, poof, impulses and received wake, and its step keeps it POOFING: POOFING is left only by destruction |
| Particles.Particle.constructor | js/particle.js:14-21 | the new particle's fields are the initial state of its draws. Its fan has 80..120 segments with in-range indices. Its exponent and stretch lie in their ranges, it is white exactly when its colour draw is below WHITE_PROBABILITY, its texture crop is coverFit(texture, 1), and its image render order is IMAGE_REVEAL + zOrder·0.001. Its meshes are added to the scenes |
| Particles.Particle.Wake | js/particle.js:141-144 | the fields become those wake() gives (see WakeOnlyRestartsCountdown) |
| Particles.Particle.Poof | js/particle.js:147-159 | the fields become those poof() gives (see PoofStarts) |
| Particles.Particle.ApplyImpulse | js/particle.js:162-186 | the fields become those the impulse gives (see ImpulseAtEffect) |
| Particles.Particle.GetExcess | js/particle.js:289-296 | returns the excess velocity (vx − velocity, vy − natural vy) and changes nothing |
| Particles.Particle.ReceiveWake | js/particle.js:300-304 | the fields become those receiveWake gives (see ReceiveEffect) |
| Particles.Particle.IsAlive | js/particle.js:331 | returns the alive flag |
| Particles.Particle.Update | js/particle.js:189-196 | the fields become the step of the old state. The particle stays valid, and its meshes leave the scenes exactly when this step destroyed it |
| Particles.Particle.UpdateSleeping | js/particle.js:198-226 | the fields become the sleeping step of the old state |
| Particles.Particle.UpdateLive | js/particle.js:228-269 | the fields become the live step of the old state; the meshes leave the scenes exactly when the particle dies |
| Particles.Particle.UpdatePoofing | js/particle.js:271-285 | the fields become the poofing step of the old state; the meshes leave the scenes exactly when the particle dies |
| Particles.Particle.ApplyTransform | js/particle.js:305-317 | the three meshes take the transform of the current state |
| Particles.Particle.Destroy | js/particle.js:320-329 | only `alive` changes, to false, and the particle's meshes leave all three scenes |
| SystemSpec.SeedX | js/system.js:32-33 | definition of the x of seed i; see SeedsSpread |
| SystemSpec.Seeds | js/system.js:30-37 | definition of init's three seeds as records; see SeedsSpread |
| SystemSpec.SpawnInterval | js/system.js:144-148 | definition of the spawn interval; see SpawnIntervalRange |
| SystemSpec.Wakes | js/system.js:56 | definition of wake() forwarded to every particle; see WakesKeepHealthy |
| SystemSpec.Poofs | js/system.js:64 | definition of poof() forwarded to every particle; see PoofsBurstAll |
| SystemSpec.Impulses | js/system.js:75-79 | definition of step 1, the pointer impulse on every particle; see ImpulsesOnlyPush |
| SystemSpec.SeedsSpread | js/system.js:30-37 | init's three seeds sit at x = 0.33, 0.575 and 0.82. They have consecutive z-orders and are valid, alive and SLEEPING, with size and opacity 0 |
| SystemSpec.SpawnIntervalRange | js/system.js:144-148 | the spawn interval lies in [0.7, 1.4) × (1.15 / average velocity) / PEAK_COUNT and is positive |
| SystemSpec.WakesKeepHealthy | js/system.js:56 | forwarding wake() to every particle keeps the pool healthy and its size, and changes at most each wake timer |
| SystemSpec.PoofsBurstAll | js/system.js:62-65 | after poof() every pooled particle is POOFING, and the pool stays healthy with the same size |
| SystemSpec.ImpulsesOnlyPush | js/system.js:75-79 | the impulse phase changes only velocities and never the pool's length |
| SystemSpec.Transfer | js/system.js:97-114 | definition of one source-to-target transfer; see TransferOnlyTarget and TransferIs |
| SystemSpec.Transfers | js/system.js:96-115 | definition of one source's inner loop over all targets; see TransfersOnlyVelocities, TransfersPrefix and RoundTarget |
| SystemSpec.SourceRound | js/system.js:89-115 | definition of one outer iteration, reading the source's current excess; see SourceRoundOnlyVelocities and QuietSourceGivesNothing |
| SystemSpec.Rounds | js/system.js:88-116 | definition of the first n outer iterations; see RoundsOnlyVelocities |
| SystemSpec.Propagation | js/system.js:87-116 | definition of step 2, the whole propagation pass; see PropagationOnlyVelocities and TransfersSkipNotLive |
| SystemSpec.PropTransferRange | js/system.js:106-113 | inside [0.001, PROP_RADIUS) the share a neighbour takes lies strictly between 0 and PROP_STRENGTH·PROP_DECAY |
| SystemSpec.PropTransferCloser | js/system.js:108-113 | a closer neighbour takes a strictly larger share |
| SystemSpec.TransferOnlyTarget | js/system.js:97-114 | one transfer changes only the target's velocity, and the pool stays healthy |
| SystemSpec.TransfersOnlyVelocities | js/system.js:96-115 | one source's inner loop changes only velocities, leaves the source itself untouched, and keeps the pool healthy |
| SystemSpec.SourceRoundOnlyVelocities | js/system.js:88-115 | one outer iteration changes only velocities and keeps the pool healthy |
| SystemSpec.RoundsOnlyVelocities | js/system.js:88-116 | any prefix of the outer loop changes only velocities and keeps the pool healthy |
| SystemSpec.PropagationOnlyVelocities | js/system.js:87-116 | the whole propagation pass changes only velocities, never the array, and keeps the pool healthy |
| SystemSpec.TransfersSkipNotLive | js/system.js:96-115 | a particle that is not LIVE receives nothing from the pass |
| SystemSpec.TransferIs | js/system.js:97-114 | a transfer to another, alive neighbour at distance in [0.001, PROP_RADIUS) hands it the source's excess scaled by the proximity share |
| SystemSpec.RoundTarget | js/system.js:96-115 | after one source's inner loop, a target that takes (itself excluded, alive, LIVE, in range) has its velocity raised by exactly the source's excess times its share; any other target is unchanged |
| SystemSpec.TransfersPrefix | js/system.js:96-115 | after the first n targets, the source is unchanged, targets not yet reached are unchanged, and each reached target holds its own transfer |
| SystemSpec.QuietSourceGivesNothing | js/system.js:90-94 | a dead source, or one whose excess is shorter than 0.0005, hands nothing over |
| SystemSpec.Culled | js/system.js:119-122 | definition of step 3, every particle stepped and the dead ones dropped; see CulledHealthy, CulledAreSteps, CulledKeepsSurvivors and CulledKeepsOrder |
| SystemSpec.CulledHealthy | js/system.js:119-122 | after the step-and-cull loop every remaining particle is alive and valid, and the pool has not grown |
| SystemSpec.CulledAreSteps | js/system.js:119-122 | every survivor is the stepped state of a particle of the old pool |
| SystemSpec.CulledKeepsOrder | js/system.js:119-122 | survivors keep their relative order: increasing z-orders stay increasing |
| SystemSpec.CulledAlive | js/system.js:121 | every particle that comes through the cull is alive |
| SystemSpec.CulledKeepsSurvivors | js/system.js:119-122 | in a pool of any size, a particle's step is in the culled pool if and only if that step leaves it alive: the destroyed ones leave, every other one stays |
| SystemSpec.Spawned | js/system.js:137-142 | definition of the particle _spawnLiveAt creates; see SpawnedSleeps |
| SystemSpec.SpawnedSleeps | js/system.js:137-142 | a spawned particle is a fresh, valid, alive, SLEEPING particle at the given x with its wake timer at 0, so the wake() in _spawnLiveAt has no effect |
| SystemSpec.SpawnStep | js/system.js:125-132 | definition of step 4, the spawn phase; see SpawnStepEffect |
| SystemSpec.SpawnStepEffect | js/system.js:125-132 | the spawn phase adds exactly one particle when a spawn is due and none otherwise; that needs RUNNING, a population below the peak and an expired timer. The particle is appended, so the population never passes the peak. Nothing changes outside RUNNING. A spawn resets the timer to 0, advances the z-counter by one and draws a positive interval, and the pool stays healthy |
| SystemSpec.Tick | js/system.js:68-133 | definition of one whole update of the pool as a value; see TickBounded |
| SystemSpec.Settled | js/system.js:74-122 | steps 1–3 of update (impulse, propagation, step-and-cull) keep the pool healthy and never grow it |
| SystemSpec.TickBounded | js/system.js:68-133 | one update keeps the pool healthy, the system state and the first-wake flag. It never takes the population above the peak, or above its old size when that exceeded the peak |
| Pool.StepAtCull | js/system.js:119-122 | stepping particle i, and splicing it out if it died, extends the culled suffix of the pool by one position |
| Pool.ParticleSystem.constructor | js/system.js:15-21 | the pool starts empty and DORMANT with z-counter 0, timer and interval 0, and the first wake pending |
| Pool.ParticleSystem.Init | js/system.js:24-38 | the interval is drawn, the z-counter advances by 3, and exactly the three seeds are appended; the pool invariant holds. Seed k gets the texture of the k-th next() call from the old cursor, the cursor advances by 3 on a non-empty list, and the texture list is unchanged |
| Pool.ParticleSystem.SeedAt | js/system.js:32-36 | seed i is created with the next z-order and the next texture, moved to its x and appended; the cursor advances by one on a non-empty list and the texture list is unchanged |
| Pool.ParticleSystem.SpawnAt | js/system.js:34-36 | new Particle(Assets.next(), zCounter++) at x is appended: the z-counter advances by one, the old particles keep their places, the new record is the initial one at x, it holds the texture under the old cursor, and the cursor advances on a non-empty list |
| Pool.ParticleSystem.NewParticle | js/system.js:34 | the new particle has the current z-order and the texture under the cursor, its meshes join the scenes, the pooled particles are untouched, and the cursor advances by one on a non-empty list with the texture list unchanged |
| Pool.ParticleSystem.Append | js/system.js:34-36 | zCounter++ and particles.push(p): the pool is the old pool followed by p, and the pool invariant holds |
| Pool.ParticleSystem.Wake | js/system.js:41-57 | the state becomes RUNNING with timer 0 and the first wake consumed. The interval is scaled by 0.35 on the first wake and redrawn afterwards. Every particle receives wake(), and the pool invariant holds |
| Pool.ParticleSystem.StartRunning | js/system.js:42-53 | the system fields change as wake() sets them, and the particles are untouched |
| Pool.ParticleSystem.WakeAll | js/system.js:56 | every particle's state becomes its wake() result |
| Pool.ParticleSystem.Poof | js/system.js:62-65 | the state becomes POOFING and every particle receives poof(); the other fields are unchanged and the pool invariant holds |
| Pool.ParticleSystem.PoofAll | js/system.js:64 | every particle's state becomes its poof() result |
| Pool.ParticleSystem.Update | js/system.js:68-133 | the pointer is updated first. The whole system state then becomes one Tick of the old state under that pointer (see TickBounded), and the pool invariant holds. The texture list is unchanged; the z-counter and, on a non-empty list, the cursor advance by one exactly when a spawn is due after steps 1–3, and the spawned particle holds the texture under the old cursor |
| Pool.ParticleSystem.Advance | js/system.js:74-132 | steps 1–4 with the pointer already read: the system state becomes one Tick of the old state, the texture list is unchanged, and the z-counter and, on a non-empty list, the cursor advance by one exactly when a spawn is due after steps 1–3, with the spawned particle holding the texture under the old cursor |
| Pool.ParticleSystem.Settle | js/system.js:74-122 | the particles become the result of steps 1–3 applied to their old states; the system's own fields are unchanged |
| Pool.ParticleSystem.PushAll | js/system.js:75-79 | every particle receives the pointer impulse |
| Pool.ParticleSystem.Propagate | js/system.js:87-116 | the particles become one propagation pass over their old states, in which each source reads its current excess |
| Pool.ParticleSystem.SourceRoundAt | js/system.js:89-115 | one iteration of the outer loop |
| Pool.ParticleSystem.Spread | js/system.js:96-115 | one source's inner loop over all targets |
| Pool.ParticleSystem.TransferTo | js/system.js:97-114 | one source-to-target transfer |
| Pool.ParticleSystem.ReceiveAt | js/system.js:113 | particle j's record becomes Receive of its old record; nothing else changes |
| Pool.ParticleSystem.StepAll | js/system.js:119-122 | the pool becomes the culled step of its old states; no particle is added, the other fields are unchanged, and the pool invariant holds |
| Pool.ParticleSystem.StepOne | js/system.js:120-121 | one iteration of the reverse loop extends the stepped and culled suffix by one |
| Pool.ParticleSystem.StepParticle | js/system.js:120 | particle i's record becomes its step; the other particles are unchanged |
| Pool.ParticleSystem.Splice | js/system.js:121 | particles.splice(i, 1): the pool loses exactly position i |
| Pool.ParticleSystem.SpawnPhase | js/system.js:125-132 | the system state becomes the spawn step of the old state, existing particles keep their places, and the pool invariant holds. The pool grows by one, and on a non-empty list the cursor advances by one, exactly when a spawn is due; the spawned particle holds the texture under the old cursor, and the texture list is unchanged |
| Pool.ParticleSystem.SpawnNow | js/system.js:128-130 | the timer restarts at 0, one spawned particle is appended with the next z-order, a new interval is drawn, and the spawned particle holds the texture under the old cursor, which advances by one on a non-empty list; the texture list is unchanged |
| Pool.ParticleSystem.SpawnLiveAt | js/system.js:137-142 | exactly one spawned particle with the next z-order is appended, and the z-counter advances by one. It holds the texture under the old cursor, the cursor advances by one on a non-empty list, and the texture list is unchanged |
| Pool.ParticleSystem.UpdateSpawnInterval | js/system.js:144-148 | the interval becomes a fresh draw (see SpawnIntervalRange); nothing else changes |
| Assets.CoverFit | js/assets.js:167-184 | coverFit does nothing exactly when the texture is missing or its image aspect is missing or 0 |
| Assets.CoverFitIsCentredCover | js/assets.js:170-182 | for a positive image aspect both repeats lie in (0,1] and one of them is 1. The visible window has the shape's aspect, so nothing is stretched, and offset = (1 − repeat)/2 centres the crop. A wider image is cropped horizontally, any other image vertically |
| Assets.Dispatch | js/assets.js:42-54 | an image load comes only from a string, a video load only from a 'video' item, and a Vimeo fetch only from a 'vimeo' item |
| Assets.DispatchRoutes | js/assets.js:42-54 | strings go to the image loader and 'video' items to the video loader. 'vimeo' items go to the thumbnail fetch with the extracted ID, or resolve to null without a fetch when the ID has no digit. Every other item resolves to null |
| Assets.VimeoId | js/assets.js:125-129 | there is no ID exactly when the string has no digit; otherwise the ID is a non-empty run of digits |
| Assets.VimeoIdIsFirstMaximalRun | js/assets.js:125 | the ID is the first maximal run of digits |
| Assets.VimeoIdOfUrl | js/assets.js:124-125 | the full URL https://vimeo.com/351686539 yields the ID 351686539 |
| Assets.Swap | js/assets.js:158 | definition of the swap of positions i and j; see SwapKeepsMultiset |
| Assets.ShuffleDown | js/assets.js:155-160 | definition of the shuffle's loop from position i down; see ShuffleDownKeepsMultiset |
| Assets.Shuffled | js/assets.js:155-160 | definition of _shuffle on a sequence; see ShuffledIsPermutation |
| Assets.SwapIndex | js/assets.js:157 | the partner index floor(r·(i+1)) never exceeds i |
| Assets.SwapKeepsMultiset | js/assets.js:158 | a swap keeps the multiset of elements |
| Assets.ShuffleDownKeepsMultiset | js/assets.js:155-160 | the shuffle's loop keeps the multiset of elements |
| Assets.ShuffledIsPermutation | js/assets.js:155-160 | the shuffle's result is a permutation of its input: same length and same multiset |
| Assets.Shuffle | js/assets.js:155-160 | the in-place Fisher–Yates loop leaves the array holding the shuffle of its old contents |
| Assets.Successes | js/assets.js:33 | filter(Boolean) keeps at most as many entries as it was given |
| Assets.SuccessesAreTheLoaded | js/assets.js:33 | the filter keeps exactly the non-null results, each as often as it occurs |
| Assets.Slot | js/assets.js:149 | the slot the k-th next() call reads lies below n; see SlotOf and RoundRobinVisitsAll |
| Assets.Dealt | js/assets.js:147-152 | the k-th next() call from cursor c yields null exactly on an empty list, and otherwise a texture of the list |
| Assets.CursorAfter | js/assets.js:147-152 | definition of the cursor after k next() calls; see DealtInTurn |
| Assets.DealtInTurn | js/assets.js:147-152 | next() calls compose: the j-th call after k calls is the (k + j)-th call, and the cursor moves as for k + j calls |
| Assets.TurnOf | js/assets.js:147-152 | among n consecutive next() calls from cursor c, call TurnOf(c, n, t) is below n and reads slot t |
| Assets.DealsEveryTexture | js/assets.js:147-152 | whatever the cursor, list-length consecutive next() calls hand out every texture of the list: position i is handed out by call TurnOf(c, n, i) |
| Assets.RoundRobinVisitsAll | js/assets.js:147-152 | n consecutive next() calls over n textures read n distinct slots, which cover every slot |
| Assets.SlotOf | js/assets.js:149 | the slot read is the position of the cursor modulo n |
| Assets.TextureSet.constructor | js/assets.js:25-26 | the list starts empty with the cursor at 0 |
| Assets.TextureSet.Next | js/assets.js:147-152 | on an empty list next() returns null and leaves the cursor. Otherwise it returns textures[cursor mod n] and advances the cursor by one. The list is never changed |
| Assets.TextureSet.Count | js/assets.js:186 | returns the number of textures |
| Assets.TextureSet.Load | js/assets.js:29-40 | the list becomes a shuffle of the old list followed by the non-null loaded textures: as a multiset, exactly the old textures plus the loaded ones. The cursor is kept |
| Input.Moved | js/input.js:27-31 | definition of _onMove on the state; see MovedInView |
| Input.Left | js/input.js:33-37 | definition of _onLeave on the state; see Input.Pointer.OnLeave |
| Input.Tracked | js/input.js:39-53 | definition of update(dt) on the state; see TrackedEffect, FirstMoveIsQuiet and RestingPointerSlows |
| Input.SmoothTowards | js/input.js:48-49 | the filter keeps three quarters of the distance to the raw sample and so lands between the old velocity and the sample |
| Input.MovedInView | js/input.js:27-31 | a move inside the viewport makes the pointer active at a position in the unit square; nothing else changes |
| Input.TrackedEffect | js/input.js:39-53 | update always records the position as the previous one and never moves the pointer or changes `active`. The velocity is kept for an inactive pointer, for dt ≤ 0 and before a previous position exists; otherwise it moves a quarter of the way toward (x − px)/dt |
| Input.FirstMoveIsQuiet | js/input.js:39-43 | the first update after start-up only records the position, so the first move causes no velocity spike |
| Input.RestingPointerSlows | js/input.js:45-49 | a pointer resting in place loses a quarter of its velocity each frame |
| Input.Pointer.constructor | js/input.js:15-18 | the pointer starts off screen at (−1, −1), at rest and inactive |
| Input.Pointer.OnMove | js/input.js:27-31 | the pointer becomes active at (clientX/innerWidth, 1 − clientY/innerHeight) |
| Input.Pointer.OnLeave | js/input.js:33-37 | the pointer becomes inactive with zero velocity |
| Input.Pointer.Update | js/input.js:39-53 | the state becomes the tracked state (see TrackedEffect) |
| Input.Pointer.GetPosition | js/input.js:55 | returns the current position |
| Input.Pointer.GetVelocity | js/input.js:56 | returns the current velocity |
| Input.Pointer.IsActive | js/input.js:57 | returns the on-screen flag |
| TextOverlay.FadeStep | js/text.js:52-59 | definition of update(dt) on the fade state; see FadeStepEffect and FadeCompletes |
| TextOverlay.FadeStepEffect | js/text.js:52-59 | a settled fade is left alone. Otherwise the opacity moves toward the target without overshooting and stays in [0,1], and both materials show it. The opacity either reaches the target, or moves by exactly FADE_SPEED·dt and stays at least 0.005 away |
| TextOverlay.FadeCompletes | js/text.js:52-59 | once n frames cover the distance to the target, the opacity has reached it |
| TextOverlay.FadeStayed | js/text.js:53 | a fade at its target stays there for any number of frames |
| TextOverlay.ShowTakesSixFrames | js/text.js:14 | at the longest 50 ms frame, a full fade from hidden to shown takes exactly six frames |
| TextOverlay.TextFade.constructor | js/text.js:12-13 | the overlay starts shown, with opacity and target 1 |
| TextOverlay.TextFade.Update | js/text.js:52-59 | the fields become one fade step of the old state (see FadeStepEffect) |
| TextOverlay.TextFade.Show | js/text.js:61 | only the target changes, to 1, and the fade invariant is kept |
| TextOverlay.TextFade.Hide | js/text.js:62 | only the target changes, to 0, and the fade invariant is kept |

## Left out

- `js/scene.js` is not part of this model. It holds the renderer, the
  five-pass stencil pipeline and the animation loop. Two facts about it are
  used:
  - its dt clamp is the precondition `Config.FrameDt`;
  - its three particle scenes are modelled as sets of z-orders.
- `js/main.js` (the toggle and mail button) and `js/boot.js` (the startup
  sequence and media manifest) are not part of this model. They are UI and
  startup code.
- Loading media is not modelled: `_loadImage`, `_loadVideo`, and the oEmbed
  fetch in `_loadVimeoThumb` (network, promises, DOM video elements).
  `TextureSet.Load` starts from the loaders' results, in the order the loads
  finished, and models only the filter-and-shuffle step.
- The console messages in `load` and `_loadItem` are not modelled.
- Texture setup is not modelled: filters, wrapping, mipmaps. `coverFit`'s crop
  is recorded in the particle (`imageFit`) rather than written into a shared
  texture. The aliasing between particles that share one texture is therefore
  not captured.
- `Text.init`, `_redraw` and `Input.init` are not modelled: canvas drawing,
  DOM measurement, fonts and event-listener registration.
- The superellipse vertex coordinates and texture coordinates of
  `_buildGeometry` are not computed. Rim vertices are recorded by the
  fraction of a turn at which they sit.
- Mesh and material objects, their render orders beyond the image mesh's, and
  `dispose` are not modelled. Scene membership is a set of z-orders per scene.
- Geometry.BuildFan: builds the vertex list and the index list only. It has
  no coordinates and no `uvs` array.
- IEEE double arithmetic is not modelled; numbers are exact reals. The
  results of `Math.sqrt`, `Math.pow`, `Math.cos` and `Math.sin` are known
  only through `Numeric.Lawful`.
- Math.random is a parameter in [0, 1) for each draw.
- The viewport aspect `W / H` read from the scene is a positive parameter. A
  zero-height window is outside the model.
- PEAK_COUNT and SIZE_SCALE are read once, from `window.innerWidth` when the
  configuration loads. They are functions of a fixed `innerWidth`, and later
  resizes do not change them.
