# Dice physics core, modelled in Dafny

This project models the core of a browser dice roller. A physics worker owns
the rigid bodies of the scene, steps the simulation and watches for the die to
come to rest. A render-side proxy posts commands to the worker, buffers the
timestamped poses the worker sends back, notifies rest listeners and
interpolates each mesh between two buffered poses. The die registers itself
with the proxy, throws itself with random push and spin, and reads its result
from its orientation. The face textures put the pips for each number on a
square canvas.

Files:

- `wrappers.dfy`: `Option`.
- `vectors.dfy`: `Vec3`, `Quat`, the dot product, the quaternion product in
  three.js order, and three.js `applyQuaternion` (`v + 2w(u×v) + 2u×(u×v)`).
- `config.dfy`: the constants of `src/Config.ts` that the core uses.
- `physics_worker.dfy`: the worker (`src/worker/physics.worker.ts`).
  - Class `Worker` holds the module-level state: gravity, the body map with
    its insertion order, `isResting` and `restFrameCount`. Its methods perform
    the `onmessage` commands in place.
  - Each method is proved equal to a pure function on `WorldState`
    (`AfterInit`, `AfterAddBody`, `AfterStep`, `AfterImpulse`, `AfterTorque`,
    `AfterReset`, and `Apply` for the whole switch).
  - The rest-detector and command laws are lemmas about those functions.
- `physics_service.dfy`: the proxy (`src/services/PhysicsService.ts`).
  - Class `PhysicsService` holds the tracked bodies (mesh and snapshot
    buffer), the rest listeners and the `outbox` of commands posted to the
    worker.
  - Class `Mesh` is the visual object that `syncVisuals` moves in place.
  - The bracket search and interpolation are specified by the functions
    `Latest` and `Target`.
- `dice.dfy`: the die (`src/Dice.ts`): the face table, `getResult`, `roll` and
  the constructor's registration with the proxy.
- `texture_generator.dfy`: the pip centres that `createDiceTexture` draws for a
  face number (`src/TextureGenerator.ts`).

Numbers are reals, so floating-point rounding is not modelled. The physics
library's results are parameters, and so are the wall clock and
`Math.random()`:

- `Env.motions` is what `world.step` reports.
- `Env.kick` is the velocities `applyImpulse` leaves.
- `now` and `Env.now` stand for `performance.now()`.
- `Draws` holds the six random values a throw uses.
- The quaternion slerp is a function parameter.

## Model

| member | source | states |
|---|---|---|
| PhysicsWorker.Stepped | src/worker/physics.worker.ts:79-81 | A step keeps the set of registered ids and every body's mass. |
| PhysicsWorker.TotalSpeed | src/worker/physics.worker.ts:87-103 | The summed speed of the dynamic bodies is never negative. |
| PhysicsWorker.NewBody | src/worker/physics.worker.ts:50-73 | The body ADD_BODY builds: a box only for a box request with a size, otherwise a plane. It has the requested mass and position, zero velocities, is awake and has both sleep limits at 0.5. |
| PhysicsWorker.Register | src/worker/physics.worker.ts:76 | `bodies.set(id, b)`: the registry gains `id` bound to `b`. Other entries, gravity and rest state are unchanged, and the old insertion order stays a prefix of the new one. |
| PhysicsWorker.RestUpdate | src/worker/physics.worker.ts:105-118 | One step of the rest detector. It keeps `isResting ⇔ count > 30`, and posts REST_DETECTED only on the step that sets the flag. A step that is not still gives (false, 0) and UPDATE. |
| PhysicsWorker.Worker.constructor | src/worker/physics.worker.ts:24-39 | A fresh world has gravity (0, −9.82, 0), no bodies, is not resting and has a zero count. |
| PhysicsWorker.Worker.Init | src/worker/physics.worker.ts:45-47 | INIT sets the gravity and changes nothing else, keeping the invariant. |
| PhysicsWorker.Worker.AddBody | src/worker/physics.worker.ts:49-77 | ADD_BODY registers the body that `AfterAddBody` describes. A new id goes to the end of the insertion order; a known id keeps its place. |
| PhysicsWorker.Worker.Step | src/worker/physics.worker.ts:79-126 | STEP gives the new state and the posted message of `AfterStep`: stepped bodies, the still-frame count, the one-shot REST_DETECTED, the dynamic poses and the time. |
| PhysicsWorker.Worker.Scan | src/worker/physics.worker.ts:87-103 | The `forEach` pass returns the total speed and the moving count of the dynamic bodies, and their positions and quaternions, as the reference functions define them. |
| PhysicsWorker.Worker.ApplyImpulse | src/worker/physics.worker.ts:128-137 | A registered body is woken and takes the impulse's velocities, and rest tracking is re-armed. An unknown id changes nothing. |
| PhysicsWorker.Worker.ApplyTorque | src/worker/physics.worker.ts:139-150 | A registered body is woken and gains torque / mass on each angular component, and rest tracking is re-armed. An unknown id changes nothing. |
| PhysicsWorker.Worker.ResetPosition | src/worker/physics.worker.ts:152-164 | A registered body is moved to the position with zero velocities and the identity orientation and is woken, and rest tracking is re-armed. An unknown id changes nothing. |
| PhysicsWorker.Worker.Handle | src/worker/physics.worker.ts:41-166 | The message switch equals `Apply` and keeps the worker well formed. Only STEP posts a message. |
| PhysicsWorker.StillIffSlow | src/worker/physics.worker.ts:90-106 | No body is counted as moving iff every dynamic body's speed is at most 0.1. |
| PhysicsWorker.SpeedBelowTotal | src/worker/physics.worker.ts:90-106 | Each dynamic body's speed is at most the total, so the total test is at least as strict as the per-body test. |
| PhysicsWorker.StepMessageKeys | src/worker/physics.worker.ts:90-103 | The STEP message's positions and quaternions have the same keys. They are exactly the registered bodies with mass > 0, with their post-step poses. |
| PhysicsWorker.StepCounts | src/worker/physics.worker.ts:105-111 | A still step adds one to the count. Any other step clears the flag and the count and posts UPDATE. |
| PhysicsWorker.EdgeTrigger | src/worker/physics.worker.ts:105-118 | REST_DETECTED is posted iff the step is still, the count passes 30 and the detector was not resting; posting it sets the flag. |
| PhysicsWorker.QuietWhileResting | src/worker/physics.worker.ts:113-118 | While resting, any run of still steps posts only UPDATE. |
| PhysicsWorker.FiresWhenCountPasses | src/worker/physics.worker.ts:105-118 | From an armed detector, still steps post REST_DETECTED exactly on the step that takes the count to 31. |
| PhysicsWorker.FiresOnce | src/worker/physics.worker.ts:105-118 | From a cleared detector, a run of still steps posts REST_DETECTED on step 31 and on no other step. |
| PhysicsWorker.AtMostOnce | src/worker/physics.worker.ts:105-118 | From any reachable detector state, a run of still steps posts REST_DETECTED at most once. |
| PhysicsWorker.RunKeepsRestInv | src/worker/physics.worker.ts:105-118 | Every run keeps `isResting ⇔ restFrameCount > 30`. |
| PhysicsWorker.StepKind | src/worker/physics.worker.ts:79-126 | A STEP through the switch posts a message, and its type and the new rest state are `RestUpdate` applied to that step's still test. |
| PhysicsWorker.Steps | src/worker/physics.worker.ts:79-126 | Consecutive STEP commands post one message each and keep the ids, the insertion order and every mass. |
| PhysicsWorker.ScanReadsOnlyMass | src/worker/physics.worker.ts:90-103 | The total speed and the moving count read each body only through its mass, so they agree on registries with the same ids and masses. |
| PhysicsWorker.StepsFollowRun | src/worker/physics.worker.ts:79-126 | The message types of consecutive STEP commands are exactly the rest detector's run on their still tests. |
| PhysicsWorker.WorkerFiresOnce | src/worker/physics.worker.ts:79-126 | From a cleared detector, STEP commands that are all still post REST_DETECTED on the 31st and on no other. |
| PhysicsWorker.RegisterKeepsOrdered | src/worker/physics.worker.ts:76 | `bodies.set` keeps the insertion order a duplicate-free list of exactly the registered ids. |
| PhysicsWorker.ApplyKeepsWellFormed | src/worker/physics.worker.ts:41-166 | Every command keeps the order invariant and the rest invariant. |
| PhysicsWorker.UnknownIdIgnored | src/worker/physics.worker.ts:128-164 | APPLY_IMPULSE, APPLY_TORQUE and RESET_POSITION for an unregistered id change nothing and post nothing. |
| PhysicsWorker.KnownIdRearms | src/worker/physics.worker.ts:128-164 | For a registered id those commands clear rest tracking, wake the body and leave every other body, the gravity and the order alone. |
| PhysicsWorker.InitOnlyGravity | src/worker/physics.worker.ts:45-47 | INIT replaces the gravity and leaves the bodies, order and rest state as they were. |
| PhysicsWorker.ResetIdempotent | src/worker/physics.worker.ts:152-164 | RESET_POSITION places the body at the position with zero velocities and the identity orientation, keeping its mass and shape; repeating it changes nothing. |
| PhysicsWorker.TorqueAddsOverMass | src/worker/physics.worker.ts:139-150 | The new angular velocity times the mass equals the old one times the mass plus the torque. Pose and linear velocity are untouched. |
| PhysicsWorker.AddBodyRegisters | src/worker/physics.worker.ts:49-77 | The new body is a box iff the request is a box with a size. It is tilted iff it is a plane; non-planes get damping 0.5; both sleep limits are 0.5. Mass and position are as requested; velocities are zero. Other bodies, gravity and rest state are unchanged. |
| PhysicsWorker.PlaneLiesFlat | src/worker/physics.worker.ts:68-69 | The plane tilt (a quarter turn about −X) turns the plane's +Z normal onto world up. |
| PhysicsProxy.PhysicsService.constructor | src/services/PhysicsService.ts:24-28 | A new proxy tracks nothing, has no listeners and has posted exactly INIT with the configured gravity. |
| PhysicsProxy.PhysicsService.OnDiceRest | src/services/PhysicsService.ts:34-36 | The callback is appended to the listeners; nothing else changes. |
| PhysicsProxy.PhysicsService.OnWorkerMessage | src/services/PhysicsService.ts:41-69 | Returns the listener calls of `RestCalls` and leaves the buffers as `Delivered` describes. Buffers stay non-empty and within capacity. |
| PhysicsProxy.PhysicsService.Update | src/services/PhysicsService.ts:79-81 | Posts exactly STEP(dt). |
| PhysicsProxy.PhysicsService.AddBody | src/services/PhysicsService.ts:86-109 | Tracks the id with its mesh and a one-snapshot buffer at the origin, identity, now. Posts ADD_BODY with the position, or the origin when none is given. |
| PhysicsProxy.PhysicsService.AddFloor | src/services/PhysicsService.ts:111-113 | Tracks "floor" without a mesh and posts a static plane at the origin. |
| PhysicsProxy.PhysicsService.AddWalls | src/services/PhysicsService.ts:118-140 | Posts the four static wall boxes (back, front, left, right) in that order and tracks none of them. |
| PhysicsProxy.PhysicsService.ApplyImpulse | src/services/PhysicsService.ts:142-144 | Posts exactly APPLY_IMPULSE with the given id, impulse and point. |
| PhysicsProxy.PhysicsService.ApplyTorque | src/services/PhysicsService.ts:146-148 | Posts exactly APPLY_TORQUE with the given id and torque. |
| PhysicsProxy.PhysicsService.ResetBody | src/services/PhysicsService.ts:150-152 | Posts exactly RESET_POSITION with the given id and position. |
| PhysicsProxy.PhysicsService.SyncVisuals | src/services/PhysicsService.ts:158-204 | Every mesh shows its body's `Target` pose at now − PHYSICS_DELAY, or keeps its old pose when there is none. |
| PhysicsProxy.SyncMesh | src/services/PhysicsService.ts:161-203 | One mesh is moved to `Target` of its buffer, or left as it was when `Target` is None. |
| PhysicsProxy.FindBracket | src/services/PhysicsService.ts:170-178 | The newest-to-oldest scan returns the last snapshot at or before the render time, with every later one after it. The next index is returned only when it exists. |
| PhysicsProxy.Appended | src/services/PhysicsService.ts:58-64 | Push then shift: the result ends with the new snapshot and grows by at most one. It is old buffer + snapshot while the buffer is below 20, and a buffer of at most 20 stays at most 20. |
| PhysicsProxy.WallCommands | src/services/PhysicsService.ts:118-140 | Four ADD_BODY commands, each a static (mass 0) box standing on the floor with half-height WALL_HEIGHT / 2. |
| PhysicsProxy.LatestIsLastAtOrBefore | src/services/PhysicsService.ts:171-178 | `Latest` is the highest index whose time is at most t. None means every snapshot is later than t. |
| PhysicsProxy.AppendedBounded | src/services/PhysicsService.ts:58-64 | After push-then-shift the buffer is non-empty, at most 20 long and ends with the new snapshot. It grows by one until it holds 20. |
| PhysicsProxy.AppendedKeepsNewest | src/services/PhysicsService.ts:58-64 | The bounded buffer is a suffix of old buffer + new snapshot: the newest snapshots, in arrival order. |
| PhysicsProxy.DeliveredKeepsBounds | src/services/PhysicsService.ts:54-66 | Delivery adds no ids, keeps every mesh and keeps every buffer non-empty and within capacity. |
| PhysicsProxy.DeliveredOnlyTracked | src/services/PhysicsService.ts:54-66 | Untracked ids are ignored. A tracked id absent from the message is unchanged. A tracked id in it ends with that message's snapshot. |
| PhysicsProxy.RestCallsInOrder | src/services/PhysicsService.ts:45-52 | Listeners are called only for REST_DETECTED carrying the die's quaternion. They are then called once each, in subscription order, with the die's id and quaternion. |
| PhysicsProxy.BracketStraddles | src/services/PhysicsService.ts:171-183 | With both bracket entries, older.time ≤ renderTime < newer.time, so alpha lies in [0, 1). |
| PhysicsProxy.TargetDefined | src/services/PhysicsService.ts:180-202 | For a non-empty buffer the `timeDiff > 0` guard never fails, so a pose is always set. |
| PhysicsProxy.LerpBetween | src/services/PhysicsService.ts:186-190 | The lerp with alpha in [0, 1] lies between its endpoints and equals the older value at alpha = 0. |
| PhysicsProxy.InterpolationConvex | src/services/PhysicsService.ts:180-190 | Each interpolated position component lies between the bracket's components, and equals the older position when renderTime is older.time. |
| PhysicsProxy.SnapWithoutBracket | src/services/PhysicsService.ts:197-202 | Without an older-and-newer pair the mesh snaps to the newest snapshot. |
| PhysicsProxy.DelayIsTwoFrames | src/Config.ts:16 | PHYSICS_DELAY is two frames at 60 Hz. |
| DiceModel.ArgMaxIsFirstMax | src/Dice.ts:105-114 | The strict `dot > maxDot` scan picks a greatest element, and every earlier element is strictly smaller. |
| DiceModel.UpFaceIsHighest | src/Dice.ts:99-117 | The reported face is in the table and points up at least as far as every face, and strictly further than every face listed before it. |
| DiceModel.FaceTableIsADie | src/Dice.ts:18-25 | The table has six faces printing 1 to 6, each once; opposite normals are paired and their numbers sum to 7. |
| DiceModel.UpDots | src/Dice.ts:105-109 | The height of each face's turned normal, one per table entry, in table order. |
| DiceModel.ArgMax | src/Dice.ts:105-114 | The index the strict `dot > maxDot` scan ends on; it is a valid index. |
| DiceModel.UpFace | src/Dice.ts:99-117 | The face `getResult` reports is a face of the table, so its number is in 1..6. |
| DiceModel.TexturesMatchTable | src/Dice.ts:37-44 | Each material slot (+x, −x, +y, −y, +z, −z) gets the texture of the number the table gives that normal, and that texture has that many pips. |
| DiceModel.UpDotsByRow | src/Dice.ts:105-109 | The six heights computed are ±, in pairs, the second row of the rotation matrix of the quaternion. |
| DiceModel.OppositeFacesOppositeHeights | src/Dice.ts:105-109 | Opposite faces always point equally far up and down. |
| DiceModel.UpFaceNotDown | src/Dice.ts:99-117 | The reported face never points below the horizon. |
| DiceModel.YawKeepsHeight | src/Dice.ts:107-109 | Turning the die about the vertical axis does not change the height of any turned normal. |
| DiceModel.YawKeepsResult | src/Dice.ts:99-117 | Spinning the die about the vertical axis does not change the six heights or the number read. |
| DiceModel.ReadsFromHeights | src/Dice.ts:99-117 | When one face's height is strictly the greatest, that face is read. |
| DiceModel.YawOnlyReadsTwo | src/Dice.ts:99-117 | A die turned only about the vertical axis (identity included) reads 2. |
| DiceModel.UpsideDownReadsFive | src/Dice.ts:99-117 | Half a turn about any horizontal axis reads 5. |
| DiceModel.QuarterTurnReadsThree | src/Dice.ts:99-117 | A quarter turn about Z that brings +X up reads 3. |
| DiceModel.RollForceBounded | src/Dice.ts:77 | The throw force lies in [8, 13). |
| DiceModel.RollImpulseBounded | src/Dice.ts:80-85 | The push is upwards with half the force and sideways by at most half the force on each horizontal axis (from −force/2 up to, but not including, force/2); it is applied at the centre. |
| DiceModel.RollTorqueBounded | src/Dice.ts:87-92 | Each torque component lies in [−7.5, 7.5). |
| DiceModel.RollCommands | src/Dice.ts:73-93 | A throw is three commands, all aimed at the die: RESET_POSITION, then APPLY_IMPULSE, then APPLY_TORQUE. |
| DiceModel.RollRestartsDie | src/Dice.ts:73-93 | A throw run through the worker leaves the die awake at (0, 5, 0) with the identity orientation. Its velocity is the impulse's, and its spin is the impulse's plus torque / mass. Rest tracking is re-armed; every other body is untouched. |
| DiceModel.Dice.constructor | src/Dice.ts:27-59 | The die is a fresh mesh registered as "dice_1". It posts one box of mass 1 with half-extents 0.25 at the given position; listeners are unchanged. |
| DiceModel.Dice.Roll | src/Dice.ts:73-93 | A throw posts exactly RESET_POSITION to (0, 5, 0), the random impulse at the centre and the random torque, in that order. |
| DiceModel.Dice.GetResult | src/Dice.ts:99-117 | Returns the number of the first face whose turned normal points furthest up, which is always in 1..6. |
| Texture.PipCount | src/TextureGenerator.ts:53-75 | Faces 1 to 6 show exactly that many pips. |
| Texture.NoPipsOutOfRange | src/TextureGenerator.ts:53-75 | Numbers below 1 or from 7 up draw no pip. |
| Texture.CentrePip | src/TextureGenerator.ts:55-57 | The centre pip is drawn iff the number is 1, 3 or 5. |
| Texture.PipsOnGrid | src/TextureGenerator.ts:36-75 | Every pip centre lies on the 3×3 grid of centre ± offset. |
| Texture.PipsPointSymmetric | src/TextureGenerator.ts:53-75 | The pattern is symmetric under a half turn about the canvas centre. |
| Texture.PipsInsideCanvas | src/TextureGenerator.ts:36-75 | Every pip disc of radius 0.1·size lies inside the canvas. |
| Texture.PipCentres | src/TextureGenerator.ts:53-75 | The centres `drawPip` is called with, in drawing order. There are at most six, none outside 1 ≤ n < 7, and an odd number exactly for 1, 3 and 5 (the centre pip). |

## Left out

- The physics library (cannon-es) is not modelled. The world, its integrator,
  contacts, friction, restitution, contact materials and sleeping are left out.
  - `world.step` appears only through the per-body result it reports
    (`Env.motions`).
  - `applyImpulse` appears only through the velocities it leaves
    (`Env.kick`).
  - `wakeUp` sets the body's `awake` flag.
- Floating point: every number is a real. Rounding, `NaN` and `Infinity` are
  not modelled.
- PhysicsWorker.Worker.ApplyTorque: requires a registered target to have
  non-zero mass. The source divides by the mass, which for a static body gives
  `Infinity` or `NaN`; that outcome is not modelled.
- PhysicsWorker.Worker.AddBody: re-adding a known id replaces the map entry.
  The earlier body that the source leaves in the world is not modelled, since
  the world is not.
- The plane tilt uses √2/2, which the worker is given at construction because
  reals have no square root.
- Code and design differ on one point. A 'box' request without a size builds a
  plane shape, but with box damping and no tilt, because the tilt and damping
  branch tests the requested shape name. The model follows the code.
- The worker channel is modelled as the proxy's `outbox` of posted commands
  and the worker's `Handle` method. Message transport, serialisation and
  asynchrony are left out.
- PhysicsProxy.PhysicsService.AddBody: requires that the mesh is not already
  bound to another id. With two ids sharing one mesh, the mesh's final pose
  depends on the map's iteration order, which the model leaves out.
- PhysicsProxy.PhysicsService.SyncVisuals: quaternion slerp is a library call
  and is a function parameter. Nothing is proved about the interpolated
  orientation.
- `performance.now()` is a parameter: `now` for the proxy and `Env.now` for
  the worker. So is `Math.random()`: `Draws` holds the six values a throw
  draws.
- Texture.PipCentres: only the pip centres are modelled. The canvas, colours,
  border, the highlight inside each pip and the texture object are not.
- DiceModel.Dice.constructor: the rounded-box geometry, the materials and the
  scene graph are left out. Only the registration with the proxy is modelled.
- The renderer, scene setup, application entry point and game loop
  (`RendererService.ts`, `SceneManager.ts`, `main.ts`, `core/GameLoop.ts`) are
  not part of this model.
