/**
 * The simulation worker (src/worker/physics.worker.ts): a registry of rigid
 * bodies, the world gravity and the rest detector, changed one command at a
 * time by the message handler.
 *
 * The dynamics library is not modelled. What the worker reads back from it
 * (the poses, velocities and speeds after `world.step`, the velocities after
 * `applyImpulse`) and the wall clock arrive in an `Env` value.
 *
 * The pure functions `AfterInit` … `Apply` state what each command does to a
 * `WorldState`. The methods of class `Worker` perform the commands in place
 * and are proved to agree with them. The lemmas at the end prove the rest
 * detector's laws on those functions.
 */
module PhysicsWorker {
  import opened Wrappers
  import opened Vectors

  /** Threshold of the still-frame rule, for one body and for the sum. */
  const STILL_SPEED: real := 0.1
  /** REST_DETECTED fires once the still-frame count exceeds this. */
  const REST_FRAMES: nat := 30
  /** sleepSpeedLimit and sleepTimeLimit given to every body. */
  const SLEEP_LIMIT: real := 0.5
  /** Linear and angular damping of every body not requested as a plane. */
  const BOX_DAMPING: real := 0.5
  /** The library's own default damping, which planes keep. */
  const DEFAULT_DAMPING: real := 0.01
  /** Gravity of a fresh world, before any INIT. */
  const INITIAL_GRAVITY: Vec3 := Vec3(0.0, -9.82, 0.0)

  /** A speed: |linear velocity| + |angular velocity|, as the library reports it. */
  type Speed = r: real | r >= 0.0

  /** The `shape` field of an ADD_BODY request. */
  datatype ShapeKind = BoxKind | PlaneKind

  /** The collision shape actually built. */
  datatype Shape = Box(halfExtents: Vec3) | Plane

  datatype Body = Body(
    mass: real,
    shape: Shape,
    position: Vec3,
    quaternion: Quat,
    velocity: Vec3,
    angularVelocity: Vec3,
    linearDamping: real,
    angularDamping: real,
    sleepSpeedLimit: real,
    sleepTimeLimit: real,
    awake: bool)

  /** The messages the worker accepts. */
  datatype Command =
    | Init(gravity: Vec3)
    | AddBody(id: string, mass: real, position: Vec3, shape: ShapeKind, size: Option<Vec3>)
    | Step(dt: real)
    | ApplyImpulse(id: string, impulse: Vec3, point: Vec3)
    | ApplyTorque(id: string, torque: Vec3)
    | ResetPosition(id: string, position: Vec3)

  datatype MessageType = Update | RestDetected

  /** The message the worker posts after every STEP. */
  datatype Notification = Notification(
    kind: MessageType,
    positions: map<string, Vec3>,
    quaternions: map<string, Quat>,
    time: real)

  /** What the library reports for one body after `world.step`. */
  datatype Motion = Motion(
    position: Vec3,
    quaternion: Quat,
    velocity: Vec3,
    angularVelocity: Vec3,
    awake: bool,
    speed: Speed)

  datatype Velocities = Velocities(linear: Vec3, angular: Vec3)

  /**
   * The outcome of the foreign calls one command makes: the per-body result
   * of `world.step`, the velocities `applyImpulse` leaves, `performance.now()`.
   */
  datatype Env = Env(motions: map<string, Motion>, kick: Velocities, now: real)

  /** The rest detector: `isResting` and `restFrameCount`. */
  datatype RestState = RestState(isResting: bool, count: nat)

  /** The worker's whole state; `order` is the insertion order of the `bodies` map. */
  datatype WorldState = WorldState(
    gravity: Vec3,
    bodies: map<string, Body>,
    order: seq<string>,
    rest: RestState)

  // ---------------------------------------------------------------------
  // Invariants

  /**
   * The detector claims rest exactly when more than REST_FRAMES still frames
   * have been counted (the source relies on the forward direction).
   */
  predicate RestInv(r: RestState)
  {
    r.isResting <==> r.count > REST_FRAMES
  }

  /** `order` lists every registered id exactly once. */
  ghost predicate Ordered(s: WorldState)
  {
    && (forall i, j :: 0 <= i < j < |s.order| ==> s.order[i] != s.order[j])
    && (forall id :: id in s.bodies <==> id in s.order)
  }

  ghost predicate WellFormed(s: WorldState)
  {
    Ordered(s) && RestInv(s.rest)
  }

  // ---------------------------------------------------------------------
  // ADD_BODY

  /** 2h² = 1: h is sin(π/4), the half-angle sine of a quarter turn. */
  predicate IsHalfRoot2(h: real)
  {
    h > 0.0 && 2.0 * h * h == 1.0
  }

  /** `setFromEuler(-π/2, 0, 0)`: a quarter turn about −X, written with h = √2/2. */
  function PlaneTilt(h: real): Quat
  {
    Quat(-h, 0.0, 0.0, h)
  }

  /** The body an ADD_BODY request builds. */
  function NewBody(mass: real, position: Vec3, kind: ShapeKind, size: Option<Vec3>, h: real): (b: Body)
    ensures b.mass == mass && b.position == position && b.awake
    ensures b.velocity == Zero && b.angularVelocity == Zero
    ensures b.sleepSpeedLimit == SLEEP_LIMIT && b.sleepTimeLimit == SLEEP_LIMIT
    ensures b.shape.Box? <==> kind == BoxKind && size.Some?
  {
    var shape := if kind == BoxKind && size.Some? then Box(size.value) else Plane;
    var quaternion := if kind == PlaneKind then PlaneTilt(h) else Identity;
    var damping := if kind == PlaneKind then DEFAULT_DAMPING else BOX_DAMPING;
    Body(mass, shape, position, quaternion, Zero, Zero, damping, damping, SLEEP_LIMIT, SLEEP_LIMIT, true)
  }

  /** `bodies.set(id, b)`: a new id goes to the end of the order, a known one keeps its place. */
  function Register(s: WorldState, id: string, b: Body): (r: WorldState)
    ensures r.bodies.Keys == s.bodies.Keys + {id} && r.bodies[id] == b
    ensures forall other :: other in s.bodies && other != id ==> r.bodies[other] == s.bodies[other]
    ensures |s.order| <= |r.order| && r.order[..|s.order|] == s.order
    ensures r.gravity == s.gravity && r.rest == s.rest
  {
    s.(bodies := s.bodies[id := b],
       order := if id in s.bodies then s.order else s.order + [id])
  }

  function AfterAddBody(s: WorldState, id: string, mass: real, position: Vec3,
                        kind: ShapeKind, size: Option<Vec3>, h: real): WorldState
  {
    Register(s, id, NewBody(mass, position, kind, size, h))
  }

  // ---------------------------------------------------------------------
  // INIT, APPLY_IMPULSE, APPLY_TORQUE, RESET_POSITION

  function AfterInit(s: WorldState, g: Vec3): WorldState
  {
    s.(gravity := g)
  }

  /** Rest tracking back to ACTIVE with a zero count. */
  function Rearmed(s: WorldState): WorldState
  {
    s.(rest := RestState(false, 0))
  }

  /** `wakeUp()` then `applyImpulse`, whose resulting velocities the library supplies. */
  function Pushed(b: Body, kick: Velocities): Body
  {
    b.(awake := true, velocity := kick.linear, angularVelocity := kick.angular)
  }

  function AfterImpulse(s: WorldState, id: string, kick: Velocities): WorldState
  {
    if id in s.bodies then Rearmed(s).(bodies := s.bodies[id := Pushed(s.bodies[id], kick)]) else s
  }

  /** `wakeUp()` then angularVelocity += torque / mass, component-wise. */
  function Twisted(b: Body, torque: Vec3): Body
    requires b.mass != 0.0
  {
    var w := b.angularVelocity;
    b.(awake := true,
       angularVelocity := Vec3(w.x + torque.x / b.mass, w.y + torque.y / b.mass, w.z + torque.z / b.mass))
  }

  /** A registered body that would receive a torque must have non-zero mass. */
  predicate TorqueDefined(s: WorldState, id: string)
  {
    id in s.bodies ==> s.bodies[id].mass != 0.0
  }

  function AfterTorque(s: WorldState, id: string, torque: Vec3): WorldState
    requires TorqueDefined(s, id)
  {
    if id in s.bodies then Rearmed(s).(bodies := s.bodies[id := Twisted(s.bodies[id], torque)]) else s
  }

  /** Teleport, zero both velocities, identity orientation, wake. */
  function Teleported(b: Body, position: Vec3): Body
  {
    b.(position := position, velocity := Zero, angularVelocity := Zero, quaternion := Identity, awake := true)
  }

  function AfterReset(s: WorldState, id: string, position: Vec3): WorldState
  {
    if id in s.bodies then Rearmed(s).(bodies := s.bodies[id := Teleported(s.bodies[id], position)]) else s
  }

  // ---------------------------------------------------------------------
  // STEP

  /** The library reports a motion for every registered body. */
  ghost predicate Covers(bodies: map<string, Body>, motions: map<string, Motion>)
  {
    forall id :: id in bodies ==> id in motions
  }

  /** Every id of `ids` is registered and has a reported motion. */
  ghost predicate Known(ids: seq<string>, bodies: map<string, Body>, motions: map<string, Motion>)
  {
    forall id :: id in ids ==> id in bodies && id in motions
  }

  function Advanced(b: Body, m: Motion): Body
  {
    b.(position := m.position, quaternion := m.quaternion, velocity := m.velocity,
       angularVelocity := m.angularVelocity, awake := m.awake)
  }

  /** `world.step`: every body takes the pose and velocities the library reports. */
  function Stepped(bodies: map<string, Body>, motions: map<string, Motion>): (r: map<string, Body>)
    requires Covers(bodies, motions)
    ensures r.Keys == bodies.Keys
    ensures forall id :: id in r ==> r[id].mass == bodies[id].mass
  {
    map id | id in bodies :: Advanced(bodies[id], motions[id])
  }

  /** A dynamic body: one with positive mass. */
  predicate Dynamic(b: Body)
  {
    b.mass > 0.0
  }

  /** `totalVelocity`: the speeds of the dynamic bodies among `ids`, summed. */
  function TotalSpeed(ids: seq<string>, bodies: map<string, Body>, motions: map<string, Motion>): (r: real)
    requires Known(ids, bodies, motions)
    ensures r >= 0.0
    decreases |ids|
  {
    if ids == [] then 0.0
    else
      var id := ids[|ids| - 1];
      TotalSpeed(ids[..|ids| - 1], bodies, motions)
        + (if Dynamic(bodies[id]) then motions[id].speed else 0.0)
  }

  /** `movingBodies`: how many dynamic bodies among `ids` are faster than STILL_SPEED. */
  function MovingCount(ids: seq<string>, bodies: map<string, Body>, motions: map<string, Motion>): nat
    requires Known(ids, bodies, motions)
    decreases |ids|
  {
    if ids == [] then 0
    else
      var id := ids[|ids| - 1];
      MovingCount(ids[..|ids| - 1], bodies, motions)
        + (if Dynamic(bodies[id]) && motions[id].speed > STILL_SPEED then 1 else 0)
  }

  function DynamicPositions(ids: seq<string>, bodies: map<string, Body>): map<string, Vec3>
  {
    map id | id in ids && id in bodies && Dynamic(bodies[id]) :: bodies[id].position
  }

  function DynamicQuaternions(ids: seq<string>, bodies: map<string, Body>): map<string, Quat>
  {
    map id | id in ids && id in bodies && Dynamic(bodies[id]) :: bodies[id].quaternion
  }

  /** The still-frame test of one step. */
  predicate Still(ids: seq<string>, bodies: map<string, Body>, motions: map<string, Motion>)
    requires Known(ids, bodies, motions)
  {
    MovingCount(ids, bodies, motions) == 0 && TotalSpeed(ids, bodies, motions) < STILL_SPEED
  }

  /** The rest detector's transition for one step, with the message type it emits. */
  function RestUpdate(r: RestState, still: bool): (u: (RestState, MessageType))
    ensures RestInv(r) ==> RestInv(u.0)
    ensures u.1 == RestDetected ==> u.0.isResting && !r.isResting
    ensures !still ==> u == (RestState(false, 0), Update)
  {
    var count := if still then r.count + 1 else 0;
    var resting := if still then r.isResting else false;
    if count > REST_FRAMES && !resting then (RestState(true, count), RestDetected)
    else (RestState(resting, count), Update)
  }

  /** The library's report fits the registry (what `world.step` guarantees). */
  ghost predicate StepReady(s: WorldState, env: Env)
  {
    Covers(s.bodies, env.motions) && forall id :: id in s.order ==> id in s.bodies
  }

  function AfterStep(s: WorldState, env: Env): (WorldState, Notification)
    requires StepReady(s, env)
  {
    var stepped := Stepped(s.bodies, env.motions);
    var still := Still(s.order, stepped, env.motions);
    var (rest, kind) := RestUpdate(s.rest, still);
    (s.(bodies := stepped, rest := rest),
     Notification(kind, DynamicPositions(s.order, stepped), DynamicQuaternions(s.order, stepped), env.now))
  }

  // ---------------------------------------------------------------------
  // The command switch

  /** What the environment guarantees for `cmd` to be well defined. */
  ghost predicate Admissible(s: WorldState, cmd: Command, env: Env)
  {
    && (cmd.Step? ==> StepReady(s, env))
    && (cmd.ApplyTorque? ==> TorqueDefined(s, cmd.id))
  }

  /** One command: the new state, and the message posted (STEP only). */
  function Apply(s: WorldState, cmd: Command, env: Env, h: real): (WorldState, Option<Notification>)
    requires Admissible(s, cmd, env)
  {
    match cmd
    case Init(g) => (AfterInit(s, g), None)
    case AddBody(id, mass, position, kind, size) => (AfterAddBody(s, id, mass, position, kind, size, h), None)
    case Step(_) => var (s', msg) := AfterStep(s, env); (s', Some(msg))
    case ApplyImpulse(id, _, _) => (AfterImpulse(s, id, env.kick), None)
    case ApplyTorque(id, torque) => (AfterTorque(s, id, torque), None)
    case ResetPosition(id, position) => (AfterReset(s, id, position), None)
  }

  /** The id a command targets, for the three commands that look one up. */
  predicate Targets(cmd: Command, id: string)
  {
    (cmd.ApplyImpulse? || cmd.ApplyTorque? || cmd.ResetPosition?) && cmd.id == id
  }

  /** Scanning one more id of `ids` extends the running sums and maps by that id alone. */
  lemma ExtendScan(ids: seq<string>, i: nat, bodies: map<string, Body>, motions: map<string, Motion>)
    requires i < |ids| && Known(ids, bodies, motions)
    ensures Known(ids[..i + 1], bodies, motions)
    ensures var id := ids[i];
      && TotalSpeed(ids[..i + 1], bodies, motions)
           == TotalSpeed(ids[..i], bodies, motions) + (if Dynamic(bodies[id]) then motions[id].speed else 0.0)
      && MovingCount(ids[..i + 1], bodies, motions)
           == MovingCount(ids[..i], bodies, motions) + (if Dynamic(bodies[id]) && motions[id].speed > STILL_SPEED then 1 else 0)
      && DynamicPositions(ids[..i + 1], bodies)
           == (if Dynamic(bodies[id]) then DynamicPositions(ids[..i], bodies)[id := bodies[id].position]
               else DynamicPositions(ids[..i], bodies))
      && DynamicQuaternions(ids[..i + 1], bodies)
           == (if Dynamic(bodies[id]) then DynamicQuaternions(ids[..i], bodies)[id := bodies[id].quaternion]
               else DynamicQuaternions(ids[..i], bodies))
  {
    var pre := ids[..i + 1];
    assert pre[..i] == ids[..i] && pre[i] == ids[i];
    assert forall x :: x in pre <==> x in ids[..i] || x == ids[i];
  }

  // ---------------------------------------------------------------------
  // The worker

  class Worker {
    var gravity: Vec3
    var bodies: map<string, Body>
    var order: seq<string>
    var isResting: bool
    var restFrameCount: nat
    /** √2/2, for the plane tilt. */
    const halfRoot2: real

    function State(): WorldState
      reads this
    {
      WorldState(gravity, bodies, order, RestState(isResting, restFrameCount))
    }

    ghost predicate Valid()
      reads this
    {
      WellFormed(State()) && IsHalfRoot2(halfRoot2)
    }

    /** The module-level setup: default gravity, no bodies, not resting. */
    constructor(halfRoot2: real)
      requires IsHalfRoot2(halfRoot2)
      ensures Valid() && this.halfRoot2 == halfRoot2
      ensures State() == WorldState(INITIAL_GRAVITY, map[], [], RestState(false, 0))
    {
      this.halfRoot2 := halfRoot2;
      gravity := INITIAL_GRAVITY;
      bodies := map[];
      order := [];
      isResting := false;
      restFrameCount := 0;
    }

    method Init(g: Vec3)
      requires Valid()
      modifies this
      ensures Valid()
      ensures State() == AfterInit(old(State()), g)
    {
      gravity := g;
    }

    method AddBody(id: string, mass: real, position: Vec3, kind: ShapeKind, size: Option<Vec3>)
      requires Valid()
      modifies this
      ensures Valid()
      ensures State() == AfterAddBody(old(State()), id, mass, position, kind, size, halfRoot2)
    {
      var shape: Shape;
      if kind == BoxKind && size.Some? {
        shape := Box(size.value);
      } else {
        shape := Plane;
      }
      var body := Body(mass, shape, position, Identity, Zero, Zero,
                       DEFAULT_DAMPING, DEFAULT_DAMPING, SLEEP_LIMIT, SLEEP_LIMIT, true);
      if kind == PlaneKind {
        body := body.(quaternion := PlaneTilt(halfRoot2));
      } else {
        body := body.(linearDamping := BOX_DAMPING, angularDamping := BOX_DAMPING);
      }
      if id !in bodies {
        order := order + [id];
      }
      bodies := bodies[id := body];
    }

    method Step(dt: real, env: Env) returns (msg: Notification)
      requires Valid()
      requires Covers(bodies, env.motions)
      modifies this
      ensures Valid()
      ensures (State(), msg) == AfterStep(old(State()), env)
    {
      // world.step(1 / 60, dt, 10): the library's outcome is env.motions
      bodies := Stepped(bodies, env.motions);
      var totalVelocity, movingBodies, positions, quaternions := Scan(order, bodies, env.motions);
      if movingBodies == 0 && totalVelocity < STILL_SPEED {
        restFrameCount := restFrameCount + 1;
      } else {
        restFrameCount := 0;
        isResting := false;
      }
      var messageType := Update;
      if restFrameCount > REST_FRAMES && !isResting {
        isResting := true;
        messageType := RestDetected;
      }
      msg := Notification(messageType, positions, quaternions, env.now);
    }

    /**
     * The `bodies.forEach` pass of STEP: sums the speeds of the dynamic
     * bodies, counts the fast ones, and records their poses.
     */
    static method Scan(ids: seq<string>, bodies: map<string, Body>, motions: map<string, Motion>)
      returns (totalVelocity: real, movingBodies: nat, positions: map<string, Vec3>, quaternions: map<string, Quat>)
      requires Known(ids, bodies, motions)
      ensures totalVelocity == TotalSpeed(ids, bodies, motions)
      ensures movingBodies == MovingCount(ids, bodies, motions)
      ensures positions == DynamicPositions(ids, bodies)
      ensures quaternions == DynamicQuaternions(ids, bodies)
    {
      positions, quaternions := map[], map[];
      totalVelocity, movingBodies := 0.0, 0;
      for i := 0 to |ids|
        invariant Known(ids[..i], bodies, motions)
        invariant totalVelocity == TotalSpeed(ids[..i], bodies, motions)
        invariant movingBodies == MovingCount(ids[..i], bodies, motions)
        invariant positions == DynamicPositions(ids[..i], bodies)
        invariant quaternions == DynamicQuaternions(ids[..i], bodies)
      {
        var id := ids[i];
        var b := bodies[id];
        ExtendScan(ids, i, bodies, motions);
        if Dynamic(b) {
          var vel := motions[id].speed;
          totalVelocity := totalVelocity + vel;
          if vel > STILL_SPEED {
            movingBodies := movingBodies + 1;
          }
          positions := positions[id := b.position];
          quaternions := quaternions[id := b.quaternion];
        }
      }
      assert ids[..|ids|] == ids;
    }

    method ApplyImpulse(id: string, impulse: Vec3, point: Vec3, kick: Velocities)
      requires Valid()
      modifies this
      ensures Valid()
      ensures State() == AfterImpulse(old(State()), id, kick)
    {
      if id in bodies {
        isResting := false;
        restFrameCount := 0;
        bodies := bodies[id := Pushed(bodies[id], kick)];
      }
    }

    method ApplyTorque(id: string, torque: Vec3)
      requires Valid()
      requires TorqueDefined(State(), id)
      modifies this
      ensures Valid()
      ensures State() == AfterTorque(old(State()), id, torque)
    {
      if id in bodies {
        var b := bodies[id];
        isResting := false;
        restFrameCount := 0;
        var w := b.angularVelocity;
        b := b.(awake := true);
        b := b.(angularVelocity := Vec3(w.x + torque.x / b.mass, w.y + torque.y / b.mass, w.z + torque.z / b.mass));
        bodies := bodies[id := b];
      }
    }

    method ResetPosition(id: string, position: Vec3)
      requires Valid()
      modifies this
      ensures Valid()
      ensures State() == AfterReset(old(State()), id, position)
    {
      if id in bodies {
        isResting := false;
        restFrameCount := 0;
        bodies := bodies[id := Teleported(bodies[id], position)];
      }
    }

    /** The `onmessage` switch. */
    method Handle(cmd: Command, env: Env) returns (out: Option<Notification>)
      requires Valid()
      requires Admissible(State(), cmd, env)
      modifies this
      ensures Valid()
      ensures (State(), out) == Apply(old(State()), cmd, env, halfRoot2)
    {
      out := None;
      match cmd {
        case Init(g) =>
          Init(g);
        case AddBody(id, mass, position, kind, size) =>
          AddBody(id, mass, position, kind, size);
        case Step(dt) =>
          var msg := Step(dt, env);
          out := Some(msg);
        case ApplyImpulse(id, impulse, point) =>
          ApplyImpulse(id, impulse, point, env.kick);
        case ApplyTorque(id, torque) =>
          ApplyTorque(id, torque);
        case ResetPosition(id, position) =>
          ResetPosition(id, position);
      }
    }
  }

  // ---------------------------------------------------------------------
  // Laws of the rest detector

  /** A step is still iff no dynamic body is faster than STILL_SPEED and the sum is below it. */
  lemma {:induction false} StillIffSlow(ids: seq<string>, bodies: map<string, Body>, motions: map<string, Motion>)
    requires Known(ids, bodies, motions)
    ensures MovingCount(ids, bodies, motions) == 0
        <==> forall id :: id in ids && Dynamic(bodies[id]) ==> motions[id].speed <= STILL_SPEED
  {
    if ids != [] {
      var last := ids[|ids| - 1];
      var init := ids[..|ids| - 1];
      assert forall id :: id in ids <==> id in init || id == last;
      StillIffSlow(init, bodies, motions);
    }
  }

  /** Each dynamic body's speed is part of the total, so one fast body already prevents a still step. */
  lemma {:induction false} SpeedBelowTotal(ids: seq<string>, bodies: map<string, Body>, motions: map<string, Motion>, id: string)
    requires Known(ids, bodies, motions)
    requires id in ids && Dynamic(bodies[id])
    ensures motions[id].speed <= TotalSpeed(ids, bodies, motions)
  {
    var last := ids[|ids| - 1];
    var init := ids[..|ids| - 1];
    if id != last {
      assert id in init by {
        var k :| 0 <= k < |ids| && ids[k] == id;
        assert init[k] == id;
      }
      SpeedBelowTotal(init, bodies, motions, id);
    }
  }

  /** The STEP message is keyed by exactly the dynamic bodies, in both maps. */
  lemma StepMessageKeys(s: WorldState, env: Env)
    requires WellFormed(s) && StepReady(s, env)
    ensures var (s', msg) := AfterStep(s, env);
      && msg.positions.Keys == msg.quaternions.Keys
      && (forall id :: id in msg.positions <==> id in s.bodies && Dynamic(s.bodies[id]))
      && (forall id :: id in msg.positions ==>
            msg.positions[id] == s'.bodies[id].position && msg.quaternions[id] == s'.bodies[id].quaternion)
  {
  }

  /** The still-frame rule: a still step counts up, any other clears the flag and the count. */
  lemma StepCounts(s: WorldState, env: Env)
    requires WellFormed(s) && StepReady(s, env)
    ensures var (s', msg) := AfterStep(s, env);
      var stepped := Stepped(s.bodies, env.motions);
      var still := (forall id :: id in s.bodies && Dynamic(stepped[id]) ==> env.motions[id].speed <= STILL_SPEED)
                   && TotalSpeed(s.order, stepped, env.motions) < STILL_SPEED;
      && (still ==> s'.rest.count == s.rest.count + 1)
      && (!still ==> s'.rest == RestState(false, 0) && msg.kind == Update)
  {
    StillIffSlow(s.order, Stepped(s.bodies, env.motions), env.motions);
  }

  /** The edge trigger: REST_DETECTED iff the count passes REST_FRAMES while not yet resting. */
  lemma EdgeTrigger(r: RestState, still: bool)
    ensures var (r', kind) := RestUpdate(r, still);
      && (kind == RestDetected <==> still && r.count + 1 > REST_FRAMES && !r.isResting)
      && (kind == RestDetected ==> r'.isResting)
      && (still ==> r'.count == r.count + 1)
      && (!still ==> r' == RestState(false, 0))
  {
  }

  /** A run of steps of the rest detector, with the message types it emits. */
  function Run(r: RestState, stills: seq<bool>): (kinds: seq<MessageType>)
    ensures |kinds| == |stills|
    decreases |stills|
  {
    if stills == [] then []
    else
      var (r', kind) := RestUpdate(r, stills[0]);
      [kind] + Run(r', stills[1..])
  }

  /** The detector's state after a run. */
  function RunState(r: RestState, stills: seq<bool>): RestState
    decreases |stills|
  {
    if stills == [] then r else RunState(RestUpdate(r, stills[0]).0, stills[1..])
  }

  function AllStill(k: nat): (s: seq<bool>)
    ensures |s| == k && forall i :: 0 <= i < k ==> s[i]
  {
    seq(k, _ => true)
  }

  /** While resting, still steps keep the flag and emit only UPDATE. */
  lemma {:induction false} QuietWhileResting(r: RestState, k: nat)
    requires r.isResting
    ensures forall i :: 0 <= i < k ==> Run(r, AllStill(k))[i] == Update
    decreases k
  {
    if k > 0 {
      var (r', kind) := RestUpdate(r, true);
      assert AllStill(k)[1..] == AllStill(k - 1);
      QuietWhileResting(r', k - 1);
    }
  }

  /** From an armed detector, k still steps emit REST_DETECTED exactly on the step where the count reaches 31. */
  lemma {:induction false} FiresWhenCountPasses(r: RestState, k: nat)
    requires !r.isResting && r.count <= REST_FRAMES
    ensures forall i :: 0 <= i < k ==> (Run(r, AllStill(k))[i] == RestDetected <==> r.count + i + 1 == REST_FRAMES + 1)
    decreases k
  {
    if k > 0 {
      var (r', kind) := RestUpdate(r, true);
      assert AllStill(k)[1..] == AllStill(k - 1);
      var rest := Run(r', AllStill(k - 1));
      assert Run(r, AllStill(k)) == [kind] + rest;
      if r.count == REST_FRAMES {
        assert kind == RestDetected && r'.isResting;
        QuietWhileResting(r', k - 1);
      } else {
        assert kind == Update && r' == RestState(false, r.count + 1);
        FiresWhenCountPasses(r', k - 1);
      }
    }
  }

  /** Fires once: from a cleared detector, k still steps emit REST_DETECTED on step 31 only. */
  lemma FiresOnce(k: nat)
    ensures forall i :: 0 <= i < k ==> (Run(RestState(false, 0), AllStill(k))[i] == RestDetected <==> i == REST_FRAMES)
  {
    FiresWhenCountPasses(RestState(false, 0), k);
  }

  /** From any reachable detector state, a run of still steps emits REST_DETECTED at most once. */
  lemma AtMostOnce(r: RestState, k: nat)
    requires RestInv(r)
    ensures forall i, j :: 0 <= i < j < k ==> !(Run(r, AllStill(k))[i] == RestDetected && Run(r, AllStill(k))[j] == RestDetected)
  {
    if r.isResting {
      QuietWhileResting(r, k);
    } else {
      FiresWhenCountPasses(r, k);
    }
  }

  /** Every transition keeps `isResting ⇒ restFrameCount > 30`. */
  lemma {:induction false} RunKeepsRestInv(r: RestState, stills: seq<bool>)
    requires RestInv(r)
    ensures RestInv(RunState(r, stills))
    decreases |stills|
  {
    if stills != [] {
      RunKeepsRestInv(RestUpdate(r, stills[0]).0, stills[1..]);
    }
  }

  /** One STEP command drives the detector by `RestUpdate` on that step's still test. */
  lemma StepKind(s: WorldState, dt: real, env: Env, h: real)
    requires StepReady(s, env)
    ensures var (s', out) := Apply(s, Step(dt), env, h);
      && out.Some?
      && (s'.rest, out.value.kind) == RestUpdate(s.rest, StillEnv(s, env))
  {
  }

  /** Every step of the run has a report for every registered body. */
  ghost predicate StepsReady(s: WorldState, envs: seq<Env>)
  {
    forall k :: 0 <= k < |envs| ==> StepReady(s, envs[k])
  }

  /** The still test of a step taken from `s` with report `env`. */
  predicate StillEnv(s: WorldState, env: Env)
    requires StepReady(s, env)
  {
    Still(s.order, Stepped(s.bodies, env.motions), env.motions)
  }

  /** Two registries with the same ids and the same masses. */
  ghost predicate SameMasses(a: map<string, Body>, b: map<string, Body>)
  {
    a.Keys == b.Keys && forall id :: id in a ==> a[id].mass == b[id].mass
  }

  /**
   * Consecutive STEP commands through the worker's switch: the final state
   * and the type of each message posted. Ids, order and masses never change.
   */
  function Steps(s: WorldState, dt: real, envs: seq<Env>, h: real): (r: (WorldState, seq<MessageType>))
    requires StepsReady(s, envs)
    ensures |r.1| == |envs|
    ensures r.0.order == s.order && SameMasses(r.0.bodies, s.bodies)
    decreases |envs|
  {
    if envs == [] then (s, [])
    else
      var (s', out) := Apply(s, Step(dt), envs[0], h);
      assert StepsReady(s', envs[1..]);
      var (s'', kinds) := Steps(s', dt, envs[1..], h);
      (s'', [out.value.kind] + kinds)
  }

  /** The still test reads a body only through its mass. */
  lemma {:induction false} ScanReadsOnlyMass(ids: seq<string>, a: map<string, Body>, b: map<string, Body>, motions: map<string, Motion>)
    requires Known(ids, a, motions) && Known(ids, b, motions) && SameMasses(a, b)
    ensures TotalSpeed(ids, a, motions) == TotalSpeed(ids, b, motions)
    ensures MovingCount(ids, a, motions) == MovingCount(ids, b, motions)
    decreases |ids|
  {
    if ids != [] {
      ScanReadsOnlyMass(ids[..|ids| - 1], a, b, motions);
    }
  }

  /** Stepping does not change which later reports are still. */
  lemma StillEnvKept(s: WorldState, t: WorldState, env: Env)
    requires StepReady(s, env) && StepReady(t, env)
    requires t.order == s.order && SameMasses(t.bodies, s.bodies)
    ensures StillEnv(t, env) == StillEnv(s, env)
  {
    ScanReadsOnlyMass(s.order, Stepped(t.bodies, env.motions), Stepped(s.bodies, env.motions), env.motions);
  }

  /** The still tests of a run of reports, all taken against the registry of `s`. */
  function StillFlags(s: WorldState, envs: seq<Env>): (stills: seq<bool>)
    requires StepsReady(s, envs)
    ensures |stills| == |envs|
    ensures forall k :: 0 <= k < |envs| ==> stills[k] == StillEnv(s, envs[k])
  {
    seq(|envs|, k requires 0 <= k < |envs| && StepsReady(s, envs) => StillEnv(s, envs[k]))
  }

  /** The messages of consecutive STEP commands are exactly the rest detector's run on their still tests. */
  lemma {:induction false} StepsFollowRun(s: WorldState, dt: real, envs: seq<Env>, h: real)
    requires StepsReady(s, envs)
    ensures Steps(s, dt, envs, h).1 == Run(s.rest, StillFlags(s, envs))
    decreases |envs|
  {
    if envs != [] {
      var (s', out) := Apply(s, Step(dt), envs[0], h);
      StepKind(s, dt, envs[0], h);
      assert StepsReady(s', envs[1..]);
      StepsFollowRun(s', dt, envs[1..], h);
      forall k | 0 <= k < |envs| - 1
        ensures StillFlags(s', envs[1..])[k] == StillFlags(s, envs)[1..][k]
      {
        StillEnvKept(s, s', envs[k + 1]);
      }
      assert StillFlags(s', envs[1..]) == StillFlags(s, envs)[1..];
    }
  }

  /**
   * Fires once, for the worker itself: from a cleared detector, a run of
   * STEP commands whose every step is still posts REST_DETECTED on the 31st
   * and on no other.
   */
  lemma WorkerFiresOnce(s: WorldState, dt: real, envs: seq<Env>, h: real)
    requires StepsReady(s, envs) && s.rest == RestState(false, 0)
    requires forall k :: 0 <= k < |envs| ==> StillEnv(s, envs[k])
    ensures var kinds := Steps(s, dt, envs, h).1;
      forall i :: 0 <= i < |envs| ==> (kinds[i] == RestDetected <==> i == REST_FRAMES)
  {
    StepsFollowRun(s, dt, envs, h);
    assert StillFlags(s, envs) == AllStill(|envs|);
    FiresOnce(|envs|);
  }

  // ---------------------------------------------------------------------
  // Laws of the commands

  /** Registering keeps the order a duplicate-free listing of the registry. */
  lemma RegisterKeepsOrdered(s: WorldState, id: string, b: Body)
    requires Ordered(s)
    ensures Ordered(Register(s, id, b))
  {
    if id !in s.bodies {
      var o := s.order + [id];
      forall i, j | 0 <= i < j < |o| ensures o[i] != o[j] {
        if j == |s.order| {
          assert o[i] == s.order[i];
        }
      }
    }
  }

  /** Every command keeps the worker well formed, in particular `isResting ⇒ restFrameCount > 30`. */
  lemma ApplyKeepsWellFormed(s: WorldState, cmd: Command, env: Env, h: real)
    requires WellFormed(s) && Admissible(s, cmd, env)
    ensures WellFormed(Apply(s, cmd, env, h).0)
  {
    match cmd
    case AddBody(id, mass, position, kind, size) =>
      RegisterKeepsOrdered(s, id, NewBody(mass, position, kind, size, h));
    case _ =>
  }

  /** Commands naming an unregistered id change nothing and post nothing. */
  lemma UnknownIdIgnored(s: WorldState, cmd: Command, env: Env, h: real, id: string)
    requires Admissible(s, cmd, env) && Targets(cmd, id) && id !in s.bodies
    ensures Apply(s, cmd, env, h) == (s, None)
  {
  }

  /** Impulse, torque and reset on a registered id re-arm the detector and touch no other body. */
  lemma KnownIdRearms(s: WorldState, cmd: Command, env: Env, h: real, id: string)
    requires Admissible(s, cmd, env) && Targets(cmd, id) && id in s.bodies
    ensures var (s', out) := Apply(s, cmd, env, h);
      && s'.rest == RestState(false, 0)
      && out.None?
      && s'.gravity == s.gravity && s'.order == s.order
      && s'.bodies.Keys == s.bodies.Keys
      && (forall other :: other in s.bodies && other != id ==> s'.bodies[other] == s.bodies[other])
      && s'.bodies[id].awake
  {
  }

  /** INIT changes the gravity and nothing else. */
  lemma InitOnlyGravity(s: WorldState, g: Vec3, env: Env, h: real)
    ensures Apply(s, Init(g), env, h) == (WorldState(g, s.bodies, s.order, s.rest), None)
  {
  }

  /** RESET_POSITION's effect on the body, and its idempotence. */
  lemma ResetIdempotent(s: WorldState, id: string, p: Vec3, env: Env, h: real)
    ensures var s1 := Apply(s, ResetPosition(id, p), env, h).0;
      && Apply(s1, ResetPosition(id, p), env, h).0 == s1
      && (id in s.bodies ==>
            && s1.bodies[id].position == p
            && s1.bodies[id].velocity == Zero && s1.bodies[id].angularVelocity == Zero
            && s1.bodies[id].quaternion == Identity
            && s1.bodies[id].mass == s.bodies[id].mass && s1.bodies[id].shape == s.bodies[id].shape)
  {
  }

  /** APPLY_TORQUE adds torque / mass to the angular velocity and leaves the pose and linear velocity alone. */
  lemma TorqueAddsOverMass(s: WorldState, id: string, t: Vec3, env: Env, h: real)
    requires id in s.bodies && s.bodies[id].mass != 0.0
    ensures var b := s.bodies[id];
      var b' := Apply(s, ApplyTorque(id, t), env, h).0.bodies[id];
      && b'.angularVelocity.x * b.mass == b.angularVelocity.x * b.mass + t.x
      && b'.angularVelocity.y * b.mass == b.angularVelocity.y * b.mass + t.y
      && b'.angularVelocity.z * b.mass == b.angularVelocity.z * b.mass + t.z
      && b'.position == b.position && b'.quaternion == b.quaternion && b'.velocity == b.velocity
  {
    var b := s.bodies[id];
    var b' := Twisted(b, t);
    assert b'.angularVelocity.x == b.angularVelocity.x + t.x / b.mass;
    assert (t.x / b.mass) * b.mass == t.x;
    assert (t.y / b.mass) * b.mass == t.y;
    assert (t.z / b.mass) * b.mass == t.z;
  }

  /** ADD_BODY: the shape, orientation, damping and sleep limits of the registered body. */
  lemma AddBodyRegisters(s: WorldState, id: string, mass: real, position: Vec3,
                         kind: ShapeKind, size: Option<Vec3>, env: Env, h: real)
    ensures var s' := Apply(s, AddBody(id, mass, position, kind, size), env, h).0;
      var b := s'.bodies[id];
      && id in s'.bodies
      && (b.shape.Box? <==> kind == BoxKind && size.Some?)
      && (b.shape.Box? ==> b.shape.halfExtents == size.value)
      && (b.quaternion == PlaneTilt(h) <==> kind == PlaneKind)
      && (kind != PlaneKind ==> b.linearDamping == BOX_DAMPING && b.angularDamping == BOX_DAMPING)
      && b.sleepSpeedLimit == SLEEP_LIMIT && b.sleepTimeLimit == SLEEP_LIMIT
      && b.mass == mass && b.position == position
      && b.velocity == Zero && b.angularVelocity == Zero
      && s'.rest == s.rest && s'.gravity == s.gravity
      && (forall other :: other in s.bodies && other != id ==> s'.bodies[other] == s.bodies[other])
  {
  }

  /** The plane tilt turns the plane's local normal (+Z) onto world up (+Y). */
  lemma PlaneLiesFlat(h: real)
    requires IsHalfRoot2(h)
    ensures Rotate(Vec3(0.0, 0.0, 1.0), PlaneTilt(h)) == WorldUp
  {
  }
}
