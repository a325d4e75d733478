/**
 * The render-side proxy (src/services/PhysicsService.ts): the per-body
 * snapshot buffers filled from the worker's messages, the rest listeners,
 * the commands posted to the worker, and the per-frame interpolation that
 * moves each mesh.
 *
 * The worker channel is the `outbox` sequence of commands, in posting order.
 * `performance.now()` is a parameter. Quaternion slerp is a library call and
 * is passed in as a function; nothing is assumed about it.
 */
module PhysicsProxy {
  import opened Wrappers
  import opened Vectors
  import opened Config
  import opened PhysicsWorker

  /** Largest number of snapshots a buffer keeps. */
  const BUFFER_CAPACITY: nat := 20

  /** Wall thickness used by `addWalls`. */
  const WALL_THICKNESS: real := 0.5

  /** One timestamped sample of a body's pose (`PhysicsState`). */
  datatype Snapshot = Snapshot(position: Vec3, quaternion: Quat, time: real)

  datatype Pose = Pose(position: Vec3, quaternion: Quat)

  /** The visual object a body drives; the proxy writes its transform in place. */
  class Mesh {
    var position: Vec3
    var quaternion: Quat

    constructor()
      ensures position == Zero && quaternion == Identity
    {
      position := Zero;
      quaternion := Identity;
    }
  }

  /** A tracked body: its mesh, if any, and its snapshot buffer. */
  datatype Tracked = Tracked(mesh: Option<Mesh>, buffer: seq<Snapshot>)

  /** A rest callback, identified by who subscribed it. */
  type Listener = nat

  /** One invocation `cb(id, quat)` of a rest callback. */
  datatype ListenerCall = ListenerCall(listener: Listener, id: string, quaternion: Quat)

  // ---------------------------------------------------------------------
  // The buffer

  /** `buffer.push(s)`, then `shift()` if the length exceeds the capacity. */
  function Appended(buffer: seq<Snapshot>, s: Snapshot): (r: seq<Snapshot>)
    ensures 0 < |r| <= |buffer| + 1 && r[|r| - 1] == s
    ensures |buffer| <= BUFFER_CAPACITY ==> |r| <= BUFFER_CAPACITY
    ensures |buffer| < BUFFER_CAPACITY ==> r == buffer + [s]
  {
    var pushed := buffer + [s];
    if |pushed| > BUFFER_CAPACITY then pushed[1..] else pushed
  }

  /** The snapshot a message carries for `id`. */
  function SnapshotOf(msg: Notification, id: string): Snapshot
    requires id in msg.positions && id in msg.quaternions
  {
    Snapshot(msg.positions[id], msg.quaternions[id], msg.time)
  }

  /** The worker always sends both maps with the same ids (see `PhysicsWorker.StepMessageKeys`). */
  predicate WellKeyed(msg: Notification)
  {
    msg.positions.Keys <= msg.quaternions.Keys
  }

  /** Every registered body named in the message gets that message's snapshot appended. */
  function Delivered(bodies: map<string, Tracked>, msg: Notification): map<string, Tracked>
    requires WellKeyed(msg)
  {
    map id | id in bodies ::
      if id in msg.positions then bodies[id].(buffer := Appended(bodies[id].buffer, SnapshotOf(msg, id)))
      else bodies[id]
  }

  /** The rest callbacks a message triggers, in subscription order. */
  function RestCalls(listeners: seq<Listener>, msg: Notification): (calls: seq<ListenerCall>)
  {
    if msg.kind == RestDetected && DICE_ID in msg.quaternions then
      seq(|listeners|, i requires 0 <= i < |listeners| => ListenerCall(listeners[i], DICE_ID, msg.quaternions[DICE_ID]))
    else []
  }

  // ---------------------------------------------------------------------
  // Bracket search and interpolation

  /** The highest index whose snapshot is at or before `t`, if any. */
  function Latest(buffer: seq<Snapshot>, t: real): (r: Option<nat>)
    ensures r.Some? ==> r.value < |buffer|
    decreases |buffer|
  {
    if buffer == [] then None
    else if buffer[|buffer| - 1].time <= t then Some(|buffer| - 1)
    else Latest(buffer[..|buffer| - 1], t)
  }

  function Lerp(a: real, b: real, alpha: real): real
  {
    a + (b - a) * alpha
  }

  function LerpVec(a: Vec3, b: Vec3, alpha: real): Vec3
  {
    Vec3(Lerp(a.x, b.x, alpha), Lerp(a.y, b.y, alpha), Lerp(a.z, b.z, alpha))
  }

  type Slerp = (Quat, Quat, real) -> Quat

  /** The pose a mesh is set to this frame, or None when the mesh is left as it is. */
  function Target(buffer: seq<Snapshot>, renderTime: real, slerp: Slerp): Option<Pose>
  {
    if buffer == [] then None
    else
      var latest := buffer[|buffer| - 1];
      var snap := Some(Pose(latest.position, latest.quaternion));
      match Latest(buffer, renderTime)
      case None => snap
      case Some(i) =>
        if i + 1 < |buffer| then
          var older, newer := buffer[i], buffer[i + 1];
          var timeDiff := newer.time - older.time;
          if timeDiff > 0.0 then
            var alpha := (renderTime - older.time) / timeDiff;
            Some(Pose(LerpVec(older.position, newer.position, alpha), slerp(older.quaternion, newer.quaternion, alpha)))
          else None
        else snap
  }

  /** The newest-to-oldest scan of `syncVisuals`, with its early exit. */
  method FindBracket(buffer: seq<Snapshot>, renderTime: real) returns (older: Option<nat>, newer: Option<nat>)
    ensures older.Some? ==> older.value < |buffer| && buffer[older.value].time <= renderTime
    ensures older.Some? ==> forall j :: older.value < j < |buffer| ==> buffer[j].time > renderTime
    ensures older.None? ==> forall j :: 0 <= j < |buffer| ==> buffer[j].time > renderTime
    ensures newer == if older.Some? && older.value + 1 < |buffer| then Some(older.value + 1) else None
    ensures older == Latest(buffer, renderTime)
  {
    older, newer := None, None;
    var i: int := |buffer| - 1;
    assert buffer[..i + 1] == buffer;
    while i >= 0
      invariant -1 <= i < |buffer|
      invariant forall j :: i < j < |buffer| ==> buffer[j].time > renderTime
      invariant Latest(buffer, renderTime) == Latest(buffer[..i + 1], renderTime)
    {
      var state := buffer[i];
      if state.time <= renderTime {
        older := Some(i);
        if i + 1 < |buffer| {
          newer := Some(i + 1);
        }
        assert buffer[..i + 1][..i + 1 - 1] == buffer[..i];
        return;
      }
      assert buffer[..i + 1][..i] == buffer[..i];
      i := i - 1;
    }
  }

  // ---------------------------------------------------------------------
  // The proxy

  /** `addWallDirect`: a static box of height WALL_HEIGHT standing on the floor at (x, z). */
  function WallCommand(name: string, x: real, z: real, w: real, d: real): Command
  {
    Command.AddBody("wall_" + name, 0.0, Vec3(x, WALL_HEIGHT / 2.0, z), BoxKind,
                    Some(Vec3(w / 2.0, WALL_HEIGHT / 2.0, d / 2.0)))
  }

  /** The four walls of a tray `size` wide, centred on the origin. */
  function WallCommands(size: real): (cmds: seq<Command>)
    ensures |cmds| == 4
    ensures forall c :: c in cmds ==>
      && c.AddBody? && c.mass == 0.0 && c.shape == BoxKind && c.size.Some?
      && c.position.y == WALL_HEIGHT / 2.0 && c.size.value.y == WALL_HEIGHT / 2.0
  {
    var half := size / 2.0;
    [WallCommand("back", 0.0, -half, size, WALL_THICKNESS),
     WallCommand("front", 0.0, half, size, WALL_THICKNESS),
     WallCommand("left", -half, 0.0, WALL_THICKNESS, size),
     WallCommand("right", half, 0.0, WALL_THICKNESS, size)]
  }

  /** The buffer `addBody` starts a body with. */
  function InitialBuffer(now: real): seq<Snapshot>
  {
    [Snapshot(Zero, Identity, now)]
  }

  class PhysicsService {
    var bodies: map<string, Tracked>
    var restListeners: seq<Listener>
    /** Every command posted to the worker, oldest first. */
    var outbox: seq<Command>

    /** Buffers are non-empty and bounded; no two bodies share a mesh. */
    ghost predicate Valid()
      reads this
    {
      && (forall id :: id in bodies ==> 0 < |bodies[id].buffer| <= BUFFER_CAPACITY)
      && (forall a, b :: a in bodies && b in bodies && a != b && bodies[a].mesh.Some? && bodies[b].mesh.Some?
            ==> bodies[a].mesh.value != bodies[b].mesh.value)
    }

    ghost function Meshes(): set<Mesh>
      reads this
    {
      set id | id in bodies && bodies[id].mesh.Some? :: bodies[id].mesh.value
    }

    /** Starts the worker and posts INIT with the configured gravity. */
    constructor()
      ensures Valid()
      ensures bodies == map[] && restListeners == [] && outbox == [Init(GRAVITY)]
    {
      bodies := map[];
      restListeners := [];
      outbox := [Init(GRAVITY)];
    }

    method OnDiceRest(callback: Listener)
      modifies this
      ensures restListeners == old(restListeners) + [callback]
      ensures bodies == old(bodies) && outbox == old(outbox)
    {
      restListeners := restListeners + [callback];
    }

    /** The worker's `onmessage`: notify the rest listeners, then buffer the snapshots. */
    method OnWorkerMessage(msg: Notification) returns (calls: seq<ListenerCall>)
      requires Valid() && WellKeyed(msg)
      modifies this
      ensures Valid()
      ensures calls == RestCalls(restListeners, msg)
      ensures bodies == Delivered(old(bodies), msg)
      ensures restListeners == old(restListeners) && outbox == old(outbox)
    {
      calls := [];
      if msg.kind == RestDetected && DICE_ID in msg.quaternions {
        var quat := msg.quaternions[DICE_ID];
        for i := 0 to |restListeners|
          invariant unchanged(this)
          invariant |calls| == i
          invariant forall k :: 0 <= k < i ==> calls[k] == ListenerCall(restListeners[k], DICE_ID, quat)
        {
          calls := calls + [ListenerCall(restListeners[i], DICE_ID, quat)];
        }
      }
      // both UPDATE and REST_DETECTED carry snapshots
      ghost var before := bodies;
      var pending := msg.positions.Keys;
      while pending != {}
        invariant pending <= msg.positions.Keys
        invariant restListeners == old(restListeners) && outbox == old(outbox)
        invariant bodies.Keys == before.Keys
        invariant forall id :: id in bodies ==>
          bodies[id] == if id in msg.positions && id !in pending then Delivered(before, msg)[id] else before[id]
        decreases pending
      {
        var id :| id in pending;
        if id in bodies {
          var data := bodies[id];
          var buffer := data.buffer + [SnapshotOf(msg, id)];
          if |buffer| > BUFFER_CAPACITY {
            buffer := buffer[1..];
          }
          bodies := bodies[id := data.(buffer := buffer)];
        }
        pending := pending - {id};
      }
      DeliveredKeepsBounds(before, msg);
    }

    /** `update(dt)`: ask the worker for one STEP. */
    method Update(dt: real)
      modifies this
      ensures outbox == old(outbox) + [Step(dt)]
      ensures bodies == old(bodies) && restListeners == old(restListeners)
    {
      outbox := outbox + [Step(dt)];
    }

    /** Track `id` with a fresh one-snapshot buffer and ask the worker to build it. */
    method AddBody(id: string, mesh: Option<Mesh>, mass: real, shape: ShapeKind,
                   size: Option<Vec3>, pos: Option<Vec3>, now: real)
      requires Valid()
      requires mesh.Some? ==> forall other :: other in bodies && other != id && bodies[other].mesh.Some?
                                ==> bodies[other].mesh.value != mesh.value
      modifies this
      ensures Valid()
      ensures bodies == old(bodies)[id := Tracked(mesh, InitialBuffer(now))]
      ensures outbox == old(outbox) + [Command.AddBody(id, mass, pos.GetOr(Zero), shape, size)]
      ensures restListeners == old(restListeners)
    {
      var initialState := Snapshot(Zero, Identity, now);
      bodies := bodies[id := Tracked(mesh, [initialState])];
      outbox := outbox + [Command.AddBody(id, mass, pos.GetOr(Zero), shape, size)];
    }

    method AddFloor(now: real)
      requires Valid()
      modifies this
      ensures Valid()
      ensures bodies == old(bodies)["floor" := Tracked(None, InitialBuffer(now))]
      ensures outbox == old(outbox) + [Command.AddBody("floor", 0.0, Zero, PlaneKind, None)]
      ensures restListeners == old(restListeners)
    {
      AddBody("floor", None, 0.0, PlaneKind, None, Some(Zero), now);
    }

    /** Walls go to the worker only; the proxy does not track them. */
    method AddWalls(size: real)
      modifies this
      ensures outbox == old(outbox) + WallCommands(size)
      ensures bodies == old(bodies) && restListeners == old(restListeners)
    {
      var halfSize := size / 2.0;
      outbox := outbox + [WallCommand("back", 0.0, -halfSize, size, WALL_THICKNESS)];
      outbox := outbox + [WallCommand("front", 0.0, halfSize, size, WALL_THICKNESS)];
      outbox := outbox + [WallCommand("left", -halfSize, 0.0, WALL_THICKNESS, size)];
      outbox := outbox + [WallCommand("right", halfSize, 0.0, WALL_THICKNESS, size)];
    }

    method ApplyImpulse(id: string, impulse: Vec3, point: Vec3)
      modifies this
      ensures outbox == old(outbox) + [Command.ApplyImpulse(id, impulse, point)]
      ensures bodies == old(bodies) && restListeners == old(restListeners)
    {
      outbox := outbox + [Command.ApplyImpulse(id, impulse, point)];
    }

    method ApplyTorque(id: string, torque: Vec3)
      modifies this
      ensures outbox == old(outbox) + [Command.ApplyTorque(id, torque)]
      ensures bodies == old(bodies) && restListeners == old(restListeners)
    {
      outbox := outbox + [Command.ApplyTorque(id, torque)];
    }

    method ResetBody(id: string, position: Vec3)
      modifies this
      ensures outbox == old(outbox) + [ResetPosition(id, position)]
      ensures bodies == old(bodies) && restListeners == old(restListeners)
    {
      outbox := outbox + [ResetPosition(id, position)];
    }

    /** Move every mesh to its body's pose at `now − PHYSICS_DELAY`. */
    method SyncVisuals(now: real, slerp: Slerp)
      requires Valid()
      modifies Meshes()
      ensures forall id :: id in bodies && bodies[id].mesh.Some? ==>
        var m := bodies[id].mesh.value;
        Shows(m, Target(bodies[id].buffer, now - PHYSICS_DELAY, slerp), old(m.position), old(m.quaternion))
    {
      var renderTime := now - PHYSICS_DELAY;
      var pending := bodies.Keys;
      while pending != {}
        invariant pending <= bodies.Keys
        invariant forall id :: id in bodies && id !in pending && bodies[id].mesh.Some? ==>
          var m := bodies[id].mesh.value;
          Shows(m, Target(bodies[id].buffer, renderTime, slerp), old(m.position), old(m.quaternion))
        invariant forall id :: id in pending && bodies[id].mesh.Some? ==>
          var m := bodies[id].mesh.value;
          m.position == old(m.position) && m.quaternion == old(m.quaternion)
        decreases pending
      {
        var id :| id in pending;
        var data := bodies[id];
        if data.mesh.Some? {
          assert data.mesh.value in Meshes();
          SyncMesh(data.mesh.value, data.buffer, renderTime, slerp);
        }
        pending := pending - {id};
      }
    }
  }

  /** The mesh shows `target`, or still shows (p0, q0) when there is none. */
  ghost predicate Shows(m: Mesh, target: Option<Pose>, p0: Vec3, q0: Quat)
    reads m
  {
    match target
    case Some(p) => m.position == p.position && m.quaternion == p.quaternion
    case None => m.position == p0 && m.quaternion == q0
  }

  /** The body of the `forEach` in `syncVisuals`, for one body with a mesh. */
  method SyncMesh(mesh: Mesh, buffer: seq<Snapshot>, renderTime: real, slerp: Slerp)
    modifies mesh
    ensures Shows(mesh, Target(buffer, renderTime, slerp), old(mesh.position), old(mesh.quaternion))
  {
    if |buffer| == 0 {
      return;
    }
    var older, newer := FindBracket(buffer, renderTime);
    if older.Some? && newer.Some? {
      var o, n := buffer[older.value], buffer[newer.value];
      var timeDiff := n.time - o.time;
      if timeDiff > 0.0 {
        var alpha := (renderTime - o.time) / timeDiff;
        mesh.position := LerpVec(o.position, n.position, alpha);
        mesh.quaternion := slerp(o.quaternion, n.quaternion, alpha);
      }
    } else {
      var latest := buffer[|buffer| - 1];
      mesh.position := latest.position;
      mesh.quaternion := latest.quaternion;
    }
  }

  // ---------------------------------------------------------------------
  // Laws

  /** `Latest` finds the highest index at or before `t`; every later entry is after `t`. */
  lemma {:induction false} LatestIsLastAtOrBefore(buffer: seq<Snapshot>, t: real)
    ensures match Latest(buffer, t)
      case Some(i) => buffer[i].time <= t && forall j :: i < j < |buffer| ==> buffer[j].time > t
      case None => forall j :: 0 <= j < |buffer| ==> buffer[j].time > t
    decreases |buffer|
  {
    if buffer != [] && buffer[|buffer| - 1].time > t {
      var init := buffer[..|buffer| - 1];
      LatestIsLastAtOrBefore(init, t);
      assert forall j :: 0 <= j < |init| ==> init[j] == buffer[j];
    }
  }

  /** Appending keeps at most the capacity, is never empty, and ends with the new snapshot. */
  lemma AppendedBounded(buffer: seq<Snapshot>, s: Snapshot)
    requires |buffer| <= BUFFER_CAPACITY
    ensures var r := Appended(buffer, s);
      && 0 < |r| <= BUFFER_CAPACITY
      && r[|r| - 1] == s
      && |r| == if |buffer| == BUFFER_CAPACITY then BUFFER_CAPACITY else |buffer| + 1
  {
  }

  /** The buffer keeps the newest snapshots in arrival order: it is a suffix of the full history. */
  lemma AppendedKeepsNewest(buffer: seq<Snapshot>, s: Snapshot)
    requires |buffer| <= BUFFER_CAPACITY
    ensures var r := Appended(buffer, s);
      r == (buffer + [s])[|buffer| + 1 - |r|..]
  {
  }

  /** Delivery keeps every buffer non-empty and within capacity, and adds no bodies. */
  lemma DeliveredKeepsBounds(bodies: map<string, Tracked>, msg: Notification)
    requires WellKeyed(msg)
    requires forall id :: id in bodies ==> 0 < |bodies[id].buffer| <= BUFFER_CAPACITY
    ensures var d := Delivered(bodies, msg);
      && d.Keys == bodies.Keys
      && (forall id :: id in d ==> 0 < |d[id].buffer| <= BUFFER_CAPACITY && d[id].mesh == bodies[id].mesh)
  {
    forall id | id in bodies && id in msg.positions {
      AppendedBounded(bodies[id].buffer, SnapshotOf(msg, id));
    }
  }

  /** Ids the proxy does not track (walls, for one) are ignored; tracked ids get exactly one snapshot. */
  lemma DeliveredOnlyTracked(bodies: map<string, Tracked>, msg: Notification, id: string)
    requires WellKeyed(msg)
    ensures id !in bodies ==> id !in Delivered(bodies, msg)
    ensures id in bodies && id !in msg.positions ==> Delivered(bodies, msg)[id] == bodies[id]
    ensures id in bodies && id in msg.positions ==>
      var b := Delivered(bodies, msg)[id].buffer;
      |b| > 0 && b[|b| - 1] == Snapshot(msg.positions[id], msg.quaternions[id], msg.time)
  {
  }

  /** Listeners run in subscription order, for REST_DETECTED carrying the die's orientation only. */
  lemma RestCallsInOrder(listeners: seq<Listener>, msg: Notification)
    ensures var calls := RestCalls(listeners, msg);
      && (calls != [] ==> msg.kind == RestDetected && DICE_ID in msg.quaternions)
      && (msg.kind == RestDetected && DICE_ID in msg.quaternions ==>
            |calls| == |listeners|
            && forall k :: 0 <= k < |calls| ==>
                 calls[k] == ListenerCall(listeners[k], DICE_ID, msg.quaternions[DICE_ID]))
  {
  }

  /** With both bracket entries, older.time ≤ renderTime < newer.time, so alpha ∈ [0, 1). */
  lemma BracketStraddles(buffer: seq<Snapshot>, renderTime: real, i: nat)
    requires Latest(buffer, renderTime) == Some(i) && i + 1 < |buffer|
    ensures buffer[i].time <= renderTime < buffer[i + 1].time
    ensures var alpha := (renderTime - buffer[i].time) / (buffer[i + 1].time - buffer[i].time);
      0.0 <= alpha < 1.0
  {
    LatestIsLastAtOrBefore(buffer, renderTime);
    var d := buffer[i + 1].time - buffer[i].time;
    var e := renderTime - buffer[i].time;
    assert 0.0 <= e < d;
    var alpha := e / d;
    assert alpha * d == e;
    if alpha >= 1.0 {
      MulNonNeg(d, alpha - 1.0);
    }
  }

  /** The `timeDiff > 0` guard always passes: a non-empty buffer always yields a pose. */
  lemma TargetDefined(buffer: seq<Snapshot>, renderTime: real, slerp: Slerp)
    requires buffer != []
    ensures Target(buffer, renderTime, slerp).Some?
  {
    var r := Latest(buffer, renderTime);
    if r.Some? && r.value + 1 < |buffer| {
      BracketStraddles(buffer, renderTime, r.value);
    }
  }

  lemma MulNonNeg(x: real, y: real)
    requires x >= 0.0 && y >= 0.0
    ensures x * y >= 0.0
  {
  }

  /** A linear interpolation with alpha in [0, 1] stays between its endpoints, and is `a` at 0. */
  lemma LerpBetween(a: real, b: real, alpha: real)
    requires 0.0 <= alpha <= 1.0
    ensures a <= b ==> a <= Lerp(a, b, alpha) <= b
    ensures b <= a ==> b <= Lerp(a, b, alpha) <= a
    ensures alpha == 0.0 ==> Lerp(a, b, alpha) == a
  {
    assert b - Lerp(a, b, alpha) == (b - a) * (1.0 - alpha);
    if a <= b {
      MulNonNeg(b - a, alpha);
      MulNonNeg(b - a, 1.0 - alpha);
    } else {
      MulNonNeg(a - b, alpha);
      MulNonNeg(a - b, 1.0 - alpha);
    }
  }

  predicate Between(v: real, a: real, b: real)
  {
    (a <= v <= b) || (b <= v <= a)
  }

  /** Convexity: each interpolated component lies between the older and newer components. */
  lemma InterpolationConvex(buffer: seq<Snapshot>, renderTime: real, slerp: Slerp, i: nat)
    requires Latest(buffer, renderTime) == Some(i) && i + 1 < |buffer|
    ensures var p := Target(buffer, renderTime, slerp);
      var o, n := buffer[i].position, buffer[i + 1].position;
      && p.Some?
      && Between(p.value.position.x, o.x, n.x)
      && Between(p.value.position.y, o.y, n.y)
      && Between(p.value.position.z, o.z, n.z)
      && (renderTime == buffer[i].time ==> p.value.position == o)
  {
    BracketStraddles(buffer, renderTime, i);
    var o, n := buffer[i], buffer[i + 1];
    var alpha := (renderTime - o.time) / (n.time - o.time);
    assert Target(buffer, renderTime, slerp)
      == Some(Pose(LerpVec(o.position, n.position, alpha), slerp(o.quaternion, n.quaternion, alpha)));
    if renderTime == o.time {
      ZeroOver(renderTime - o.time, n.time - o.time);
    }
    LerpBetween(o.position.x, n.position.x, alpha);
    LerpBetween(o.position.y, n.position.y, alpha);
    LerpBetween(o.position.z, n.position.z, alpha);
  }

  lemma ZeroOver(e: real, d: real)
    requires e == 0.0 && d != 0.0
    ensures e / d == 0.0
  {
  }

  /** Without a bracket the mesh snaps exactly to the newest snapshot. */
  lemma SnapWithoutBracket(buffer: seq<Snapshot>, renderTime: real, slerp: Slerp)
    requires buffer != []
    requires Latest(buffer, renderTime).None? || Latest(buffer, renderTime) == Some(|buffer| - 1)
    ensures Target(buffer, renderTime, slerp)
      == Some(Pose(buffer[|buffer| - 1].position, buffer[|buffer| - 1].quaternion))
  {
  }

  /** The delay is two frames of 1000/60 ms. */
  lemma DelayIsTwoFrames()
    ensures PHYSICS_DELAY * 60.0 == 2000.0
  {
  }
}
