/**
 * The die (src/Dice.ts): its face table, the reading of the face that
 * points up from the body's orientation, the throw, and the registration
 * of the die with the physics proxy when it is built.
 *
 * `Math.random()` is not modelled as a generator: the six values a throw
 * draws are the `Draws` parameter of `Roll`.
 */
module DiceModel {
  import opened Wrappers
  import opened Vectors
  import opened Config
  import opened PhysicsWorker
  import opened PhysicsProxy
  import opened Texture

  /** A face of the die: its outward normal in the die's own frame and the number printed on it. */
  datatype Face = Face(normal: Vec3, value: int)

  const PlusX: Vec3 := Vec3(1.0, 0.0, 0.0)
  const MinusX: Vec3 := Vec3(-1.0, 0.0, 0.0)
  const PlusY: Vec3 := Vec3(0.0, 1.0, 0.0)
  const MinusY: Vec3 := Vec3(0.0, -1.0, 0.0)
  const PlusZ: Vec3 := Vec3(0.0, 0.0, 1.0)
  const MinusZ: Vec3 := Vec3(0.0, 0.0, -1.0)

  /** The face table, in the order `getResult` visits it. */
  const FaceNormals: seq<Face> :=
    [Face(PlusY, 2), Face(MinusY, 5), Face(PlusX, 3), Face(MinusX, 4), Face(PlusZ, 1), Face(MinusZ, 6)]

  /** The box faces in three.js `BoxGeometry` material order: +x, −x, +y, −y, +z, −z. */
  const BoxFaceOrder: seq<Vec3> := [PlusX, MinusX, PlusY, MinusY, PlusZ, MinusZ]

  /** The number whose texture is generated for each material slot of the die's mesh. */
  const FaceTextures: seq<int> := [3, 4, 2, 5, 1, 6]

  /** Width in pixels of the face textures. */
  const TEXTURE_SIZE: real := 512.0

  /** Half the die's edge on every axis: the box half-extents sent with ADD_BODY. */
  const HalfExtents: Vec3 := Vec3(DICE_SIZE / 2.0, DICE_SIZE / 2.0, DICE_SIZE / 2.0)

  /** Where a throw restarts the die. */
  const ROLL_START: Vec3 := Vec3(0.0, 5.0, 0.0)

  /** Amplitude of the random torque of a throw. */
  const ROLL_TORQUE: real := 15.0

  // ---------------------------------------------------------------------
  // Reading the result

  /** How far face `f`'s normal points up once the die is turned by `q`. */
  function UpDot(f: Face, q: Quat): real
  {
    Dot(Rotate(f.normal, q), WorldUp)
  }

  /** `UpDot` for every entry of the face table, in table order. */
  function UpDots(q: Quat): (ds: seq<real>)
    ensures |ds| == |FaceNormals|
    ensures forall i :: 0 <= i < |ds| ==> ds[i] == UpDot(FaceNormals[i], q)
  {
    seq(|FaceNormals|, i requires 0 <= i < |FaceNormals| => UpDot(FaceNormals[i], q))
  }

  /** The index of the first greatest element of `ds`. */
  function ArgMax(ds: seq<real>): (k: nat)
    requires |ds| > 0
    ensures k < |ds|
  {
    if |ds| == 1 then 0
    else
      var k := ArgMax(ds[..|ds| - 1]);
      if ds[|ds| - 1] > ds[k] then |ds| - 1 else k
  }

  /** `ArgMax` picks a greatest element, and no earlier element is as great. */
  lemma {:induction false} ArgMaxIsFirstMax(ds: seq<real>)
    requires |ds| > 0
    ensures forall j :: 0 <= j < |ds| ==> ds[j] <= ds[ArgMax(ds)]
    ensures forall j :: 0 <= j < ArgMax(ds) ==> ds[j] < ds[ArgMax(ds)]
  {
    if |ds| > 1 {
      var init := ds[..|ds| - 1];
      ArgMaxIsFirstMax(init);
      assert forall j :: 0 <= j < |init| ==> ds[j] == init[j];
    }
  }

  /** The face that points up for orientation `q`. */
  function UpFace(q: Quat): (f: Face)
    ensures f in FaceNormals
    ensures 1 <= f.value <= 6
  {
    FaceNormals[ArgMax(UpDots(q))]
  }

  /**
   * The face `getResult` reports points at least as far up as every other
   * face, and strictly further up than every face listed before it.
   */
  lemma UpFaceIsHighest(q: Quat)
    ensures UpFace(q) in FaceNormals
    ensures forall f :: f in FaceNormals ==> UpDot(f, q) <= UpDot(UpFace(q), q)
    ensures forall j :: 0 <= j < ArgMax(UpDots(q)) ==> UpDot(FaceNormals[j], q) < UpDot(UpFace(q), q)
  {
    ArgMaxIsFirstMax(UpDots(q));
  }

  // ---------------------------------------------------------------------
  // The face table

  /** The numbers printed on the faces, in table order. */
  function FaceValues(): (vs: seq<int>)
    ensures |vs| == |FaceNormals|
    ensures forall i :: 0 <= i < |vs| ==> vs[i] == FaceNormals[i].value
  {
    seq(|FaceNormals|, i requires 0 <= i < |FaceNormals| => FaceNormals[i].value)
  }

  /** The table prints each number 1 to 6 exactly once, and opposite faces sum to seven. */
  lemma FaceTableIsADie()
    ensures |FaceNormals| == 6
    ensures forall v :: v in FaceValues() <==> 1 <= v <= 6
    ensures forall i, j :: 0 <= i < j < 6 ==> FaceValues()[i] != FaceValues()[j]
    ensures forall k :: 0 <= k < 3 ==>
      FaceNormals[2 * k + 1].normal == Neg(FaceNormals[2 * k].normal)
      && FaceNormals[2 * k].value + FaceNormals[2 * k + 1].value == 7
  {
    assert FaceValues() == [2, 5, 3, 4, 1, 6];
  }

  /** For each material slot, the index of the table entry whose normal is that slot's box face. */
  const SlotFace: seq<nat> := [2, 3, 0, 1, 4, 5]

  /**
   * The texture generated for each material slot shows the number the
   * table assigns to that slot's normal, with that many pips.
   */
  lemma TexturesMatchTable()
    ensures forall k :: 0 <= k < 6 ==>
      SlotFace[k] < |FaceNormals|
      && FaceNormals[SlotFace[k]].normal == BoxFaceOrder[k]
      && FaceNormals[SlotFace[k]].value == FaceTextures[k]
      && |PipCentres(FaceTextures[k] as real, TEXTURE_SIZE)| == FaceTextures[k]
  {
    forall k | 0 <= k < 6
      ensures |PipCentres(FaceTextures[k] as real, TEXTURE_SIZE)| == FaceTextures[k]
    {
      PipCount(FaceTextures[k], TEXTURE_SIZE);
    }
  }

  // ---------------------------------------------------------------------
  // Geometry of the reading

  /** The height of a turned vector, as the second row of the rotation matrix of `q`. */
  lemma HeightOf(v: Vec3, q: Quat)
    ensures Rotate(v, q).y
      == v.y * (1.0 - 2.0 * (q.x * q.x + q.z * q.z))
       + 2.0 * v.x * (q.w * q.z + q.x * q.y)
       + 2.0 * v.z * (q.y * q.z - q.w * q.x)
  {
  }

  /** Height of the turned +Y axis: entry (2, 2) of the rotation matrix of `q`. */
  function HeightY(q: Quat): real
  {
    1.0 - 2.0 * (q.x * q.x + q.z * q.z)
  }

  /** Height of the turned +X axis: entry (2, 1) of the rotation matrix of `q`. */
  function HeightX(q: Quat): real
  {
    2.0 * (q.w * q.z + q.x * q.y)
  }

  /** Height of the turned +Z axis: entry (2, 3) of the rotation matrix of `q`. */
  function HeightZ(q: Quat): real
  {
    2.0 * (q.y * q.z - q.w * q.x)
  }

  /** The heights of the six faces, in table order, given those of the turned +Y, +X and +Z axes. */
  function SignedHeights(y: real, x: real, z: real): seq<real>
  {
    [y, -y, x, -x, z, -z]
  }

  /** The heights of the six turned face normals. */
  lemma AxisHeights(q: Quat)
    ensures Rotate(PlusY, q).y == HeightY(q) && Rotate(MinusY, q).y == -HeightY(q)
    ensures Rotate(PlusX, q).y == HeightX(q) && Rotate(MinusX, q).y == -HeightX(q)
    ensures Rotate(PlusZ, q).y == HeightZ(q) && Rotate(MinusZ, q).y == -HeightZ(q)
  {
    HeightOf(PlusY, q);
    HeightOf(MinusY, q);
    HeightOf(PlusX, q);
    HeightOf(MinusX, q);
    HeightOf(PlusZ, q);
    HeightOf(MinusZ, q);
  }

  /** The heights `getResult` computes are ±, in pairs, the second row of the rotation matrix. */
  lemma UpDotsByRow(q: Quat)
    ensures UpDots(q) == SignedHeights(HeightY(q), HeightX(q), HeightZ(q))
  {
    AxisHeights(q);
  }

  /** Opposite faces always point equally far up and down. */
  lemma OppositeFacesOppositeHeights(q: Quat)
    ensures forall k :: 0 <= k < 3 ==> UpDots(q)[2 * k + 1] == -UpDots(q)[2 * k]
  {
    UpDotsByRow(q);
  }

  /** The reported face never points below the horizon. */
  lemma UpFaceNotDown(q: Quat)
    ensures UpDot(UpFace(q), q) >= 0.0
  {
    var ds := UpDots(q);
    OppositeFacesOppositeHeights(q);
    PairedMaxNonNeg(ds);
  }

  /** When the first two elements are opposite, the greatest element is not negative. */
  lemma PairedMaxNonNeg(ds: seq<real>)
    requires |ds| >= 2 && ds[1] == -ds[0]
    ensures ds[ArgMax(ds)] >= 0.0
  {
    ArgMaxIsFirstMax(ds);
    assert ds[0] <= ds[ArgMax(ds)] && ds[1] <= ds[ArgMax(ds)];
  }

  /** Element `k` is strictly greater than every other element. */
  predicate StrictMaxAt(ds: seq<real>, k: nat)
  {
    k < |ds| && forall j :: 0 <= j < |ds| && j != k ==> ds[j] < ds[k]
  }

  /** An element strictly greater than all others is the one `ArgMax` picks. */
  lemma ArgMaxOfStrictMax(ds: seq<real>, k: nat)
    requires StrictMaxAt(ds, k)
    ensures ArgMax(ds) == k
  {
    ArgMaxIsFirstMax(ds);
  }

  /** Turning the die about the vertical axis does not change the height of any turned vector. */
  lemma YawKeepsHeight(v: Vec3, q: Quat, r: Quat)
    requires IsYaw(r)
    ensures Rotate(v, Mul(r, q)).y == Rotate(v, q).y
  {
    var s, c := r.y, r.w;
    var p := Mul(r, q);
    assert p == Quat(c * q.x + s * q.z, s * q.w + c * q.y, c * q.z - s * q.x, c * q.w - s * q.y);
    assert p.x * p.x + p.z * p.z == (s * s + c * c) * (q.x * q.x + q.z * q.z);
    assert p.w * p.z + p.x * p.y == (s * s + c * c) * (q.w * q.z + q.x * q.y);
    assert p.y * p.z - p.w * p.x == (s * s + c * c) * (q.y * q.z - q.w * q.x);
    HeightOf(v, q);
    HeightOf(v, p);
  }

  /** Spinning a resting die about the vertical axis does not change the number read. */
  lemma YawKeepsResult(q: Quat, r: Quat)
    requires IsYaw(r)
    ensures UpDots(Mul(r, q)) == UpDots(q)
    ensures UpFace(Mul(r, q)) == UpFace(q)
  {
    forall i | 0 <= i < |FaceNormals|
      ensures UpDots(Mul(r, q))[i] == UpDots(q)[i]
    {
      YawKeepsHeight(FaceNormals[i].normal, q, r);
    }
  }

  /** When face k's height is strictly the greatest, face k is read. */
  lemma ReadsFromHeights(q: Quat, k: nat, f: Face)
    requires StrictMaxAt(SignedHeights(HeightY(q), HeightX(q), HeightZ(q)), k)
    requires k < |FaceNormals| && FaceNormals[k] == f
    ensures UpFace(q) == f
  {
    UpDotsByRow(q);
    ArgMaxOfStrictMax(UpDots(q), k);
  }

  /** The entries of the face table, one by one. */
  lemma FaceTableEntries()
    ensures FaceNormals[0] == Face(PlusY, 2) && FaceNormals[1] == Face(MinusY, 5)
    ensures FaceNormals[2] == Face(PlusX, 3) && FaceNormals[3] == Face(MinusX, 4)
    ensures FaceNormals[4] == Face(PlusZ, 1) && FaceNormals[5] == Face(MinusZ, 6)
  {
  }

  /** In the three level poses below, the face that points straight up is strictly the highest. */
  lemma LevelPosesHaveStrictMax()
    ensures StrictMaxAt(SignedHeights(1.0, 0.0, 0.0), 0)
    ensures StrictMaxAt(SignedHeights(-1.0, 0.0, 0.0), 1)
    ensures StrictMaxAt(SignedHeights(0.0, 1.0, 0.0), 2)
  {
    forall j | 0 <= j < 6
      ensures j != 0 ==> SignedHeights(1.0, 0.0, 0.0)[j] < 1.0
      ensures j != 1 ==> SignedHeights(-1.0, 0.0, 0.0)[j] < 1.0
      ensures j != 2 ==> SignedHeights(0.0, 1.0, 0.0)[j] < 1.0
    {
      assert j in {0, 1, 2, 3, 4, 5};
    }
  }

  /** A die that is only turned about the vertical axis (the identity included) reads 2. */
  lemma YawOnlyReadsTwo(r: Quat)
    requires IsYaw(r)
    ensures UpFace(r).value == 2
  {
    YawOnlyHeights(r);
    LevelPosesHaveStrictMax();
    FaceTableEntries();
    ReadsFromHeights(r, 0, Face(PlusY, 2));
  }

  lemma YawOnlyHeights(r: Quat)
    requires IsYaw(r)
    ensures HeightY(r) == 1.0 && HeightX(r) == 0.0 && HeightZ(r) == 0.0
  {
  }

  /** Half a turn about any horizontal axis (quaternion [a, 0, b, 0], a² + b² = 1) brings −Y up: the die reads 5. */
  lemma UpsideDownReadsFive(a: real, b: real)
    requires a * a + b * b == 1.0
    ensures UpFace(Quat(a, 0.0, b, 0.0)).value == 5
  {
    UpsideDownHeights(a, b);
    LevelPosesHaveStrictMax();
    FaceTableEntries();
    ReadsFromHeights(Quat(a, 0.0, b, 0.0), 1, Face(MinusY, 5));
  }

  lemma UpsideDownHeights(a: real, b: real)
    requires a * a + b * b == 1.0
    ensures var q := Quat(a, 0.0, b, 0.0);
      HeightY(q) == -1.0 && HeightX(q) == 0.0 && HeightZ(q) == 0.0
  {
  }

  /** A quarter turn about Z (quaternion [0, 0, h, h], h² = ½) brings +X up and the die reads 3. */
  lemma QuarterTurnReadsThree(h: real)
    requires h * h == 0.5
    ensures UpFace(Quat(0.0, 0.0, h, h)).value == 3
  {
    QuarterTurnHeights(h);
    LevelPosesHaveStrictMax();
    FaceTableEntries();
    ReadsFromHeights(Quat(0.0, 0.0, h, h), 2, Face(PlusX, 3));
  }

  lemma QuarterTurnHeights(h: real)
    requires h * h == 0.5
    ensures var q := Quat(0.0, 0.0, h, h);
      HeightY(q) == 0.0 && HeightX(q) == 1.0 && HeightZ(q) == 0.0
  {
  }

  // ---------------------------------------------------------------------
  // Throwing

  /** The six `Math.random()` values a throw draws, in the order it draws them. */
  datatype Draws = Draws(force: real, impulseX: real, impulseZ: real, torqueX: real, torqueY: real, torqueZ: real)

  predicate Unit(v: real)
  {
    0.0 <= v < 1.0
  }

  /** Every draw lies in [0, 1), as `Math.random()` guarantees. */
  predicate ValidDraws(d: Draws)
  {
    Unit(d.force) && Unit(d.impulseX) && Unit(d.impulseZ) && Unit(d.torqueX) && Unit(d.torqueY) && Unit(d.torqueZ)
  }

  function RollForce(d: Draws): real
  {
    8.0 + d.force * 5.0
  }

  /** The push of a throw with the given force: sideways by the two draws, upwards by half the force. */
  function RollImpulse(d: Draws, force: real): Vec3
  {
    Vec3((d.impulseX - 0.5) * force, force * 0.5, (d.impulseZ - 0.5) * force)
  }

  function RollTorque(d: Draws): Vec3
  {
    Vec3((d.torqueX - 0.5) * ROLL_TORQUE, (d.torqueY - 0.5) * ROLL_TORQUE, (d.torqueZ - 0.5) * ROLL_TORQUE)
  }

  /** The three commands a throw posts for die `id`: restart above the table, push, spin. */
  function RollCommands(id: string, d: Draws): (cmds: seq<Command>)
    ensures |cmds| == 3
    ensures forall c :: c in cmds ==> Targets(c, id)
    ensures cmds[0].ResetPosition? && cmds[1].ApplyImpulse? && cmds[2].ApplyTorque?
  {
    [ResetPosition(id, ROLL_START), Command.ApplyImpulse(id, RollImpulse(d, RollForce(d)), Zero), Command.ApplyTorque(id, RollTorque(d))]
  }

  /** A throw pushes with a force in [8, 13). */
  lemma RollForceBounded(d: Draws)
    requires Unit(d.force)
    ensures 8.0 <= RollForce(d) < 13.0
  {
  }

  /**
   * The push points upwards with half the force, and sideways by at most
   * half the force on each horizontal axis; it is applied at the body's centre.
   */
  lemma RollImpulseBounded(d: Draws, force: real)
    requires Unit(d.impulseX) && Unit(d.impulseZ) && force > 0.0
    ensures var i := RollImpulse(d, force);
      && i.y == force / 2.0
      && -force / 2.0 <= i.x < force / 2.0
      && -force / 2.0 <= i.z < force / 2.0
    ensures RollCommands(DICE_ID, d)[1].point == Zero
  {
    var i := RollImpulse(d, force);
    assert -force / 2.0 <= i.x < force / 2.0 by { SidewaysBound(d.impulseX, force); }
    assert -force / 2.0 <= i.z < force / 2.0 by { SidewaysBound(d.impulseZ, force); }
  }

  /** (u − ½)·f lies in [−f/2, f/2) for u in [0, 1) and f > 0. */
  lemma SidewaysBound(u: real, f: real)
    requires Unit(u) && f > 0.0
    ensures -f / 2.0 <= (u - 0.5) * f < f / 2.0
  {
    MulNonNeg(u, f);
    MulPos(1.0 - u, f);
  }

  /** The spin has every torque component in [−7.5, 7.5). */
  lemma RollTorqueBounded(d: Draws)
    requires ValidDraws(d)
    ensures var t := RollTorque(d);
      -7.5 <= t.x < 7.5 && -7.5 <= t.y < 7.5 && -7.5 <= t.z < 7.5
  {
  }

  /** Products of positive reals are positive. */
  lemma MulPos(x: real, y: real)
    requires x > 0.0 && y > 0.0
    ensures x * y > 0.0
  {
  }

  /**
   * What the worker makes of a throw of a registered die with non-zero
   * mass: the die stands at (0, 5, 0) with the identity orientation and
   * is awake, its linear velocity is the one the impulse produced, its
   * spin is the impulse's plus torque / mass, rest tracking is re-armed,
   * and no other body changes.
   */
  lemma RollRestartsDie(s: WorldState, d: Draws, env: Env, h: real)
    requires DICE_ID in s.bodies && s.bodies[DICE_ID].mass != 0.0
    ensures var cmds := RollCommands(DICE_ID, d);
      var s1 := Apply(s, cmds[0], env, h).0;
      var s2 := Apply(s1, cmds[1], env, h).0;
      && Admissible(s2, cmds[2], env)
      && var s3 := Apply(s2, cmds[2], env, h).0;
      var b := s3.bodies[DICE_ID];
      var m := s.bodies[DICE_ID].mass;
      var w := env.kick.angular;
      var t := RollTorque(d);
      && s3.bodies.Keys == s.bodies.Keys
      && s3.order == s.order && s3.gravity == s.gravity
      && (forall id :: id in s.bodies && id != DICE_ID ==> s3.bodies[id] == s.bodies[id])
      && s3.rest == RestState(false, 0)
      && b.position == ROLL_START && b.quaternion == Identity && b.awake
      && b.velocity == env.kick.linear
      && b.angularVelocity == Vec3(w.x + t.x / m, w.y + t.y / m, w.z + t.z / m)
      && b.mass == m && b.shape == s.bodies[DICE_ID].shape
  {
  }

  // ---------------------------------------------------------------------
  // The die

  class Dice {
    const id: string
    const mesh: Mesh
    const physics: PhysicsService

    /** Build the die's mesh and register it with the proxy as a box of mass 1 at `position`. */
    constructor(physics: PhysicsService, position: Vec3, now: real)
      requires physics.Valid()
      modifies physics
      ensures this.physics == physics && id == DICE_ID && fresh(mesh)
      ensures physics.Valid()
      ensures physics.bodies == old(physics.bodies)[DICE_ID := Tracked(Some(mesh), InitialBuffer(now))]
      ensures physics.outbox == old(physics.outbox) + [Command.AddBody(DICE_ID, DICE_MASS, position, BoxKind, Some(HalfExtents))]
      ensures physics.restListeners == old(physics.restListeners)
    {
      var size := DICE_SIZE;
      var m := new Mesh();
      this.physics := physics;
      id := DICE_ID;
      mesh := m;
      new;
      physics.AddBody(DICE_ID, Some(m), DICE_MASS, BoxKind, Some(Vec3(size / 2.0, size / 2.0, size / 2.0)),
                      Some(position), now);
    }

    /** Post a throw: restart above the table, then a random push and a random spin. */
    method Roll(d: Draws)
      modifies physics
      ensures physics.outbox == old(physics.outbox) + RollCommands(id, d)
      ensures physics.bodies == old(physics.bodies) && physics.restListeners == old(physics.restListeners)
    {
      physics.ResetBody(id, ROLL_START);
      var force := RollForce(d);
      var torque := ROLL_TORQUE;
      physics.ApplyImpulse(id, Vec3((d.impulseX - 0.5) * force, force * 0.5, (d.impulseZ - 0.5) * force), Zero);
      physics.ApplyTorque(id, Vec3((d.torqueX - 0.5) * torque, (d.torqueY - 0.5) * torque, (d.torqueZ - 0.5) * torque));
      assert RollCommands(id, d)[0] == ResetPosition(id, ROLL_START);
      assert RollCommands(id, d)[1] == Command.ApplyImpulse(id, Vec3((d.impulseX - 0.5) * force, force * 0.5, (d.impulseZ - 0.5) * force), Zero);
      assert RollCommands(id, d)[2] == Command.ApplyTorque(id, Vec3((d.torqueX - 0.5) * torque, (d.torqueY - 0.5) * torque, (d.torqueZ - 0.5) * torque));
      assert old(physics.outbox) + RollCommands(id, d)
          == old(physics.outbox) + [RollCommands(id, d)[0]] + [RollCommands(id, d)[1]] + [RollCommands(id, d)[2]];
    }

    /**
     * The number on the face that points most nearly up: the first face of
     * the table, in table order, whose turned normal has the greatest
     * height. `maxDot` starts at −∞ (`None`), so the first face always
     * replaces the initial result 1.
     */
    method GetResult(quaternion: Quat) returns (result: int)
      ensures result == FaceNormals[ArgMax(UpDots(quaternion))].value
      ensures 1 <= result <= 6
    {
      ghost var ds := UpDots(quaternion);
      var maxDot: Option<real> := None;
      result := 1;
      for i := 0 to |FaceNormals|
        invariant i == 0 ==> maxDot.None?
        invariant i > 0 ==> maxDot == Some(ds[ArgMax(ds[..i])]) && result == FaceNormals[ArgMax(ds[..i])].value
      {
        var face := FaceNormals[i];
        var dot := Dot(Rotate(face.normal, quaternion), WorldUp);
        assert ds[..i + 1][..i] == ds[..i];
        if maxDot.None? || dot > maxDot.value {
          maxDot := Some(dot);
          result := face.value;
        }
      }
      assert ds[..|FaceNormals|] == ds;
    }
  }
}
