/**
  falling_dominoes_animation.py: fifteen dominoes stand in a row; a trigger ball is
  pushed by keyframes towards the first one and handed to the rigid-body solver at
  frame 26, while the camera follows the row in four keyed poses.
 */
module Dominoes {
  import opened SceneGraph
  import opened Keyframes
  import opened Naming

  const Count := 15
  const Spacing := 0.65
  const DominoScale := Vec(0.3, 0.8, 2.0)

  const SceneStart := 1
  const SceneEnd := 180

  /** The frame the trigger ball is given to the solver. */
  const Handoff := 26

  /** `f"Domino_{i:02d}"`: the prefix `Domino_` followed by digits. */
  function DominoName(i: nat): (name: string)
    ensures "Domino_" <= name
  {
    "Domino_" + Pad2(i)
  }

  /** Where the i-th domino stands: on the x axis, every `Spacing`, half its height up. */
  function DominoAt(i: int): (at: Vec)
    ensures at.y == 0.0 && at.z == 1.0
  {
    Vec(-5.0 + (i as real) * Spacing, 0.0, DominoScale.z / 2.0)
  }

  /** A camera pose keyed at one frame. */
  datatype Pose = Pose(frame: int, location: Vec, rotation: Vec)

  const CameraPoses := [
    Pose(1, Vec(-6.0, -10.0, 5.0), Vec(65.0, 0.0, 10.0)),
    Pose(60, Vec(-2.0, -12.0, 6.0), Vec(60.0, 0.0, 5.0)),
    Pose(120, Vec(2.0, -12.0, 6.0), Vec(60.0, 0.0, -5.0)),
    Pose(180, Vec(6.0, -10.0, 5.0), Vec(65.0, 0.0, -10.0))]

  /** The two keys of one pose: location, then rotation, both on the pose's frame. */
  function PoseKeys(o: Obj, p: Pose): (ks: seq<Key>)
    ensures |ks| == 2 && ks[0].frame == p.frame && ks[1].frame == p.frame
  {
    [Key(o, Location, p.frame, V(p.location)), Key(o, Rotation, p.frame, V(p.rotation))]
  }

  /** The keys `setup_camera` inserts, pose by pose: two per pose, from the first frame to the last. */
  function CameraKeys(camera: Obj): (ks: seq<Key>)
    ensures |ks| == 8 && ks[0].frame == SceneStart && ks[7].frame == SceneEnd
  {
    PoseKeys(camera, CameraPoses[0]) + PoseKeys(camera, CameraPoses[1]) +
    PoseKeys(camera, CameraPoses[2]) + PoseKeys(camera, CameraPoses[3])
  }

  /** The sample a pose gives to channel `ch`. */
  function PoseSample(p: Pose, ch: Channel): seq<Sample>
  {
    if ch == Location then [Sample(p.frame, V(p.location))]
    else if ch == Rotation then [Sample(p.frame, V(p.rotation))]
    else []
  }

  /**
    The keys the trigger ball gets, with `(dx, dy)` the first domino's position: pushed
    along x at height 1 from `dx - 3` (frame 1) to `dx - 0.6` (frame 25) while kinematic,
    then released at frame 26.
   */
  function BallKeys(ball: Obj, dx: real, dy: real): (ks: seq<Key>)
    ensures |ks| == 5 && ks[4] == Key(ball, Kinematic, Handoff, Flag(false))
  {
    [ Key(ball, Location, 1, V(Vec(dx - 3.0, dy, 1.0))),
      Key(ball, Kinematic, 1, Flag(true)),
      Key(ball, Location, 25, V(Vec(dx - 0.6, dy, 1.0))),
      Key(ball, Kinematic, 25, Flag(true)),
      Key(ball, Kinematic, Handoff, Flag(false)) ]
  }

  /** The rigid body `create_trigger_ball` gives the ball: heavy, and scripted at first. */
  const BallBody := Added.(mass := 2.0, friction := 0.4, restitution := 0.5, kinematic := true)

  /**
    A domino's rigid body, with `draw` the value `random.random()` returned for it: active,
    not kinematic, its mass in [0.4, 0.6) for a draw in [0, 1).
   */
  function DominoBody(draw: real): (b: RigidBody)
    ensures b.kind == Active && !b.kinematic
    ensures 0.0 <= draw < 1.0 ==> 0.4 <= b.mass < 0.6
  {
    Added.(kind := Active, mass := 0.4 + draw * 0.2, friction := 0.4, restitution := 0.1,
           linearDamping := 0.1, angularDamping := 0.1)
  }

  const GroundBody := Added.(kind := Passive, friction := 0.8)

  /** The dust plane's emission: 500 particles from frame 20 to 150, each living 50 frames. */
  const Dust := ParticleSettings("ParticleSettings", 500, 20, 150, 50, None)

  // ---------------------------------------------------------------------------
  // Properties of the constants

  /** Domino_00 .. Domino_14: two digits each, and no two dominoes share a name. */
  lemma DominoNames(i: nat, j: nat)
    requires i < Count && j < Count
    ensures |DominoName(i)| == 9
    ensures DominoName(i) == DominoName(j) <==> i == j
  {
    Pad2Width(i);
    if DominoName(i) == DominoName(j) {
      PrefixedDistinct("Domino_", Pad2(i), Pad2(j));
      Pad2Injective(i, j);
    }
  }

  /** The row runs left to right in list order, one `Spacing` apart, all at y = 0 and z = 1. */
  lemma RowOrder(i: int, j: int)
    requires 0 <= i < j < Count
    ensures DominoAt(i).x < DominoAt(j).x
    ensures DominoAt(j).x - DominoAt(i).x == ((j - i) as real) * Spacing
    ensures DominoAt(i).y == 0.0 && DominoAt(i).z == 1.0
  {
  }

  lemma PoseTrack(o: Obj, p: Pose, ch: Channel)
    ensures Track(PoseKeys(o, p), o, ch) == PoseSample(p, ch)
  {
    Track2(Key(o, Location, p.frame, V(p.location)), Key(o, Rotation, p.frame, V(p.rotation)), o, ch);
  }

  /** The camera's location and rotation are each keyed once per pose, in pose order. */
  lemma CameraTrack(camera: Obj, ch: Channel)
    ensures Track(CameraKeys(camera), camera, ch) ==
      PoseSample(CameraPoses[0], ch) + PoseSample(CameraPoses[1], ch) +
      PoseSample(CameraPoses[2], ch) + PoseSample(CameraPoses[3], ch)
  {
    var a := PoseKeys(camera, CameraPoses[0]);
    var b := PoseKeys(camera, CameraPoses[1]);
    var c := PoseKeys(camera, CameraPoses[2]);
    var d := PoseKeys(camera, CameraPoses[3]);
    TrackAppend(a + b + c, d, camera, ch);
    TrackAppend(a + b, c, camera, ch);
    TrackAppend(a, b, camera, ch);
    PoseTrack(camera, CameraPoses[0], ch);
    PoseTrack(camera, CameraPoses[1], ch);
    PoseTrack(camera, CameraPoses[2], ch);
    PoseTrack(camera, CameraPoses[3], ch);
  }

  /**
    The camera is keyed at frames 1, 60, 120 and 180: strictly increasing, from the scene's
    first frame to its last.
   */
  lemma CameraFrames(camera: Obj, ch: Channel)
    requires ch.Positional()
    ensures var t := Track(CameraKeys(camera), camera, ch);
      && |t| == 4 && Ascending(t)
      && t[0].frame == SceneStart && t[3].frame == SceneEnd
      && t[1].frame == 60 && t[2].frame == 120
  {
    CameraTrack(camera, ch);
  }

  lemma BallTrack(ball: Obj, dx: real, dy: real, ch: Channel)
    ensures Track(BallKeys(ball, dx, dy), ball, ch) ==
      if ch == Location then [Sample(1, V(Vec(dx - 3.0, dy, 1.0))), Sample(25, V(Vec(dx - 0.6, dy, 1.0)))]
      else if ch == Kinematic then [Sample(1, Flag(true)), Sample(25, Flag(true)), Sample(Handoff, Flag(false))]
      else []
  {
    var ks := BallKeys(ball, dx, dy);
    assert ks == [ks[0], ks[1]] + [ks[2], ks[3]] + [ks[4]];
    TrackAppend([ks[0], ks[1]] + [ks[2], ks[3]], [ks[4]], ball, ch);
    TrackAppend([ks[0], ks[1]], [ks[2], ks[3]], ball, ch);
    Track2(ks[0], ks[1], ball, ch);
    Track2(ks[2], ks[3], ball, ch);
    TrackOne(ks[4], ball, ch);
  }

  /** Every camera key is the camera's. */
  lemma CameraKeysOwn(camera: Obj)
    ensures forall k :: k in CameraKeys(camera) ==> k.obj == camera
  {
  }

  /**
    The ball's own keys: kinematic at frames 1 and 25, released at 26, and nothing
    positional keyed from 26 on.
   */
  lemma BallKeysHandOff(ball: Obj, dx: real, dy: real)
    ensures HandsOffAt(BallKeys(ball, dx, dy), ball, Handoff)
  {
    BallTrack(ball, dx, dy, Kinematic);
    assert forall k :: k in BallKeys(ball, dx, dy) && k.channel.Positional() ==> k.frame < Handoff;
  }

  /**
    After the camera keys and the ball keys, the ball is handed to the solver at 26, its
    only drop of the flag; it is pushed only along x, and both keyed positions lie left of
    the first domino at `dx`.
   */
  lemma BallHandsOff(camera: Obj, ball: Obj, dx: real, dy: real)
    requires camera != ball
    ensures HandsOffAt(CameraKeys(camera) + BallKeys(ball, dx, dy), ball, Handoff)
    ensures Drops(Track(CameraKeys(camera) + BallKeys(ball, dx, dy), ball, Kinematic)) == 1
    ensures Track(CameraKeys(camera) + BallKeys(ball, dx, dy), ball, Location) ==
      [Sample(1, V(Vec(dx - 3.0, dy, 1.0))), Sample(25, V(Vec(dx - 0.6, dy, 1.0)))]
    ensures dx - 3.0 < dx - 0.6 < dx
  {
    var log := CameraKeys(camera) + BallKeys(ball, dx, dy);
    CameraKeysOwn(camera);
    BallKeysHandOff(ball, dx, dy);
    HandsOffAfterOthers(CameraKeys(camera), BallKeys(ball, dx, dy), ball, Handoff);
    TrackAppend(CameraKeys(camera), BallKeys(ball, dx, dy), ball, Location);
    TrackAbsent(CameraKeys(camera), ball, Location);
    BallTrack(ball, dx, dy, Location);
    HandoffIsSingle(Track(log, ball, Kinematic));
  }

  /**
    What the host shows at frame `f` of the ball's keys: the ball kinematic again, at the
    start of its push.
   */
  ghost predicate BallShowsStart(keys: seq<Key>, f: int, ball: Obj, dx: real, dy: real)
  {
    && Ascending(Track(keys, ball, Kinematic)) && Ascending(Track(keys, ball, Location))
    && Shown(Track(keys, ball, Kinematic), f) == Some(Flag(true))
    && Shown(Track(keys, ball, Location), f) == Some(V(Vec(dx - 3.0, dy, 1.0)))
  }

  /**
    Once `frame_set(1)` has evaluated the animation again, the ball shows its frame-1
    keys: kinematic, and back at the start of its push.
   */
  lemma BallShownAtStart(keys: seq<Key>, f: int, camera: Obj, ball: Obj, dx: real, dy: real)
    requires camera != ball && keys == CameraKeys(camera) + BallKeys(ball, dx, dy) && f == 1
    ensures BallShowsStart(keys, f, ball, dx, dy)
  {
    BallOwnTrack(camera, ball, dx, dy, Kinematic);
    BallOwnTrack(camera, ball, dx, dy, Location);
    var kin := Track(keys, ball, Kinematic);
    var loc := Track(keys, ball, Location);
    assert kin == [Sample(1, Flag(true)), Sample(25, Flag(true)), Sample(Handoff, Flag(false))];
    assert loc == [Sample(1, V(Vec(dx - 3.0, dy, 1.0))), Sample(25, V(Vec(dx - 0.6, dy, 1.0)))];
  }

  /** Behind the camera's keys, the ball's tracks are those of its own keys. */
  lemma BallOwnTrack(camera: Obj, ball: Obj, dx: real, dy: real, ch: Channel)
    requires camera != ball
    ensures Track(CameraKeys(camera) + BallKeys(ball, dx, dy), ball, ch) == Track(BallKeys(ball, dx, dy), ball, ch)
    ensures Track(BallKeys(ball, dx, dy), ball, ch) ==
      if ch == Location then [Sample(1, V(Vec(dx - 3.0, dy, 1.0))), Sample(25, V(Vec(dx - 0.6, dy, 1.0)))]
      else if ch == Kinematic then [Sample(1, Flag(true)), Sample(25, Flag(true)), Sample(Handoff, Flag(false))]
      else []
  {
    CameraKeysOwn(camera);
    TrackAppend(CameraKeys(camera), BallKeys(ball, dx, dy), ball, ch);
    TrackAbsent(CameraKeys(camera), ball, ch);
    BallTrack(ball, dx, dy, ch);
  }

  /** The dust is emitted inside the simulated range, which is the scene's range. */
  lemma DustInsideCache()
    ensures SceneStart <= Dust.frameStart <= Dust.frameEnd <= SceneEnd
  {
  }

  // ---------------------------------------------------------------------------
  // The script

  /** The i-th domino as `setup_domino_scene` leaves it: named, placed, sized, upright. */
  predicate Placed(domino: Obj, i: nat)
    reads domino`location, domino`scale, domino`rotation
  {
    && domino.name == DominoName(i) && domino.location == DominoAt(i)
    && domino.scale == DominoScale && domino.rotation == Zero
  }

  /** `setup_domino_scene`: the ground, then the dominoes left to right. */
  method SetupDominoScene(scene: Scene) returns (dominoes: seq<Obj>, ground: Obj)
    modifies scene`selected, scene`active
    ensures fresh(ground) && ground.name == "Ground"
    ensures |dominoes| == Count
    ensures forall i :: 0 <= i < Count ==> fresh(dominoes[i]) && dominoes[i] != ground && Placed(dominoes[i], i)
    ensures forall i, j :: 0 <= i < j < Count ==> dominoes[i] != dominoes[j]
  {
    ground := scene.AddObject("Ground", Zero);
    ground.rotation := Zero;

    dominoes := [];
    var spacing := 0.65;
    for i := 0 to 15
      invariant |dominoes| == i && Row(dominoes, ground)
      invariant forall j :: 0 <= j < i ==> fresh(dominoes[j])
    {
      var domino := AddDomino(scene, dominoes, spacing, ground);
      dominoes := dominoes + [domino];
    }
  }

  /** The row as the loop builds it: each domino placed at its index, none the ground, no two the same. */
  ghost predicate Row(dominoes: seq<Obj>, ground: Obj)
    reads dominoes
  {
    && (forall j :: 0 <= j < |dominoes| ==> dominoes[j] != ground && Placed(dominoes[j], j))
    && (forall j, k :: 0 <= j < k < |dominoes| ==> dominoes[j] != dominoes[k])
  }

  /**
    One iteration of the row loop: a unit cube at the next place, named and scaled; the
    row with it appended is still a row.
   */
  method AddDomino(scene: Scene, dominoes: seq<Obj>, spacing: real, ghost ground: Obj) returns (domino: Obj)
    requires spacing == Spacing && Row(dominoes, ground)
    modifies scene`selected, scene`active
    ensures fresh(domino) && Row(dominoes + [domino], ground)
  {
    var i := |dominoes|;
    var x := -5.0 + (i as real) * spacing;
    domino := scene.AddObject(DominoName(i), Vec(x, 0.0, 2.0 / 2.0));
    domino.scale := Vec(0.3, 0.8, 2.0);
    domino.rotation := Zero;
    forall j | 0 <= j < i
      ensures dominoes[j] != ground && dominoes[j] != domino && Placed(dominoes[j], j)
    {
      assert old(Placed(dominoes[j], j));
    }
    RowAppend(dominoes, ground, domino);
  }

  /** A row stays a row when a new domino placed at the next index is appended. */
  lemma {:induction false} RowAppend(dominoes: seq<Obj>, ground: Obj, domino: Obj)
    requires forall j :: 0 <= j < |dominoes| ==> dominoes[j] != ground && dominoes[j] != domino && Placed(dominoes[j], j)
    requires forall j, k :: 0 <= j < k < |dominoes| ==> dominoes[j] != dominoes[k]
    requires domino != ground && Placed(domino, |dominoes|)
    ensures Row(dominoes + [domino], ground)
  {
    var row := dominoes + [domino];
    forall j | 0 <= j < |row|
      ensures row[j] != ground && Placed(row[j], j)
    {
      if j < |dominoes| {
        assert row[j] == dominoes[j];
      } else {
        assert j == |dominoes| && row[j] == domino;
      }
    }
    forall j, k | 0 <= j < k < |row|
      ensures row[j] != row[k]
    {
      assert row[j] == dominoes[j];
    }
  }

  /** `create_trigger_ball`: a sphere left of the row with a heavy, kinematic rigid body. */
  method CreateTriggerBall(scene: Scene) returns (ball: Obj)
    modifies scene`selected, scene`active, scene`rigidWorld, scene`world, scene`cacheStart, scene`cacheEnd
    ensures fresh(ball) && ball.name == "TriggerBall" && ball.body == Some(BallBody)
    ensures scene.active == ball
    ensures scene.rigidWorld && scene.world == LinkedOne(old(scene.Members()), ball)
  {
    ball := scene.AddObject("TriggerBall", Vec(-10.0, 0.0, 3.0));
    scene.RigidBodyAdd();
    ball.body := Some(ball.body.value.(kind := Active, mass := 2.0, friction := 0.4, restitution := 0.5));
    ball.body := Some(ball.body.value.(kinematic := true));
  }

  /**
    `setup_physics`: every domino becomes an active body whose mass is jittered by its
    draw, then the ground a passive one; each `rigidbody.object_add` also links the
    object into the rigid-body world.
   */
  method SetupPhysics(scene: Scene, dominoes: seq<Obj>, ground: Obj, draws: seq<real>)
    requires |draws| == |dominoes| && ground !in dominoes
    requires forall j, k :: 0 <= j < k < |dominoes| ==> dominoes[j] != dominoes[k]
    modifies scene`active, scene`rigidWorld, scene`world, scene`cacheStart, scene`cacheEnd
    modifies dominoes`body, ground`body
    ensures forall i :: 0 <= i < |dominoes| ==> dominoes[i].body == Some(DominoBody(draws[i]))
    ensures ground.body == Some(GroundBody) && scene.active == ground
    ensures scene.rigidWorld && scene.world == Linked(old(scene.Members()), dominoes + [ground])
  {
    for i := 0 to |dominoes|
      invariant forall j :: 0 <= j < i ==> dominoes[j].body == Some(DominoBody(draws[j]))
      invariant scene.Members() == Linked(old(scene.Members()), dominoes[..i])
    {
      assert dominoes[..i + 1][..i] == dominoes[..i];
      AddDominoBody(scene, dominoes[i], draws[i]);
    }
    scene.active := ground;
    scene.RigidBodyAdd();
    ground.body := Some(ground.body.value.(kind := Passive, friction := 0.8));
    assert (dominoes + [ground])[..|dominoes|] == dominoes[..|dominoes|];
  }

  /** One iteration of the physics loop: the domino's rigid body, its mass jittered by `draw`. */
  method AddDominoBody(scene: Scene, domino: Obj, draw: real)
    modifies scene`active, scene`rigidWorld, scene`world, scene`cacheStart, scene`cacheEnd, domino`body
    ensures domino.body == Some(DominoBody(draw)) && scene.active == domino
    ensures scene.rigidWorld && scene.world == LinkedOne(old(scene.Members()), domino)
  {
    scene.active := domino;
    scene.RigidBodyAdd();
    domino.body := Some(domino.body.value.(kind := Active, mass := 0.5, friction := 0.4, restitution := 0.1));
    domino.body := Some(domino.body.value.(linearDamping := 0.1, angularDamping := 0.1));
    domino.body := Some(domino.body.value.(mass := 0.4 + draw * 0.2));
  }

  /** One block of `setup_camera`: move the cursor, place the camera, key both channels. */
  method KeyPose(scene: Scene, camera: Obj, p: Pose)
    modifies scene`keys, scene`frameCurrent, camera`location, camera`rotation
    ensures scene.keys == old(scene.keys) + PoseKeys(camera, p) && scene.frameCurrent == p.frame
    ensures camera.location == p.location && camera.rotation == p.rotation
  {
    scene.FrameSet(p.frame);
    camera.location := p.location;
    camera.rotation := p.rotation;
    scene.KeyframeInsert(camera, Location, p.frame);
    scene.KeyframeInsert(camera, Rotation, p.frame);
  }

  /** `setup_camera`: the scene camera, keyed in four poses that follow the row. */
  method SetupCamera(scene: Scene) returns (camera: Obj)
    modifies scene`selected, scene`active, scene`camera, scene`keys, scene`frameCurrent
    ensures fresh(camera) && camera.name == "AnimationCamera" && scene.camera == camera
    ensures scene.keys == old(scene.keys) + CameraKeys(camera) && scene.frameCurrent == SceneEnd
  {
    camera := scene.AddObject("AnimationCamera", Vec(0.0, -12.0, 6.0));
    scene.camera := camera;
    KeyPose(scene, camera, CameraPoses[0]);
    KeyPose(scene, camera, CameraPoses[1]);
    KeyPose(scene, camera, CameraPoses[2]);
    KeyPose(scene, camera, CameraPoses[3]);
  }

  /** The kinematic push of the trigger ball towards the first domino, then its release. */
  method AnimateTriggerBall(scene: Scene, ball: Obj, dx: real, dy: real)
    requires ball.body.Some?
    modifies scene`keys, scene`frameCurrent, ball`location, ball`body
    ensures scene.keys == old(scene.keys) + BallKeys(ball, dx, dy) && scene.frameCurrent == Handoff
    ensures ball.body == Some(old(ball.body.value).(kinematic := false))
  {
    ball.body := Some(ball.body.value.(kinematic := true));

    scene.FrameSet(1);
    ball.location := Vec(dx - 3.0, dy, 1.0);
    scene.KeyframeInsert(ball, Location, 1);
    scene.KeyframeInsert(ball, Kinematic, 1);

    scene.FrameSet(25);
    ball.location := Vec(dx - 0.6, dy, 1.0);
    scene.KeyframeInsert(ball, Location, 25);
    scene.KeyframeInsert(ball, Kinematic, 25);

    scene.FrameSet(26);
    ball.body := Some(ball.body.value.(kinematic := false));
    scene.KeyframeInsert(ball, Kinematic, 26);
  }

  /** A guarded link: the object is linked only if its name is not in the collection yet. */
  method LinkIfAbsent(scene: Scene, o: Obj)
    requires scene.rigidWorld
    modifies scene`world
    ensures scene.world == LinkedOne(old(scene.world), o)
  {
    if !NameIn(scene.world, o.name) {
      scene.Link(o);
    }
  }

  /** The guarded links of the dominoes, in row order. */
  method LinkAll(scene: Scene, objs: seq<Obj>)
    requires scene.rigidWorld
    modifies scene`world
    ensures scene.world == Linked(old(scene.world), objs)
  {
    for i := 0 to |objs|
      invariant scene.rigidWorld
      invariant scene.world == Linked(old(scene.world), objs[..i])
    {
      assert objs[..i + 1][..i] == objs[..i];
      LinkIfAbsent(scene, objs[i]);
    }
    assert objs[..|objs|] == objs;
  }

  /**
    The rigid-body world, created if missing, then the guarded links of the ball, the
    dominoes and the ground.
   */
  method LinkRigidBodies(scene: Scene, ball: Obj, dominoes: seq<Obj>, ground: Obj)
    modifies scene`rigidWorld, scene`world, scene`cacheStart, scene`cacheEnd
    ensures scene.rigidWorld
    ensures old(scene.rigidWorld) ==> scene.world == Linked(old(scene.world), [ball] + dominoes + [ground])
    ensures !old(scene.rigidWorld) ==> scene.world == Linked([], [ball] + dominoes + [ground])
  {
    if !scene.rigidWorld {
      scene.WorldAdd();
    }
    ghost var before := scene.world;
    LinkIfAbsent(scene, ball);
    LinkAll(scene, dominoes);
    LinkIfAbsent(scene, ground);
    assert Linked(before, [ball]) == LinkedOne(before, ball) by {
      assert [ball][..0] == [];
    }
    LinkedAppend(before, [ball], dominoes);
    LinkedAppend(before, [ball] + dominoes, [ground]);
    assert ([ball] + dominoes + [ground])[..|[ball] + dominoes|] == [ball] + dominoes;
  }

  /** `add_particle_effects`: a dust plane just above the ground, emitting from 20 to 150. */
  method AddParticleEffects(scene: Scene) returns (plane: Obj)
    modifies scene`selected, scene`active
    ensures fresh(plane) && plane.name == "DustPlane" && plane.location == Vec(0.0, 0.0, 0.01)
    ensures plane.particles == Some(Dust)
  {
    plane := scene.AddObject("DustPlane", Vec(0.0, 0.0, 0.01));
    plane.particles := Some(ParticleSettings("ParticleSettings", 500, 20, 150, 50, None));
  }

  /** No domino is called like the ball or the ground. */
  lemma NotBallOrGround(i: nat)
    requires i < Count
    ensures DominoName(i) != "TriggerBall" && DominoName(i) != "Ground"
  {
    assert DominoName(i)[0] == 'D';
  }

  /** The names of the rigid bodies are distinct: TriggerBall, Domino_00 .. Domino_14, Ground. */
  lemma RigidNamesUnique(ball: Obj, dominoes: seq<Obj>, ground: Obj)
    requires ball.name == "TriggerBall" && ground.name == "Ground" && |dominoes| == Count
    requires forall i :: 0 <= i < Count ==> dominoes[i].name == DominoName(i)
    ensures UniqueNames([ball] + dominoes + [ground])
  {
    var all := [ball] + dominoes + [ground];
    forall i, j | 0 <= i < j < |all|
      ensures all[i].name != all[j].name
    {
      RigidPair(ball, dominoes, ground, i, j);
    }
  }

  /** Any two rigid bodies in link order have different names. */
  lemma RigidPair(ball: Obj, dominoes: seq<Obj>, ground: Obj, i: int, j: int)
    requires ball.name == "TriggerBall" && ground.name == "Ground" && |dominoes| == Count
    requires forall i :: 0 <= i < Count ==> dominoes[i].name == DominoName(i)
    requires 0 <= i < j < Count + 2
    ensures ([ball] + dominoes + [ground])[i].name != ([ball] + dominoes + [ground])[j].name
  {
    RigidObjectName(ball, dominoes, ground, i);
    RigidObjectName(ball, dominoes, ground, j);
    RigidNamesDiffer(i, j);
  }

  /** The name of the k-th rigid body in link order: the ball, the dominoes, the ground. */
  function RigidName(k: int): string
  {
    if k == 0 then "TriggerBall" else if 1 <= k <= Count then DominoName(k - 1) else "Ground"
  }

  /** The k-th rigid body in link order carries the k-th rigid name. */
  lemma RigidObjectName(ball: Obj, dominoes: seq<Obj>, ground: Obj, k: int)
    requires ball.name == "TriggerBall" && ground.name == "Ground" && |dominoes| == Count
    requires forall i :: 0 <= i < Count ==> dominoes[i].name == DominoName(i)
    requires 0 <= k < Count + 2
    ensures ([ball] + dominoes + [ground])[k].name == RigidName(k)
  {
    var all := [ball] + dominoes + [ground];
    if k == 0 {
      assert all[k] == ball;
    } else if k <= Count {
      assert all[k] == dominoes[k - 1];
    } else {
      assert all[k] == ground;
    }
  }

  /** No two rigid bodies share a name. */
  lemma RigidNamesDiffer(i: int, j: int)
    requires 0 <= i < j < Count + 2
    ensures RigidName(i) != RigidName(j)
  {
    if j <= Count {
      if i == 0 {
        NotBallOrGround(j - 1);
      } else {
        DominoNames(i - 1, j - 1);
      }
    } else if 1 <= i {
      NotBallOrGround(i - 1);
    } else {
      assert RigidName(i)[0] != RigidName(j)[0];
    }
  }

  /**
    The ball's `rigidbody.object_add`, then the dominoes' and the ground's, link the
    rigid bodies into a new world in exactly that order.
   */
  lemma PhysicsLinkOrder(ball: Obj, dominoes: seq<Obj>, ground: Obj)
    requires ball.name == "TriggerBall" && ground.name == "Ground" && |dominoes| == Count
    requires forall i :: 0 <= i < Count ==> dominoes[i].name == DominoName(i)
    ensures Linked([ball], dominoes + [ground]) == [ball] + dominoes + [ground]
  {
    RigidNamesUnique(ball, dominoes, ground);
    LinkedDistinct([ball] + dominoes + [ground]);
    LinkedAppend([], [ball], dominoes + [ground]);
    assert Linked([], [ball]) == [ball] by {
      assert [ball][..0] == [];
      assert !NameIn([], ball.name);
    }
    assert [ball] + dominoes + [ground] == [ball] + (dominoes + [ground]);
  }

  /**
    `animate_falling_dominoes`: the scene 1..180, the row, the trigger ball and the physics,
    the camera, the ball's push and release, the guarded links, the cache and the dust;
    `draws` are the values `random.random()` returns for the dominoes' masses.
   */
  method AnimateFallingDominoes(draws: seq<real>)
    returns (scene: Scene, dominoes: seq<Obj>, ground: Obj, ball: Obj, camera: Obj, plane: Obj)
    requires |draws| == Count
    ensures scene.fps == 24 && scene.frameStart == SceneStart && scene.frameEnd == SceneEnd
    ensures scene.frameCurrent == SceneStart && scene.camera == camera
    ensures |dominoes| == Count
    ensures forall i :: 0 <= i < Count ==> Placed(dominoes[i], i) && dominoes[i].body == Some(DominoBody(draws[i]))
    ensures ball.body.Some? && ball.body.value.(kinematic := BallBody.kinematic) == BallBody
    ensures ground.body == Some(GroundBody)
    ensures scene.keys == CameraKeys(camera) + BallKeys(ball, DominoAt(0).x, DominoAt(0).y)
    ensures HandsOffAt(scene.keys, ball, Handoff)
    ensures BallShowsStart(scene.keys, scene.frameCurrent, ball, DominoAt(0).x, DominoAt(0).y)
    ensures scene.rigidWorld && scene.world == [ball] + dominoes + [ground]
    ensures scene.cacheStart == scene.frameStart && scene.cacheEnd == scene.frameEnd
    ensures plane.particles == Some(Dust)
  {
    scene := NewScene(24, 1, 180);
    dominoes, ground, ball := Build(scene, draws);
    camera, plane := Choreograph(scene, ball, dominoes, ground);
  }

  /**
    The second half of `animate_falling_dominoes`, once the objects exist: the camera,
    the frame range, the ball's keys, the links, the cache, the dust, and the cursor back on 1.
   */
  method Choreograph(scene: Scene, ball: Obj, dominoes: seq<Obj>, ground: Obj) returns (camera: Obj, plane: Obj)
    requires ball.name == "TriggerBall" && ground.name == "Ground" && ball.body == Some(BallBody)
    requires |dominoes| == Count && dominoes[0].location == DominoAt(0)
    requires forall i :: 0 <= i < Count ==> dominoes[i].name == DominoName(i)
    requires scene.keys == [] && scene.rigidWorld && scene.world == [ball] + dominoes + [ground]
    modifies scene, ball`location, ball`body
    ensures scene.fps == old(scene.fps) && scene.frameStart == SceneStart && scene.frameEnd == SceneEnd
    ensures scene.frameCurrent == SceneStart && scene.camera == camera
    ensures ball.body.Some? && ball.body.value.(kinematic := BallBody.kinematic) == BallBody
    ensures scene.keys == CameraKeys(camera) + BallKeys(ball, DominoAt(0).x, DominoAt(0).y)
    ensures HandsOffAt(scene.keys, ball, Handoff)
    ensures BallShowsStart(scene.keys, scene.frameCurrent, ball, DominoAt(0).x, DominoAt(0).y)
    ensures scene.rigidWorld && scene.world == [ball] + dominoes + [ground]
    ensures scene.cacheStart == scene.frameStart && scene.cacheEnd == scene.frameEnd
    ensures plane.particles == Some(Dust)
  {
    camera := KeyCameraAndBall(scene, ball, dominoes[0].location.x, dominoes[0].location.y);
    scene.frameStart := 1;
    scene.frameEnd := 180;
    plane := PrepareBake(scene, ball, dominoes, ground, camera, DominoAt(0).x, DominoAt(0).y);
  }

  /** What precedes `ptcache.bake_all`: the links, the cache over 1..180, the dust, and the cursor back on 1. */
  method PrepareBake(scene: Scene, ball: Obj, dominoes: seq<Obj>, ground: Obj, camera: Obj, dx: real, dy: real)
    returns (plane: Obj)
    requires ball.name == "TriggerBall" && ground.name == "Ground" && |dominoes| == Count
    requires forall i :: 0 <= i < Count ==> dominoes[i].name == DominoName(i)
    requires scene.rigidWorld && scene.world == [ball] + dominoes + [ground]
    requires camera != ball && scene.keys == CameraKeys(camera) + BallKeys(ball, dx, dy)
    modifies scene`selected, scene`active, scene`rigidWorld, scene`world, scene`cacheStart, scene`cacheEnd
    modifies scene`frameCurrent
    ensures scene.rigidWorld && scene.world == old(scene.world)
    ensures scene.cacheStart == SceneStart && scene.cacheEnd == SceneEnd
    ensures plane.particles == Some(Dust)
    ensures scene.frameCurrent == SceneStart
    ensures BallShowsStart(scene.keys, scene.frameCurrent, ball, dx, dy)
  {
    LinkAndCache(scene, ball, dominoes, ground);
    plane := AddParticleEffects(scene);
    Rewind(scene, camera, ball, dx, dy);
  }

  /** Line 348: the cursor back on frame 1, where the host shows the ball's start again. */
  method Rewind(scene: Scene, camera: Obj, ball: Obj, dx: real, dy: real)
    requires camera != ball && scene.keys == CameraKeys(camera) + BallKeys(ball, dx, dy)
    modifies scene`frameCurrent
    ensures scene.frameCurrent == SceneStart
    ensures BallShowsStart(scene.keys, scene.frameCurrent, ball, dx, dy)
  {
    scene.FrameSet(1);
    BallShownAtStart(scene.keys, scene.frameCurrent, camera, ball, dx, dy);
  }

  /** The camera's keys, then the ball's push and its handoff to the solver at frame 26. */
  method KeyCameraAndBall(scene: Scene, ball: Obj, dx: real, dy: real) returns (camera: Obj)
    requires ball.body == Some(BallBody) && scene.keys == []
    modifies scene`selected, scene`active, scene`camera, scene`keys, scene`frameCurrent
    modifies ball`location, ball`body
    ensures ball.body == Some(BallBody.(kinematic := false)) && scene.camera == camera && fresh(camera)
    ensures scene.keys == CameraKeys(camera) + BallKeys(ball, dx, dy)
    ensures HandsOffAt(scene.keys, ball, Handoff)
  {
    camera := SetupCamera(scene);
    AnimateTriggerBall(scene, ball, dx, dy);
    BallHandsOff(camera, ball, dx, dy);
  }

  /**
    The guarded links of the ball, the row and the ground, then the cache over 1..180.
    `rigidbody.object_add` has linked all of them already, so every guard skips its link
    and the collection stays as it was.
   */
  method LinkAndCache(scene: Scene, ball: Obj, dominoes: seq<Obj>, ground: Obj)
    requires ball.name == "TriggerBall" && ground.name == "Ground" && |dominoes| == Count
    requires forall i :: 0 <= i < Count ==> dominoes[i].name == DominoName(i)
    requires scene.rigidWorld && scene.world == [ball] + dominoes + [ground]
    modifies scene`rigidWorld, scene`world, scene`cacheStart, scene`cacheEnd
    ensures scene.rigidWorld && scene.world == old(scene.world)
    ensures scene.cacheStart == SceneStart && scene.cacheEnd == SceneEnd
  {
    RigidNamesUnique(ball, dominoes, ground);
    LinkedDistinct([ball] + dominoes + [ground]);
    LinkedIdempotent([], [ball] + dominoes + [ground]);
    LinkRigidBodies(scene, ball, dominoes, ground);
    scene.cacheStart := 1;
    scene.cacheEnd := 180;
  }

  /** The objects of `animate_falling_dominoes` and their rigid bodies, before any key. */
  method Build(scene: Scene, draws: seq<real>) returns (dominoes: seq<Obj>, ground: Obj, ball: Obj)
    requires |draws| == Count && !scene.rigidWorld
    modifies scene`selected, scene`active, scene`rigidWorld, scene`world, scene`cacheStart, scene`cacheEnd
    ensures fresh(ground) && fresh(ball) && ball != ground
    ensures ball.name == "TriggerBall" && ground.name == "Ground" && |dominoes| == Count
    ensures forall i :: 0 <= i < Count ==>
      && fresh(dominoes[i]) && dominoes[i] != ground && dominoes[i] != ball
      && Placed(dominoes[i], i) && dominoes[i].body == Some(DominoBody(draws[i]))
    ensures ball.body == Some(BallBody) && ground.body == Some(GroundBody)
    ensures scene.rigidWorld && scene.world == [ball] + dominoes + [ground]
  {
    dominoes, ground, ball := PlaceObjects(scene);
    SetupPhysics(scene, dominoes, ground, draws);
    PhysicsLinkOrder(ball, dominoes, ground);
  }

  /** The row, the ground and the trigger ball, which alone has a rigid body yet. */
  method PlaceObjects(scene: Scene) returns (dominoes: seq<Obj>, ground: Obj, ball: Obj)
    requires !scene.rigidWorld
    modifies scene`selected, scene`active, scene`rigidWorld, scene`world, scene`cacheStart, scene`cacheEnd
    ensures fresh(ground) && fresh(ball) && ball != ground
    ensures ball.name == "TriggerBall" && ground.name == "Ground" && |dominoes| == Count
    ensures forall i :: 0 <= i < Count ==>
      && fresh(dominoes[i]) && dominoes[i] != ground && dominoes[i] != ball && Placed(dominoes[i], i)
    ensures forall j, k :: 0 <= j < k < Count ==> dominoes[j] != dominoes[k]
    ensures ball.body == Some(BallBody) && scene.rigidWorld && scene.world == [ball]
  {
    dominoes, ground := SetupDominoScene(scene);
    ball := CreateTriggerBall(scene);
  }
}
