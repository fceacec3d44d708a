/**
  ball_obstacle_animation.py: a ball is keyed rolling towards a wall that stands on
  the ground, and handed to the rigid-body solver at frame 21 to hit it, while the
  camera turns in three keyed rotations.
 */
module BallObstacle {
  import opened SceneGraph
  import opened Keyframes

  const SceneStart := 1
  const SceneEnd := 120

  /** The frame the ball is given to the solver. */
  const Handoff := 21

  const BallRadius := 1.0
  const BallStart := Vec(-8.0, 0.0, 1.0)

  /** The wall: a unit cube scaled to 2 x 2 x 4 and lifted by half its height. */
  const WallScale := Vec(2.0, 2.0, 4.0)
  const WallAt := Vec(0.0, 0.0, 2.0)

  /** The rigid bodies `setup_physics` configures, each with a 0.01 collision margin. */
  const BallBody := RigidBody(Active, 2.0, 0.5, 0.8, 0.1, 0.1, true, Sphere, Some(0.01))
  const WallBody := Added.(kind := Passive, friction := 0.5, restitution := 0.3, shape := Box, margin := Some(0.01))
  const GroundBody := Added.(kind := Passive, friction := 0.8, shape := Mesh, margin := Some(0.01))

  /** The camera's rotation at frames 1, 60 and 120: it tilts up and turns left. */
  const CameraTurn := [(1, Vec(60.0, 0.0, 45.0)), (60, Vec(50.0, 0.0, 35.0)), (120, Vec(45.0, 0.0, 25.0))]

  /** The keys `setup_camera` inserts: the rotation only, once per entry of `CameraTurn`, from the first frame to the last. */
  function CameraKeys(camera: Obj): (ks: seq<Key>)
    ensures |ks| == 3 && ks[0].frame == SceneStart && ks[2].frame == SceneEnd
  {
    [ Key(camera, Rotation, CameraTurn[0].0, V(CameraTurn[0].1)),
      Key(camera, Rotation, CameraTurn[1].0, V(CameraTurn[1].1)),
      Key(camera, Rotation, CameraTurn[2].0, V(CameraTurn[2].1)) ]
  }

  /** Where the ball is keyed at frames 1 and 20 (above its start, then short of the wall). */
  const BallAt1 := Vec(-8.0, 0.0, 3.0)
  const BallAt20 := Vec(-2.0, 0.0, 1.5)
  const BallSpun20 := Vec(180.0, 0.0, 0.0)

  /**
    The keys `animate_ball_collision` gives the ball: location, rotation and kinematic
    flag at frames 1 and 20, then the flag off at 21.
   */
  function BallKeys(ball: Obj): (ks: seq<Key>)
    ensures |ks| == 7 && ks[6] == Key(ball, Kinematic, Handoff, Flag(false))
  {
    [ Key(ball, Location, 1, V(BallAt1)),
      Key(ball, Rotation, 1, V(Zero)),
      Key(ball, Kinematic, 1, Flag(true)),
      Key(ball, Location, 20, V(BallAt20)),
      Key(ball, Rotation, 20, V(BallSpun20)),
      Key(ball, Kinematic, 20, Flag(true)),
      Key(ball, Kinematic, Handoff, Flag(false)) ]
  }

  // ---------------------------------------------------------------------------
  // Properties of the timeline

  /** The camera's rotation is keyed at 1, 60 and 120 (the whole scene) and nothing else of it is keyed. */
  lemma CameraFrames(camera: Obj, ch: Channel)
    ensures var t := Track(CameraKeys(camera), camera, ch);
      && (ch == Rotation ==>
            && |t| == 3 && Ascending(t)
            && t[0] == Sample(SceneStart, V(Vec(60.0, 0.0, 45.0)))
            && t[1] == Sample(60, V(Vec(50.0, 0.0, 35.0)))
            && t[2] == Sample(SceneEnd, V(Vec(45.0, 0.0, 25.0))))
      && (ch != Rotation ==> t == [])
  {
    var ks := CameraKeys(camera);
    assert ks == [ks[0], ks[1]] + [ks[2]];
    TrackAppend([ks[0], ks[1]], [ks[2]], camera, ch);
    Track2(ks[0], ks[1], camera, ch);
    TrackOne(ks[2], camera, ch);
  }

  lemma BallTrack(ball: Obj, ch: Channel)
    ensures Track(BallKeys(ball), ball, ch) ==
      if ch == Location then [Sample(1, V(BallAt1)), Sample(20, V(BallAt20))]
      else if ch == Rotation then [Sample(1, V(Zero)), Sample(20, V(BallSpun20))]
      else if ch == Kinematic then [Sample(1, Flag(true)), Sample(20, Flag(true)), Sample(Handoff, Flag(false))]
      else []
  {
    var ks := BallKeys(ball);
    var a, b, c := [ks[0], ks[1]], [ks[2], ks[3]], [ks[4], ks[5]];
    assert ks == a + b + c + [ks[6]];
    TrackAppend(a + b + c, [ks[6]], ball, ch);
    TrackAppend(a + b, c, ball, ch);
    TrackAppend(a, b, ball, ch);
    Track2(ks[0], ks[1], ball, ch);
    Track2(ks[2], ks[3], ball, ch);
    Track2(ks[4], ks[5], ball, ch);
    TrackOne(ks[6], ball, ch);
  }

  /** The ball's own keys hand it to the solver at 21: nothing positional is keyed from there on. */
  lemma BallKeysHandOff(ball: Obj)
    ensures HandsOffAt(BallKeys(ball), ball, Handoff)
  {
    BallTrack(ball, Kinematic);
    assert forall k :: k in BallKeys(ball) && k.channel.Positional() ==> k.frame < Handoff;
  }

  /**
    After the camera keys and the ball keys, the ball is handed to the solver at 21, its
    only drop of the flag; its scripted path moves it towards the wall and ends with its
    surface touching the wall's near face.
   */
  lemma BallHandsOff(camera: Obj, ball: Obj)
    requires camera != ball
    ensures HandsOffAt(CameraKeys(camera) + BallKeys(ball), ball, Handoff)
    ensures Drops(Track(CameraKeys(camera) + BallKeys(ball), ball, Kinematic)) == 1
    ensures Track(CameraKeys(camera) + BallKeys(ball), ball, Location) ==
      [Sample(1, V(BallAt1)), Sample(20, V(BallAt20))]
    ensures BallAt1.x < BallAt20.x && BallAt20.x + BallRadius == WallAt.x - WallScale.x / 2.0
  {
    var log := CameraKeys(camera) + BallKeys(ball);
    assert forall k :: k in CameraKeys(camera) ==> k.obj == camera;
    BallKeysHandOff(ball);
    HandsOffAfterOthers(CameraKeys(camera), BallKeys(ball), ball, Handoff);
    TrackAppend(CameraKeys(camera), BallKeys(ball), ball, Location);
    TrackAbsent(CameraKeys(camera), ball, Location);
    BallTrack(ball, Location);
    HandoffIsSingle(Track(log, ball, Kinematic));
  }

  /**
    What the host shows at frame `f` of the ball's keys: the ball kinematic again, at its
    start and unrotated.
   */
  ghost predicate BallShowsStart(keys: seq<Key>, f: int, ball: Obj)
  {
    && Ascending(Track(keys, ball, Kinematic)) && Ascending(Track(keys, ball, Location))
    && Ascending(Track(keys, ball, Rotation))
    && Shown(Track(keys, ball, Kinematic), f) == Some(Flag(true))
    && Shown(Track(keys, ball, Location), f) == Some(V(BallAt1))
    && Shown(Track(keys, ball, Rotation), f) == Some(V(Zero))
  }

  /**
    Once `frame_set(1)` has evaluated the animation again, the ball shows its frame-1
    keys: kinematic, back at its start and unrotated.
   */
  lemma BallShownAtStart(keys: seq<Key>, f: int, camera: Obj, ball: Obj)
    requires camera != ball && keys == CameraKeys(camera) + BallKeys(ball) && f == 1
    ensures BallShowsStart(keys, f, ball)
  {
    assert forall k :: k in CameraKeys(camera) ==> k.obj == camera;
    forall ch | ch in {Kinematic, Location, Rotation}
      ensures Track(keys, ball, ch) == Track(BallKeys(ball), ball, ch)
    {
      TrackAppend(CameraKeys(camera), BallKeys(ball), ball, ch);
      TrackAbsent(CameraKeys(camera), ball, ch);
    }
    BallTrack(ball, Kinematic);
    BallTrack(ball, Location);
    BallTrack(ball, Rotation);
    ShownBeforeFirstOfThree(Track(keys, ball, Kinematic), f);
    ShownBeforeFirst(Track(keys, ball, Location), f);
    ShownBeforeFirst(Track(keys, ball, Rotation), f);
  }

  /** Only the ball is simulated as a moving body; the wall and the ground are passive; all have the 0.01 margin. */
  lemma PhysicsRoles()
    ensures BallBody.kind == Active && BallBody.kinematic && BallBody.shape == Sphere
    ensures WallBody.kind == Passive && WallBody.shape == Box
    ensures GroundBody.kind == Passive && GroundBody.shape == Mesh
    ensures BallBody.margin == WallBody.margin == GroundBody.margin == Some(0.01)
  {
  }

  /**
    With the three bodies in the rigid-body world, each of them is linked there by name,
    so the host refuses an unguarded link of any of them.
   */
  lemma LinkRefused(scene: Scene, ball: Obj, wall: Obj, ground: Obj)
    requires scene.rigidWorld && scene.world == [ball, wall, ground]
    ensures NameIn(scene.world, ball.name) && NameIn(scene.world, wall.name) && NameIn(scene.world, ground.name)
  {
    assert scene.world[0] == ball && scene.world[1] == wall && scene.world[2] == ground;
  }

  // ---------------------------------------------------------------------------
  // The script

  /**
    `setup_ball_obstacle_scene`: the ground, the ball at its start, and the wall lifted
    so that its bottom face rests on the ground.
   */
  method SetupBallObstacleScene(scene: Scene) returns (ball: Obj, wall: Obj, ground: Obj)
    modifies scene`selected, scene`active
    ensures fresh(ball) && fresh(wall) && fresh(ground)
    ensures ball != wall && ball != ground && wall != ground
    ensures ground.name == "Ground" && ball.name == "Ball" && wall.name == "Obstacle"
    ensures ground.location == Zero && ball.location == BallStart
    ensures wall.location == WallAt && wall.scale == WallScale
    ensures wall.location.z - wall.scale.z / 2.0 == ground.location.z
    ensures ball.body == None && wall.body == None && ground.body == None
  {
    ground := scene.AddObject("Ground", Zero);
    ball := scene.AddObject("Ball", Vec(-8.0, 0.0, 1.0));
    wall := scene.AddObject("Obstacle", Zero);
    wall.scale := Vec(2.0, 2.0, 4.0);
    wall.location := wall.location.(z := 2.0);
  }

  /**
    `setup_physics`: the ball active and kinematic with a sphere shape, the wall and the
    ground passive; each `rigidbody.object_add` also links its object into the world.
   */
  method SetupPhysics(scene: Scene, ball: Obj, wall: Obj, ground: Obj)
    requires ball != wall && ball != ground && wall != ground
    modifies scene`active, scene`rigidWorld, scene`world, scene`cacheStart, scene`cacheEnd
    modifies ball`body, wall`body, ground`body
    ensures ball.body == Some(BallBody) && wall.body == Some(WallBody) && ground.body == Some(GroundBody)
    ensures scene.active == ground
    ensures scene.rigidWorld && scene.world == Linked(old(scene.Members()), [ball, wall, ground])
  {
    scene.active := ball;
    scene.RigidBodyAdd();
    ball.body := Some(ball.body.value.(kind := Active, mass := 2.0, friction := 0.5, restitution := 0.8));
    ball.body := Some(ball.body.value.(linearDamping := 0.1, angularDamping := 0.1, kinematic := true));
    ball.body := Some(ball.body.value.(shape := Sphere, margin := Some(0.01)));

    scene.active := wall;
    scene.RigidBodyAdd();
    wall.body := Some(wall.body.value.(kind := Passive, friction := 0.5, restitution := 0.3));
    wall.body := Some(wall.body.value.(shape := Box, margin := Some(0.01)));

    scene.active := ground;
    scene.RigidBodyAdd();
    ground.body := Some(ground.body.value.(kind := Passive, friction := 0.8));
    ground.body := Some(ground.body.value.(shape := Mesh, margin := Some(0.01)));
    LinkedThree(old(scene.Members()), ball, wall, ground);
  }

  /** `setup_camera`: the scene camera, its rotation keyed at 1, 60 and 120. */
  method SetupCamera(scene: Scene) returns (camera: Obj)
    modifies scene`selected, scene`active, scene`camera, scene`keys, scene`frameCurrent
    ensures fresh(camera) && scene.camera == camera && camera.location == Vec(8.0, -8.0, 6.0)
    ensures scene.keys == old(scene.keys) + CameraKeys(camera) && scene.frameCurrent == SceneEnd
    ensures camera.rotation == CameraTurn[2].1
  {
    camera := scene.AddObject("Camera", Vec(8.0, -8.0, 6.0));
    camera.rotation := Vec(60.0, 0.0, 45.0);
    scene.camera := camera;

    camera.rotation := Vec(60.0, 0.0, 45.0);
    scene.KeyframeInsert(camera, Rotation, 1);

    scene.FrameSet(60);
    camera.rotation := Vec(50.0, 0.0, 35.0);
    scene.KeyframeInsert(camera, Rotation, 60);

    scene.FrameSet(120);
    camera.rotation := Vec(45.0, 0.0, 25.0);
    scene.KeyframeInsert(camera, Rotation, 120);
  }

  /** The scripted part of the ball's motion, frames 1 and 20, then its release at 21. */
  method AnimateBall(scene: Scene, ball: Obj)
    requires ball.body.Some?
    modifies scene`keys, scene`frameCurrent, ball`location, ball`rotation, ball`body
    ensures scene.keys == old(scene.keys) + BallKeys(ball) && scene.frameCurrent == Handoff
    ensures ball.location == BallAt20 && ball.rotation == BallSpun20
    ensures ball.body == Some(old(ball.body.value).(kinematic := false))
  {
    ball.body := Some(ball.body.value.(kinematic := true));

    scene.FrameSet(1);
    ball.location := Vec(-8.0, 0.0, 3.0);
    ball.rotation := Zero;
    scene.KeyframeInsert(ball, Location, 1);
    scene.KeyframeInsert(ball, Rotation, 1);
    scene.KeyframeInsert(ball, Kinematic, 1);

    scene.FrameSet(20);
    ball.location := Vec(-2.0, 0.0, 1.5);
    ball.rotation := Vec(180.0, 0.0, 0.0);
    scene.KeyframeInsert(ball, Location, 20);
    scene.KeyframeInsert(ball, Rotation, 20);
    scene.KeyframeInsert(ball, Kinematic, 20);

    scene.FrameSet(21);
    ball.body := Some(ball.body.value.(kinematic := false));
    scene.KeyframeInsert(ball, Kinematic, 21);
  }

  /**
    Lines 297-303 as written: the rigid-body world, created if missing, then the three
    links with no guard; the host accepts them only while none of the three names is
    linked yet.
   */
  method LinkBodies(scene: Scene, ball: Obj, wall: Obj, ground: Obj)
    requires ball.name != wall.name && ball.name != ground.name && wall.name != ground.name
    requires scene.rigidWorld ==>
      !NameIn(scene.world, ball.name) && !NameIn(scene.world, wall.name) && !NameIn(scene.world, ground.name)
    modifies scene`rigidWorld, scene`world, scene`cacheStart, scene`cacheEnd
    ensures scene.rigidWorld
    ensures scene.world == (if old(scene.rigidWorld) then old(scene.world) else []) + [ball, wall, ground]
  {
    if !scene.rigidWorld {
      scene.WorldAdd();
    }
    ghost var before := scene.world;
    scene.Link(ball);
    assert !NameIn(scene.world, wall.name) by {
      assert forall i :: 0 <= i < |before| ==> scene.world[i] == before[i];
    }
    scene.Link(wall);
    assert scene.world == before + [ball, wall];
    assert !NameIn(scene.world, ground.name) by {
      assert forall i :: 0 <= i < |before| ==> scene.world[i] == before[i];
    }
    scene.Link(ground);
  }

  /**
    Lines 297-303 with each link guarded by a membership test, as in the dominoes script:
    an object already in the world is skipped.
   */
  method LinkBodiesGuarded(scene: Scene, ball: Obj, wall: Obj, ground: Obj)
    modifies scene`rigidWorld, scene`world, scene`cacheStart, scene`cacheEnd
    ensures scene.rigidWorld && scene.world == Linked(old(scene.Members()), [ball, wall, ground])
  {
    if !scene.rigidWorld {
      scene.WorldAdd();
    }
    if !NameIn(scene.world, ball.name) {
      scene.Link(ball);
    }
    if !NameIn(scene.world, wall.name) {
      scene.Link(wall);
    }
    if !NameIn(scene.world, ground.name) {
      scene.Link(ground);
    }
    LinkedThree(old(scene.Members()), ball, wall, ground);
  }

  /**
    `animate_ball_collision` with the guarded links: the scene 1..120, the objects and
    their physics, the camera, the ball's scripted roll and release, the world holding
    the three bodies once each with a cache over the scene's range, and the cursor back
    on frame 1.
   */
  method AnimateBallCollision() returns (scene: Scene, ball: Obj, wall: Obj, ground: Obj, camera: Obj)
    ensures scene.fps == 24 && scene.frameStart == SceneStart && scene.frameEnd == SceneEnd
    ensures scene.frameCurrent == SceneStart && scene.camera == camera
    ensures ball.body.Some? && ball.body.value.(kinematic := BallBody.kinematic) == BallBody
    ensures wall.body == Some(WallBody) && ground.body == Some(GroundBody)
    ensures wall.location == WallAt && wall.scale == WallScale
    ensures scene.keys == CameraKeys(camera) + BallKeys(ball)
    ensures HandsOffAt(scene.keys, ball, Handoff)
    ensures BallShowsStart(scene.keys, scene.frameCurrent, ball)
    ensures scene.rigidWorld && scene.world == [ball, wall, ground]
    ensures scene.cacheStart == scene.frameStart && scene.cacheEnd == scene.frameEnd
  {
    scene, ball, wall, ground, camera := BeforeLinks();
    LinkAndCache(scene, ball, wall, ground);
    Rewind(scene, camera, ball);
  }

  /** Line 315: the cursor back on frame 1, where the host shows the ball's start again. */
  method Rewind(scene: Scene, camera: Obj, ball: Obj)
    requires camera != ball && scene.keys == CameraKeys(camera) + BallKeys(ball)
    modifies scene`frameCurrent
    ensures scene.frameCurrent == SceneStart
    ensures BallShowsStart(scene.keys, scene.frameCurrent, ball)
  {
    scene.FrameSet(1);
    BallShownAtStart(scene.keys, scene.frameCurrent, camera, ball);
  }

  /**
    `animate_ball_collision` up to line 300, where the links begin: by then the three
    `rigidbody.object_add` calls have created the world and linked the three bodies, so
    `LinkBodies`' precondition fails and the host refuses the link at line 301.
   */
  method BeforeLinks() returns (scene: Scene, ball: Obj, wall: Obj, ground: Obj, camera: Obj)
    ensures fresh(scene)
    ensures scene.fps == 24 && scene.frameStart == SceneStart && scene.frameEnd == SceneEnd
    ensures scene.camera == camera && camera != ball && scene.keys == CameraKeys(camera) + BallKeys(ball)
    ensures ground.name == "Ground" && ball.name == "Ball" && wall.name == "Obstacle"
    ensures ball.body == Some(BallBody.(kinematic := false))
    ensures wall.body == Some(WallBody) && ground.body == Some(GroundBody)
    ensures wall.location == WallAt && wall.scale == WallScale
    ensures HandsOffAt(scene.keys, ball, Handoff)
    ensures scene.rigidWorld && scene.world == [ball, wall, ground]
    ensures NameIn(scene.world, ball.name) && NameIn(scene.world, wall.name) && NameIn(scene.world, ground.name)
  {
    scene := NewScene(24, 1, 120);
    ball, wall, ground := Build(scene);
    camera := KeyCameraAndBall(scene, ball);
    scene.frameStart := 1;
    scene.frameEnd := 120;
    LinkRefused(scene, ball, wall, ground);
  }

  /** The three objects of `animate_ball_collision` and their rigid bodies, before any key. */
  method Build(scene: Scene) returns (ball: Obj, wall: Obj, ground: Obj)
    requires !scene.rigidWorld
    modifies scene`selected, scene`active, scene`rigidWorld, scene`world, scene`cacheStart, scene`cacheEnd
    ensures fresh(ball) && fresh(wall) && fresh(ground)
    ensures ball != wall && ball != ground && wall != ground
    ensures ground.name == "Ground" && ball.name == "Ball" && wall.name == "Obstacle"
    ensures wall.location == WallAt && wall.scale == WallScale
    ensures ball.body == Some(BallBody) && wall.body == Some(WallBody) && ground.body == Some(GroundBody)
    ensures scene.rigidWorld && scene.world == [ball, wall, ground]
  {
    ball, wall, ground := SetupBallObstacleScene(scene);
    SetupPhysics(scene, ball, wall, ground);
    LinkedDistinct([ball, wall, ground]);
  }

  /**
    The camera's keys, then the ball's: `ball.rigid_body.kinematic = True` again, the keys
    at 1 and 20, and the release at 21.
   */
  method KeyCameraAndBall(scene: Scene, ball: Obj) returns (camera: Obj)
    requires ball.body == Some(BallBody) && scene.keys == []
    modifies scene`selected, scene`active, scene`camera, scene`keys, scene`frameCurrent
    modifies ball`location, ball`rotation, ball`body
    ensures fresh(camera) && scene.camera == camera
    ensures ball.body == Some(BallBody.(kinematic := false))
    ensures scene.keys == CameraKeys(camera) + BallKeys(ball)
    ensures HandsOffAt(scene.keys, ball, Handoff)
  {
    camera := SetupCamera(scene);
    AnimateBall(scene, ball);
    BallHandsOff(camera, ball);
  }

  /**
    The guarded links of the three bodies, which `rigidbody.object_add` has linked already,
    so the collection stays as it was; then the cache over 1..120.
   */
  method LinkAndCache(scene: Scene, ball: Obj, wall: Obj, ground: Obj)
    requires ground.name == "Ground" && ball.name == "Ball" && wall.name == "Obstacle"
    requires scene.rigidWorld && scene.world == [ball, wall, ground]
    modifies scene`rigidWorld, scene`world, scene`cacheStart, scene`cacheEnd
    ensures scene.rigidWorld && scene.world == old(scene.world)
    ensures scene.cacheStart == SceneStart && scene.cacheEnd == SceneEnd
  {
    LinkedDistinct([ball, wall, ground]);
    LinkedIdempotent([], [ball, wall, ground]);
    LinkBodiesGuarded(scene, ball, wall, ground);
    scene.cacheStart := 1;
    scene.cacheEnd := 120;
  }
}
