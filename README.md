# Choreography timelines of three animation scripts

Three Blender Python scripts build an animated scene each:

- `tank_missile_animation.py`: a tank turns its turret towards five targets in turn.
  It fires one missile at each, every 50 frames, with 30 frames of flight.
  The missile and the target shrink one frame after impact, and a dust emitter is anchored at the impact frame.
- `falling_dominoes_animation.py`: fifteen dominoes stand in a row.
  A trigger ball is keyed towards the first one and handed to the rigid-body solver at frame 26.
  The camera follows the row in four keyed poses.
- `ball_obstacle_animation.py`: a ball is keyed towards a wall standing on the ground and handed to the solver at frame 21.
  The camera turns in three keyed rotations.

What the model covers is each script's *timeline*:

- which keyframes it inserts, for which object and channel, at which frame and with which value;
- where the frame cursor ends;
- which objects it links into the rigid-body world, and over which frames that world is cached;
- the objects, transforms, parent trees, rigid-body settings and particle settings the keys and links rely on.

Modules:

- `SceneGraph` (`scene.dfy`) is the host engine as the scripts see it.
  - `Obj` is an object with a transform, an optional rigid body, particles and colour.
  - `Scene` holds the frame range, the frame cursor, the selection, the keyframe log `keys` and the rigid-body world collection `world`.
  - The `bpy` operators are methods of `Scene` that update it in place. `keyframe_insert` appends one `Key(object, channel, frame, value)` to `keys`.
- `Keyframes` (`keyframes.dfy`) holds the pure functions over the keyframe log.
  - `Track` is the samples of one object's channel.
  - `Ascending` means no frame is keyed twice or out of order.
  - `Drops` counts the times the kinematic flag goes from on to off.
  - `Shown(t, f)` is the value the host shows of a track after `frame_set(f)`, wherever that does not depend on interpolation: the value keyed at f, the first value before the first key, the last after the last key. The host keeps a channel's keys sorted by frame, one per frame, so `Shown` requires an `Ascending` track.
  - `HandsOffAt(log, o, h)` holds when `o` is scripted until `h` and handed to the solver at `h`: the kinematic flag is on up to `h` and off at `h`, and no location or rotation key lies at or after `h`.
- `Naming` (`naming.dfy`) holds `f"{n}"` and `f"{n:02d}"` and their inverse, which is what makes generated names distinct.
- `Tank`, `Dominoes` and `BallObstacle` hold one script each. The script's functions are methods that change the scene. Each method's `ensures` ties the new keyframe log to a specification function (`TankLog`, `CameraKeys`, `BallKeys`, `Linked`), and the lemmas prove the timeline properties about those functions.

The scripts perform no validation. They never check for overlapping missile windows, duplicate keyframes, or a body keyed after its handoff. The code raises no error, so the model has no error paths. Instead, the lemmas show that the constants the scripts use rule those situations out (`Tank.SourceWindowsSeparated`, `Tank.TankLogWellFormed`, `Dominoes.BallHandsOff`, `BallObstacle.BallHandsOff`). The one host-enforced condition is the rule that an object cannot be linked twice into a collection. `Scene.Link` carries it as a precondition. `rigidbody.object_add` already creates the world and links the object, so the three unguarded links of `ball_obstacle_animation.py` break that rule (see "## Findings").

The model follows the code in `create_tank`:

- Lines 80-84 make the body active and select the turret before `parent_set`.
- The barrel was just created, so it is still selected. That first `parent_set` therefore parents the barrel to the body too.
- Lines 86-89 then re-parent the barrel to the turret.
- The final tree is the intended one (`Tank.CreateTank`), and `Tank.ParentTo` states the side effect.

## Model

| member | source | states |
|---|---|---|
| SceneGraph.Obj.Get | tank_missile_animation.py:303-307 | the value a `keyframe_insert` records is a flag exactly when the channel is the rigid body's kinematic flag |
| SceneGraph.Scene.FrameSet | tank_missile_animation.py:261 | `frame_set` moves the frame cursor to the frame given; what the host then shows of a keyed channel is stated through `Keyframes.Shown` (see "## Left out") |
| SceneGraph.Scene.KeyframeInsert | tank_missile_animation.py:304 | a key insertion appends exactly one key to the log: object, channel, frame, current value; the rest of the log is unchanged |
| SceneGraph.Scene.AddObject | tank_missile_animation.py:50-52 | a primitive is added as a new object at the location given, with identity rotation and scale; it becomes the only selected and the active object |
| SceneGraph.Scene.SelectSet | tank_missile_animation.py:83 | selecting or deselecting adds or removes exactly that object |
| SceneGraph.Scene.ParentSet | tank_missile_animation.py:84 | every selected object other than the active one gets the active one as parent |
| SceneGraph.Scene.RigidBodyAdd | falling_dominoes_animation.py:194-195 | the active object gets a rigid body with the host's default settings; the rigid-body world is created (cache 1..250) if missing, and the object is linked into it unless its name is there already |
| SceneGraph.Scene.WorldAdd | falling_dominoes_animation.py:321-322 | a new rigid-body world has a cache over the default range 1..250; the model gives it an empty collection at once, where the host leaves it unset (see "## Left out") |
| SceneGraph.Scene.Link | ball_obstacle_animation.py:301-303 | linking appends the object to the world collection; the host accepts it only when no object of that name is linked yet |
| SceneGraph.NewScene | tank_missile_animation.py:254-261 | in a new file, after clearing, the scene has the frame rate and range given, the cursor on frame 1, no keys, no selection and no rigid-body world |
| Keyframes.Track | tank_missile_animation.py:303-341 | an object channel's samples, read off the log in insertion order, are never more than the keys in the log |
| Keyframes.TrackAppend | tank_missile_animation.py:286-345 | the track of two logs one after the other is the first's track followed by the second's |
| Keyframes.TrackAbsent | falling_dominoes_animation.py:212-246 | an object with no keys in a log has empty tracks in it |
| Keyframes.TrackFromLog | tank_missile_animation.py:303-341 | every sample of a track comes from a key of that object and channel in the log |
| Keyframes.HandoffIsSingle | falling_dominoes_animation.py:306-318 | a flag track that is on at every sample but the last, which is off, drops exactly once (when it has at least two samples) |
| Keyframes.KeyedAt | tank_missile_animation.py:349 | the value keyed at a frame exists exactly when some sample of the track sits on that frame, and is then that sample's value |
| Keyframes.Shown | tank_missile_animation.py:349 | for a track keyed at strictly increasing frames, the value `frame_set` shows of the channel is always one of the track's values, and there is one on every keyed frame (before the first key the first value, after the last key the last) |
| Keyframes.ShownKeyed | tank_missile_animation.py:349 | in a track keyed at strictly increasing frames, `frame_set` on a keyed frame shows exactly the value keyed there |
| Keyframes.ShownBeforeFirst | tank_missile_animation.py:349 | a channel keyed twice at increasing frames is ascending, and up to its first key `frame_set` shows the first key's value |
| Keyframes.ShownBeforeFirstOfThree | ball_obstacle_animation.py:315 | a channel keyed three times at increasing frames is ascending, and up to its first key `frame_set` shows the first key's value |
| Keyframes.HandsOffAfterOthers | falling_dominoes_animation.py:221-318 | keys of other objects logged before a body's handoff do not change that handoff |
| Naming.Decimal | tank_missile_animation.py:146 | `f"{n}"` is a non-empty digit string, of one digit exactly when n < 10 |
| Naming.Pad2 | falling_dominoes_animation.py:166 | `f"{n:02d}"` is a digit string |
| Naming.ParseDecimal | tank_missile_animation.py:146 | reading `f"{n}"` back gives n (round trip) |
| Naming.ParsePad2 | falling_dominoes_animation.py:166 | reading `f"{n:02d}"` back gives n (round trip) |
| Naming.Pad2Width | falling_dominoes_animation.py:166 | below 100 the padded form has exactly two digits |
| Naming.DecimalInjective | tank_missile_animation.py:146 | different numbers give different `f"{n}"` |
| Naming.Pad2Injective | falling_dominoes_animation.py:166 | different numbers give different `f"{n:02d}"` |
| Naming.PrefixedDistinct | falling_dominoes_animation.py:166 | a fixed prefix followed by different suffixes gives different names |
| Tank.TankLog | tank_missile_animation.py:286-345 | the log of the firing loop holds eight keys per shot |
| Tank.TurretSamples | tank_missile_animation.py:303-307 | the turret gets two rotation samples per shot |
| Tank.FireMonotone | tank_missile_animation.py:288 | with a non-negative interval, later missiles never fire earlier |
| Tank.SourceSchedule | tank_missile_animation.py:281-289 | the script fires at 1, 51, 101, 151, 201 and hits at 31, 81, 131, 181, 231 |
| Tank.WindowsSeparated | tank_missile_animation.py:281-289 | for any periodic schedule of two or more missiles: every impact window ends before the next firing exactly when flight + 1 < interval |
| Tank.SourceWindowsSeparated | tank_missile_animation.py:281-307 | in the script's schedule every impact window ends before the next firing, and before the turret starts turning for it |
| Tank.CloserCadenceInterleaves | tank_missile_animation.py:281-289 | firing every 20 frames with 30 frames of flight would fire the next missile before the previous hits |
| Tank.TimelineRows | tank_missile_animation.py:361-365 | the printed timeline lists, for targets 1..5, the same fire and impact frames the loop uses |
| Tank.TargetArc | tank_missile_animation.py:136-137 | the targets sit at -60, -30, 0, 30, 60 degrees, symmetric about the tank's axis |
| Tank.TargetNames | tank_missile_animation.py:146 | targets are named Target_1 .. Target_5 and no two targets share a name |
| Tank.DustClearsBeforeNextImpact | tank_missile_animation.py:171-218 | a target's dust is emitted on its impact frame and the next only; 100 particles living 30 frames; the last particle is gone before the next target is hit |
| Tank.ShotTrackSplit | tank_missile_animation.py:303-341 | one iteration's track is what each of its eight keys contributes, in order |
| Tank.ShotTurretTrack | tank_missile_animation.py:303-307 | one iteration keys the turret's rotation twice: heading 0 ten frames before firing, then the aim at firing |
| Tank.ShotMissileTrack | tank_missile_animation.py:318-332 | one iteration keys its missile's location at the start and at the target, and its scale full at firing and shrunk the frame after impact |
| Tank.ShotTargetTrack | tank_missile_animation.py:334-341 | one iteration keys its target's scale full at impact and shrunk on the next frame |
| Tank.ShotStrangerTrack | tank_missile_animation.py:303-341 | one iteration keys no object other than the turret, its missile and its target |
| Tank.SeparatePrefix | tank_missile_animation.py:286 | the first shots of distinct objects are still distinct |
| Tank.TurretTrack | tank_missile_animation.py:303-307 | over the whole loop only the turret's rotation is keyed, a 0-then-aim pair per shot in order |
| Tank.TurretSamplesLast | tank_missile_animation.py:303-307 | the turret's samples over all shots are those over all but the last, then the last shot's 0-then-aim pair |
| Tank.StrangerTrack | tank_missile_animation.py:286-345 | an object that is neither the turret, a missile nor a target gets no key |
| Tank.OwnTrack | tank_missile_animation.py:286-345 | the j-th missile and the j-th target are keyed by iteration j alone |
| Tank.MissileTrack | tank_missile_animation.py:318-332 | over the whole loop the j-th missile is keyed full-size at the start on its firing frame, at the target on impact, and shrunk the frame after |
| Tank.TargetTrack | tank_missile_animation.py:334-341 | over the whole loop the j-th target keeps its size up to its impact frame and is shrunk on the next one |
| Tank.TankLogLast | tank_missile_animation.py:286-345 | the track over all iterations is the track over all but the last, then the last iteration's |
| Tank.LastShotApart | tank_missile_animation.py:286 | the last iteration's missile and target differ from every earlier one |
| Tank.AscendingConcat | tank_missile_animation.py:303-307 | two ascending tracks, the second starting after the first ends, make an ascending track |
| Tank.TurretAscending | tank_missile_animation.py:303-307 | when the turret starts turning after the previous firing, its keys strictly increase and the last is the last firing |
| Tank.TurretWellFormed | tank_missile_animation.py:303-307 | in the script's run every turret channel is keyed at strictly increasing frames between -9 and 232; its rotation has 10 keys, the first at -9 |
| Tank.ShotWellFormed | tank_missile_animation.py:318-341 | in the script's run every channel of a missile or target is keyed at strictly increasing frames between 1 and 232 |
| Tank.ShotFrames | tank_missile_animation.py:288-289 | in the script's run each shot is fired on frame 1 or later, hits after it is fired, and the frame after its impact is at most 232 |
| Tank.TankLogWellFormed | tank_missile_animation.py:286-345 | in the script's run every channel of every object is keyed at strictly increasing frames, all between -9 and 232 (before the scene's end, 300); the turret has 10 keys, the first at -9 |
| Tank.TurretPrefix | tank_missile_animation.py:303-307 | the turret samples of the first shots are a prefix of all its samples |
| Tank.CreateTank | tank_missile_animation.py:46-122 | five new distinct parts: body, turret, barrel, left and right track; turret and tracks under the body, barrel under the turret, each part's parent is an earlier part; body and tracks rest on the ground; nothing is left selected |
| Tank.CreateHull | tank_missile_animation.py:46-89 | body, turret over it and barrel pointing forward; turret parented to the body, barrel to the turret |
| Tank.AddTrack | tank_missile_animation.py:92-118 | a track block at half its height, parented to the body; the body's own parent is unchanged |
| Tank.AddBlock | tank_missile_animation.py:49-55 | a unit cube scaled and lifted to the height given; it is the only selected object |
| Tank.ParentTo | tank_missile_animation.py:80-89 | the child, and whatever else was selected, get the parent; the child is deselected again; the parent's own parent is unchanged |
| Tank.CreateTargetObjects | tank_missile_animation.py:124-156 | five new distinct targets Target_1..Target_5 on the arc of radius 15, scaled 2 x 2 x 3 and resting on the ground, each with its own colour |
| Tank.AddTarget | tank_missile_animation.py:136-154 | one target: named Target_(i+1), on the arc at angle -60 + 30i, scaled 2 x 2 x 3, lifted to 1.5 and given its colour |
| Tank.CreateMissile | tank_missile_animation.py:158-169 | a new missile called "Missile" at the start given, pointing forward |
| Tank.CreateDustParticleSystem | tank_missile_animation.py:171-218 | an emitter at the target, named after it, emitting 100 particles on the frame given and the next, living 30 frames, drawn as a particle object with the target's colour |
| Tank.Strike | tank_missile_animation.py:286-345 | one iteration appends exactly its eight keys to the log, leaves the turret aimed, the target shrunk, and the dust anchored at the impact frame |
| Tank.TurnTurret | tank_missile_animation.py:302-307 | the turret is keyed at heading 0 ten frames before firing and at the aim on the firing frame |
| Tank.FlyMissile | tank_missile_animation.py:317-332 | the missile is keyed at its start at full size, at the target on impact, and shrunk the frame after |
| Tank.ShrinkTarget | tank_missile_animation.py:334-341 | the target is keyed at full size on impact and shrunk on the next frame |
| Tank.AnimateTankMissileDestruction | tank_missile_animation.py:252-349 | scene 1..300 at 24 fps, cursor back on 1; the scene camera at (0, -20, 8) tilted 65 degrees; one missile, one emitter and one particle object per target; the final log is exactly the loop's log over the five shots, each aimed at its target; every dust emitter sits at its target's place, emitting on its impact frame; back on frame 1 the host shows every target at full size, every missile at its start and full size, and the turret aimed at the first target |
| Tank.Prepare | tank_missile_animation.py:254-277 | a new scene 1..300 at 24 fps with no keys; the tank at (0, -10) with its turret unrotated; five new distinct targets on their arc; the new scene camera at (0, -20, 8) tilted 65 degrees |
| Tank.FireAndRewind | tank_missile_animation.py:281-349 | into an empty log the loop writes exactly its five shots' keys, each aimed at its target; every dust emitter is anchored at its target's impact; once the cursor is back on 1 the host shows the first shot's set-up |
| Tank.ShownOnFirstFrame | tank_missile_animation.py:348-349 | on frame 1 of the loop's log the host shows every target at full size (2 x 2 x 3), every missile at its start and full size, and the turret at the aim keyed for the first target; each of these tracks is keyed at strictly increasing frames |
| Tank.ShotShownOnFirstFrame | tank_missile_animation.py:318-349 | on frame 1 each shot's target shows full size and its missile its start at full size, each of these tracks keyed at increasing frames |
| Tank.TurretShownOnFirstFrame | tank_missile_animation.py:303-349 | on frame 1 the turret shows the aim keyed there for the first target, its rotation keyed at strictly increasing frames |
| Tank.Fire | tank_missile_animation.py:288 | the i-th missile's firing frame: the first on `first`, every later one after it when the interval is positive |
| Tank.Impact | tank_missile_animation.py:289 | the i-th missile's impact frame, after its firing frame whenever the flight takes time |
| Tank.TargetAngle | tank_missile_animation.py:137 | the i-th target's angle on the arc, -60 + 30i degrees; the five lie within 60 degrees of the tank's axis |
| Tank.TargetName | tank_missile_animation.py:146 | the i-th target's name, `Target_` followed by its number counted from 1 |
| Tank.TargetAt | tank_missile_animation.py:136-140 | the i-th target's place on the arc of radius 15, its centre at half the target's height (1.5); the middle target stands straight ahead at (0, 15, 1.5) |
| Tank.Aim | tank_missile_animation.py:300 | the turret heading towards a target, from the tank body and negated so the turret points at it; a target straight ahead needs no turn |
| Tank.MissileStart | tank_missile_animation.py:310-312 | a missile starts at y = -6 and height 2.25, shifted sideways to the same side as its target |
| Tank.DustSettings | tank_missile_animation.py:184-199 | the emitter's settings are named `Dust_` followed by the target's name, emit on the impact frame and the next, and are drawn as the particle object |
| Tank.ShotKeys | tank_missile_animation.py:303-341 | one iteration inserts eight keys, the turret's first, then the missile's, the target's last |
| Tank.Stage | tank_missile_animation.py:266-277 | the tank at (0, -10) with its turret unrotated, the five targets on their arc, and the new scene camera at (0, -20, 8) tilted 65 degrees, before any key |
| Tank.FiringLoop | tank_missile_animation.py:281-345 | the loop appends exactly the log of its five shots, the j-th missile aimed at the j-th target, all objects distinct; when it ends (frame 232) every target is shrunk and has its dust emitter at its place emitting on its impact frame, and the turret is aimed at the last target |
| Tank.Volley | tank_missile_animation.py:286-345 | one iteration of the loop appends its shot's eight keys and extends the shrunk targets, anchored emitters and turret aim by that shot, leaving the earlier ones as they were |
| Tank.LoggedSnoc | tank_missile_animation.py:286-345 | the log after one more iteration is the log of one more shot, with all missiles and targets still distinct |
| Tank.AppendAssoc | tank_missile_animation.py:286-345 | appending the next iteration's keys to the log so far is associative |
| Tank.TankLogSnoc | tank_missile_animation.py:286-345 | the loop's log over one more shot is the log so far followed by that shot's keys |
| Tank.SeparateSnoc | tank_missile_animation.py:286-345 | a new missile and target, distinct from everything so far, keep all objects distinct |
| SceneGraph.LinkedOneLinks | falling_dominoes_animation.py:327-328 | one guarded link (`LinkedOne`): afterwards the name is in the collection, and the collection is unchanged exactly when the name was there before |
| SceneGraph.Linked | falling_dominoes_animation.py:327-333 | the collection after the guarded links of a list, in order, only ever grows |
| SceneGraph.LinkedAppend | falling_dominoes_animation.py:327-333 | guarded links of two lists one after the other equal the guarded links of the joined list |
| SceneGraph.LinkedExtends | falling_dominoes_animation.py:327-333 | guarded links only add: what was linked stays where it was |
| SceneGraph.LinkedContains | falling_dominoes_animation.py:327-333 | after the guarded links, every object's name is in the collection |
| SceneGraph.LinkedUnique | falling_dominoes_animation.py:327-333 | guarded links never link a name twice |
| SceneGraph.LinkedIdempotent | falling_dominoes_animation.py:327-333 | running the guarded links a second time changes nothing |
| SceneGraph.AllPresent | falling_dominoes_animation.py:327-333 | objects whose names are all linked are all skipped |
| SceneGraph.LinkedDistinct | falling_dominoes_animation.py:327-333 | into an empty collection, objects with distinct names are linked exactly as listed, in order |
| SceneGraph.LinkedThree | ball_obstacle_animation.py:201-225 | the guarded links of three objects are three single guarded links in turn |
| Dominoes.DominoName | falling_dominoes_animation.py:166 | a domino's name starts with `Domino_` |
| Dominoes.DominoAt | falling_dominoes_animation.py:155-163 | the i-th domino stands on y = 0 with its centre 1 up |
| Dominoes.DominoBody | falling_dominoes_animation.py:196-204 | a domino's rigid body is active and not kinematic, with a mass in [0.4, 0.6) for a draw in [0, 1) |
| Dominoes.PoseKeys | falling_dominoes_animation.py:221-225 | the two keys of one camera pose, location then rotation, both on the pose's frame |
| Dominoes.CameraKeys | falling_dominoes_animation.py:212-246 | the camera's eight keys, the first on the scene's first frame and the last on its last |
| Dominoes.BallKeys | falling_dominoes_animation.py:302-318 | the ball's five keys, the last releasing it to the solver at 26 |
| Dominoes.BallOwnTrack | falling_dominoes_animation.py:212-318 | after the camera's keys, each of the ball's tracks is that of its own keys: location at 1 and 25, the flag on at 1 and 25 and off at 26, nothing else |
| Dominoes.BallShownAtStart | falling_dominoes_animation.py:348 | on frame 1 of the camera's and the ball's keys the host shows the ball kinematic at the start of its push; both tracks are keyed at strictly increasing frames |
| Dominoes.DominoNames | falling_dominoes_animation.py:154-166 | Domino_00 .. Domino_14 have nine characters each and no two dominoes share a name |
| Dominoes.RowOrder | falling_dominoes_animation.py:154-169 | the row runs left to right in list order, one spacing (0.65) apart, on y = 0, each domino half its height (1) up |
| Dominoes.PoseTrack | falling_dominoes_animation.py:221-225 | one camera pose keys the location and the rotation once each at its frame |
| Dominoes.CameraTrack | falling_dominoes_animation.py:212-246 | the camera's track is one sample per pose, in pose order |
| Dominoes.CameraFrames | falling_dominoes_animation.py:212-246 | the camera's location and rotation are keyed 4 times, at 1, 60, 120 and 180, strictly increasing from the scene's first frame to its last |
| Dominoes.BallTrack | falling_dominoes_animation.py:302-318 | the ball's location is keyed at 1 and 25, its kinematic flag on at 1 and 25 and off at 26, and nothing else of it |
| Dominoes.CameraKeysOwn | falling_dominoes_animation.py:212-246 | every camera key is the camera's |
| Dominoes.BallKeysHandOff | falling_dominoes_animation.py:302-318 | the ball's keys hand it to the solver at 26 |
| Dominoes.BallHandsOff | falling_dominoes_animation.py:296-318 | after the camera and ball keys the ball is handed off at 26, its only drop of the flag; it is pushed along x only, from 3 to 0.6 left of the first domino |
| Dominoes.DustInsideCache | falling_dominoes_animation.py:336-337 | the dust is emitted (20..150) inside the simulated range 1..180 |
| Dominoes.SetupDominoScene | falling_dominoes_animation.py:128-188 | a new ground and fifteen new distinct dominoes, the i-th named Domino_ii, at its place in the row, scaled 0.3 x 0.8 x 2 and upright |
| Dominoes.AddDomino | falling_dominoes_animation.py:154-186 | one new domino at the next index, named, placed, scaled and upright; the row with it appended is still a row: each domino at its index, none the ground, no two the same |
| Dominoes.RowAppend | falling_dominoes_animation.py:186 | appending a domino placed at the next index, distinct from the ground and from every domino of a row, gives a row |
| Dominoes.CreateTriggerBall | falling_dominoes_animation.py:250-269 | a ball called TriggerBall with an active, kinematic rigid body of mass 2, linked into the rigid-body world by `object_add` |
| Dominoes.SetupPhysics | falling_dominoes_animation.py:190-210 | each domino is active with its mass jittered by its draw to 0.4 + 0.2 * draw; the ground is passive with friction 0.8; the dominoes then the ground are linked into the world unless already there |
| Dominoes.AddDominoBody | falling_dominoes_animation.py:193-204 | one domino gets its active body with jittered mass and is linked into the world unless already there |
| Dominoes.KeyPose | falling_dominoes_animation.py:221-225 | one pose moves the cursor, places the camera and appends its two keys |
| Dominoes.SetupCamera | falling_dominoes_animation.py:212-248 | the scene camera AnimationCamera is new; the log gains exactly its four pose keys; the cursor ends on 180 |
| Dominoes.AnimateTriggerBall | falling_dominoes_animation.py:302-318 | the log gains exactly the ball's five keys, the cursor ends on 26 and the ball's body ends non-kinematic |
| Dominoes.LinkIfAbsent | falling_dominoes_animation.py:327-328 | a guarded link adds the object only when its name is not linked yet |
| Dominoes.LinkAll | falling_dominoes_animation.py:329-331 | the dominoes' guarded links, in row order |
| Dominoes.LinkRigidBodies | falling_dominoes_animation.py:320-333 | the world is created if missing, then the ball, the dominoes and the ground are linked unless already present |
| Dominoes.AddParticleEffects | falling_dominoes_animation.py:355-389 | a dust plane just above the ground emitting 500 particles from frame 20 to 150, each living 50 frames |
| Dominoes.RigidNamesUnique | falling_dominoes_animation.py:166 | TriggerBall, Domino_00 .. Domino_14 and Ground are distinct names |
| Dominoes.RigidPair | falling_dominoes_animation.py:166 | any two rigid bodies in link order (ball, dominoes, ground) have different names |
| Dominoes.RigidObjectName | falling_dominoes_animation.py:166 | the k-th rigid body in link order is named TriggerBall, Domino_(k-1) or Ground |
| Dominoes.RigidNamesDiffer | falling_dominoes_animation.py:166 | the names TriggerBall, Domino_00 .. Domino_14 and Ground at two different link positions differ |
| Dominoes.AnimateFallingDominoes | falling_dominoes_animation.py:271-349 | scene 1..180 at 24 fps, cursor back on 1; every domino named, placed and given its jittered body; the ball's body keeps its settings apart from the keyed flag; the log is the camera's keys then the ball's; the ball is handed off at 26; back on frame 1 the host shows the ball kinematic at its start; the world holds the ball, the dominoes in row order and the ground, each once; the cache covers the scene's range; the plane emits the dust |
| Dominoes.Build | falling_dominoes_animation.py:280-287 | the row, the ground and the ball, with their rigid bodies, before any key; the world already holds the ball, the row in order and the ground |
| Dominoes.PlaceObjects | falling_dominoes_animation.py:280-284 | the row, the ground and the ball placed; the world holds only the ball |
| Dominoes.PhysicsLinkOrder | falling_dominoes_animation.py:190-210 | linking the row and the ground after the ball gives ball, row in order, ground, each once |
| Dominoes.Choreograph | falling_dominoes_animation.py:289-349 | on the objects built: the camera's keys then the ball's, the handoff at 26, the world unchanged, the cache over 1..180, the dust, and the cursor back on 1, where the host shows the ball kinematic at its start; the ball's body keeps its settings apart from the keyed flag |
| Dominoes.PrepareBake | falling_dominoes_animation.py:320-348 | the world unchanged, the cache over 1..180, the dust, and the cursor back on 1, where the host shows the ball kinematic at the start of its push |
| Dominoes.Rewind | falling_dominoes_animation.py:348 | the cursor on frame 1, where the host shows the ball kinematic at the start of its push, its tracks keyed at strictly increasing frames |
| Dominoes.KeyCameraAndBall | falling_dominoes_animation.py:289-318 | the log is the camera's keys then the ball's, and the ball is handed off at 26 |
| Dominoes.LinkAndCache | falling_dominoes_animation.py:320-337 | with the ball, the row and the ground already linked by `object_add`, every guard skips and the world is unchanged; the cache covers 1..180 |
| BallObstacle.CameraKeys | ball_obstacle_animation.py:232-249 | the camera's three keys, the first on the scene's first frame and the last on its last |
| BallObstacle.BallKeys | ball_obstacle_animation.py:272-294 | the ball's seven keys, the last releasing it to the solver at 21 |
| BallObstacle.BallShownAtStart | ball_obstacle_animation.py:315 | on frame 1 of the camera's and the ball's keys the host shows the ball kinematic, at its start and unrotated; the three tracks are keyed at strictly increasing frames |
| BallObstacle.CameraFrames | ball_obstacle_animation.py:232-249 | only the camera's rotation is keyed, at 1, 60 and 120 (the scene's first and last frames), with the angles set before each key |
| BallObstacle.BallTrack | ball_obstacle_animation.py:272-294 | the ball's location and rotation are keyed at 1 and 20, its flag on at 1 and 20 and off at 21, and nothing else of it |
| BallObstacle.BallKeysHandOff | ball_obstacle_animation.py:272-294 | the ball's keys hand it to the solver at 21 |
| BallObstacle.BallHandsOff | ball_obstacle_animation.py:239-294 | after the camera and ball keys the ball is handed off at 21, its only drop of the flag; it moves towards the wall and ends with its surface on the wall's near face |
| BallObstacle.PhysicsRoles | ball_obstacle_animation.py:197-230 | only the ball is active (sphere, kinematic at first); wall (box) and ground (mesh) are passive; all three use margin 0.01 |
| BallObstacle.LinkRefused | ball_obstacle_animation.py:300-303 | in the scene the script has built by line 300, each of ball, wall and ground is already in the world, so each unguarded link is refused |
| BallObstacle.SetupBallObstacleScene | ball_obstacle_animation.py:154-195 | new ground, ball and wall; the wall is scaled 2 x 2 x 4 and lifted so that its bottom face rests on the ground |
| BallObstacle.SetupPhysics | ball_obstacle_animation.py:197-230 | the ball, the wall and the ground get exactly the rigid-body settings the script writes, and each is linked into the world unless already there |
| BallObstacle.SetupCamera | ball_obstacle_animation.py:232-249 | the new scene camera at (8, -8, 6); the log gains exactly its three rotation keys; the cursor ends on 120 |
| BallObstacle.AnimateBall | ball_obstacle_animation.py:272-294 | the log gains exactly the ball's seven keys, the cursor ends on 21 and the ball's body ends non-kinematic |
| BallObstacle.LinkBodies | ball_obstacle_animation.py:296-303 | as written: the world is created if missing, then ball, wall and ground are appended in that order; the host accepts this only when none of them is linked yet |
| BallObstacle.LinkBodiesGuarded | ball_obstacle_animation.py:296-303 | corrected: the world is created if missing, then ball, wall and ground are each linked unless already there |
| BallObstacle.BeforeLinks | ball_obstacle_animation.py:255-300 | the scene up to line 300: range, camera, keys, bodies and handoff, with ball, wall and ground already in the world, each name present |
| BallObstacle.AnimateBallCollision | ball_obstacle_animation.py:251-316 | scene 1..120 at 24 fps, cursor back on 1; the ball's body keeps its settings apart from the keyed flag, the wall and the ground theirs; the log is the camera's keys then the ball's; the ball is handed off at 21; back on frame 1 the host shows the ball kinematic, at its start and unrotated; the world holds ball, wall and ground, each once; the cache covers the scene's range (with the corrected, guarded links) |
| BallObstacle.Rewind | ball_obstacle_animation.py:315 | the cursor on frame 1, where the host shows the ball kinematic, at its start and unrotated, its tracks keyed at strictly increasing frames |
| BallObstacle.Build | ball_obstacle_animation.py:259-263 | the three objects with their rigid bodies, before any key; the world holds ball, wall and ground |
| BallObstacle.KeyCameraAndBall | ball_obstacle_animation.py:265-294 | the log is the camera's keys then the ball's, and the ball is handed off at 21 |
| BallObstacle.LinkAndCache | ball_obstacle_animation.py:296-307 | corrected: with ball, wall and ground already linked, the guarded links skip all three and the world is unchanged; the cache covers 1..120 |

## Left out

- Materials, shader nodes, textures, lights, world background, render settings and the bake (`ptcache.bake_all`) do not affect the timeline. They are not modelled.
- Physics simulation, gravity, solver substeps and iterations are not modelled. The model stops at what is handed to the solver.
- Trigonometry: angles are kept in degrees (`math.radians` is left out). `sin`, `cos` and `atan2` are an input (`Tank.Trig`), because real-number trigonometry is outside Dafny's reach.
- `random.random()` in the dominoes' mass jitter is an input sequence `draws`.
- The host renames a duplicate object name (the five `"Missile"` objects become `Missile.001`, ...). The model keeps the name the script asked for.
- `parent_set(keep_transform=True)` keeps world transforms. The model records only the parent, not the parent-relative transform.
- `setup_ground`, `setup_lighting` and the tank's camera only add objects that are never keyed or linked. Only the ground and the camera are created in `Tank.Stage`.
- Positions, scales, masses and angles are exact `real`s. The host stores 32-bit floats, so values such as `-5 + 0.65 * i` and `0.4 + 0.2 * draw` are rounded there. No ordering or equality the model proves depends on that rounding.
- SceneGraph.Scene.FrameSet: only the cursor moves. The host also writes the animation's values at the new frame back into the objects; the model leaves the object fields as the script last set them. What the host shows of a keyed channel is stated instead as `Keyframes.Shown` of its track. That value is exact on and outside the keyed frames; between two keys it depends on the interpolation curve, which is not modelled.
- Tank.AnimateTankMissileDestruction: after the final `frame_set(1)` the model does not promise the fields of keyed channels (target scale, missile location and scale, turret rotation). It states what the host shows on frame 1 instead: targets and missiles at full size, missiles at their starts, the turret at the first aim.
- Dominoes.AnimateFallingDominoes: after the final `frame_set(1)` the ball's kinematic flag and location fields are not promised. The shown values are stated instead (kinematic, at the start of the push), and so are the ball's body settings that are not keyed.
- Dominoes.Choreograph: the same as `Dominoes.AnimateFallingDominoes`, of which it is the second half.
- BallObstacle.AnimateBallCollision: after the final `frame_set(1)` the ball's kinematic flag, location and rotation fields are not promised. The shown values are stated instead (kinematic, at its start, unrotated), and so are the ball's body settings that are not keyed.
- SceneGraph.Scene.WorldAdd: the host's `rigidbody.world_add` leaves the world's collection unset; only `rigidbody.object_add` creates it. The model gives the world an empty collection at once. So the missing-world branches of `Dominoes.LinkRigidBodies`, `BallObstacle.LinkBodies` and `BallObstacle.LinkBodiesGuarded` describe links that the host would fail with an error on the unset collection. Neither script reaches that branch: `rigidbody.object_add` has already created the world and its collection (`Dominoes.Build`, `BallObstacle.Build`).
- The printed console text is not modelled, apart from the timeline rows (`Tank.TimelineRows`).

## Findings

| source | as written | input that shows it | evidently intended | confidence | as-written member | corrected member |
|---|---|---|---|---|---|---|
| ball_obstacle_animation.py:301-303 | the ball, the wall and the ground are linked into the rigid-body collection without a check, after `rigidbody.object_add` (lines 201, 215, 225) has already linked each of them | the script's own run: at line 301 the collection already holds Ball, Obstacle and Ground, so the first `link` is refused by the host | link each object only when its name is not in the collection yet, as `falling_dominoes_animation.py:327-333` does; the world then holds ball, wall and ground once each | not executed | BallObstacle.LinkBodies, BallObstacle.BeforeLinks, BallObstacle.LinkRefused | BallObstacle.LinkBodiesGuarded, BallObstacle.LinkAndCache |
