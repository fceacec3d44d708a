/**
  The part of the host 3D engine that the animation scripts drive: objects with a
  transform, an optional rigid body and an optional particle system, and one scene
  that owns the frame range, the frame cursor, the selection, the keyframe log and
  the rigid-body world collection.

  Every `keyframe_insert` call of the scripts appends one `Key` to `Scene.keys`;
  the value recorded is the object's current value of that channel.  Rotations
  are Euler angles in degrees.
 */
module SceneGraph {

  datatype Option<T> = None | Some(value: T)

  /** A location, Euler rotation (degrees) or scale. */
  datatype Vec = Vec(x: real, y: real, z: real)

  const Zero := Vec(0.0, 0.0, 0.0)
  const One := Vec(1.0, 1.0, 1.0)

  /** An RGBA base colour. */
  datatype Rgba = Rgba(r: real, g: real, b: real, a: real)

  /** The animated channels the scripts key. */
  datatype Channel = Location | Rotation | Scale | Kinematic {
    /** Channels whose authority passes to the rigid-body solver at the handoff. */
    predicate Positional() { this == Location || this == Rotation }
  }

  datatype Value = V(vec: Vec) | Flag(on: bool)

  /** One entry of the keyframe log. */
  datatype Key = Key(obj: Obj, channel: Channel, frame: int, value: Value)

  datatype BodyType = Active | Passive

  datatype Shape = ConvexHull | Sphere | Box | Mesh

  /** Rigid-body settings; `margin` is `Some(m)` when `use_margin` is on. */
  datatype RigidBody = RigidBody(
    kind: BodyType,
    mass: real,
    friction: real,
    restitution: real,
    linearDamping: real,
    angularDamping: real,
    kinematic: bool,
    shape: Shape,
    margin: Option<real>)

  /** The settings `rigidbody.object_add` gives a new rigid body (the host's defaults). */
  const Added := RigidBody(Active, 1.0, 0.5, 0.0, 0.04, 0.1, false, ConvexHull, None)

  /** The emission part of a particle system's settings. */
  datatype ParticleSettings = ParticleSettings(
    name: string,
    count: nat,
    frameStart: int,
    frameEnd: int,
    lifetime: nat,
    instance: Option<Obj>)

  class Obj {
    const name: string
    var location: Vec
    var rotation: Vec
    var scale: Vec
    var parent: Obj?
    var body: Option<RigidBody>
    var particles: Option<ParticleSettings>
    var color: Option<Rgba>

    constructor (name: string, at: Vec)
      ensures this.name == name && location == at
      ensures rotation == Zero && scale == One && parent == null
      ensures body == None && particles == None && color == None
    {
      this.name := name;
      location := at;
      rotation := Zero;
      scale := One;
      parent := null;
      body := None;
      particles := None;
      color := None;
    }

    /** The value `keyframe_insert` records for channel `ch`. */
    function Get(ch: Channel): (r: Value)
      reads this
      requires ch == Kinematic ==> body.Some?
      ensures ch == Kinematic <==> r.Flag?
    {
      match ch
      case Location => V(location)
      case Rotation => V(rotation)
      case Scale => V(scale)
      case Kinematic => Flag(body.value.kinematic)
    }
  }

  /** Is an object called `name` linked into the collection `objs`? */
  predicate NameIn(objs: seq<Obj>, name: string)
  {
    exists i :: 0 <= i < |objs| && objs[i].name == name
  }

  /** No name occurs twice in the collection. */
  predicate UniqueNames(objs: seq<Obj>)
  {
    forall i, j :: 0 <= i < j < |objs| ==> objs[i].name != objs[j].name
  }

  // ---------------------------------------------------------------------------
  // Linking into a collection unless the name is there

  /** Linking `o` unless an object of its name is already in the collection. */
  function LinkedOne(world: seq<Obj>, o: Obj): seq<Obj>
  {
    if NameIn(world, o.name) then world else world + [o]
  }

  /**
    After the guarded link the name is in the collection, and the collection is unchanged
    exactly when the name was there before.
   */
  lemma LinkedOneLinks(world: seq<Obj>, o: Obj)
    ensures NameIn(LinkedOne(world, o), o.name)
    ensures LinkedOne(world, o) == world <==> NameIn(world, o.name)
  {
    if !NameIn(world, o.name) {
      assert LinkedOne(world, o)[|world|] == o;
    }
  }

  /** The collection after the guarded link of each of `objs`, in order: it only ever grows. */
  function Linked(world: seq<Obj>, objs: seq<Obj>): (r: seq<Obj>)
    ensures |world| <= |r|
    decreases |objs|
  {
    if objs == [] then world else LinkedOne(Linked(world, objs[..|objs| - 1]), objs[|objs| - 1])
  }

  lemma {:induction false} LinkedAppend(world: seq<Obj>, a: seq<Obj>, b: seq<Obj>)
    ensures Linked(world, a + b) == Linked(Linked(world, a), b)
    decreases |b|
  {
    if b == [] {
      assert a + b == a;
    } else {
      assert (a + b)[..|a + b| - 1] == a + b[..|b| - 1];
      LinkedAppend(world, a, b[..|b| - 1]);
    }
  }

  /** Three guarded links, one after the other. */
  lemma LinkedThree(world: seq<Obj>, a: Obj, b: Obj, c: Obj)
    ensures Linked(world, [a, b, c]) == LinkedOne(LinkedOne(LinkedOne(world, a), b), c)
  {
    assert [a, b, c][..2] == [a, b] && [a, b][..1] == [a] && [a][..0] == [];
    assert Linked(world, [a]) == LinkedOne(world, a);
    assert Linked(world, [a, b]) == LinkedOne(Linked(world, [a]), b);
  }

  /** The guarded links only add: what was linked stays, in place. */
  lemma {:induction false} LinkedExtends(world: seq<Obj>, objs: seq<Obj>)
    ensures |world| <= |Linked(world, objs)| && Linked(world, objs)[..|world|] == world
    decreases |objs|
  {
    if objs != [] {
      LinkedExtends(world, objs[..|objs| - 1]);
    }
  }

  /** Afterwards every object's name is in the collection. */
  lemma {:induction false} LinkedContains(world: seq<Obj>, objs: seq<Obj>, i: int)
    requires 0 <= i < |objs|
    ensures NameIn(Linked(world, objs), objs[i].name)
    decreases |objs|
  {
    var n := |objs| - 1;
    var before := Linked(world, objs[..n]);
    if i < n {
      LinkedContains(world, objs[..n], i);
      var k :| 0 <= k < |before| && before[k].name == objs[i].name;
      assert LinkedOne(before, objs[n])[k] == before[k];
    } else if !NameIn(before, objs[n].name) {
      assert LinkedOne(before, objs[n])[|before|] == objs[n];
    }
  }

  /** No name is linked twice when none was to begin with. */
  lemma {:induction false} LinkedUnique(world: seq<Obj>, objs: seq<Obj>)
    requires UniqueNames(world)
    ensures UniqueNames(Linked(world, objs))
    decreases |objs|
  {
    if objs != [] {
      LinkedUnique(world, objs[..|objs| - 1]);
    }
  }

  /** Running the guarded links a second time changes nothing. */
  lemma {:induction false} LinkedIdempotent(world: seq<Obj>, objs: seq<Obj>)
    ensures Linked(Linked(world, objs), objs) == Linked(world, objs)
  {
    var once := Linked(world, objs);
    forall i | 0 <= i < |objs|
      ensures NameIn(once, objs[i].name)
    {
      LinkedContains(world, objs, i);
    }
    AllPresent(once, objs);
  }

  /** Objects whose names are all present are all skipped. */
  lemma {:induction false} AllPresent(world: seq<Obj>, objs: seq<Obj>)
    requires forall i :: 0 <= i < |objs| ==> NameIn(world, objs[i].name)
    ensures Linked(world, objs) == world
    decreases |objs|
  {
    if objs != [] {
      AllPresent(world, objs[..|objs| - 1]);
    }
  }

  /** Into an empty collection, objects with distinct names are linked exactly as listed. */
  lemma {:induction false} LinkedDistinct(objs: seq<Obj>)
    requires UniqueNames(objs)
    ensures Linked([], objs) == objs
    decreases |objs|
  {
    if objs != [] {
      var n := |objs| - 1;
      var pre := objs[..n];
      assert UniqueNames(pre);
      LinkedDistinct(pre);
      assert !NameIn(pre, objs[n].name) by {
        forall k | 0 <= k < n
          ensures pre[k].name != objs[n].name
        {
          assert pre[k] == objs[k];
        }
      }
    }
  }

  class Scene {
    var fps: int
    var frameStart: int
    var frameEnd: int
    var frameCurrent: int
    var keys: seq<Key>
    var active: Obj?
    var selected: set<Obj>
    var camera: Obj?
    var rigidWorld: bool
    var world: seq<Obj>
    var cacheStart: int
    var cacheEnd: int

    /**
      The scene of a new file, with the host's default settings. `clear_scene` deletes the
      objects but not a rigid-body world, so only a new file is sure to have none.
     */
    constructor ()
      ensures fps == 24 && frameStart == 1 && frameEnd == 250 && frameCurrent == 1
      ensures keys == [] && active == null && selected == {} && camera == null
      ensures !rigidWorld && world == []
    {
      fps, frameStart, frameEnd, frameCurrent := 24, 1, 250, 1;
      keys := [];
      active, selected, camera := null, {}, null;
      rigidWorld, world := false, [];
      cacheStart, cacheEnd := 1, 250;
    }

    /**
      `frame_set`: moves the frame cursor. The host also evaluates the animation there;
      what it shows of a keyed channel is `Keyframes.Shown` of that channel's track.
     */
    method FrameSet(frame: int)
      modifies `frameCurrent
      ensures frameCurrent == frame
    {
      frameCurrent := frame;
    }

    /** `keyframe_insert`: records the object's current value of the channel at `frame`. */
    method KeyframeInsert(o: Obj, ch: Channel, frame: int)
      requires ch == Kinematic ==> o.body.Some?
      modifies `keys
      ensures keys == old(keys) + [Key(o, ch, frame, o.Get(ch))]
    {
      keys := keys + [Key(o, ch, frame, o.Get(ch))];
    }

    /** `primitive_*_add` followed by naming: the new object becomes the only selected and the active one. */
    method AddObject(name: string, at: Vec) returns (o: Obj)
      modifies `selected, `active
      ensures fresh(o) && o.name == name && o.location == at
      ensures o.rotation == Zero && o.scale == One && o.parent == null
      ensures o.body == None && o.particles == None && o.color == None
      ensures selected == {o} && active == o
    {
      o := new Obj(name, at);
      selected := {o};
      active := o;
    }

    /** `select_set`. */
    method SelectSet(o: Obj, on: bool)
      modifies `selected
      ensures selected == if on then old(selected) + {o} else old(selected) - {o}
    {
      selected := if on then selected + {o} else selected - {o};
    }

    /** `parent_set`: every selected object other than the active one gets the active one as parent. */
    method ParentSet()
      requires active != null
      modifies selected`parent
      ensures forall o :: o in selected && o != active ==> o.parent == active
      ensures active in selected ==> active.parent == old(active.parent)
    {
      forall o | o in selected && o != active {
        o.parent := active;
      }
    }

    /** The objects of the rigid-body world collection; none while there is no world. */
    function Members(): seq<Obj>
      reads `rigidWorld, `world
    {
      if rigidWorld then world else []
    }

    /**
      `rigidbody.object_add`: gives the active object a rigid body with the default
      settings, creates the rigid-body world if there is none (its point cache over the
      default range), and links the object into the world's collection unless an object
      of its name is there already.
     */
    method RigidBodyAdd()
      requires active != null
      modifies active`body, `rigidWorld, `world, `cacheStart, `cacheEnd
      ensures active.body == Some(Added) && rigidWorld
      ensures world == LinkedOne(old(Members()), active)
      ensures old(rigidWorld) ==> cacheStart == old(cacheStart) && cacheEnd == old(cacheEnd)
      ensures !old(rigidWorld) ==> cacheStart == 1 && cacheEnd == 250
    {
      active.body := Some(Added);
      if !rigidWorld {
        rigidWorld, world := true, [];
        cacheStart, cacheEnd := 1, 250;
      }
      if !NameIn(world, active.name) {
        world := world + [active];
      }
    }

    /**
      `rigidbody.world_add`: a rigid-body world whose point cache covers the default range.
      The host leaves its collection unset until `rigidbody.object_add` creates one; the
      model gives the world an empty collection at once.
     */
    method WorldAdd()
      modifies `rigidWorld, `world, `cacheStart, `cacheEnd
      ensures rigidWorld && world == [] && cacheStart == 1 && cacheEnd == 250
    {
      rigidWorld, world := true, [];
      cacheStart, cacheEnd := 1, 250;
    }

    /** `collection.objects.link`: the host refuses an object that is already linked. */
    method Link(o: Obj)
      requires rigidWorld && !NameIn(world, o.name)
      modifies `world
      ensures world == old(world) + [o]
    {
      world := world + [o];
    }
  }

  /** A new file's scene after `clear_scene`, then the frame rate and range, and the cursor on the first frame. */
  method NewScene(fps: int, start: int, end: int) returns (scene: Scene)
    ensures fresh(scene) && scene.fps == fps && scene.frameStart == start && scene.frameEnd == end
    ensures scene.frameCurrent == 1 && scene.keys == [] && scene.selected == {}
    ensures !scene.rigidWorld && scene.world == []
  {
    scene := new Scene();
    scene.fps := fps;
    scene.frameStart := start;
    scene.frameEnd := end;
    scene.FrameSet(1);
  }
}
