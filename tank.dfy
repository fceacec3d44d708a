/**
  tank_missile_animation.py: a tank turns its turret towards five targets in turn and
  fires one missile at each; a missile flies for a fixed number of frames, the target
  and the missile shrink to nothing one frame after impact, and a dust emitter is
  anchored at the impact frame.
 */
module Tank {
  import opened SceneGraph
  import opened Keyframes
  import opened Naming

  /**
    A periodic missile schedule: `count` missiles, the i-th fired at `first + i * interval`
    and hitting `flight` frames later; the turret starts turning `lead` frames before
    each firing.
   */
  datatype Cadence = Cadence(count: nat, first: int, interval: int, flight: int, lead: int)

  /** The schedule the script hard-codes: 5 targets, every 50 frames, 30 frames of flight. */
  const Source := Cadence(5, 1, 50, 30, 10)

  const SceneStart := 1
  const SceneEnd := 300

  /** Where `create_tank(location=(0, -10, 0))` leaves the body. */
  const BodyAt := Vec(0.0, -10.0, 0.75)
  const TargetSize := Vec(2.0, 2.0, 3.0)
  const Tiny := Vec(0.01, 0.01, 0.01)

  const TargetColors := [
    Rgba(0.8, 0.2, 0.2, 1.0),
    Rgba(0.2, 0.8, 0.2, 1.0),
    Rgba(0.2, 0.2, 0.8, 1.0),
    Rgba(0.8, 0.8, 0.2, 1.0),
    Rgba(0.8, 0.2, 0.8, 1.0)]

  /**
    The trigonometry the script takes from the host: sine and cosine of an angle in
    whole degrees, and atan2 giving degrees.
   */
  datatype Trig = Trig(sin: int -> real, cos: int -> real, atan2: (real, real) -> real)

  /** The frame the i-th missile is fired: the first at `first`, each later one after it. */
  function Fire(c: Cadence, i: int): (f: int)
    ensures i == 0 ==> f == c.first
    ensures 0 < i && 0 < c.interval ==> c.first < f
  {
    c.first + i * c.interval
  }

  /** The frame the i-th missile hits: after it is fired, whenever the flight takes any time. */
  function Impact(c: Cadence, i: int): (h: int)
    ensures 0 < c.flight ==> Fire(c, i) < h
  {
    Fire(c, i) + c.flight
  }

  /** The angle of the i-th target on the arc, in degrees: the five lie within 60 degrees of the tank's axis. */
  function TargetAngle(i: int): (a: int)
    ensures 0 <= i < 5 ==> -60 <= a <= 60
  {
    -60 + i * 30
  }

  /** `f"Target_{i+1}"`: the prefix `Target_` followed by the target's number counted from 1. */
  function TargetName(i: nat): (name: string)
    ensures "Target_" <= name
  {
    "Target_" + Decimal(i + 1)
  }

  /**
    The i-th target's place on the arc of radius 15 around the origin, its centre half
    its height up; the middle target stands straight ahead.
   */
  function TargetAt(trig: Trig, i: int): (at: Vec)
    ensures at.z == TargetSize.z / 2.0
    ensures i == 2 && trig.sin(0) == 0.0 && trig.cos(0) == 1.0 ==> at == Vec(0.0, 15.0, 1.5)
  {
    Vec(15.0 * trig.sin(TargetAngle(i)), 15.0 * trig.cos(TargetAngle(i)), 1.5)
  }

  /**
    The turret heading towards a target, measured from the tank body and negated so that
    the turret points at it: a target straight ahead needs no turn.
   */
  function Aim(trig: Trig, at: Vec): (heading: real)
    ensures at.x == 0.0 && trig.atan2(0.0, at.y - BodyAt.y) == 0.0 ==> heading == 0.0
  {
    -trig.atan2(at.x, at.y - BodyAt.y)
  }

  /** A missile starts near the barrel tip, ahead of the tank, shifted sideways towards its target. */
  function MissileStart(at: Vec): (start: Vec)
    ensures start.y == -6.0 && start.z == 2.25
    ensures (start.x < 0.0 <==> at.x < 0.0) && (start.x > 0.0 <==> at.x > 0.0)
  {
    Vec(at.x * 0.1, BodyAt.y + 4.0, BodyAt.z + 1.5)
  }

  /** Dust settings anchored at an impact frame, named after their target and drawn as the particle object. */
  function DustSettings(targetName: string, frame: int, particle: Obj): (s: ParticleSettings)
    ensures |s.name| == 5 + |targetName| && s.name[..5] == "Dust_" && s.name[5..] == targetName
    ensures s.frameStart == frame && s.frameEnd == frame + 1 && s.instance == Some(particle)
  {
    ParticleSettings("Dust_" + targetName, 100, frame, frame + 1, 30, Some(particle))
  }

  /** The last frame at which a particle of an emitter can still be alive. */
  function LastAlive(s: ParticleSettings): int
  {
    s.frameEnd + s.lifetime
  }

  /** One iteration of the firing loop: which missile hits which target, and the turret heading. */
  datatype Shot = Shot(missile: Obj, target: Obj, targetAt: Vec, aim: real)

  /**
    The keys one iteration of the firing loop inserts, in order: two of the turret, four of
    the shot's missile and two of its target.
   */
  function ShotKeys(c: Cadence, i: int, turret: Obj, s: Shot): (ks: seq<Key>)
    ensures |ks| == 8 && ks[0].obj == turret && ks[2].obj == s.missile && ks[7].obj == s.target
  {
    var fire := Fire(c, i);
    var impact := Impact(c, i);
    [ Key(turret, Rotation, fire - c.lead, V(Zero)),
      Key(turret, Rotation, fire, V(Vec(0.0, 0.0, s.aim))),
      Key(s.missile, Location, fire, V(MissileStart(s.targetAt))),
      Key(s.missile, Scale, fire, V(One)),
      Key(s.missile, Location, impact, V(s.targetAt)),
      Key(s.missile, Scale, impact + 1, V(Tiny)),
      Key(s.target, Scale, impact, V(TargetSize)),
      Key(s.target, Scale, impact + 1, V(Tiny)) ]
  }

  /** The keyframe log after the firing loop has run once per shot. */
  function TankLog(c: Cadence, turret: Obj, shots: seq<Shot>): (log: seq<Key>)
    ensures |log| == 8 * |shots|
  {
    if shots == [] then []
    else TankLog(c, turret, shots[..|shots| - 1]) + ShotKeys(c, |shots| - 1, turret, shots[|shots| - 1])
  }

  /** The turret's rotation samples: turned back to 0 before each firing, aimed at it. */
  function TurretSamples(c: Cadence, shots: seq<Shot>): (t: seq<Sample>)
    ensures |t| == 2 * |shots|
  {
    if shots == [] then []
    else
      var i := |shots| - 1;
      TurretSamples(c, shots[..i]) + [Sample(Fire(c, i) - c.lead, V(Zero)), Sample(Fire(c, i), V(Vec(0.0, 0.0, shots[i].aim)))]
  }

  /** The turret, the missiles and the targets are all different objects. */
  predicate Separate(turret: Obj, shots: seq<Shot>)
  {
    && (forall i :: 0 <= i < |shots| ==> shots[i].missile != turret && shots[i].target != turret)
    && (forall i, j :: 0 <= i < |shots| && 0 <= j < |shots| ==> shots[i].missile != shots[j].target)
    && (forall i, j :: 0 <= i < j < |shots| ==> shots[i].missile != shots[j].missile && shots[i].target != shots[j].target)
  }

  // ---------------------------------------------------------------------------
  // The schedule

  lemma FireStep(c: Cadence, i: int)
    ensures Fire(c, i + 1) == Fire(c, i) + c.interval
  {
  }

  lemma {:induction false} FireMonotone(c: Cadence, i: int, j: int)
    requires c.interval >= 0 && i <= j
    ensures Fire(c, i) <= Fire(c, j)
    decreases j - i
  {
    if i < j {
      FireMonotone(c, i, j - 1);
      FireStep(c, j - 1);
    }
  }

  /** The script's schedule fires at 1, 51, 101, 151, 201 and hits at 31, 81, 131, 181, 231. */
  lemma SourceSchedule()
    ensures Source.count == 5
    ensures forall i :: 0 <= i < 5 ==> Fire(Source, i) == [1, 51, 101, 151, 201][i]
    ensures forall i :: 0 <= i < 5 ==> Impact(Source, i) == [31, 81, 131, 181, 231][i]
  {
  }

  /**
    The impact window of one missile (impact frame and the frame after) ends before the
    next missile fires exactly when the flight plus one frame is shorter than the interval.
   */
  lemma WindowsSeparated(c: Cadence)
    requires c.count >= 2
    ensures (forall i :: 0 <= i && i + 1 < c.count ==> Impact(c, i) + 1 < Fire(c, i + 1))
            <==> c.flight + 1 < c.interval
  {
    if c.flight + 1 < c.interval {
      forall i | 0 <= i && i + 1 < c.count
        ensures Impact(c, i) + 1 < Fire(c, i + 1)
      {
        FireStep(c, i);
      }
    } else {
      FireStep(c, 0);
      assert !(Impact(c, 0) + 1 < Fire(c, 1));
    }
  }

  lemma SourceWindowsSeparated()
    ensures forall i :: 0 <= i && i + 1 < Source.count ==> Impact(Source, i) + 1 < Fire(Source, i + 1)
    ensures forall i :: 0 <= i && i + 1 < Source.count ==> Impact(Source, i) + 1 < Fire(Source, i + 1) - Source.lead
  {
    WindowsSeparated(Source);
  }

  /** Firing every 20 frames with 30 frames of flight would interleave the windows. */
  lemma CloserCadenceInterleaves()
    ensures var c := Cadence(5, 1, 20, 30, 10); Fire(c, 1) <= Impact(c, 0)
  {
  }

  /** The printed timeline recomputes the schedule the loop uses. */
  method TimelineRows() returns (rows: seq<(int, int)>)
    ensures |rows| == Source.count
    ensures forall i :: 0 <= i < |rows| ==> rows[i] == (Fire(Source, i), Impact(Source, i))
    ensures rows == [(1, 31), (51, 81), (101, 131), (151, 181), (201, 231)]
  {
    var missileIntervals := 50;
    rows := [];
    for i := 0 to 5
      invariant |rows| == i
      invariant forall j :: 0 <= j < i ==> rows[j] == (Fire(Source, j), Impact(Source, j))
    {
      var fire := 1 + i * missileIntervals;
      var impact := fire + 30;
      rows := rows + [(fire, impact)];
    }
  }

  // ---------------------------------------------------------------------------
  // Targets and dust

  /** The five targets sit at -60, -30, 0, 30 and 60 degrees, symmetric about the tank's axis. */
  lemma TargetArc()
    ensures forall i :: 0 <= i < 5 ==> TargetAngle(i) == [-60, -30, 0, 30, 60][i]
    ensures forall i :: 0 <= i < 5 ==> TargetAngle(4 - i) == -TargetAngle(i)
  {
  }

  lemma TargetNames()
    ensures TargetName(0) == "Target_1" && TargetName(4) == "Target_5"
    ensures forall i, j :: 0 <= i < j ==> TargetName(i) != TargetName(j)
  {
    forall i, j | 0 <= i < j
      ensures TargetName(i) != TargetName(j)
    {
      if TargetName(i) == TargetName(j) {
        PrefixedDistinct("Target_", Decimal(i + 1), Decimal(j + 1));
        DecimalInjective(i + 1, j + 1);
      }
    }
  }

  /**
    Dust of the i-th target is emitted only on the impact frame and the next, and every
    particle is gone before the next target is hit.
   */
  lemma DustClearsBeforeNextImpact(c: Cadence, i: int, name: string, particle: Obj)
    requires 1 + 30 < c.interval
    ensures var s := DustSettings(name, Impact(c, i), particle);
      && s.frameStart == Impact(c, i) && s.frameEnd == Impact(c, i) + 1
      && s.count == 100 && s.lifetime == 30
      && LastAlive(s) == Impact(c, i) + 31
      && LastAlive(s) < Impact(c, i + 1)
  {
    FireStep(c, i);
  }

  // ---------------------------------------------------------------------------
  // The keyframe log

  /** A shot's track is what each of its eight keys contributes, in order. */
  lemma ShotTrackSplit(c: Cadence, i: int, turret: Obj, s: Shot, o: Obj, ch: Channel)
    ensures var ks := ShotKeys(c, i, turret, s);
      Track(ks, o, ch) ==
        Picked(ks[0], o, ch) + Picked(ks[1], o, ch) + Picked(ks[2], o, ch) + Picked(ks[3], o, ch) +
        Picked(ks[4], o, ch) + Picked(ks[5], o, ch) + Picked(ks[6], o, ch) + Picked(ks[7], o, ch)
  {
    var ks := ShotKeys(c, i, turret, s);
    assert ks == [ks[0], ks[1]] + [ks[2], ks[3]] + [ks[4], ks[5]] + [ks[6], ks[7]];
    TrackAppend([ks[0], ks[1]] + [ks[2], ks[3]] + [ks[4], ks[5]], [ks[6], ks[7]], o, ch);
    TrackAppend([ks[0], ks[1]] + [ks[2], ks[3]], [ks[4], ks[5]], o, ch);
    TrackAppend([ks[0], ks[1]], [ks[2], ks[3]], o, ch);
    Track2(ks[0], ks[1], o, ch);
    Track2(ks[2], ks[3], o, ch);
    Track2(ks[4], ks[5], o, ch);
    Track2(ks[6], ks[7], o, ch);
  }

  /** One iteration of the firing loop keys the turret's rotation twice: back to 0, then aimed. */
  lemma ShotTurretTrack(c: Cadence, i: int, turret: Obj, s: Shot, ch: Channel)
    requires turret != s.missile && turret != s.target
    ensures Track(ShotKeys(c, i, turret, s), turret, ch) ==
      if ch == Rotation then [Sample(Fire(c, i) - c.lead, V(Zero)), Sample(Fire(c, i), V(Vec(0.0, 0.0, s.aim)))] else []
  {
    ShotTrackSplit(c, i, turret, s, turret, ch);
  }

  /** ... its missile's location (start, then target) and scale (full, then shrunk). */
  lemma ShotMissileTrack(c: Cadence, i: int, turret: Obj, s: Shot, ch: Channel)
    requires turret != s.missile && s.missile != s.target
    ensures Track(ShotKeys(c, i, turret, s), s.missile, ch) ==
      if ch == Location then [Sample(Fire(c, i), V(MissileStart(s.targetAt))), Sample(Impact(c, i), V(s.targetAt))]
      else if ch == Scale then [Sample(Fire(c, i), V(One)), Sample(Impact(c, i) + 1, V(Tiny))]
      else []
  {
    ShotTrackSplit(c, i, turret, s, s.missile, ch);
  }

  /** ... its target's scale (full at impact, shrunk on the next frame). */
  lemma ShotTargetTrack(c: Cadence, i: int, turret: Obj, s: Shot, ch: Channel)
    requires turret != s.target && s.missile != s.target
    ensures Track(ShotKeys(c, i, turret, s), s.target, ch) ==
      if ch == Scale then [Sample(Impact(c, i), V(TargetSize)), Sample(Impact(c, i) + 1, V(Tiny))] else []
  {
    ShotTrackSplit(c, i, turret, s, s.target, ch);
  }

  /** ... and nothing of any other object. */
  lemma ShotStrangerTrack(c: Cadence, i: int, turret: Obj, s: Shot, o: Obj, ch: Channel)
    requires o != turret && o != s.missile && o != s.target
    ensures Track(ShotKeys(c, i, turret, s), o, ch) == []
  {
    ShotTrackSplit(c, i, turret, s, o, ch);
  }

  lemma SeparatePrefix(turret: Obj, shots: seq<Shot>, n: nat)
    requires Separate(turret, shots) && n <= |shots|
    ensures Separate(turret, shots[..n])
  {
  }

  /** Only rotation is keyed on the turret: a 0-then-aim pair per shot. */
  lemma {:induction false} TurretTrack(c: Cadence, turret: Obj, shots: seq<Shot>, ch: Channel)
    requires Separate(turret, shots)
    ensures Track(TankLog(c, turret, shots), turret, ch) == if ch == Rotation then TurretSamples(c, shots) else []
    decreases |shots|
  {
    if shots != [] {
      var n := |shots| - 1;
      var pre, last := shots[..n], shots[n];
      SeparatePrefix(turret, shots, n);
      assert last.missile != turret && last.target != turret;
      calc {
        Track(TankLog(c, turret, shots), turret, ch);
        Track(TankLog(c, turret, pre) + ShotKeys(c, n, turret, last), turret, ch);
        { TrackAppend(TankLog(c, turret, pre), ShotKeys(c, n, turret, last), turret, ch); }
        Track(TankLog(c, turret, pre), turret, ch) + Track(ShotKeys(c, n, turret, last), turret, ch);
        { TurretTrack(c, turret, pre, ch); ShotTurretTrack(c, n, turret, last, ch); }
        if ch == Rotation then
          TurretSamples(c, pre) + [Sample(Fire(c, n) - c.lead, V(Zero)), Sample(Fire(c, n), V(Vec(0.0, 0.0, last.aim)))]
        else [] + [];
        { TurretSamplesLast(c, shots); }
        if ch == Rotation then TurretSamples(c, shots) else [];
      }
    }
  }

  /** The turret samples of the shots are those of all but the last, then the last shot's pair. */
  lemma {:induction false} TurretSamplesLast(c: Cadence, shots: seq<Shot>)
    requires shots != []
    ensures var n := |shots| - 1;
      TurretSamples(c, shots) ==
        TurretSamples(c, shots[..n]) + [Sample(Fire(c, n) - c.lead, V(Zero)), Sample(Fire(c, n), V(Vec(0.0, 0.0, shots[n].aim)))]
  {
  }

  /** An object that is neither the turret, a missile nor a target has no keys. */
  lemma {:induction false} StrangerTrack(c: Cadence, turret: Obj, shots: seq<Shot>, o: Obj, ch: Channel)
    requires Separate(turret, shots)
    requires o != turret && forall i :: 0 <= i < |shots| ==> o != shots[i].missile && o != shots[i].target
    ensures Track(TankLog(c, turret, shots), o, ch) == []
    decreases |shots|
  {
    if shots != [] {
      var n := |shots| - 1;
      SeparatePrefix(turret, shots, n);
      StrangerTrack(c, turret, shots[..n], o, ch);
      TrackAppend(TankLog(c, turret, shots[..n]), ShotKeys(c, n, turret, shots[n]), o, ch);
      ShotStrangerTrack(c, n, turret, shots[n], o, ch);
    }
  }

  /** The j-th shot's missile and target are keyed by that shot alone. */
  lemma {:induction false} OwnTrack(c: Cadence, turret: Obj, shots: seq<Shot>, j: int, o: Obj, ch: Channel)
    requires Separate(turret, shots) && 0 <= j < |shots|
    requires o == shots[j].missile || o == shots[j].target
    ensures Track(TankLog(c, turret, shots), o, ch) == Track(ShotKeys(c, j, turret, shots[j]), o, ch)
    decreases |shots|
  {
    var n := |shots| - 1;
    var pre := shots[..n];
    LastShotApart(turret, shots);
    TankLogLast(c, turret, shots, o, ch);
    if j < n {
      assert pre[j] == shots[j];
      assert o != turret && o != shots[n].missile && o != shots[n].target by {
        if o == shots[j].missile {
          assert shots[j].missile != shots[n].missile && shots[j].missile != shots[n].target;
        } else {
          assert shots[j].target != shots[n].target && shots[n].missile != shots[j].target;
        }
      }
      ShotStrangerTrack(c, n, turret, shots[n], o, ch);
      OwnTrack(c, turret, pre, j, o, ch);
      assert Track(TankLog(c, turret, pre), o, ch) + [] == Track(ShotKeys(c, j, turret, shots[j]), o, ch);
    } else {
      StrangerTrack(c, turret, pre, o, ch);
      assert [] + Track(ShotKeys(c, n, turret, shots[n]), o, ch) == Track(ShotKeys(c, j, turret, shots[j]), o, ch);
    }
  }

  /**
    The j-th missile is keyed at full size where it is fired and at the target on impact,
    and shrinks only on the frame after impact; nothing else of it is keyed.
   */
  lemma MissileTrack(c: Cadence, turret: Obj, shots: seq<Shot>, j: int, ch: Channel)
    requires Separate(turret, shots) && 0 <= j < |shots|
    ensures var s := shots[j];
      Track(TankLog(c, turret, shots), s.missile, ch) ==
        if ch == Location then [Sample(Fire(c, j), V(MissileStart(s.targetAt))), Sample(Impact(c, j), V(s.targetAt))]
        else if ch == Scale then [Sample(Fire(c, j), V(One)), Sample(Impact(c, j) + 1, V(Tiny))]
        else []
  {
    OwnTrack(c, turret, shots, j, shots[j].missile, ch);
    ShotMissileTrack(c, j, turret, shots[j], ch);
  }

  /** The j-th target keeps its size up to its impact frame and is shrunk on the next one. */
  lemma TargetTrack(c: Cadence, turret: Obj, shots: seq<Shot>, j: int, ch: Channel)
    requires Separate(turret, shots) && 0 <= j < |shots|
    ensures Track(TankLog(c, turret, shots), shots[j].target, ch) ==
      if ch == Scale then [Sample(Impact(c, j), V(TargetSize)), Sample(Impact(c, j) + 1, V(Tiny))] else []
  {
    OwnTrack(c, turret, shots, j, shots[j].target, ch);
    ShotTargetTrack(c, j, turret, shots[j], ch);
  }

  /** The track over all shots is the track over all but the last, then the last shot's. */
  lemma TankLogLast(c: Cadence, turret: Obj, shots: seq<Shot>, o: Obj, ch: Channel)
    requires |shots| > 0
    ensures var n := |shots| - 1;
      Track(TankLog(c, turret, shots), o, ch) ==
        Track(TankLog(c, turret, shots[..n]), o, ch) + Track(ShotKeys(c, n, turret, shots[n]), o, ch)
  {
    var n := |shots| - 1;
    TrackAppend(TankLog(c, turret, shots[..n]), ShotKeys(c, n, turret, shots[n]), o, ch);
  }

  /** The last shot's missile and target are apart from the earlier shots', which stay separate. */
  lemma LastShotApart(turret: Obj, shots: seq<Shot>)
    requires Separate(turret, shots) && |shots| > 0
    ensures var n := |shots| - 1; var pre := shots[..n];
      && Separate(turret, pre)
      && (forall i :: 0 <= i < n ==> shots[n].missile != pre[i].missile && shots[n].missile != pre[i].target)
      && (forall i :: 0 <= i < n ==> shots[n].target != pre[i].missile && shots[n].target != pre[i].target)
  {
  }

  lemma AscendingConcat(a: seq<Sample>, b: seq<Sample>)
    requires Ascending(a) && Ascending(b)
    requires a != [] && b != [] ==> a[|a| - 1].frame < b[0].frame
    ensures Ascending(a + b)
  {
  }

  /**
    The turret's rotation keys strictly increase across the whole loop, provided it
    starts turning after the previous firing; the last one is the last firing frame.
   */
  lemma {:induction false} TurretAscending(c: Cadence, shots: seq<Shot>)
    requires 0 < c.lead < c.interval
    ensures Ascending(TurretSamples(c, shots))
    ensures shots != [] ==> TurretSamples(c, shots)[2 * |shots| - 1].frame == Fire(c, |shots| - 1)
    decreases |shots|
  {
    if shots != [] {
      var n := |shots| - 1;
      TurretAscending(c, shots[..n]);
      if n > 0 {
        FireStep(c, n - 1);
      }
      AscendingConcat(TurretSamples(c, shots[..n]),
        [Sample(Fire(c, n) - c.lead, V(Zero)), Sample(Fire(c, n), V(Vec(0.0, 0.0, shots[n].aim)))]);
    }
  }

  /**
    In the script's run every object's every channel is keyed at strictly increasing
    frames (so no frame is keyed twice), the turret's first key (-9) precedes the scene
    start and every key lies at or before the last impact's next frame 232, inside the
    scene's end 300.
   */
  lemma {:induction false} TankLogWellFormed(turret: Obj, shots: seq<Shot>, o: Obj, ch: Channel)
    requires Separate(turret, shots) && |shots| == Source.count
    ensures Ascending(Track(TankLog(Source, turret, shots), o, ch))
    ensures forall s :: s in Track(TankLog(Source, turret, shots), o, ch) ==> -9 <= s.frame <= 232 <= SceneEnd
    ensures o == turret && ch == Rotation ==>
      var t := Track(TankLog(Source, turret, shots), o, ch); |t| == 10 && t[0].frame == -9 < SceneStart
  {
    if o == turret {
      TurretWellFormed(turret, shots, ch);
    } else if j :| 0 <= j < |shots| && (o == shots[j].missile || o == shots[j].target) {
      ShotWellFormed(turret, shots, j, o, ch);
    } else {
      StrangerTrack(Source, turret, shots, o, ch);
    }
  }

  /** The part of `TankLogWellFormed` for the j-th missile or target: two keys between its firing and the frame after its impact. */
  lemma ShotWellFormed(turret: Obj, shots: seq<Shot>, j: int, o: Obj, ch: Channel)
    requires Separate(turret, shots) && |shots| == Source.count && 0 <= j < |shots|
    requires o == shots[j].missile || o == shots[j].target
    ensures Ascending(Track(TankLog(Source, turret, shots), o, ch))
    ensures forall s :: s in Track(TankLog(Source, turret, shots), o, ch) ==> 1 <= s.frame <= 232
  {
    ShotFrames(j);
    if o == shots[j].missile {
      MissileTrack(Source, turret, shots, j, ch);
    } else {
      TargetTrack(Source, turret, shots, j, ch);
    }
  }

  /** The j-th of the script's shots is fired on frame 1 or later and hits before frame 232. */
  lemma ShotFrames(j: int)
    requires 0 <= j < Source.count
    ensures 1 <= Fire(Source, j) < Impact(Source, j) && Impact(Source, j) + 1 <= 232
  {
  }

  /** The turret's part of `TankLogWellFormed`: ten rotation keys from frame -9 to the last firing. */
  lemma TurretWellFormed(turret: Obj, shots: seq<Shot>, ch: Channel)
    requires Separate(turret, shots) && |shots| == Source.count
    ensures Ascending(Track(TankLog(Source, turret, shots), turret, ch))
    ensures forall s :: s in Track(TankLog(Source, turret, shots), turret, ch) ==> -9 <= s.frame <= 232
    ensures ch == Rotation ==>
      var t := Track(TankLog(Source, turret, shots), turret, ch); |t| == 10 && t[0].frame == -9
  {
    var t := Track(TankLog(Source, turret, shots), turret, ch);
    TurretTrack(Source, turret, shots, ch);
    TurretAscending(Source, shots);
    if ch == Rotation {
      assert t[0].frame == -9 by {
        assert shots[..1][..0] == [];
        TurretPrefix(Source, shots, 1, 0);
      }
      assert t[|t| - 1].frame == 201;
      forall s | s in t
        ensures -9 <= s.frame <= 232
      {
        var p :| 0 <= p < |t| && t[p] == s;
        assert t[0].frame <= s.frame <= t[|t| - 1].frame;
      }
    }
  }

  /**
    What the host shows at frame `f` of the firing loop's log: every target at full size,
    every missile at its start and full size, and the turret aimed at the first target.
   */
  ghost predicate ShowsFirstShot(keys: seq<Key>, f: int, turret: Obj, targets: seq<Obj>, missiles: seq<Obj>, trig: Trig)
  {
    && |targets| == 5 && |missiles| == 5
    && (forall i :: 0 <= i < 5 ==>
         && Ascending(Track(keys, targets[i], Scale))
         && Ascending(Track(keys, missiles[i], Location))
         && Ascending(Track(keys, missiles[i], Scale))
         && Shown(Track(keys, targets[i], Scale), f) == Some(V(TargetSize))
         && Shown(Track(keys, missiles[i], Location), f) == Some(V(MissileStart(TargetAt(trig, i))))
         && Shown(Track(keys, missiles[i], Scale), f) == Some(V(One)))
    && Ascending(Track(keys, turret, Rotation))
    && Shown(Track(keys, turret, Rotation), f) == Some(V(Vec(0.0, 0.0, Aim(trig, TargetAt(trig, 0)))))
  }

  /**
    Once `frame_set(1)` has evaluated the animation again the host shows the first shot's
    set-up: each target at its value before its first key, each missile likewise, and the
    turret at the heading keyed on frame 1.
   */
  lemma ShownOnFirstFrame(keys: seq<Key>, f: int, turret: Obj, targets: seq<Obj>, missiles: seq<Obj>, trig: Trig,
                          shots: seq<Shot>)
    requires Separate(turret, shots) && |shots| == Source.count && |targets| == 5 && |missiles| == 5
    requires forall i :: 0 <= i < 5 ==>
      shots[i] == Shot(missiles[i], targets[i], TargetAt(trig, i), Aim(trig, TargetAt(trig, i)))
    requires keys == TankLog(Source, turret, shots) && f == 1
    ensures ShowsFirstShot(keys, f, turret, targets, missiles, trig)
    ensures forall i :: 0 <= i < 5 ==>
      && Ascending(Track(keys, targets[i], Scale))
      && Ascending(Track(keys, missiles[i], Location))
      && Ascending(Track(keys, missiles[i], Scale))
      && Shown(Track(keys, targets[i], Scale), f) == Some(V(TargetSize))
      && Shown(Track(keys, missiles[i], Location), f) == Some(V(MissileStart(TargetAt(trig, i))))
      && Shown(Track(keys, missiles[i], Scale), f) == Some(V(One))
    ensures Ascending(Track(keys, turret, Rotation))
    ensures Shown(Track(keys, turret, Rotation), f) == Some(V(Vec(0.0, 0.0, Aim(trig, TargetAt(trig, 0)))))
  {
    forall i | 0 <= i < 5
      ensures Ascending(Track(keys, targets[i], Scale))
      ensures Ascending(Track(keys, missiles[i], Location))
      ensures Ascending(Track(keys, missiles[i], Scale))
      ensures Shown(Track(keys, targets[i], Scale), f) == Some(V(TargetSize))
      ensures Shown(Track(keys, missiles[i], Location), f) == Some(V(MissileStart(TargetAt(trig, i))))
      ensures Shown(Track(keys, missiles[i], Scale), f) == Some(V(One))
    {
      ShotShownOnFirstFrame(keys, turret, shots, i);
    }
    TurretShownOnFirstFrame(keys, turret, shots);
  }

  /**
    On frame 1, shot `j`'s target and missile show their values before their first keys:
    the target at full size, the missile at its start and full size.
   */
  lemma {:induction false} ShotShownOnFirstFrame(keys: seq<Key>, turret: Obj, shots: seq<Shot>, j: int)
    requires Separate(turret, shots) && 0 <= j < |shots| && keys == TankLog(Source, turret, shots)
    ensures Ascending(Track(keys, shots[j].target, Scale))
    ensures Shown(Track(keys, shots[j].target, Scale), 1) == Some(V(TargetSize))
    ensures Ascending(Track(keys, shots[j].missile, Location))
    ensures Shown(Track(keys, shots[j].missile, Location), 1) == Some(V(MissileStart(shots[j].targetAt)))
    ensures Ascending(Track(keys, shots[j].missile, Scale))
    ensures Shown(Track(keys, shots[j].missile, Scale), 1) == Some(V(One))
  {
    var fire, hit := Fire(Source, j), Impact(Source, j);
    FireMonotone(Source, 0, j);
    assert 1 <= fire < hit;
    TargetTrack(Source, turret, shots, j, Scale);
    ShownBeforeFirst(Track(keys, shots[j].target, Scale), 1);
    MissileTrack(Source, turret, shots, j, Location);
    ShownBeforeFirst(Track(keys, shots[j].missile, Location), 1);
    MissileTrack(Source, turret, shots, j, Scale);
    ShownBeforeFirst(Track(keys, shots[j].missile, Scale), 1);
  }

  /** On frame 1 the turret shows the aim keyed there, at the first target. */
  lemma {:induction false} TurretShownOnFirstFrame(keys: seq<Key>, turret: Obj, shots: seq<Shot>)
    requires Separate(turret, shots) && 0 < |shots| && keys == TankLog(Source, turret, shots)
    ensures Ascending(Track(keys, turret, Rotation))
    ensures Shown(Track(keys, turret, Rotation), 1) == Some(V(Vec(0.0, 0.0, shots[0].aim)))
  {
    var t := Track(keys, turret, Rotation);
    TurretTrack(Source, turret, shots, Rotation);
    TurretAscending(Source, shots);
    assert shots[..1][..0] == [];
    TurretPrefix(Source, shots, 1, 1);
    ShownKeyed(t, 1);
  }


  /** The turret samples of a prefix of the shots are a prefix of the turret samples. */
  lemma {:induction false} TurretPrefix(c: Cadence, shots: seq<Shot>, n: nat, p: nat)
    requires n <= |shots| && p < 2 * n
    ensures TurretSamples(c, shots[..n])[p] == TurretSamples(c, shots)[p]
    decreases |shots|
  {
    if n < |shots| {
      var m := |shots| - 1;
      assert shots[..m][..n] == shots[..n];
      TurretPrefix(c, shots[..m], n, p);
    } else {
      assert shots[..n] == shots;
    }
  }

  // ---------------------------------------------------------------------------
  // The script

  /**
    `create_tank`: body, turret, barrel and two tracks, in that order. The turret and both
    tracks hang under the body and the barrel under the turret, so every part's parent is
    an earlier part; nothing is left selected.
   */
  method CreateTank(scene: Scene, at: Vec)
    returns (body: Obj, turret: Obj, barrel: Obj, parts: seq<Obj>)
    modifies scene`selected, scene`active
    ensures |parts| == 5 && parts[..3] == [body, turret, barrel]
    ensures forall i :: 0 <= i < 5 ==> fresh(parts[i])
    ensures forall i, j :: 0 <= i < j < 5 ==> parts[i] != parts[j]
    ensures parts[0].name == "TankBody" && parts[1].name == "TankTurret" && parts[2].name == "TankBarrel"
    ensures parts[3].name == "LeftTrack" && parts[4].name == "RightTrack"
    ensures body.parent == null && turret.parent == body && barrel.parent == turret
    ensures parts[3].parent == body && parts[4].parent == body
    ensures forall i :: 1 <= i < 5 ==> parts[i].parent in parts[..i]
    ensures scene.selected == {} && scene.active == body
    ensures body.location == Vec(at.x, at.y, 0.75) && body.scale == Vec(3.0, 4.0, 1.5)
    ensures body.location.z == body.scale.z / 2.0
    ensures turret.location == Vec(at.x, at.y, 2.0) && turret.rotation == Zero
    ensures barrel.location == Vec(at.x, at.y + 2.0, 2.0) && barrel.rotation == Vec(90.0, 0.0, 0.0)
    ensures parts[3].location == Vec(at.x - 1.8, at.y, 0.4) && parts[4].location == Vec(at.x + 1.8, at.y, 0.4)
    ensures parts[3].location.z == parts[3].scale.z / 2.0 && parts[4].location.z == parts[4].scale.z / 2.0
  {
    body, turret, barrel := CreateHull(scene, at);
    var left := AddTrack(scene, body, "LeftTrack", Vec(at.x - 1.8, at.y, 0.0));
    var right := AddTrack(scene, body, "RightTrack", Vec(at.x + 1.8, at.y, 0.0));
    parts := [body, turret, barrel, left, right];
  }

  /** The body, the turret under it and the barrel under the turret. */
  method CreateHull(scene: Scene, at: Vec) returns (body: Obj, turret: Obj, barrel: Obj)
    modifies scene`selected, scene`active
    ensures fresh(body) && fresh(turret) && fresh(barrel)
    ensures body != turret && body != barrel && turret != barrel
    ensures body.name == "TankBody" && turret.name == "TankTurret" && barrel.name == "TankBarrel"
    ensures body.parent == null && turret.parent == body && barrel.parent == turret
    ensures scene.selected == {} && scene.active == turret
    ensures body.location == Vec(at.x, at.y, 0.75) && body.scale == Vec(3.0, 4.0, 1.5)
    ensures turret.location == Vec(at.x, at.y, 2.0) && turret.rotation == Zero
    ensures barrel.location == Vec(at.x, at.y + 2.0, 2.0) && barrel.rotation == Vec(90.0, 0.0, 0.0)
  {
    body := AddBlock(scene, "TankBody", Vec(at.x, at.y, 0.0), Vec(3.0, 4.0, 1.5), 0.75);

    var turretZ := 0.75 + 0.75 + 0.5;
    turret := scene.AddObject("TankTurret", Vec(at.x, at.y, turretZ));
    turret.rotation := Zero;

    barrel := scene.AddObject("TankBarrel", Vec(at.x, at.y + 2.0, turretZ));
    barrel.rotation := Vec(90.0, 0.0, 0.0);

    ParentTo(scene, body, turret);
    ParentTo(scene, turret, barrel);
  }

  /** A track: a block at ground level, lifted to half its height and parented to the body. */
  method AddTrack(scene: Scene, body: Obj, name: string, at: Vec) returns (track: Obj)
    requires scene.selected == {}
    modifies scene`selected, scene`active
    ensures fresh(track) && track.name == name && track.parent == body
    ensures track.location == at.(z := 0.4) && track.scale == Vec(0.5, 4.5, 0.8)
    ensures scene.selected == {} && scene.active == body
    ensures body.parent == old(body.parent)
  {
    track := AddBlock(scene, name, at, Vec(0.5, 4.5, 0.8), 0.4);
    ParentTo(scene, body, track);
  }

  /** `primitive_cube_add` at `at`, then named, scaled and lifted to height `z`. */
  method AddBlock(scene: Scene, name: string, at: Vec, size: Vec, z: real) returns (o: Obj)
    modifies scene`selected, scene`active
    ensures fresh(o) && o.name == name && o.location == at.(z := z) && o.scale == size
    ensures o.rotation == Zero && o.parent == null
    ensures scene.selected == {o} && scene.active == o
  {
    o := scene.AddObject(name, at);
    o.scale := size;
    o.location := o.location.(z := z);
  }

  /**
    The parenting step `create_tank` repeats: make `parent` active, select `child`, run
    `parent_set` and deselect `child` again. Whatever else was selected is parented too.
   */
  method ParentTo(scene: Scene, parent: Obj, child: Obj)
    modifies scene`active, scene`selected, scene.selected`parent, child`parent
    ensures scene.active == parent && scene.selected == old(scene.selected) - {child}
    ensures forall o :: o in old(scene.selected) + {child} && o != parent ==> o.parent == parent
    ensures parent.parent == old(parent.parent)
  {
    scene.active := parent;
    scene.SelectSet(child, true);
    scene.ParentSet();
    scene.SelectSet(child, false);
  }

  /** The i-th target as `create_target_objects` leaves it: named, on the arc, tall, resting on the ground, coloured. */
  predicate Standing(target: Obj, trig: Trig, i: nat)
    requires i < 5
    reads target
  {
    && target.name == TargetName(i)
    && target.location == TargetAt(trig, i)
    && target.scale == TargetSize
    && target.color == Some(TargetColors[i])
  }

  /** `create_target_objects`: Target_1..Target_5 on the arc, tall, each with its own colour. */
  method CreateTargetObjects(scene: Scene, trig: Trig) returns (targets: seq<Obj>)
    modifies scene`selected, scene`active
    ensures |targets| == 5
    ensures forall i :: 0 <= i < 5 ==> fresh(targets[i])
    ensures forall i, j :: 0 <= i < j < 5 ==> targets[i] != targets[j]
    ensures forall i :: 0 <= i < 5 ==>
      && targets[i].name == TargetName(i)
      && targets[i].location == TargetAt(trig, i)
      && targets[i].scale == TargetSize
      && targets[i].location.z == targets[i].scale.z / 2.0
      && targets[i].color == Some(TargetColors[i])
  {
    var colors := TargetColors;
    targets := [];
    for i := 0 to 5
      invariant |targets| == i
      invariant forall j :: 0 <= j < i ==> fresh(targets[j]) && Standing(targets[j], trig, j)
      invariant forall j, k :: 0 <= j < k < i ==> targets[j] != targets[k]
    {
      var target := AddTarget(scene, trig, i, colors[i]);
      targets := targets + [target];
    }
  }

  /** One iteration of `create_target_objects`: a unit cube on the arc, named, scaled, lifted and coloured. */
  method AddTarget(scene: Scene, trig: Trig, i: nat, color: Rgba) returns (target: Obj)
    requires i < 5 && color == TargetColors[i]
    modifies scene`selected, scene`active
    ensures fresh(target) && Standing(target, trig, i)
  {
    var angle := -60 + i * 30;
    var distance := 15.0;
    var x := distance * trig.sin(angle);
    var y := distance * trig.cos(angle);
    target := scene.AddObject("Target_" + Decimal(i + 1), Vec(x, y, 0.0));
    target.scale := TargetSize;
    target.location := target.location.(z := 1.5);
    target.color := Some(color);
  }

  /** `create_missile`. */
  method CreateMissile(scene: Scene, start: Vec) returns (missile: Obj)
    modifies scene`selected, scene`active
    ensures fresh(missile) && missile.name == "Missile" && missile.location == start
    ensures missile.rotation == Vec(90.0, 0.0, 0.0) && missile.scale == One
  {
    missile := scene.AddObject("Missile", start);
    missile.rotation := Vec(90.0, 0.0, 0.0);
  }

  /**
    `create_dust_particle_system`: an emitter at the target, 100 particles emitted on
    `frame` and the next frame only, each living 30 frames, drawn as a small cube that
    takes the target's colour.
   */
  method CreateDustParticleSystem(scene: Scene, target: Obj, frame: int) returns (emitter: Obj, particle: Obj)
    modifies scene`selected, scene`active
    ensures fresh(emitter) && fresh(particle) && emitter != particle
    ensures emitter.name == "DustEmitter_" + target.name && emitter.location == target.location
    ensures emitter.particles == Some(DustSettings(target.name, frame, particle))
    ensures particle.name == "DustParticle_" + target.name && particle.color == target.color
  {
    var location := target.location;
    emitter := scene.AddObject("DustEmitter_" + target.name, location);
    emitter.particles := Some(ParticleSettings("Dust_" + target.name, 100, frame, frame + 1, 30, None));
    particle := scene.AddObject("DustParticle_" + target.name, Vec(100.0, 100.0, 100.0));
    if target.color.Some? {
      particle.color := target.color;
    }
    emitter.particles := Some(emitter.particles.value.(instance := Some(particle)));
  }

  /** One iteration of the firing loop of `animate_tank_missile_destruction`. */
  method Strike(scene: Scene, body: Obj, turret: Obj, target: Obj, i: int, trig: Trig)
    returns (missile: Obj, emitter: Obj, particle: Obj, ghost shot: Shot)
    requires turret != target
    requires body.location == BodyAt
    requires turret.rotation.x == 0.0 && turret.rotation.y == 0.0
    modifies scene`keys, scene`frameCurrent, scene`selected, scene`active, turret`rotation, target`scale
    ensures shot == Shot(missile, target, target.location, Aim(trig, target.location))
    ensures scene.keys == old(scene.keys) + ShotKeys(Source, i, turret, shot)
    ensures scene.frameCurrent == Impact(Source, i) + 1
    ensures fresh(missile) && fresh(emitter) && fresh(particle)
    ensures missile != emitter && missile != particle && emitter != particle
    ensures turret.rotation == Vec(0.0, 0.0, shot.aim)
    ensures target.scale == Tiny
    ensures emitter.location == target.location
    ensures emitter.particles == Some(DustSettings(target.name, Impact(Source, i), particle))
    ensures particle.color == target.color
  {
    var missileIntervals := 50;
    var fireFrame := 1 + i * missileIntervals;
    var impactFrame := fireFrame + 30;

    scene.FrameSet(fireFrame - 10);
    var targetX := target.location.x;
    var targetY := target.location.y;
    var tankY := body.location.y;
    var angleToTarget := -trig.atan2(targetX, targetY - tankY);
    TurnTurret(scene, turret, fireFrame, angleToTarget);

    var missileStart := Vec(targetX * 0.1, body.location.y + 4.0, body.location.z + 1.5);
    missile := CreateMissile(scene, missileStart);
    FlyMissile(scene, missile, missileStart, target.location, fireFrame, impactFrame);
    ShrinkTarget(scene, target, impactFrame);

    emitter, particle := CreateDustParticleSystem(scene, target, impactFrame);
    shot := Shot(missile, target, target.location, angleToTarget);
  }

  /** Lines 303-307: the turret is keyed at heading 0 ten frames early, then at the aim on firing. */
  method TurnTurret(scene: Scene, turret: Obj, fireFrame: int, angle: real)
    requires turret.rotation.x == 0.0 && turret.rotation.y == 0.0
    modifies scene`keys, turret`rotation
    ensures turret.rotation == Vec(0.0, 0.0, angle)
    ensures scene.keys == old(scene.keys) +
      [Key(turret, Rotation, fireFrame - 10, V(Zero)), Key(turret, Rotation, fireFrame, V(Vec(0.0, 0.0, angle)))]
  {
    turret.rotation := turret.rotation.(z := 0.0);
    scene.KeyframeInsert(turret, Rotation, fireFrame - 10);
    turret.rotation := turret.rotation.(z := angle);
    scene.KeyframeInsert(turret, Rotation, fireFrame);
  }

  /** Lines 318-332: the missile is keyed at its start and full size, at the target, then shrunk. */
  method FlyMissile(scene: Scene, missile: Obj, start: Vec, goal: Vec, fireFrame: int, impactFrame: int)
    modifies scene`keys, scene`frameCurrent, missile`location, missile`scale
    ensures missile.location == goal && missile.scale == Tiny && scene.frameCurrent == impactFrame + 1
    ensures scene.keys == old(scene.keys) +
      [ Key(missile, Location, fireFrame, V(start)), Key(missile, Scale, fireFrame, V(One)),
        Key(missile, Location, impactFrame, V(goal)), Key(missile, Scale, impactFrame + 1, V(Tiny)) ]
  {
    scene.FrameSet(fireFrame);
    missile.location := start;
    scene.KeyframeInsert(missile, Location, fireFrame);
    missile.scale := One;
    scene.KeyframeInsert(missile, Scale, fireFrame);

    scene.FrameSet(impactFrame);
    missile.location := goal;
    scene.KeyframeInsert(missile, Location, impactFrame);

    scene.FrameSet(impactFrame + 1);
    missile.scale := Tiny;
    scene.KeyframeInsert(missile, Scale, impactFrame + 1);
  }

  /** Lines 335-341: the target is keyed at full size on impact and shrunk on the next frame. */
  method ShrinkTarget(scene: Scene, target: Obj, impactFrame: int)
    modifies scene`keys, scene`frameCurrent, target`scale
    ensures target.scale == Tiny && scene.frameCurrent == impactFrame + 1
    ensures scene.keys == old(scene.keys) +
      [Key(target, Scale, impactFrame, V(TargetSize)), Key(target, Scale, impactFrame + 1, V(Tiny))]
  {
    scene.FrameSet(impactFrame);
    target.scale := TargetSize;
    scene.KeyframeInsert(target, Scale, impactFrame);

    scene.FrameSet(impactFrame + 1);
    target.scale := Tiny;
    scene.KeyframeInsert(target, Scale, impactFrame + 1);
  }

  /**
    `animate_tank_missile_destruction`: scene 1..300 at 24 fps, the tank, five targets and
    the firing loop; one missile, one emitter and one dust particle object per target.
   */
  method AnimateTankMissileDestruction(trig: Trig)
    returns (scene: Scene, parts: seq<Obj>, targets: seq<Obj>, camera: Obj, missiles: seq<Obj>,
             emitters: seq<Obj>, particleObjects: seq<Obj>, ghost shots: seq<Shot>)
    ensures scene.fps == 24 && scene.frameStart == SceneStart && scene.frameEnd == SceneEnd
    ensures scene.frameCurrent == 1
    ensures scene.camera == camera && camera.location == Vec(0.0, -20.0, 8.0) && camera.rotation == Vec(65.0, 0.0, 0.0)
    ensures |parts| == 5 && |targets| == 5
    ensures |missiles| == 5 && |emitters| == 5 && |particleObjects| == 5 && |shots| == 5
    ensures forall i :: 0 <= i < 5 ==>
      shots[i] == Shot(missiles[i], targets[i], TargetAt(trig, i), Aim(trig, TargetAt(trig, i)))
    ensures Separate(parts[1], shots)
    ensures scene.keys == TankLog(Source, parts[1], shots)
    ensures forall i :: 0 <= i < 5 ==> Anchored(emitters[i], targets[i], particleObjects[i], trig, i)
    ensures ShowsFirstShot(scene.keys, scene.frameCurrent, parts[1], targets, missiles, trig)
  {
    var tankBody, tankTurret;
    scene, tankBody, tankTurret, parts, targets, camera := Prepare(trig);
    missiles, emitters, particleObjects, shots := FireAndRewind(scene, tankBody, tankTurret, targets, trig);
  }

  /** Lines 254-277: the new scene 1..300 at 24 fps, then the ground, tank, targets and camera. */
  method Prepare(trig: Trig)
    returns (scene: Scene, body: Obj, turret: Obj, parts: seq<Obj>, targets: seq<Obj>, camera: Obj)
    ensures fresh(scene) && scene.keys == []
    ensures scene.fps == 24 && scene.frameStart == SceneStart && scene.frameEnd == SceneEnd
    ensures scene.camera == camera && camera != turret
    ensures camera.location == Vec(0.0, -20.0, 8.0) && camera.rotation == Vec(65.0, 0.0, 0.0)
    ensures |parts| == 5 && parts[0] == body && parts[1] == turret
    ensures body.location == BodyAt && turret.rotation == Zero && fresh(turret)
    ensures |targets| == 5 && forall j :: 0 <= j < 5 ==> fresh(targets[j]) && targets[j] != turret
    ensures forall j, k :: 0 <= j < k < 5 ==> targets[j] != targets[k]
    ensures forall j :: 0 <= j < 5 ==> targets[j].location == TargetAt(trig, j)
  {
    scene := NewScene(24, 1, 300);
    body, turret, parts, targets, camera := Stage(scene, trig);
  }

  /**
    Lines 281-349: the firing loop into an empty log, then the cursor back on frame 1,
    where the host shows the first shot's set-up again.
   */
  method FireAndRewind(scene: Scene, body: Obj, turret: Obj, targets: seq<Obj>, trig: Trig)
    returns (missiles: seq<Obj>, emitters: seq<Obj>, particleObjects: seq<Obj>, ghost shots: seq<Shot>)
    requires |targets| == 5 && scene.keys == []
    requires forall j :: 0 <= j < 5 ==> targets[j] != turret
    requires forall j, k :: 0 <= j < k < 5 ==> targets[j] != targets[k]
    requires forall j :: 0 <= j < 5 ==> targets[j].location == TargetAt(trig, j)
    requires body.location == BodyAt
    requires turret.rotation.x == 0.0 && turret.rotation.y == 0.0
    modifies scene`keys, scene`frameCurrent, scene`selected, scene`active, turret`rotation, targets`scale
    ensures |missiles| == 5 && |emitters| == 5 && |particleObjects| == 5 && |shots| == 5
    ensures forall i :: 0 <= i < 5 ==>
      shots[i] == Shot(missiles[i], targets[i], TargetAt(trig, i), Aim(trig, TargetAt(trig, i)))
    ensures Separate(turret, shots)
    ensures scene.keys == TankLog(Source, turret, shots) && scene.frameCurrent == 1
    ensures forall i :: 0 <= i < 5 ==> Anchored(emitters[i], targets[i], particleObjects[i], trig, i)
    ensures ShowsFirstShot(scene.keys, scene.frameCurrent, turret, targets, missiles, trig)
  {
    missiles, emitters, particleObjects, shots := FiringLoop(scene, body, turret, targets, trig);
    scene.FrameSet(1);
    ShownOnFirstFrame(scene.keys, scene.frameCurrent, turret, targets, missiles, trig, shots);
  }

  /** Lines 267-277: ground, tank, targets and camera, before any keyframe is inserted. */
  method Stage(scene: Scene, trig: Trig)
    returns (body: Obj, turret: Obj, parts: seq<Obj>, targets: seq<Obj>, camera: Obj)
    modifies scene`selected, scene`active, scene`camera
    ensures fresh(camera) && camera != turret && scene.camera == camera
    ensures camera.location == Vec(0.0, -20.0, 8.0) && camera.rotation == Vec(65.0, 0.0, 0.0)
    ensures |parts| == 5 && parts[0] == body && parts[1] == turret && fresh(body) && fresh(turret)
    ensures body.location == BodyAt && turret.rotation == Zero
    ensures |targets| == 5 && forall j :: 0 <= j < 5 ==> fresh(targets[j]) && targets[j] != turret
    ensures forall j, k :: 0 <= j < k < 5 ==> targets[j] != targets[k]
    ensures forall j :: 0 <= j < 5 ==>
      && targets[j].name == TargetName(j)
      && targets[j].location == TargetAt(trig, j)
      && targets[j].color == Some(TargetColors[j])
  {
    var ground := scene.AddObject("Ground", Zero);
    var barrel;
    body, turret, barrel, parts := CreateTank(scene, Vec(0.0, -10.0, 0.0));
    targets := CreateTargetObjects(scene, trig);
    camera := scene.AddObject("Camera", Vec(0.0, -20.0, 8.0));
    camera.rotation := Vec(65.0, 0.0, 0.0);
    scene.camera := camera;
  }

  /** The dust emitter of strike `j` at the target's place, emitting from the impact frame. */
  ghost predicate Anchored(emitter: Obj, target: Obj, particle: Obj, trig: Trig, j: int)
    reads emitter
  {
    && emitter.location == TargetAt(trig, j)
    && emitter.particles == Some(DustSettings(target.name, Impact(Source, j), particle))
  }

  /** What strike `j` leaves behind: its dust emitter anchored, and the target shrunk to nothing. */
  ghost predicate Dusted(emitter: Obj, target: Obj, particle: Obj, trig: Trig, j: int)
    reads emitter, target
  {
    Anchored(emitter, target, particle, trig, j) && target.scale == Tiny
  }

  /**
    The log and the shots after the first `|shots|` passes of the firing loop, from the
    log `keys0`: one missile per pass, each shot aimed at its target, the turret, the
    missiles and the targets kept apart, and the log grown by the shots' keys.
   */
  ghost predicate Logged(keys: seq<Key>, keys0: seq<Key>, turret: Obj, targets: seq<Obj>, trig: Trig,
                         missiles: seq<Obj>, shots: seq<Shot>)
  {
    var n := |shots|;
    && n <= |targets| && |missiles| == n
    && (forall j :: 0 <= j < n ==>
         shots[j] == Shot(missiles[j], targets[j], TargetAt(trig, j), Aim(trig, TargetAt(trig, j))))
    && (forall j :: 0 <= j < n ==> missiles[j] !in targets)
    && Separate(turret, shots)
    && keys == keys0 + TankLog(Source, turret, shots)
  }

  /**
    What the first `n` passes leave in the scene: each struck target shrunk, its dust
    emitter anchored at its impact, and the turret aimed at the last target struck.
   */
  ghost predicate Struck(turret: Obj, targets: seq<Obj>, trig: Trig, emitters: seq<Obj>, particleObjects: seq<Obj>, n: nat)
    reads turret, targets, emitters
  {
    && n <= |targets| && |emitters| == n && |particleObjects| == n
    && turret.rotation.x == 0.0 && turret.rotation.y == 0.0
    && (forall j :: 0 <= j < n ==>
         && emitters[j].location == TargetAt(trig, j)
         && emitters[j].particles == Some(DustSettings(targets[j].name, Impact(Source, j), particleObjects[j])))
    && (forall j :: 0 <= j < n ==> targets[j].scale == Tiny)
    && (n > 0 ==> turret.rotation == Vec(0.0, 0.0, Aim(trig, TargetAt(trig, n - 1))))
  }

  /** One more shot at the next target, with a missile new to the targets and the earlier shots. */
  lemma LoggedSnoc(keys: seq<Key>, keys0: seq<Key>, turret: Obj, targets: seq<Obj>, trig: Trig,
                   missiles: seq<Obj>, shots: seq<Shot>, missile: Obj, shot: Shot)
    requires Logged(keys, keys0, turret, targets, trig, missiles, shots)
    requires |shots| < |targets|
    requires forall j :: 0 <= j < |targets| ==> targets[j] != turret
    requires forall j, k :: 0 <= j < k < |targets| ==> targets[j] != targets[k]
    requires shot == Shot(missile, targets[|shots|], TargetAt(trig, |shots|), Aim(trig, TargetAt(trig, |shots|)))
    requires missile != turret && missile !in targets && missile !in missiles
    ensures Logged(keys + ShotKeys(Source, |shots|, turret, shot), keys0, turret, targets, trig,
                   missiles + [missile], shots + [shot])
  {
    TankLogSnoc(Source, turret, shots, shot);
    AppendAssoc(keys0, TankLog(Source, turret, shots), ShotKeys(Source, |shots|, turret, shot));
    SeparateSnoc(turret, shots, shot);
  }

  /** The loop over the targets in `animate_tank_missile_destruction`: one strike per target. */
  method FiringLoop(scene: Scene, body: Obj, turret: Obj, targets: seq<Obj>, trig: Trig)
    returns (missiles: seq<Obj>, emitters: seq<Obj>, particleObjects: seq<Obj>, ghost shots: seq<Shot>)
    requires |targets| == 5
    requires forall j :: 0 <= j < 5 ==> targets[j] != turret
    requires forall j, k :: 0 <= j < k < 5 ==> targets[j] != targets[k]
    requires forall j :: 0 <= j < 5 ==> targets[j].location == TargetAt(trig, j)
    requires body.location == BodyAt
    requires turret.rotation.x == 0.0 && turret.rotation.y == 0.0
    modifies scene`keys, scene`frameCurrent, scene`selected, scene`active, turret`rotation, targets`scale
    ensures |missiles| == 5 && |emitters| == 5 && |particleObjects| == 5 && |shots| == 5
    ensures forall i :: 0 <= i < 5 ==>
      shots[i] == Shot(missiles[i], targets[i], TargetAt(trig, i), Aim(trig, TargetAt(trig, i)))
    ensures Separate(turret, shots)
    ensures scene.keys == old(scene.keys) + TankLog(Source, turret, shots)
    ensures forall j :: 0 <= j < 5 ==> Dusted(emitters[j], targets[j], particleObjects[j], trig, j)
    ensures turret.rotation == Vec(0.0, 0.0, Aim(trig, TargetAt(trig, 4)))
  {
    missiles, emitters, particleObjects, shots := [], [], [], [];
    for i := 0 to 5
      invariant |shots| == i
      invariant Logged(scene.keys, old(scene.keys), turret, targets, trig, missiles, shots)
      invariant Struck(turret, targets, trig, emitters, particleObjects, i)
    {
      ghost var keys := scene.keys;
      var missile, emitter, particle, shot := Volley(scene, body, turret, targets, targets[i], i, trig, emitters, particleObjects);
      LoggedSnoc(keys, old(scene.keys), turret, targets, trig, missiles, shots, missile, shot);
      missiles := missiles + [missile];
      emitters := emitters + [emitter];
      particleObjects := particleObjects + [particle];
      shots := shots + [shot];
    }
  }

  /**
    Strike `i` as a pass of the firing loop: what the earlier passes left in the scene
    stays, and the new target and emitter join it.
   */
  method Volley(scene: Scene, body: Obj, turret: Obj, targets: seq<Obj>, target: Obj, i: nat, trig: Trig,
                emitters: seq<Obj>, particleObjects: seq<Obj>)
    returns (missile: Obj, emitter: Obj, particle: Obj, ghost shot: Shot)
    requires i < |targets| && target == targets[i] && target != turret
    requires forall j :: 0 <= j < i ==> targets[j] != target
    requires target.location == TargetAt(trig, i)
    requires body.location == BodyAt
    requires Struck(turret, targets, trig, emitters, particleObjects, i)
    modifies scene`keys, scene`frameCurrent, scene`selected, scene`active, turret`rotation, target`scale
    ensures shot == Shot(missile, target, TargetAt(trig, i), Aim(trig, TargetAt(trig, i)))
    ensures fresh(missile)
    ensures scene.keys == old(scene.keys) + ShotKeys(Source, i, turret, shot)
    ensures Struck(turret, targets, trig, emitters + [emitter], particleObjects + [particle], i + 1)
  {
    missile, emitter, particle, shot := Strike(scene, body, turret, target, i, trig);
  }

  lemma AppendAssoc<T>(a: seq<T>, b: seq<T>, c: seq<T>)
    ensures a + (b + c) == (a + b) + c
  {
  }

  lemma TankLogSnoc(c: Cadence, turret: Obj, shots: seq<Shot>, s: Shot)
    ensures TankLog(c, turret, shots + [s]) == TankLog(c, turret, shots) + ShotKeys(c, |shots|, turret, s)
  {
    assert (shots + [s])[..|shots|] == shots;
  }

  /** A shot whose missile and target are new to the turret and to every earlier shot keeps them apart. */
  lemma SeparateSnoc(turret: Obj, shots: seq<Shot>, s: Shot)
    requires Separate(turret, shots)
    requires s.missile != turret && s.target != turret && s.missile != s.target
    requires forall j :: 0 <= j < |shots| ==>
      && s.missile != shots[j].missile && s.missile != shots[j].target
      && s.target != shots[j].target && s.target != shots[j].missile
    ensures Separate(turret, shots + [s])
  {
  }
}
