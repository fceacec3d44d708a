/**
  Keyframe tracks read off the scene's keyframe log: the samples of one object's
  channel, in insertion order, and the handoff of a rigid body from scripted
  (kinematic) motion to the solver.
 */
module Keyframes {
  import opened SceneGraph

  datatype Sample = Sample(frame: int, value: Value)

  /** The samples the log holds for channel `ch` of object `o`, in insertion order. */
  function Track(log: seq<Key>, o: Obj, ch: Channel): (t: seq<Sample>)
    ensures |t| <= |log|
  {
    if log == [] then []
    else
      var k := log[|log| - 1];
      Track(log[..|log| - 1], o, ch) + (if k.obj == o && k.channel == ch then [Sample(k.frame, k.value)] else [])
  }

  /** Sample frames strictly increase: no frame is keyed twice and none out of order. */
  predicate Ascending(t: seq<Sample>)
  {
    forall i, j :: 0 <= i < j < |t| ==> t[i].frame < t[j].frame
  }

  /** The number of places where the kinematic flag goes from on to off. */
  function Drops(t: seq<Sample>): nat
  {
    if |t| < 2 then 0
    else Drops(t[..|t| - 1]) + (if t[|t| - 2].value == Flag(true) && t[|t| - 1].value == Flag(false) then 1 else 0)
  }

  /**
    Object `o` is scripted up to frame `h` and handed to the solver at `h`: its kinematic
    flag is keyed on at ascending frames and last keyed off at `h`, and every location
    or rotation key it has lies strictly before `h`.
   */
  predicate HandsOffAt(log: seq<Key>, o: Obj, h: int)
  {
    var kin := Track(log, o, Kinematic);
    && |kin| > 0
    && kin[|kin| - 1] == Sample(h, Flag(false))
    && (forall i :: 0 <= i < |kin| - 1 ==> kin[i].value == Flag(true))
    && Ascending(kin)
    && (forall i :: 0 <= i < |log| && log[i].obj == o && log[i].channel.Positional() ==> log[i].frame < h)
  }

  lemma {:induction false} TrackAppend(a: seq<Key>, b: seq<Key>, o: Obj, ch: Channel)
    ensures Track(a + b, o, ch) == Track(a, o, ch) + Track(b, o, ch)
    decreases |b|
  {
    if b == [] {
      assert a + b == a;
    } else {
      var b' := b[..|b| - 1];
      assert (a + b)[..|a + b| - 1] == a + b';
      TrackAppend(a, b', o, ch);
    }
  }

  /** A log with no key for `o` gives `o` empty tracks. */
  lemma {:induction false} TrackAbsent(log: seq<Key>, o: Obj, ch: Channel)
    requires forall k :: k in log ==> k.obj != o
    ensures Track(log, o, ch) == []
    decreases |log|
  {
    if log != [] {
      TrackAbsent(log[..|log| - 1], o, ch);
    }
  }

  /** Every sample of a track comes from a key of the log for that object and channel. */
  lemma {:induction false} TrackFromLog(log: seq<Key>, o: Obj, ch: Channel, i: int)
    requires 0 <= i < |Track(log, o, ch)|
    ensures var s := Track(log, o, ch)[i]; Key(o, ch, s.frame, s.value) in log
    decreases |log|
  {
    var init := log[..|log| - 1];
    if i < |Track(init, o, ch)| {
      TrackFromLog(init, o, ch, i);
      assert forall k :: k in init ==> k in log;
    } else {
      assert log[|log| - 1] in log;
    }
  }

  /** A flag track that is on at every sample but the last, which is off, drops exactly once. */
  lemma {:induction false} HandoffIsSingle(t: seq<Sample>)
    requires |t| > 0 && t[|t| - 1].value == Flag(false)
    requires forall i :: 0 <= i < |t| - 1 ==> t[i].value == Flag(true)
    ensures Drops(t) == (if |t| >= 2 then 1 else 0)
  {
    if |t| >= 2 {
      AllOnNoDrop(t[..|t| - 1]);
    }
  }

  lemma {:induction false} AllOnNoDrop(t: seq<Sample>)
    requires forall i :: 0 <= i < |t| ==> t[i].value == Flag(true)
    ensures Drops(t) == 0
    decreases |t|
  {
    if |t| >= 2 {
      AllOnNoDrop(t[..|t| - 1]);
    }
  }

  /** The samples a single key contributes to the track of `o`'s channel `ch`. */
  function Picked(k: Key, o: Obj, ch: Channel): seq<Sample>
  {
    if k.obj == o && k.channel == ch then [Sample(k.frame, k.value)] else []
  }

  lemma TrackOne(k: Key, o: Obj, ch: Channel)
    ensures Track([k], o, ch) == Picked(k, o, ch)
  {
    assert [k][..0] == [];
  }

  lemma Track2(k1: Key, k2: Key, o: Obj, ch: Channel)
    ensures Track([k1, k2], o, ch) == Picked(k1, o, ch) + Picked(k2, o, ch)
  {
    assert [k1, k2] == [k1] + [k2];
    TrackAppend([k1], [k2], o, ch);
    TrackOne(k1, o, ch);
    TrackOne(k2, o, ch);
  }

  /** Keys of other objects logged before a handoff do not disturb it. */
  lemma HandsOffAfterOthers(pre: seq<Key>, log: seq<Key>, o: Obj, h: int)
    requires forall k :: k in pre ==> k.obj != o
    requires HandsOffAt(log, o, h)
    ensures HandsOffAt(pre + log, o, h)
  {
    TrackAppend(pre, log, o, Kinematic);
    TrackAbsent(pre, o, Kinematic);
  }

  // ---------------------------------------------------------------------------
  // What `frame_set` shows

  /** The value keyed at frame `f`: the last sample at that frame, if any. */
  function KeyedAt(t: seq<Sample>, f: int): (r: Option<Value>)
    ensures r.Some? <==> exists i :: 0 <= i < |t| && t[i].frame == f
    ensures r.Some? ==> exists i :: 0 <= i < |t| && t[i].frame == f && t[i].value == r.value
    decreases |t|
  {
    if t == [] then None
    else if t[|t| - 1].frame == f then Some(t[|t| - 1].value)
    else KeyedAt(t[..|t| - 1], f)
  }

  /**
    The value the host's animation evaluation gives a channel when `frame_set` moves the
    cursor to frame `f`, wherever it does not depend on how the keys are interpolated: the
    first key's value up to the first key, the value keyed at `f`, and the last key's value
    from the last key on. Strictly between two keys at other frames the host interpolates,
    which is not modelled (`None`). The host keeps a channel's keys sorted by frame, one per
    frame; the track must be keyed that way for its first and last samples to be the first
    and last keys.
   */
  function Shown(t: seq<Sample>, f: int): (r: Option<Value>)
    requires Ascending(t)
    ensures r.Some? ==> exists i :: 0 <= i < |t| && r.value == t[i].value
    ensures (exists i :: 0 <= i < |t| && t[i].frame == f) ==> r.Some?
  {
    if t == [] then None
    else if f <= t[0].frame then Some(t[0].value)
    else if t[|t| - 1].frame <= f then Some(t[|t| - 1].value)
    else KeyedAt(t, f)
  }

  lemma {:induction false} KeyedAtAscending(t: seq<Sample>, i: int)
    requires Ascending(t) && 0 <= i < |t|
    ensures KeyedAt(t, t[i].frame) == Some(t[i].value)
    decreases |t|
  {
    if i < |t| - 1 {
      assert t[i].frame < t[|t| - 1].frame;
      KeyedAtAscending(t[..|t| - 1], i);
    }
  }

  /** A channel keyed twice, at increasing frames, shows its first value up to its first key. */
  lemma ShownBeforeFirst(t: seq<Sample>, f: int)
    requires |t| == 2 && t[0].frame < t[1].frame && f <= t[0].frame
    ensures Ascending(t) && Shown(t, f) == Some(t[0].value)
  {
  }

  /** A channel keyed three times, at increasing frames, shows its first value up to its first key. */
  lemma ShownBeforeFirstOfThree(t: seq<Sample>, f: int)
    requires |t| == 3 && t[0].frame < t[1].frame < t[2].frame && f <= t[0].frame
    ensures Ascending(t) && Shown(t, f) == Some(t[0].value)
  {
  }

  /** In a track of ascending frames, the value keyed at a frame is the value shown there. */
  lemma ShownKeyed(t: seq<Sample>, i: int)
    requires Ascending(t) && 0 <= i < |t|
    ensures Shown(t, t[i].frame) == Some(t[i].value)
  {
    if 0 < i {
      assert t[0].frame < t[i].frame;
    }
    if i < |t| - 1 {
      assert t[i].frame < t[|t| - 1].frame;
      KeyedAtAscending(t, i);
    }
  }
}
