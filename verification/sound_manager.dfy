/** The process-wide sound registry shared by all modes (`window.SoundManager`):
    a list of playback handles that any mode may add to, and that the
    switchboard silences in bulk at every mode change. */
module SoundManager {
  import opened Common

  /** What a media element does when `stopAll` touches it: a healthy element
      pauses and rewinds; a detached or broken one may throw on `pause()`
      (then nothing happens to it) or on the `currentTime` write (then it is
      paused but not rewound). */
  datatype Fault = Healthy | PauseThrows | SeekThrows

  /** One playback handle (an `Audio` element or a clone of one). */
  datatype Handle = Handle(source: string, volume: real, paused: bool, position: real, fault: Fault)

  /** The registry: `active` in insertion order. */
  datatype Manager = Manager(active: seq<Handle>)

  /** `playClone`'s default volume. */
  const DefaultVolume: real := 0.9

  /** The guarded creation at load time: the registry is created only when
      the window has none, and an existing one (with its handles) is kept. */
  function Install(existing: Option<Manager>): (r: Manager)
    ensures existing.Some? ==> r == existing.value
    ensures existing.None? ==> |r.active| == 0
  {
    match existing
    case Some(m) => m
    case None => Manager([])
  }

  /** `register(s)`: the handle goes to the end, everything before it is kept. */
  function Register(m: Manager, h: Handle): (r: Manager)
    ensures |r.active| == |m.active| + 1
    ensures r.active[|m.active|] == h
    ensures forall i :: 0 <= i < |m.active| ==> r.active[i] == m.active[i]
  {
    Manager(m.active + [h])
  }

  /** The body of `stopAll`'s try block applied to one handle. */
  function Stop(h: Handle): (r: Handle)
    ensures h.fault == Healthy ==> r.paused && r.position == 0.0
    ensures h.fault == PauseThrows ==> r == h
    ensures h.fault == SeekThrows ==> r.paused && r.position == h.position
    ensures r.source == h.source && r.volume == h.volume && r.fault == h.fault
  {
    match h.fault
    case PauseThrows => h
    case SeekThrows => h.(paused := true)
    case Healthy => h.(paused := true, position := 0.0)
  }

  /** Every handle of `hs` after the try block ran on it; one handle throwing
      does not keep the rest from being processed. */
  function StopEach(hs: seq<Handle>): (r: seq<Handle>)
    ensures |r| == |hs|
    ensures forall i :: 0 <= i < |hs| && hs[i].fault == Healthy ==> r[i].paused && r[i].position == 0.0
    ensures forall i :: 0 <= i < |hs| && hs[i].fault == PauseThrows ==> r[i] == hs[i]
    ensures forall i :: 0 <= i < |hs| && hs[i].fault == SeekThrows ==> r[i].paused
    ensures forall i :: 0 <= i < |hs| ==> r[i].source == hs[i].source
  {
    if hs == [] then [] else [Stop(hs[0])] + StopEach(hs[1..])
  }

  datatype StopResult = StopResult(manager: Manager, stopped: seq<Handle>)

  /** `stopAll()`: the registry ends empty, and `stopped` holds every handle
      that was registered, in order, as the try block left it. */
  function StopAll(m: Manager): (r: StopResult)
    ensures |r.manager.active| == 0
    ensures |r.stopped| == |m.active|
    ensures forall i :: 0 <= i < |m.active| && m.active[i].fault == Healthy ==>
      r.stopped[i].paused && r.stopped[i].position == 0.0
    ensures forall i :: 0 <= i < |m.active| && m.active[i].fault != PauseThrows ==> r.stopped[i].paused
    ensures |m.active| == 0 ==> r.manager == m && |r.stopped| == 0
  {
    StopResult(Manager([]), StopEach(m.active))
  }

  /** The guard that opens the mode scripts: when the registry is loaded,
      every sound it tracks is stopped before anything else; otherwise
      nothing happens. */
  function StopAllIfLoaded(existing: Option<Manager>): (r: Option<Manager>)
    ensures existing.None? ==> r.None?
    ensures existing.Some? ==> r.Some? && |r.value.active| == 0
  {
    match existing
    case None => None
    case Some(m) => Some(StopAll(m).manager)
  }

  /** `playClone(base, volume)`. `cloneOk` is false when `base.cloneNode()`
      throws. Setting a media element's volume outside [0, 1] throws too
      (section 4.8.11.8 of the HTML standard), which skips the `register`.
      Either exception is swallowed and leaves the registry as it was. The
      clone starts playing; a rejected `play()` promise is swallowed and
      does not undo the registration. */
  function PlayClone(m: Manager, base: Handle, volume: real, cloneOk: bool): (r: Manager)
    ensures !cloneOk || volume < 0.0 || volume > 1.0 ==> r == m
    ensures cloneOk && 0.0 <= volume <= 1.0 ==>
      && |r.active| == |m.active| + 1
      && (forall i :: 0 <= i < |m.active| ==> r.active[i] == m.active[i])
      && r.active[|m.active|].volume == volume
      && r.active[|m.active|].source == base.source
      && !r.active[|m.active|].paused
      && r.active[|m.active|].fault == Healthy
  {
    if !cloneOk || volume < 0.0 || volume > 1.0 then m
    else
      var clone := Handle(base.source, volume, false, 0.0, Healthy);
      Register(m, clone)
  }

  /** `playClone(base)` with the default argument. */
  function PlayCloneDefault(m: Manager, base: Handle, cloneOk: bool): (r: Manager)
    ensures cloneOk ==> |r.active| == |m.active| + 1 && r.active[|m.active|].volume == 0.9
    ensures !cloneOk ==> r == m
  {
    PlayClone(m, base, DefaultVolume, cloneOk)
  }

  /** A handle registered and then bulk-stopped is paused and rewound, and
      the handles registered before it are stopped exactly as they would
      have been without it. */
  lemma {:induction false} RegisterThenStopAll(m: Manager, h: Handle)
    requires h.fault == Healthy
    ensures var r := StopAll(Register(m, h));
      && r.stopped == StopAll(m).stopped + [Stop(h)]
      && r.stopped[|m.active|].paused && r.stopped[|m.active|].position == 0.0
  {
    StopEachAppend(m.active, h);
  }

  lemma {:induction false} StopEachAppend(hs: seq<Handle>, h: Handle)
    ensures StopEach(hs + [h]) == StopEach(hs) + [Stop(h)]
    decreases |hs|
  {
    if hs == [] {
      assert hs + [h] == [h];
    } else {
      assert (hs + [h])[1..] == hs[1..] + [h];
      StopEachAppend(hs[1..], h);
    }
  }

  /** Silencing on a transition: whatever a mode played through `playClone`,
      the next `stopAll` leaves the registry empty with every clone paused at
      position 0 (clones are healthy elements). */
  lemma {:induction false} ClonesAreSilenced(m: Manager, bases: seq<Handle>, volumes: seq<real>)
    requires |bases| == |volumes|
    requires forall i :: 0 <= i < |m.active| ==> m.active[i].fault == Healthy
    ensures var after := PlayAll(m, bases, volumes);
      var r := StopAll(after);
      && |r.manager.active| == 0
      && forall i :: 0 <= i < |r.stopped| ==> r.stopped[i].paused && r.stopped[i].position == 0.0
  {
    PlayAllHealthy(m, bases, volumes);
  }

  /** A mode playing `bases[i]` at `volumes[i]` one after the other. */
  function PlayAll(m: Manager, bases: seq<Handle>, volumes: seq<real>): (r: Manager)
    requires |bases| == |volumes|
    decreases |bases|
  {
    if bases == [] then m
    else PlayAll(PlayClone(m, bases[0], volumes[0], true), bases[1..], volumes[1..])
  }

  lemma {:induction false} PlayAllHealthy(m: Manager, bases: seq<Handle>, volumes: seq<real>)
    requires |bases| == |volumes|
    requires forall i :: 0 <= i < |m.active| ==> m.active[i].fault == Healthy
    ensures var r := PlayAll(m, bases, volumes);
      forall i :: 0 <= i < |r.active| ==> r.active[i].fault == Healthy
    decreases |bases|
  {
    if bases != [] {
      var m' := PlayClone(m, bases[0], volumes[0], true);
      assert PlayAll(m, bases, volumes) == PlayAll(m', bases[1..], volumes[1..]);
      PlayAllHealthy(m', bases[1..], volumes[1..]);
    }
  }
}
