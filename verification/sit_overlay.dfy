/** The sit-pose add-on of script_plus.js: a "Sit"/"Normal" button, a pose
    override that the normal mode's renderer consults, and two canvas
    listeners that leave the sit pose when the pet is touched. It attaches
    on the normal-mode signal and detaches on the unload signal. */
module SitOverlay {
  import opened Common

  const SitWidth: int := 135
  const SitHeight: int := 230
  /** The pose frame flips once the timer exceeds this many ticks. */
  const FrameTicks: nat := 20

  /** The injected `#sit-btn` (present means appended to the body, with its
      `toggleSit` click listener). */
  datatype Button = Button(text: string)

  datatype Overlay = Overlay(
    btn: Option<Button>,
    sitMode: bool,
    override: bool,                    // window.PET_POSE_OVERRIDE === sitPoseLoop (else null)
    sitFrame: nat,
    sitTimer: nat,
    initialized: bool,
    exitListeners: set<(nat, string)>, // (canvas element, event) carrying exitSitByInteraction
    ready1: bool,                      // sit1.png loaded
    ready2: bool)                      // sit2.png loaded

  /** State right after the script has run, before any image has loaded. */
  const Fresh: Overlay := Overlay(None, false, false, 0, 0, false, {}, false, false)

  /** The sprite the pose override hands to the renderer. */
  datatype Pose = Pose(frame: nat, w: int, h: int)

  /** The flag, the override and the button text always agree, and the
      animation counters stay in range. */
  ghost predicate Inv(o: Overlay)
  {
    && o.override == o.sitMode
    && (o.btn.Some? ==> o.btn.value.text == (if o.sitMode then "Normal" else "Sit"))
    && o.sitFrame < 2
    && o.sitTimer <= FrameTicks
  }

  /** `enableSit()`. */
  function EnableSit(o: Overlay): (r: Overlay)
    ensures r.sitMode && r.override
    ensures o.btn.Some? ==> r.btn == Some(Button("Normal"))
    ensures o.btn.None? ==> r.btn == None
    ensures r.initialized == o.initialized && r.exitListeners == o.exitListeners
  {
    o.(sitMode := true, override := true,
       btn := if o.btn.Some? then Some(Button("Normal")) else None)
  }

  /** `disableSit()`. */
  function DisableSit(o: Overlay): (r: Overlay)
    ensures !r.sitMode && !r.override
    ensures o.btn.Some? ==> r.btn == Some(Button("Sit"))
    ensures o.btn.None? ==> r.btn == None
    ensures r.initialized == o.initialized && r.exitListeners == o.exitListeners
  {
    o.(sitMode := false, override := false,
       btn := if o.btn.Some? then Some(Button("Sit")) else None)
  }

  /** `toggleSit()`: the flag flips. */
  function ToggleSit(o: Overlay): (r: Overlay)
    ensures r.sitMode == !o.sitMode && r.override == r.sitMode
    ensures Inv(o) ==> Inv(r)
  {
    if o.sitMode then DisableSit(o) else EnableSit(o)
  }

  /** Two toggles restore the original state. */
  lemma ToggleTwice(o: Overlay)
    requires Inv(o)
    ensures ToggleSit(ToggleSit(o)) == o
  {
  }

  /** `exitSitByInteraction()`: leaves the sit pose if it is on, and is a
      no-op otherwise. */
  function ExitSit(o: Overlay): (r: Overlay)
    ensures !o.sitMode ==> r == o
    ensures o.sitMode ==> r == DisableSit(o)
    ensures !r.sitMode
  {
    if o.sitMode then DisableSit(o) else o
  }

  /** `createButton()`: nothing if a button is already attached; otherwise a
      new "Sit" button, and the sit pose is switched off. */
  function CreateButton(o: Overlay): (r: Overlay)
    ensures o.btn.Some? ==> r == o
    ensures o.btn.None? ==> r.btn == Some(Button("Sit")) && !r.sitMode && !r.override
    ensures r.btn.Some?
  {
    if o.btn.Some? then o else DisableSit(o.(btn := Some(Button("Sit"))))
  }

  /** `attachExitListeners()`: `canvas` is the element `#canvas` resolves
      to right now (None when there is none). */
  function AttachExit(o: Overlay, canvas: Option<nat>): (r: Overlay)
    ensures canvas.None? ==> r == o
    ensures canvas.Some? ==>
      r == o.(exitListeners := o.exitListeners + {(canvas.value, "mousedown"), (canvas.value, "touchstart")})
  {
    match canvas
    case None => o
    case Some(c) => o.(exitListeners := o.exitListeners + {(c, "mousedown"), (c, "touchstart")})
  }

  /** `detachExitListeners()`: only the current canvas is touched. */
  function DetachExit(o: Overlay, canvas: Option<nat>): (r: Overlay)
    ensures canvas.None? ==> r == o
    ensures canvas.Some? ==> r.exitListeners * {(canvas.value, "mousedown"), (canvas.value, "touchstart")} == {}
    ensures r.exitListeners <= o.exitListeners
    ensures forall l :: l in o.exitListeners && (canvas.None? || l.0 != canvas.value) ==> l in r.exitListeners
  {
    match canvas
    case None => o
    case Some(c) => o.(exitListeners := o.exitListeners - {(c, "mousedown"), (c, "touchstart")})
  }

  /** `init()`: a second call while initialized adds no button and no
      listener. */
  function Init(o: Overlay, canvas: Option<nat>): (r: Overlay)
    ensures o.initialized ==> r == o
    ensures !o.initialized ==> r.initialized && r.btn.Some?
    ensures !o.initialized && canvas.Some? ==>
      (canvas.value, "mousedown") in r.exitListeners && (canvas.value, "touchstart") in r.exitListeners
    ensures Inv(o) ==> Inv(r)
  {
    if o.initialized then o
    else AttachExit(CreateButton(o.(initialized := true)), canvas)
  }

  /** `cleanup()`. */
  function Cleanup(o: Overlay, canvas: Option<nat>): (r: Overlay)
    ensures !r.initialized && !r.sitMode && !r.override && r.btn.None?
    ensures r.exitListeners <= o.exitListeners
    ensures canvas.Some? ==> r.exitListeners * {(canvas.value, "mousedown"), (canvas.value, "touchstart")} == {}
    ensures Inv(o) ==> Inv(r)
  {
    DetachExit(DisableSit(o.(initialized := false)), canvas).(btn := None)
  }

  /** Cleaning up twice is cleaning up once. */
  lemma CleanupIdempotent(o: Overlay, canvas: Option<nat>)
    ensures Cleanup(Cleanup(o, canvas), canvas) == Cleanup(o, canvas)
  {
  }

  /** `init()` twice is `init()` once. */
  lemma InitIdempotent(o: Overlay, canvas: Option<nat>)
    ensures Init(Init(o, canvas), canvas) == Init(o, canvas)
  {
  }

  /** `sitPoseLoop()`: nothing until both images are ready; then a 135x230
      pose whose frame flips whenever the timer exceeds 20 ticks. */
  function PoseLoop(o: Overlay): (r: (Overlay, Option<Pose>))
    ensures !(o.ready1 && o.ready2) ==> r == (o, None)
    ensures o.ready1 && o.ready2 ==>
      && r.1.Some? && r.1.value.w == SitWidth && r.1.value.h == SitHeight
      && r.1.value.frame == r.0.sitFrame
      && (o.sitTimer + 1 > FrameTicks ==> r.0.sitTimer == 0 && r.0.sitFrame == (o.sitFrame + 1) % 2)
      && (o.sitTimer + 1 <= FrameTicks ==> r.0.sitTimer == o.sitTimer + 1 && r.0.sitFrame == o.sitFrame)
    ensures Inv(o) ==> Inv(r.0) && (r.1.Some? ==> r.1.value.frame < 2)
  {
    if !o.ready1 || !o.ready2 then (o, None)
    else
      var t := o.sitTimer + 1;
      var o' := if t > FrameTicks then o.(sitTimer := 0, sitFrame := (o.sitFrame + 1) % 2)
                else o.(sitTimer := t);
      (o', Some(Pose(o'.sitFrame, SitWidth, SitHeight)))
  }

  /** What can happen to the overlay. */
  datatype Event =
    | ImageLoaded(second: bool)
    | ButtonClick
    | CanvasPress(pressed: nat, kind: string)   // mousedown / touchstart on that canvas
    | NormalSignal(canvas: Option<nat>)        // "pet:mode:normal"
    | UnloadSignal(canvas: Option<nat>)        // "pet:mode:unload"
    | PoseTick

  /** The normal-mode signal: cleanup, then init. */
  function OnNormal(o: Overlay, canvas: Option<nat>): (r: Overlay)
    ensures r.initialized && r.btn == Some(Button("Sit")) && !r.sitMode && !r.override
    ensures canvas.Some? ==> (canvas.value, "mousedown") in r.exitListeners
  {
    Init(Cleanup(o, canvas), canvas)
  }

  function Step(o: Overlay, e: Event): (r: Overlay)
    ensures Inv(o) ==> Inv(r)
  {
    match e
    case ImageLoaded(second) => if second then o.(ready2 := true) else o.(ready1 := true)
    case ButtonClick => if o.btn.Some? then ToggleSit(o) else o
    case CanvasPress(c, kind) => if (c, kind) in o.exitListeners then ExitSit(o) else o
    case NormalSignal(c) => OnNormal(o, c)
    case UnloadSignal(c) => Cleanup(o, c)
    case PoseTick => if o.override then PoseLoop(o).0 else o
  }

  function Run(o: Overlay, es: seq<Event>): Overlay
    decreases |es|
  {
    if es == [] then o else Run(Step(o, es[0]), es[1..])
  }

  /** Every reachable state keeps the flag, the override and the button
      text in agreement: from the script's first-load check, whatever the
      window's mode name and canvas, over any run of events. */
  lemma {:induction false} RunKeepsInv(modeName: Option<string>, canvas: Option<nat>, es: seq<Event>)
    ensures Inv(FirstLoad(Fresh, modeName, canvas))
    ensures Inv(Run(FirstLoad(Fresh, modeName, canvas), es))
  {
    FreshIsConsistent();
    RunFrom(FirstLoad(Fresh, modeName, canvas), es);
  }

  /** The state the script starts from satisfies the invariant. */
  lemma FreshIsConsistent()
    ensures Inv(Fresh)
    ensures Inv(FirstLoad(Fresh, None, None))
  {
  }

  lemma {:induction false} RunFrom(o: Overlay, es: seq<Event>)
    requires Inv(o)
    ensures Inv(Run(o, es))
    decreases |es|
  {
    if es != [] {
      RunFrom(Step(o, es[0]), es[1..]);
    }
  }

  /** The first-load check: only a window whose mode name is exactly
      "normal" starts the overlay right away. */
  function FirstLoad(o: Overlay, modeName: Option<string>, canvas: Option<nat>): (r: Overlay)
    ensures modeName != Some("normal") ==> r == o
    ensures modeName == Some("normal") ==> r == Init(o, canvas)
  {
    if modeName == Some("normal") then Init(o, canvas) else o
  }

  /** Repeated normal-mode signals leave exactly one button, with sit off,
      and the exit listeners of the current canvas attached once. */
  lemma RepeatedNormalSignals(o: Overlay, c: nat)
    ensures var r := OnNormal(OnNormal(o, Some(c)), Some(c));
      && r == OnNormal(o, Some(c))
      && r.btn == Some(Button("Sit")) && !r.sitMode
  {
  }

  /** A mode that swaps in a cloned canvas (shower, swing) leaves the old
      element holding its exit listeners: the later cleanup resolves
      `#canvas` to the new element and removes nothing from the old one. */
  lemma ReplacedCanvasKeepsListeners(o: Overlay, oldCanvas: nat, newCanvas: nat)
    requires oldCanvas != newCanvas
    ensures var r := Cleanup(Init(o.(initialized := false, exitListeners := {}), Some(oldCanvas)), Some(newCanvas));
      (oldCanvas, "mousedown") in r.exitListeners && (oldCanvas, "touchstart") in r.exitListeners
  {
  }
}
