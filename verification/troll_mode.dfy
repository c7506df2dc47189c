/** The troll mode of trolling.js: a hammer button held down shows the
    hammered face, a butter button the buttered one, and in water mode a
    watering can dragged onto the pet wets it and loops a water sound. */
module TrollMode {
  import opened Common
  import Dom
  import SoundManager

  const CanHome: real := 100.0
  const CanSize: real := 120.0
  const PetSize: real := 400.0
  const GroundHeight: real := 100.0

  /** The pet image: base.png and its three variants. */
  datatype Look = Plain | Hammered | Buttered | Wet

  /** A one-shot clone of the hammer or butter sound. */
  datatype OneShot = HammerHit | ButterSplat

  datatype Troll = Troll(
    look: Look,
    waterMode: bool,
    canX: real, canY: real, canDragging: bool,
    offX: real, offY: real,
    touchingPet: bool,
    water: seq<bool>,          // every looping water clone made; true = still playing
    active: Option<nat>,       // `activeWaterAudio`
    oneShots: seq<OneShot>,
    petX: real, petY: real,    // fixed when the script runs
    groundY: real,
    running: bool,
    toolbar: bool,
    registry: Option<SoundManager.Manager>,
    listeners: set<Dom.Listener>)

  /** The eight canvas listeners, registered with `{ passive: false }`. */
  const CanvasListeners: set<Dom.Listener> := {
    Dom.Listener(Dom.Canvas, "mousedown", "startDrag"),
    Dom.Listener(Dom.Canvas, "touchstart", "startDrag"),
    Dom.Listener(Dom.Canvas, "mousemove", "dragMove"),
    Dom.Listener(Dom.Canvas, "touchmove", "dragMove"),
    Dom.Listener(Dom.Canvas, "mouseup", "endDrag"),
    Dom.Listener(Dom.Canvas, "mouseleave", "endDrag"),
    Dom.Listener(Dom.Canvas, "touchend", "endDrag"),
    Dom.Listener(Dom.Canvas, "touchcancel", "endDrag")
  }

  const ResizeListener: Dom.Listener := Dom.Listener(Dom.Window, "resize", "resizeCanvas")

  /** An original sound element as registered: paused at the start. */
  function Original(source: string): SoundManager.Handle
  {
    SoundManager.Handle(source, 1.0, true, 0.0, SoundManager.Healthy)
  }

  /** The three original sounds are registered when a registry exists. */
  function RegisterSounds(existing: Option<SoundManager.Manager>): (r: Option<SoundManager.Manager>)
    ensures existing.None? ==> r.None?
    ensures existing.Some? ==> r.Some? && |r.value.active| == |existing.value.active| + 3
    ensures existing.Some? ==> r.value.active[|existing.value.active| + 2] == Original("water.mp3")
  {
    match existing
    case None => None
    case Some(m) =>
      Some(SoundManager.Register(SoundManager.Register(SoundManager.Register(m,
        Original("hammer.mp3")), Original("butter.mp3")), Original("water.mp3")))
  }

  /** The state right after the script ran on a `width` x `height` window. */
  function Load(width: real, height: real, existing: Option<SoundManager.Manager>): (s: Troll)
    ensures s.running && s.toolbar && !s.waterMode && s.look == Plain
    ensures s.canX == CanHome && s.canY == CanHome && !s.canDragging
    ensures s.groundY == height - GroundHeight && s.petY == s.groundY - 400.0 && s.petX == width / 2.0 - 150.0
    ensures s.listeners == CanvasListeners + {ResizeListener}
    ensures s.active.None? && s.water == []
  {
    Troll(Plain, false, CanHome, CanHome, false, 0.0, 0.0, false, [], None, [],
      width / 2.0 - 150.0, height - GroundHeight - 400.0, height - GroundHeight, true, true,
      RegisterSounds(existing), CanvasListeners + {ResizeListener})
  }

  /** How many water clones are playing. */
  function Playing(water: seq<bool>): (n: nat)
    ensures n <= |water|
  {
    if water == [] then 0 else Playing(water[..|water| - 1]) + (if water[|water| - 1] then 1 else 0)
  }

  /** Only the clone `activeWaterAudio` refers to may be playing. */
  ghost predicate Inv(s: Troll)
  {
    && (s.active.Some? ==> s.active.value < |s.water|)
    && (forall i :: 0 <= i < |s.water| && s.water[i] ==> s.active == Some(i))
  }

  /** The invariant means at most one water loop is ever audible. */
  lemma {:induction false} AtMostOneWaterLoop(s: Troll)
    requires Inv(s)
    ensures Playing(s.water) <= 1
    ensures s.active.None? ==> Playing(s.water) == 0
  {
    PlayingBelow(s.water, s.active);
  }

  lemma {:induction false} PlayingBelow(w: seq<bool>, a: Option<nat>)
    requires forall i :: 0 <= i < |w| && w[i] ==> a == Some(i)
    ensures Playing(w) <= 1
    ensures a.None? || a.value >= |w| ==> Playing(w) == 0
    decreases |w|
  {
    if w != [] {
      var n := |w| - 1;
      var p := w[..n];
      assert forall i :: 0 <= i < |p| ==> p[i] == w[i];
      if w[n] {
        assert a == Some(n);
        PlayingBelow(p, a);
      } else {
        PlayingBelow(p, a);
      }
    }
  }

  /** `stopActiveWater()`: the active clone is paused and forgotten. */
  function StopWater(s: Troll): (r: Troll)
    ensures r.active.None? && |r.water| == |s.water|
    ensures s.active.Some? && s.active.value < |s.water| ==> !r.water[s.active.value]
    ensures forall i :: 0 <= i < |s.water| && Some(i) != s.active ==> r.water[i] == s.water[i]
    ensures Inv(s) ==> Inv(r)
  {
    var w := if s.active.Some? && s.active.value < |s.water| then s.water[s.active.value := false] else s.water;
    s.(water := w, active := None)
  }

  /** Stopping the water twice is stopping it once. */
  lemma StopWaterIdempotent(s: Troll)
    ensures StopWater(StopWater(s)) == StopWater(s)
  {
  }

  /** `hammerDown`: the hammered face and a hammer sound. */
  function HammerDown(s: Troll): (r: Troll)
    ensures r.look == Hammered && r.oneShots == s.oneShots + [HammerHit]
    ensures r.water == s.water && r.active == s.active
  {
    s.(look := Hammered, oneShots := s.oneShots + [HammerHit])
  }

  /** `hammerUp` (mouse up, mouse leave, touch end or cancel on the button):
      back to the plain face, whatever face was showing. */
  function HammerUp(s: Troll): (r: Troll)
    ensures r.look == Plain && r == s.(look := Plain)
  {
    s.(look := Plain)
  }

  /** Holding the hammer shows it only until the button is let go. */
  lemma HammerIsHeld(s: Troll)
    ensures HammerDown(s).look == Hammered
    ensures HammerUp(HammerDown(s)).look == Plain
    ensures |HammerUp(HammerDown(s)).oneShots| == |s.oneShots| + 1
  {
  }

  /** The butter button: the buttered face and a butter sound. */
  function Butter(s: Troll): (r: Troll)
    ensures r.look == Buttered && r.oneShots == s.oneShots + [ButterSplat]
    ensures r.water == s.water && r.active == s.active
  {
    s.(look := Buttered, oneShots := s.oneShots + [ButterSplat])
  }

  /** The water button toggles water mode; turning it off silences the water
      and puts the can back home, but leaves `touchingPet` as it was. */
  function ToggleWater(s: Troll): (r: Troll)
    ensures r.waterMode == !s.waterMode
    ensures s.waterMode ==> !r.canDragging && r.canX == CanHome && r.canY == CanHome && r.active.None?
    ensures !s.waterMode ==> r == s.(waterMode := true)
    ensures r.touchingPet == s.touchingPet
    ensures Inv(s) ==> Inv(r)
  {
    if s.waterMode then StopWater(s).(waterMode := false, canDragging := false, canX := CanHome, canY := CanHome)
    else s.(waterMode := true)
  }

  /** Toggling water on and off with the can at rest restores the state. */
  lemma ToggleTwiceAtRest(s: Troll)
    requires !s.waterMode && !s.canDragging && s.canX == CanHome && s.canY == CanHome && s.active.None?
    ensures ToggleWater(ToggleWater(s)) == s
  {
  }

  /** `isHit`: the open rectangles overlap (touching edges do not count). */
  predicate IsHit(ax: real, ay: real, aw: real, ah: real, bx: real, by_: real, bw: real, bh: real)
  {
    ax < bx + bw && ax + aw > bx && ay < by_ + bh && ay + ah > by_
  }

  /** `isHit` is symmetric, and a can whose edge only touches the pet is
      not a hit. */
  lemma HitSymmetric(ax: real, ay: real, aw: real, ah: real, bx: real, by_: real, bw: real, bh: real)
    ensures IsHit(ax, ay, aw, ah, bx, by_, bw, bh) == IsHit(bx, by_, bw, bh, ax, ay, aw, ah)
    ensures !IsHit(bx - aw, ay, aw, ah, bx, by_, bw, bh)
  {
  }

  predicate CanOnPet(s: Troll)
  {
    IsHit(s.canX, s.canY, CanSize, CanSize, s.petX, s.petY, PetSize, PetSize)
  }

  /** `startDrag`: only in water mode and only on the can (edges included);
      grabbing it silences the water. */
  function StartDrag(s: Troll, px: real, py: real): (r: Troll)
    ensures (s.waterMode && s.canX <= px <= s.canX + CanSize && s.canY <= py <= s.canY + CanSize) ==>
      r.canDragging && r.offX == px - s.canX && r.offY == py - s.canY && r.active.None?
    ensures !(s.waterMode && s.canX <= px <= s.canX + CanSize && s.canY <= py <= s.canY + CanSize) ==> r == s
    ensures r.canX == s.canX && r.canY == s.canY && r.touchingPet == s.touchingPet
    ensures Inv(s) ==> Inv(r)
  {
    if s.waterMode && s.canX <= px <= s.canX + CanSize && s.canY <= py <= s.canY + CanSize then
      StopWater(s).(canDragging := true, offX := px - s.canX, offY := py - s.canY)
    else s
  }

  /** `dragMove`: the can follows the pointer; arriving on the pet wets it and
      starts a new water loop, leaving it stops the loop. */
  function DragMove(s: Troll, px: real, py: real): (r: Troll)
    ensures !s.canDragging ==> r == s
    ensures s.canDragging ==> r.canX == px - s.offX && r.canY == py - s.offY
    ensures s.canDragging ==> r.touchingPet == CanOnPet(r)
    ensures s.canDragging && CanOnPet(r) && !s.touchingPet ==>
      r.look == Wet && |r.water| == |s.water| + 1 && r.water[|s.water|] && r.active == Some(|s.water|)
    ensures s.canDragging && !CanOnPet(r) && s.touchingPet ==> !r.touchingPet && r.active.None?
    ensures s.canDragging && CanOnPet(r) == s.touchingPet ==> r.water == s.water && r.active == s.active
    ensures Inv(s) ==> Inv(r)
  {
    if !s.canDragging then s
    else
      var m := s.(canX := px - s.offX, canY := py - s.offY);
      if CanOnPet(m) && !s.touchingPet then
        var t := StopWater(m);
        t.(look := Wet, water := t.water + [true], active := Some(|t.water|), touchingPet := true)
      else if !CanOnPet(m) && s.touchingPet then
        StopWater(m).(touchingPet := false)
      else m
  }

  /** `endDrag`: a dragged can is dropped back home, silenced. */
  function EndDrag(s: Troll): (r: Troll)
    ensures !s.canDragging ==> r == s
    ensures s.canDragging ==> !r.canDragging && !r.touchingPet && r.active.None?
                              && r.canX == CanHome && r.canY == CanHome
    ensures Inv(s) ==> Inv(r)
  {
    if s.canDragging then
      StopWater(s).(canDragging := false, touchingPet := false, canX := CanHome, canY := CanHome)
    else s
  }

  /** The remove button: plain face, no water, water mode off. The can's drag
      is not ended. */
  function Remove(s: Troll): (r: Troll)
    ensures r.look == Plain && !r.waterMode && r.active.None?
    ensures r.canDragging == s.canDragging && r.canX == s.canX && r.canY == s.canY
    ensures r.touchingPet == s.touchingPet
    ensures Inv(s) ==> Inv(r)
  {
    StopWater(s).(look := Plain, waterMode := false)
  }

  /** As written, Remove pressed mid-drag leaves the hidden can draggable:
      moving it onto the pet still starts the water loop with water mode
      off. */
  lemma HiddenCanStillWaters(s: Troll, px: real, py: real)
    requires s.canDragging && !s.touchingPet
    requires IsHit(px - s.offX, py - s.offY, CanSize, CanSize, s.petX, s.petY, PetSize, PetSize)
    ensures var r := DragMove(Remove(s), px, py);
      !r.waterMode && r.look == Wet && r.active.Some?
  {
  }

  /** As written, turning water off while the can is on the pet keeps
      `touchingPet`, so the next drag onto the pet starts no water. */
  lemma StaleTouchMutesNextDrag(s: Troll, px: real, py: real)
    requires s.waterMode && s.canDragging && s.touchingPet
    requires CanHome <= px <= CanHome + CanSize && CanHome <= py <= CanHome + CanSize
    ensures var t := StartDrag(ToggleWater(ToggleWater(s)), px, py);
      t.canDragging && t.touchingPet
      && DragMove(t, s.petX + px - CanHome, s.petY + py - CanHome).active.None?
  {
    var t := StartDrag(ToggleWater(ToggleWater(s)), px, py);
    assert t.offX == px - CanHome && t.offY == py - CanHome;
  }

  /** `resizeCanvas`: the ground follows the window, the pet stays where the
      script put it. */
  function Resize(s: Troll, height: real): (r: Troll)
    ensures r.groundY == height - GroundHeight
    ensures r.petX == s.petX && r.petY == s.petY
    ensures r == s.(groundY := height - GroundHeight)
  {
    s.(groundY := height - GroundHeight)
  }

  /** `window._modeCleanup`: the loop stops, the toolbar and every listener
      the mode added go, the water stops and the registry is silenced. */
  function Cleanup(s: Troll): (r: Troll)
    ensures !r.running && !r.toolbar && !r.waterMode && !r.touchingPet && r.active.None?
    ensures r.listeners == s.listeners - CanvasListeners - {ResizeListener}
    ensures r.listeners !! CanvasListeners && ResizeListener !in r.listeners
    ensures s.registry.Some? ==> r.registry.Some? && |r.registry.value.active| == 0
    ensures s.registry.None? ==> r.registry.None?
    ensures Inv(s) ==> Inv(r)
  {
    var reg := SoundManager.StopAllIfLoaded(s.registry);
    StopWater(s).(running := false, toolbar := false,
                  listeners := s.listeners - CanvasListeners - {ResizeListener},
                  registry := reg, touchingPet := false, waterMode := false)
  }

  /** After cleanup no water loop is left playing. */
  lemma SilentAfterCleanup(s: Troll)
    requires Inv(s)
    ensures Playing(Cleanup(s).water) == 0
  {
    AtMostOneWaterLoop(Cleanup(s));
  }

  datatype Event =
    | HammerPress
    | HammerRelease
    | ButterClick
    | WaterClick
    | RemoveClick
    | Press(px: real, py: real)
    | Drag(px: real, py: real)
    | Release
    | WindowResize(height: real)

  /** Whether the page still listens for `e`: the toolbar's buttons while
      the toolbar is in the page, pointer and resize events while their
      listeners are attached. */
  predicate Listens(s: Troll, e: Event)
  {
    match e
    case Press(_, _) => CanvasListeners <= s.listeners
    case Drag(_, _) => CanvasListeners <= s.listeners
    case Release => CanvasListeners <= s.listeners
    case WindowResize(_) => ResizeListener in s.listeners
    case _ => s.toolbar
  }

  /** One event the page still listens for; an event nobody listens for
      changes nothing. */
  function Step(s: Troll, e: Event): (r: Troll)
    ensures !Listens(s, e) ==> r == s
    ensures Inv(s) ==> Inv(r)
  {
    if Listens(s, e) then Handle(s, e) else s
  }

  /** The handler that `e` runs. */
  function Handle(s: Troll, e: Event): (r: Troll)
    ensures Inv(s) ==> Inv(r)
  {
    match e
    case HammerPress => HammerDown(s)
    case HammerRelease => HammerUp(s)
    case ButterClick => Butter(s)
    case WaterClick => ToggleWater(s)
    case RemoveClick => Remove(s)
    case Press(x, y) => StartDrag(s, x, y)
    case Drag(x, y) => DragMove(s, x, y)
    case Release => EndDrag(s)
    case WindowResize(h) => Resize(s, h)
  }

  function Run(s: Troll, es: seq<Event>): Troll
    decreases |es|
  {
    if es == [] then s else Run(Step(s, es[0]), es[1..])
  }

  /** However the user plays, at most one water loop is ever playing. */
  lemma {:induction false} OneWaterLoopEver(width: real, height: real,
                                            existing: Option<SoundManager.Manager>, es: seq<Event>)
    ensures Inv(Run(Load(width, height, existing), es))
    ensures Playing(Run(Load(width, height, existing), es).water) <= 1
  {
    RunFrom(Load(width, height, existing), es);
    AtMostOneWaterLoop(Run(Load(width, height, existing), es));
  }

  lemma {:induction false} RunFrom(s: Troll, es: seq<Event>)
    requires Inv(s)
    ensures Inv(Run(s, es))
    decreases |es|
  {
    if es != [] {
      RunFrom(Step(s, es[0]), es[1..]);
    }
  }
}
