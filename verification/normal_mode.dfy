/** The normal mode of pet_script.js: a pet that can be dragged and thrown,
    moved each frame by position-based (Verlet-like) integration, landing on
    the ground with a thud sound whose volume grows with the impact. The
    clock (`performance.now()`) is a parameter of each frame. */
module NormalMode {
  import opened Common
  import Dom

  const PetSize: real := 300.0
  const Half: real := 150.0
  const GroundHeight: real := 100.0
  const Gravity: real := 1.2
  const Damping: real := 0.985
  const BouncePower: real := 25.0
  const MinImpact: real := 2.0
  const CooldownMs: real := 120.0
  /** Frames a fly image is held before the other one shows. */
  const FlySpeed: int := 10

  /** The image `drawPet` picks: base.png on the ground, base4.png falling
      fast, base2.png / base3.png flapping. */
  datatype Pose = Standing | Falling | Flying(frame: nat)

  datatype Normal = Normal(
    x: real, y: real,                 // the pet's centre
    oldx: real, oldy: real,
    dragging: bool,
    vy: real,
    groundY: real,
    unlocked: bool,                   // audioUnlocked
    lastImpact: real,
    sounds: seq<real>,                // volume of every landing sound played
    animFrame: nat,
    timer: int,
    pose: Pose,
    looping: bool,
    listeners: set<Dom.Listener>)

  const CanvasListeners: set<Dom.Listener> := {
    Dom.Listener(Dom.Canvas, "mousedown", "startDrag"),
    Dom.Listener(Dom.Canvas, "mousemove", "moveDrag"),
    Dom.Listener(Dom.Canvas, "mouseup", "endDrag"),
    Dom.Listener(Dom.Canvas, "touchstart", "startDrag"),
    Dom.Listener(Dom.Canvas, "touchmove", "moveDrag"),
    Dom.Listener(Dom.Canvas, "touchend", "endDrag")
  }

  const ResizeListener: Dom.Listener := Dom.Listener(Dom.Window, "resize", "onResize")
  /** The two `{ once: true }` audio unlock listeners. */
  const UnlockMouse: Dom.Listener := Dom.Listener(Dom.Window, "mousedown", "unlockAudio")
  const UnlockTouch: Dom.Listener := Dom.Listener(Dom.Window, "touchstart", "unlockAudio")

  /** The pet's bottom edge is on or above the ground. */
  predicate AboveGround(s: Normal)
  {
    s.y + Half <= s.groundY
  }

  /** Every landing sound was played at a volume between 0 and 1. */
  predicate AudibleVolumes(sounds: seq<real>)
  {
    forall i :: 0 <= i < |sounds| ==> 0.0 <= sounds[i] <= 1.0
  }

  /** The flap animation's counters stay in range, a pet that is not held
      is never below the ground, and no sound was played louder than 1. */
  ghost predicate Inv(s: Normal)
  {
    && s.animFrame < 2 && 0 <= s.timer <= FlySpeed
    && (!s.dragging ==> AboveGround(s))
    && AudibleVolumes(s.sounds)
  }

  /** The script's start in a `width` x `height` window: the pet stands on
      the ground in the middle, at rest, before any frame has run (the
      script's synchronous first `loop()` is the first AnimationFrame). */
  function Initial(width: real, height: real): (s: Normal)
    ensures s.y + Half == s.groundY && s.oldy == s.y && s.oldx == s.x && s.x == width / 2.0
    ensures !s.dragging && !s.unlocked && s.looping && s.sounds == []
    ensures s.listeners == CanvasListeners + {ResizeListener, UnlockMouse, UnlockTouch}
    ensures Inv(s)
  {
    Normal(width / 2.0, height - 100.0 - 150.0, width / 2.0, height - 100.0 - 150.0, false, 0.0,
      height - GroundHeight, false, 0.0, [], 0, 0, Standing, true,
      CanvasListeners + {ResizeListener, UnlockMouse, UnlockTouch})
  }

  /** `unlockAudio` through one of its once-listeners: that listener goes,
      and the audio is unlocked when the browser allows the play. */
  function Unlock(s: Normal, l: Dom.Listener, allowed: bool): (r: Normal)
    requires l == UnlockMouse || l == UnlockTouch
    ensures l !in s.listeners ==> r == s
    ensures l in s.listeners ==> l !in r.listeners && r.unlocked == (s.unlocked || allowed)
    ensures Inv(s) ==> Inv(r)
  {
    if l !in s.listeners then s
    else if s.unlocked || !allowed then s.(listeners := s.listeners - {l})
    else s.(listeners := s.listeners - {l}, unlocked := true)
  }

  /** `startDrag`: a press strictly inside the pet's square grabs it. */
  function StartDrag(s: Normal, px: real, py: real): (r: Normal)
    ensures StrictlyInsideCentred(px, py, s.x, s.y, PetSize, PetSize) ==> r == s.(dragging := true)
    ensures !StrictlyInsideCentred(px, py, s.x, s.y, PetSize, PetSize) ==> r == s
  {
    if StrictlyInsideCentred(px, py, s.x, s.y, PetSize, PetSize) then s.(dragging := true) else s
  }

  /** `moveDrag`: the held pet's centre is the pointer. */
  function MoveDrag(s: Normal, px: real, py: real): (r: Normal)
    ensures s.dragging ==> r == s.(x := px, y := py)
    ensures !s.dragging ==> r == s
  {
    if s.dragging then s.(x := px, y := py) else s
  }

  /** Whether a sound may play at `now`: audio unlocked and the cooldown
      since the last impact sound over. */
  predicate MayPlay(s: Normal, now: real)
  {
    s.unlocked && now - s.lastImpact > CooldownMs
  }

  /** `endDrag`: the release point becomes the previous position (so the pet
      starts from rest); released below ground, it is lifted onto the ground
      with velocity -15 and a soft thud at volume 0.5. */
  function EndDrag(s: Normal, now: real): (r: Normal)
    ensures !r.dragging
    ensures !s.dragging ==> r == s
    ensures s.dragging ==> r.oldx == s.x && r.oldy == s.y && r.x == s.x
    ensures s.dragging && !AboveGround(s) ==> r.y + Half == s.groundY && r.vy == -15.0
    ensures s.dragging && AboveGround(s) ==> r.y == s.y && r.vy == s.vy && r.sounds == s.sounds
    ensures s.dragging && !AboveGround(s) && MayPlay(s, now) ==> r.sounds == s.sounds + [0.5] && r.lastImpact == now
    ensures !(s.dragging && !AboveGround(s) && MayPlay(s, now)) ==> r.sounds == s.sounds
    ensures Inv(s) ==> Inv(r)
  {
    if !s.dragging then s
    else
      var held := s.(oldx := s.x, oldy := s.y, dragging := false);
      if AboveGround(s) then held
      else
        var popped := held.(y := s.groundY - Half, vy := -Max(12.0, BouncePower * 0.6));
        if MayPlay(s, now) then popped.(sounds := s.sounds + [0.5], lastImpact := now) else popped
  }

  /** The landing sound's volume for an impact speed: 0.2 plus a thirtieth of
      the speed, at most 1. */
  function Volume(impact: real): (v: real)
    ensures 0.0 <= v <= 1.0
    ensures impact >= 0.0 ==> v >= 0.2
    ensures 0.0 <= impact <= 24.0 ==> v == 0.2 + impact / 30.0
  {
    Max(0.0, Min(Min(0.2 + impact / 30.0, 1.0), 1.0))
  }

  /** The velocity `update` derives from the last two positions. */
  function DerivedVy(s: Normal): real
  {
    (s.y - s.oldy) * Damping
  }

  /** The ground test of `update`: the predicted step crosses the ground
      while falling, or the pet was already at or below it (`inclusive`) /
      strictly below it and stays there. */
  predicate Lands(s: Normal, inclusive: bool)
  {
    var prevBottom := s.oldy + Half;
    var vyNext := DerivedVy(s) + Gravity;
    var willBeBelow := s.y + vyNext + Half >= s.groundY;
    var wasUnder := if inclusive then prevBottom >= s.groundY else prevBottom > s.groundY;
    (prevBottom < s.groundY && willBeBelow && vyNext > 0.0) || (wasUnder && willBeBelow)
  }

  /** The impact speed of a landing: the predicted velocity, at least 2.01
      when the pet was under the ground. */
  function ImpactSpeed(s: Normal, inclusive: bool): real
  {
    var prevBottom := s.oldy + Half;
    var vyNext := DerivedVy(s) + Gravity;
    var submerged := (if inclusive then prevBottom >= s.groundY else prevBottom > s.groundY)
                     && s.y + vyNext + Half >= s.groundY;
    Max(vyNext, if submerged then MinImpact + 0.01 else vyNext)
  }

  /** `update` with the submerged test either inclusive (as written) or
      strict: a free pet moves on by its damped last displacement plus
      gravity; a landing puts it exactly on the ground, thuds when the impact
      exceeds 2 and the cooldown allows, and sets the bounce velocity. No
      frame ends with the pet below the ground. */
  function Integrate(s: Normal, now: real, inclusive: bool): (r: Normal)
    ensures s.dragging ==> r == s
    ensures !s.dragging ==> r.oldx == s.x && r.oldy == s.y && r.x == s.x + (s.x - s.oldx) * Damping
    ensures !s.dragging ==> AboveGround(r) && r.groundY == s.groundY
    ensures !s.dragging && Lands(s, inclusive) ==>
      (r.y + Half == s.groundY && r.vy == (if ImpactSpeed(s, inclusive) > MinImpact then -BouncePower else 0.0))
    ensures !s.dragging && Lands(s, inclusive) && ImpactSpeed(s, inclusive) > MinImpact && MayPlay(s, now) ==>
      r.sounds == s.sounds + [Volume(ImpactSpeed(s, inclusive))] && r.lastImpact == now
    ensures !(!s.dragging && Lands(s, inclusive) && ImpactSpeed(s, inclusive) > MinImpact && MayPlay(s, now)) ==>
      r.sounds == s.sounds && r.lastImpact == s.lastImpact
    ensures !s.dragging && !Lands(s, inclusive) && AboveGround(s.(y := s.y + DerivedVy(s) + Gravity)) ==>
      r.y == s.y + DerivedVy(s) + Gravity && r.vy == DerivedVy(s) + Gravity
    ensures r.dragging == s.dragging && r.unlocked == s.unlocked && r.listeners == s.listeners
    ensures Inv(s) ==> Inv(r)
  {
    if s.dragging then s
    else
      var vx := (s.x - s.oldx) * Damping;
      var vyNext := DerivedVy(s) + Gravity;
      var yNext := s.y + vyNext;
      var moved := s.(oldx := s.x, oldy := s.y, x := s.x + vx);
      if Lands(s, inclusive) then
        var impact := ImpactSpeed(s, inclusive);
        var heard := if impact > MinImpact && MayPlay(s, now)
                     then moved.(sounds := s.sounds + [Volume(impact)], lastImpact := now)
                     else moved;
        heard.(y := s.groundY - Half, vy := if impact > MinImpact then -BouncePower else 0.0)
      else if yNext + Half > s.groundY then moved.(y := s.groundY - Half, vy := 0.0)
      else moved.(y := yNext, vy := vyNext)
  }

  /** `update()` as written: a pet resting exactly on the ground counts as
      submerged. */
  function UpdateAsWritten(s: Normal, now: real): (r: Normal)
    ensures !s.dragging ==> AboveGround(r)
    ensures s.dragging ==> r == s
    ensures Inv(s) ==> Inv(r)
  {
    Integrate(s, now, true)
  }

  /** `update()` with the submerged test strict, so that only a pet actually
      below the ground is treated as an impact. */
  function Update(s: Normal, now: real): (r: Normal)
    ensures !s.dragging ==> AboveGround(r)
    ensures s.dragging ==> r == s
    ensures Inv(s) ==> Inv(r)
  {
    Integrate(s, now, false)
  }

  /** A pet at rest on the ground, audio unlocked, cooldown over. */
  predicate RestingAudible(s: Normal, now: real)
  {
    !s.dragging && s.y + Half == s.groundY && s.oldy == s.y && MayPlay(s, now)
  }

  /** As written, a pet resting on the ground thuds every frame the cooldown
      allows: the inclusive test makes rest a submerged impact of 2.01. */
  lemma RestingPetThuds(s: Normal, now: real)
    requires RestingAudible(s, now)
    ensures var r := UpdateAsWritten(s, now);
      r.y == s.y && |r.sounds| == |s.sounds| + 1 && r.vy == -BouncePower
  {
    assert Lands(s, true);
    assert ImpactSpeed(s, true) == MinImpact + 0.01;
  }

  /** With the strict test a resting pet stays put in silence. */
  lemma RestingPetQuiet(s: Normal, now: real)
    requires RestingAudible(s, now)
    ensures var r := Update(s, now);
      r.y == s.y && r.oldy == s.y && r.sounds == s.sounds && r.vy == 0.0
  {
    assert !Lands(s, false);
  }

  /** The situation right after the script runs and the audio is unlocked
      is such a rest, so the as-written thud starts at once. */
  lemma StartIsRestingOnGround(width: real, height: real, now: real)
    requires now > CooldownMs
    ensures RestingAudible(Initial(width, height).(unlocked := true), now)
  {
  }

  /** A pet released deep under the ground does not leave with the -15 of
      `endDrag`: the next frame, as written, derives its velocity from the
      lift, so it rises by 0.985 times the depth less gravity. */
  lemma DeepReleaseRisesByDepth(s: Normal, now: real, later: real, depth: real)
    requires s.dragging && depth > 2.0 && s.y + Half == s.groundY + depth
    ensures var r := UpdateAsWritten(EndDrag(s, now), later);
      r.vy == Gravity - depth * Damping && r.y == s.groundY - Half + Gravity - depth * Damping
  {
    var e := EndDrag(s, now);
    assert DerivedVy(e) == -depth * Damping;
    assert !Lands(e, true);
  }

  /** `drawPet`'s choice of image and its flap counters: on the ground the
      pet stands; in the air it shows the falling image when moving down
      faster than 5, and otherwise flaps, switching image once the timer
      passes 10 frames. */
  function Draw(s: Normal): (r: Normal)
    ensures s.y + Half >= s.groundY ==> r == s.(pose := Standing)
    ensures s.y + Half < s.groundY && s.vy > 5.0 ==> r == s.(pose := Falling)
    ensures s.y + Half < s.groundY && s.vy <= 5.0 ==>
      r.pose == Flying(r.animFrame)
      && (s.timer + 1 > FlySpeed ==> r.timer == 0 && r.animFrame == (s.animFrame + 1) % 2)
      && (s.timer + 1 <= FlySpeed ==> r.timer == s.timer + 1 && r.animFrame == s.animFrame)
    ensures r.x == s.x && r.y == s.y && r.vy == s.vy && r.sounds == s.sounds
    ensures r.groundY == s.groundY && r.dragging == s.dragging
    ensures Inv(s) ==> Inv(r)
  {
    if s.y + Half >= s.groundY then s.(pose := Standing)
    else if s.vy > 5.0 then s.(pose := Falling)
    else
      var t := s.timer + 1;
      var s1 := if t > FlySpeed then s.(timer := 0, animFrame := (s.animFrame + 1) % 2) else s.(timer := t);
      s1.(pose := Flying(s1.animFrame))
  }

  /** One animation frame of `loop`: update (with the inclusive ground test
      as written), then draw. */
  function Frame(s: Normal, now: real): (r: Normal)
    ensures !s.looping ==> r == s
    ensures s.looping && !s.dragging ==> AboveGround(r)
    ensures Inv(s) ==> Inv(r)
  {
    if s.looping then Draw(UpdateAsWritten(s, now)) else s
  }

  /** `onResize`: the ground follows the window; a pet left below it is put
      on it at rest vertically. */
  function Resize(s: Normal, height: real): (r: Normal)
    ensures r.groundY == height - GroundHeight
    ensures AboveGround(s.(groundY := r.groundY)) ==> r == s.(groundY := r.groundY)
    ensures !AboveGround(s.(groundY := r.groundY)) ==> r.y + Half == r.groundY && r.oldy == r.y
    ensures AboveGround(r) && r.x == s.x
    ensures Inv(s) ==> Inv(r)
  {
    var g := height - GroundHeight;
    if s.y + Half > g then s.(groundY := g, y := g - Half, oldy := g - Half) else s.(groundY := g)
  }

  /** `window._modeCleanup`: the frame is cancelled and the canvas and resize
      listeners go; the unlock listeners that have not fired stay. */
  function Cleanup(s: Normal): (r: Normal)
    ensures !r.looping
    ensures r.listeners == s.listeners - CanvasListeners - {ResizeListener}
    ensures r.listeners !! CanvasListeners && ResizeListener !in r.listeners
    ensures UnlockMouse in s.listeners ==> UnlockMouse in r.listeners
    ensures Inv(s) ==> Inv(r)
  {
    s.(looping := false, listeners := s.listeners - CanvasListeners - {ResizeListener})
  }

  datatype Event =
    | UnlockByMouse(allowed: bool)
    | UnlockByTouch(allowed: bool)
    | Press(px: real, py: real)
    | Drag(px: real, py: real)
    | Release(now: real)
    | WindowResize(height: real)
    | AnimationFrame(now: real)
    | ModeCleanup

  /** One event; canvas and resize events reach the mode only while its
      listeners are on. */
  function Step(s: Normal, e: Event): (r: Normal)
    ensures Inv(s) ==> Inv(r)
  {
    var live := CanvasListeners <= s.listeners;
    match e
    case UnlockByMouse(a) => Unlock(s, UnlockMouse, a)
    case UnlockByTouch(a) => Unlock(s, UnlockTouch, a)
    case Press(x, y) => if live then StartDrag(s, x, y) else s
    case Drag(x, y) => if live then MoveDrag(s, x, y) else s
    case Release(now) => if live then EndDrag(s, now) else s
    case WindowResize(h) => if ResizeListener in s.listeners then Resize(s, h) else s
    case AnimationFrame(now) => Frame(s, now)
    case ModeCleanup => Cleanup(s)
  }

  function Run(s: Normal, es: seq<Event>): Normal
    decreases |es|
  {
    if es == [] then s else Run(Step(s, es[0]), es[1..])
  }

  /** Over any session the flap counters stay in range, the pet is never
      left below the ground unless held, and every thud's volume is in
      [0, 1]. */
  lemma {:induction false} RunKeepsInv(width: real, height: real, es: seq<Event>)
    ensures Inv(Run(Initial(width, height), es))
  {
    RunFrom(Initial(width, height), es);
  }

  lemma {:induction false} RunFrom(s: Normal, es: seq<Event>)
    requires Inv(s)
    ensures Inv(Run(s, es))
    decreases |es|
  {
    if es != [] {
      RunFrom(Step(s, es[0]), es[1..]);
    }
  }
}
