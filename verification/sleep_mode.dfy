/** The sleep mode of pet_sleep.js: drag the pet onto the bed (the bed turns
    "preSleep" and a blanket appears), drag the blanket onto the bed (the bed
    turns "sleeping"), click the bed to wake the pet. While awake the pet
    falls under gravity onto a fixed ground line. */
module SleepMode {
  import opened Common
  import Dom

  const PetW: real := 300.0
  const PetH: real := 300.0
  const BedW: real := 400.0
  const BedH: real := 400.0
  const BlanketW: real := 100.0
  const BlanketH: real := 100.0
  const BedX: real := 400.0
  const Gravity: real := 1.0
  const Damping: real := 0.94
  const MinImpact: real := 1.5
  /** Share of the combined half-sizes that counts as "over the bed". */
  const DropFactor: real := 0.6
  /** How far right of the bed the pet reappears when woken. */
  const RightOffset: real := 120.0

  datatype BedState = Normal | PreSleep | Sleeping

  datatype Pet = Pet(x: real, y: real, oldx: real, oldy: real, dragging: bool, visible: bool)
  datatype Bed = Bed(x: real, y: real, state: BedState)
  datatype Blanket = Blanket(x: real, y: real, visible: bool, dragging: bool)

  datatype Sleep = Sleep(
    pet: Pet, bed: Bed, blanket: Blanket,
    vx: real, vy: real,
    groundY: real,            // fixed when the script runs; a resize does not move it
    clickBlocked: bool,       // window._sleepClickBlocked
    width: real, height: real,
    looping: bool,            // the animation frame loop is scheduled
    listeners: set<Dom.Listener>)

  /** The canvas listeners of the mode: the wake-up click and the six
      drag handlers. */
  const CanvasRows: seq<(string, string)> := [("click", "<arrow>"),
    ("mousedown", "startDrag"), ("mousemove", "moveDrag"), ("mouseup", "endDrag"),
    ("touchstart", "startDrag"), ("touchmove", "moveDrag"), ("touchend", "endDrag")]

  const ResizeListener: Dom.Listener := Dom.Listener(Dom.Window, "resize", "onResize")

  /** The state right after the script ran on a `width` x `height` window. */
  function Load(width: real, height: real): (s: Sleep)
    ensures s.pet.visible && !s.pet.dragging && s.bed.state == Normal && !s.blanket.visible
    ensures s.groundY == height - 100.0 && s.bed.y == height - 300.0
    ensures ResizeListener in s.listeners && s.looping
  {
    var pet := Pet(width / 2.0, height / 2.0 - 150.0, width / 2.0, height / 2.0 - 150.0, false, true);
    var bed := Bed(BedX, height - 300.0, Normal);
    var blanket := Blanket(BedX - 200.0, height - 300.0 - 100.0, false, false);
    Sleep(pet, bed, blanket, 0.0, 0.0, height - 100.0, false, width, height, true,
      Dom.Table(Dom.Canvas, CanvasRows) + {ResizeListener})
  }

  /** The pet is shown exactly while the bed is in its normal state; only a
      shown object is dragged; a sleeping bed has no blanket out. */
  ghost predicate Inv(s: Sleep)
  {
    && (s.pet.visible <==> s.bed.state == Normal)
    && (s.pet.dragging ==> s.pet.visible)
    && (s.blanket.dragging ==> s.blanket.visible)
    && (s.bed.state == PreSleep ==> s.blanket.visible)
    && (s.bed.state == Sleeping ==> !s.blanket.visible)
  }

  /** `startDrag`: the pet and the blanket are tested independently, each
      with a strict inside test, so one press may grab both. */
  function StartDrag(s: Sleep, px: real, py: real): (r: Sleep)
    ensures r.pet.dragging == (s.pet.dragging || (s.pet.visible && StrictlyInsideCentred(px, py, s.pet.x, s.pet.y, PetW, PetH)))
    ensures r.blanket.dragging == (s.blanket.dragging || (s.blanket.visible && StrictlyInsideCentred(px, py, s.blanket.x, s.blanket.y, BlanketW, BlanketH)))
    ensures s.pet.visible && StrictlyInsideCentred(px, py, s.pet.x, s.pet.y, PetW, PetH) ==> r.vx == 0.0 && r.vy == 0.0
    ensures r.bed == s.bed && r.pet.x == s.pet.x && r.pet.y == s.pet.y && r.blanket.x == s.blanket.x
    ensures Inv(s) ==> Inv(r)
  {
    var s1 := if s.pet.visible && StrictlyInsideCentred(px, py, s.pet.x, s.pet.y, PetW, PetH)
              then s.(pet := s.pet.(dragging := true), vx := 0.0, vy := 0.0) else s;
    if s1.blanket.visible && StrictlyInsideCentred(px, py, s1.blanket.x, s1.blanket.y, BlanketW, BlanketH)
    then s1.(blanket := s1.blanket.(dragging := true)) else s1
  }

  /** `moveDrag`: the pet follows the pointer if it is held; otherwise the
      blanket does if it is held. */
  function MoveDrag(s: Sleep, px: real, py: real): (r: Sleep)
    ensures s.pet.dragging ==> r == s.(pet := s.pet.(x := px, y := py))
    ensures !s.pet.dragging && s.blanket.dragging ==> r == s.(blanket := s.blanket.(x := px, y := py))
    ensures !s.pet.dragging && !s.blanket.dragging ==> r == s
  {
    if s.pet.dragging then s.(pet := s.pet.(x := px, y := py))
    else if s.blanket.dragging then s.(blanket := s.blanket.(x := px, y := py))
    else s
  }

  /** The pet dropped "on the bed": horizontally within 60% of the summed
      half-widths, and its bottom edge strictly inside the bed's height. */
  predicate PetOverBed(pet: Pet, bed: Bed)
  {
    var petBottom := pet.y + PetH / 2.0;
    && Abs(pet.x - bed.x) < (PetW / 2.0 + BedW / 2.0) * DropFactor
    && petBottom > bed.y - BedH / 2.0 && petBottom < bed.y + BedH / 2.0
  }

  /** The blanket dropped "on the bed": both centre distances within 60% of
      the summed half-sizes. */
  predicate BlanketOverBed(b: Blanket, bed: Bed)
  {
    && Abs(b.x - bed.x) < (BlanketW / 2.0 + BedW / 2.0) * DropFactor
    && Abs(b.y - bed.y) < (BlanketH / 2.0 + BedH / 2.0) * DropFactor
  }

  /** `endDrag`: first the pet drop (a pet over the bed goes to bed, the bed
      turns preSleep and the blanket appears), then the blanket drop (a
      blanket over a preSleep bed puts the pet to sleep and blocks clicks
      until the unblock timer fires). */
  function EndDrag(s: Sleep): (r: Sleep)
    ensures !r.pet.dragging && !r.blanket.dragging
    ensures s.pet.dragging && PetOverBed(s.pet, s.bed) ==>
      !r.pet.visible && r.vx == 0.0 && r.vy == 0.0 && r.bed.state != Normal
    ensures Inv(s) ==> (r.bed.state == Sleeping <==>
      (s.bed.state == Sleeping
       || (s.blanket.dragging && BlanketOverBed(s.blanket, s.bed)
           && (s.bed.state == PreSleep || (s.pet.dragging && PetOverBed(s.pet, s.bed))))))
    ensures Inv(s) ==> r.clickBlocked == (s.clickBlocked || (r.bed.state == Sleeping && s.bed.state != Sleeping))
    ensures !s.pet.dragging && !s.blanket.dragging ==> r == s
    ensures Inv(s) ==> Inv(r)
  {
    var s1 :=
      if !s.pet.dragging then s
      else
        var p := s.pet.(dragging := false, oldx := s.pet.x, oldy := s.pet.y);
        if PetOverBed(p, s.bed)
        then s.(pet := p.(visible := false), bed := s.bed.(state := PreSleep),
                blanket := s.blanket.(visible := true), vx := 0.0, vy := 0.0)
        else s.(pet := p);
    if !s1.blanket.dragging then s1
    else
      var b := s1.blanket.(dragging := false);
      if BlanketOverBed(b, s1.bed) && s1.bed.state == PreSleep
      then s1.(blanket := b.(visible := false), bed := s1.bed.(state := Sleeping), clickBlocked := true)
      else s1.(blanket := b)
  }

  /** The wake-up click at (px, py): ignored while clicks are blocked;
      a click strictly inside a sleeping bed wakes the pet, which reappears
      standing on the bed's top edge to the right of the bed, with the
      blanket beside it. */
  function Click(s: Sleep, px: real, py: real): (r: Sleep)
    ensures (s.clickBlocked || s.bed.state != Sleeping
             || !StrictlyInsideCentred(px, py, s.bed.x, s.bed.y, BedW, BedH)) ==> r == s
    ensures (!s.clickBlocked && s.bed.state == Sleeping
             && StrictlyInsideCentred(px, py, s.bed.x, s.bed.y, BedW, BedH)) ==>
      && r.bed.state == Normal && r.pet.visible && r.blanket.visible
      && r.pet.x - PetW / 2.0 == s.bed.x + BedW / 2.0 + RightOffset
      && r.pet.y + PetH / 2.0 == s.bed.y - BedH / 2.0
      && r.blanket.x - BlanketW / 2.0 == s.bed.x + BedW / 2.0 + RightOffset / 2.0
      && r.vx == 0.0 && r.vy == 0.0 && r.pet.oldx == r.pet.x && r.pet.oldy == r.pet.y
    ensures Inv(s) ==> Inv(r)
  {
    if s.clickBlocked || s.bed.state != Sleeping
       || !StrictlyInsideCentred(px, py, s.bed.x, s.bed.y, BedW, BedH) then s
    else
      var px' := s.bed.x + BedW / 2.0 + PetW / 2.0 + RightOffset;
      var py' := s.bed.y - BedH / 2.0 - PetH / 2.0;
      s.(bed := s.bed.(state := Normal),
         pet := s.pet.(visible := true, x := px', y := py', oldx := px', oldy := py'),
         blanket := s.blanket.(visible := true,
           x := s.bed.x + BedW / 2.0 + BlanketW / 2.0 + RightOffset / 2.0,
           y := s.bed.y - BedH / 2.0 + 50.0),
         vx := 0.0, vy := 0.0)
  }

  /** A woken pet lies wholly to the right of the bed, so it is not over it. */
  lemma WokenPetBesideBed(s: Sleep, px: real, py: real)
    requires !s.clickBlocked && s.bed.state == Sleeping
    requires StrictlyInsideCentred(px, py, s.bed.x, s.bed.y, BedW, BedH)
    ensures !PetOverBed(Click(s, px, py).pet, Click(s, px, py).bed)
  {
  }

  /** `onResize`: the bed follows the new height; the ground line does not. */
  function Resize(s: Sleep, width: real, height: real): (r: Sleep)
    ensures r.bed.y == height - 120.0 && r.groundY == s.groundY
    ensures r.bed.state == s.bed.state && r.pet == s.pet && r.blanket == s.blanket
  {
    s.(width := width, height := height, bed := s.bed.(y := height - 120.0))
  }

  /** `update()`: only a shown, released pet on a normal bed moves. Its
      velocity is its last displacement damped by 0.94 plus gravity; on
      reaching the ground it is put on the ground. The quarter-speed bounce
      velocity the code sets there is never used: the next frame derives
      the velocity from the last two positions again, so the pet stays on
      the ground and does not bounce. */
  function Update(s: Sleep): (r: Sleep)
    ensures !s.pet.visible || s.bed.state != Normal || s.pet.dragging ==> r == s
    ensures s.pet.visible && s.bed.state == Normal && !s.pet.dragging ==>
      && r.pet.y + PetH / 2.0 <= s.groundY
      && r.pet.oldx == s.pet.x && r.pet.oldy == s.pet.y
      && r.vx == (s.pet.x - s.pet.oldx) * Damping
      && r.pet.x == s.pet.x + r.vx
    ensures s.pet.visible && s.bed.state == Normal && !s.pet.dragging ==>
      var vy := (s.pet.y - s.pet.oldy) * Damping + Gravity;
      && (s.pet.y + vy + PetH / 2.0 < s.groundY ==> r.pet.y == s.pet.y + vy && r.vy == vy)
      && (s.pet.y + vy + PetH / 2.0 >= s.groundY ==>
            r.pet.y == s.groundY - PetH / 2.0
            && r.vy == (if Abs(vy) > MinImpact then -vy * 0.25 else 0.0))
    ensures r.bed == s.bed && r.blanket == s.blanket && r.pet.visible == s.pet.visible
    ensures Inv(s) ==> Inv(r)
  {
    if !s.pet.visible || s.bed.state != Normal || s.pet.dragging then s
    else
      var vx := (s.pet.x - s.pet.oldx) * Damping;
      var vy := (s.pet.y - s.pet.oldy) * Damping + Gravity;
      var p := s.pet.(oldx := s.pet.x, oldy := s.pet.y, x := s.pet.x + vx, y := s.pet.y + vy);
      if p.y + PetH / 2.0 >= s.groundY then
        s.(pet := p.(y := s.groundY - PetH / 2.0), vx := vx,
           vy := if Abs(vy) > MinImpact then -vy * 0.25 else 0.0)
      else s.(pet := p, vx := vx, vy := vy)
  }

  /** The bed image: bed_sleep1 while preSleep, bed_sleep2 while sleeping. */
  function BedImage(st: BedState): (r: string)
    ensures st == Normal <==> r == "bed.png"
    ensures st == PreSleep <==> r == "bed_sleep1.png"
    ensures st == Sleeping <==> r == "bed_sleep2.png"
  {
    match st
    case Normal => "bed.png"
    case PreSleep => "bed_sleep1.png"
    case Sleeping => "bed_sleep2.png"
  }

  /** `window._modeCleanup`: the frame loop and the window's resize listener
      go; the seven canvas listeners stay on the canvas. */
  function Cleanup(s: Sleep): (r: Sleep)
    ensures !r.looping && ResizeListener !in r.listeners
    ensures forall l :: l in s.listeners && l.target == Dom.Canvas ==> l in r.listeners
  {
    s.(looping := false, listeners := s.listeners - {ResizeListener})
  }

  datatype Event =
    | Press(px: real, py: real)
    | Move(px: real, py: real)
    | Release
    | ClickAt(px: real, py: real)
    | Unblock                      // the 100 ms timer
    | ResizeTo(width: real, height: real)
    | Frame

  /** One event. Cleanup removes only the resize listener, so only a
      resize after it changes nothing; the canvas listeners stay. */
  function Step(s: Sleep, e: Event): (r: Sleep)
    ensures Inv(s) ==> Inv(r)
    ensures ResizeListener !in s.listeners && e.ResizeTo? ==> r == s
  {
    match e
    case Press(x, y) => StartDrag(s, x, y)
    case Move(x, y) => MoveDrag(s, x, y)
    case Release => EndDrag(s)
    case ClickAt(x, y) => Click(s, x, y)
    case Unblock => s.(clickBlocked := false)
    case ResizeTo(w, h) => if ResizeListener in s.listeners then Resize(s, w, h) else s
    case Frame => if s.looping then Update(s) else s
  }

  function Run(s: Sleep, es: seq<Event>): Sleep
    decreases |es|
  {
    if es == [] then s else Run(Step(s, es[0]), es[1..])
  }

  /** In every reachable state the pet is shown exactly while the bed is
      normal, and the blanket is out exactly when the sleep cycle needs it. */
  lemma {:induction false} RunKeepsInv(width: real, height: real, es: seq<Event>)
    ensures Inv(Run(Load(width, height), es))
  {
    RunFrom(Load(width, height), es);
  }

  lemma {:induction false} RunFrom(s: Sleep, es: seq<Event>)
    requires Inv(s)
    ensures Inv(Run(s, es))
    decreases |es|
  {
    if es != [] {
      RunFrom(Step(s, es[0]), es[1..]);
    }
  }

  /** The click that ends the blanket drop's gesture arrives while clicks
      are blocked, so it cannot wake the pet it just put to sleep. */
  lemma BlanketClickIgnored(s: Sleep, px: real, py: real)
    requires s.blanket.dragging && BlanketOverBed(s.blanket, s.bed) && s.bed.state == PreSleep
    ensures EndDrag(s).bed.state == Sleeping
    ensures Click(EndDrag(s), px, py) == EndDrag(s)
  {
  }

  /** As written, a press that grabs both the pet and a blanket lying on the
      bed, released with the pet over the bed, skips the preSleep stage:
      one release puts the pet straight to sleep. */
  lemma OneReleaseSleeps(s: Sleep)
    requires Inv(s) && s.bed.state == Normal
    requires s.pet.dragging && PetOverBed(s.pet, s.bed)
    requires s.blanket.dragging && BlanketOverBed(s.blanket, s.bed)
    ensures EndDrag(s).bed.state == Sleeping
  {
  }
}
