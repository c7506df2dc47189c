/** The shower mode of pet_shower.js: a sponge that switches the pet to its
    wet look while it touches the pet's hitbox, rubber ducks and coneheads
    that fall onto a fixed ground line, and toolbar buttons that spawn
    them, play bath sounds or clear the bath. */
module ShowerMode {
  import opened Common

  const SpongeSize: real := 100.0
  const ItemGravity: real := 0.5
  /** Velocity factor on hitting the ground. */
  const Rebound: real := -0.3
  /** The pet's washing hitbox, relative to the pet image's top-left corner. */
  const HitOffsetX: real := 120.0
  const HitOffsetY: real := 90.0
  const HitW: real := 130.0
  const HitH: real := 150.0

  /** A rectangle by its top-left corner, as the mode's objects are kept. */
  datatype Rect = Rect(x: real, y: real, w: real, h: real)

  /** `isTouching(a, b)`: the closed rectangles share at least a point. */
  predicate IsTouching(a: Rect, b: Rect)
  {
    !(a.x + a.w < b.x || a.x > b.x + b.w || a.y + a.h < b.y || a.y > b.y + b.h)
  }

  /** Touching is symmetric, and a rectangle with non-negative size touches
      itself. */
  lemma TouchingSymmetric(a: Rect, b: Rect)
    ensures IsTouching(a, b) == IsTouching(b, a)
    ensures a.w >= 0.0 && a.h >= 0.0 ==> IsTouching(a, a)
  {
  }

  /** The closed test of `startDrag`: the point lies in the rectangle,
      edges included. */
  predicate Contains(r: Rect, px: real, py: real)
  {
    r.x <= px <= r.x + r.w && r.y <= py <= r.y + r.h
  }

  datatype ItemKind = RubberDuck | Conehead

  datatype Item = Item(kind: ItemKind, x: real, y: real, vy: real, grabbed: bool)

  function Size(k: ItemKind): (r: (real, real))
    ensures k == RubberDuck ==> r == (150.0, 150.0)
    ensures k == Conehead ==> r == (100.0, 150.0)
  {
    match k
    case RubberDuck => (150.0, 150.0)
    case Conehead => (100.0, 150.0)
  }

  function ItemRect(it: Item): Rect
  {
    Rect(it.x, it.y, Size(it.kind).0, Size(it.kind).1)
  }

  /** The pet's two looks: base_bath.png and the wet base_bath2.png. */
  datatype Look = Dry | Wet

  /** The size of each preloaded sound pool, by key; no pool for other keys. */
  function PoolSize(key: string): (n: Option<nat>)
    ensures n.Some? <==> key in {"quack", "splash", "bubble", "foam", "conehead"}
    ensures n.Some? ==> 2 <= n.value <= 3
    ensures n == Some(3) <==> key == "quack"
  {
    if key == "quack" then Some(3)
    else if key in {"splash", "bubble", "foam", "conehead"} then Some(2)
    else None
  }

  datatype Played = Played(key: string, slot: nat, volume: real, rate: real)

  /** What `dragTarget` refers to. A duck or conehead held while the bath is
      cleared is no longer in its list but stays the target. */
  datatype Target = NoTarget | SpongeTarget | DuckAt(i: nat) | ConeAt(i: nat) | Orphan(item: Item)

  datatype Shower = Shower(
    spongeX: real, spongeY: real, spongeDragging: bool,
    ducks: seq<Item>,
    cones: seq<Item>,
    target: Target,
    offX: real, offY: real,
    look: Look,
    played: seq<Played>,
    soundIndex: nat,
    petX: real, petY: real,
    groundY: real,             // fixed when the script runs
    width: real,
    running: bool,
    canvas: nat,               // the element currently at #canvas
    withListeners: set<nat>,   // canvas elements carrying the drag listeners
    toolbar: bool)

  /** The state right after the script ran on a `width` x `height` window
      whose canvas is element `canvas`. */
  function Load(width: real, height: real, canvas: nat): (s: Shower)
    ensures s.running && s.look == Dry && s.ducks == [] && s.cones == [] && s.target == NoTarget
    ensures s.groundY == height - 100.0 && s.petX == width / 2.0 - 150.0 && s.petY == s.groundY - 400.0
    ensures s.withListeners == {canvas} && s.canvas == canvas
  {
    Shower(100.0, 100.0, false, [], [], NoTarget, 0.0, 0.0, Dry, [], 0,
      width / 2.0 - 150.0, height - 100.0 - 400.0, height - 100.0, width, true, canvas, {canvas}, true)
  }

  /** A list position held is a held item of that list, and a held sponge
      is being dragged. */
  ghost predicate Inv(s: Shower)
  {
    && (s.target.DuckAt? ==> s.target.i < |s.ducks| && s.ducks[s.target.i].grabbed)
    && (s.target.ConeAt? ==> s.target.i < |s.cones| && s.cones[s.target.i].grabbed)
    && (s.target.SpongeTarget? ==> s.spongeDragging)
  }

  /** `playInstantSound(key, volume, rate)`: a key without a pool does
      nothing; otherwise one counter shared by all the pools picks the
      element, round robin. */
  function PlaySound(s: Shower, key: string, volume: real, rate: real): (r: Shower)
    ensures PoolSize(key).None? ==> r == s
    ensures PoolSize(key).Some? ==>
      r.played == s.played + [Played(key, s.soundIndex % PoolSize(key).value, volume, rate)]
      && r.played[|s.played|].slot < PoolSize(key).value
      && r == s.(played := r.played, soundIndex := s.soundIndex + 1)
  {
    match PoolSize(key)
    case None => s
    case Some(n) =>
      s.(played := s.played + [Played(key, s.soundIndex % n, volume, rate)], soundIndex := s.soundIndex + 1)
  }

  /** Two sounds in a row from one pool use consecutive elements of it. */
  lemma RoundRobin(s: Shower, key: string)
    requires PoolSize(key).Some?
    ensures var r := PlaySound(PlaySound(s, key, 0.9, 1.0), key, 0.9, 1.0);
      r.played[|s.played| + 1].slot == (r.played[|s.played|].slot + 1) % PoolSize(key).value
  {
  }

  /** The duck button: a duck at the top edge, somewhere in the canvas width
      less 100 (`rnd` is the draw), and a quack at a random pitch. */
  function SpawnDuck(s: Shower, rnd: real, rndRate: real): (r: Shower)
    requires 0.0 <= rnd < 1.0 && 0.0 <= rndRate < 1.0
    ensures r.ducks == s.ducks + [Item(RubberDuck, rnd * (s.width - 100.0), 0.0, 0.0, false)]
    ensures r.cones == s.cones && r.target == s.target && r.look == s.look
    ensures |r.played| == |s.played| + 1
    ensures r.played[|s.played|].key == "quack" && 0.9 <= r.played[|s.played|].rate < 1.1
    ensures Inv(s) ==> Inv(r)
  {
    PlaySound(s.(ducks := s.ducks + [Item(RubberDuck, rnd * (s.width - 100.0), 0.0, 0.0, false)]),
      "quack", 0.9, 0.9 + rndRate * 0.2)
  }

  /** The conehead button, with its own sound at a pitch between 0.95 and
      1.05. */
  function SpawnCone(s: Shower, rnd: real, rndRate: real): (r: Shower)
    requires 0.0 <= rnd < 1.0 && 0.0 <= rndRate < 1.0
    ensures r.cones == s.cones + [Item(Conehead, rnd * (s.width - 100.0), 0.0, 0.0, false)]
    ensures r.ducks == s.ducks && r.target == s.target && r.look == s.look
    ensures |r.played| == |s.played| + 1
    ensures r.played[|s.played|].key == "conehead" && 0.95 <= r.played[|s.played|].rate < 1.05
    ensures Inv(s) ==> Inv(r)
  {
    PlaySound(s.(cones := s.cones + [Item(Conehead, rnd * (s.width - 100.0), 0.0, 0.0, false)]),
      "conehead", 0.9, 0.95 + rndRate * 0.1)
  }

  /** The bubble and foam buttons: their sound, and the wet look. */
  function BathEffect(s: Shower, key: string): (r: Shower)
    requires key == "bubble" || key == "foam"
    ensures r.look == Wet && r.played == s.played + [Played(key, s.soundIndex % 2, 0.9, 1.0)]
    ensures r.ducks == s.ducks && r.cones == s.cones && r.target == s.target
  {
    PlaySound(s, key, 0.9, 1.0).(look := Wet)
  }

  /** The clear button: both lists emptied and the dry look; an item being
      held stays the drag target outside its list. */
  function ClearBath(s: Shower): (r: Shower)
    ensures r.ducks == [] && r.cones == [] && r.look == Dry
    ensures s.target.DuckAt? && s.target.i < |s.ducks| ==> r.target == Orphan(s.ducks[s.target.i])
    ensures s.target.ConeAt? && s.target.i < |s.cones| ==> r.target == Orphan(s.cones[s.target.i])
    ensures !s.target.DuckAt? && !s.target.ConeAt? ==> r.target == s.target
    ensures Inv(s) ==> Inv(r)
  {
    var t := match s.target
      case DuckAt(i) => if i < |s.ducks| then Orphan(s.ducks[i]) else NoTarget
      case ConeAt(i) => if i < |s.cones| then Orphan(s.cones[i]) else NoTarget
      case _ => s.target;
    s.(ducks := [], cones := [], look := Dry, target := t)
  }

  /** The newest item of `items` below `n` that contains the point. */
  function NewestHit(items: seq<Item>, px: real, py: real, n: nat): (r: Option<nat>)
    requires n <= |items|
    ensures r.Some? ==> r.value < n && Contains(ItemRect(items[r.value]), px, py)
    ensures r.Some? ==> forall k :: r.value < k < n ==> !Contains(ItemRect(items[k]), px, py)
    ensures r.None? ==> forall k :: 0 <= k < n ==> !Contains(ItemRect(items[k]), px, py)
    decreases n
  {
    if n == 0 then None
    else if Contains(ItemRect(items[n - 1]), px, py) then Some(n - 1)
    else NewestHit(items, px, py, n - 1)
  }

  /** `startDrag`: the sponge first, then the ducks newest first, then the
      coneheads newest first; the grab offset keeps the grabbed point under
      the pointer, and a grabbed item stops. A miss changes nothing. */
  function StartDrag(s: Shower, px: real, py: real): (r: Shower)
    ensures Contains(Rect(s.spongeX, s.spongeY, SpongeSize, SpongeSize), px, py) ==>
      r.target == SpongeTarget && r.spongeDragging && r.offX == px - s.spongeX && r.offY == py - s.spongeY
    ensures (!Contains(Rect(s.spongeX, s.spongeY, SpongeSize, SpongeSize), px, py)
             && NewestHit(s.ducks, px, py, |s.ducks|).Some?) ==>
      var i := NewestHit(s.ducks, px, py, |s.ducks|).value;
      r.target == DuckAt(i) && r.ducks == s.ducks[i := s.ducks[i].(grabbed := true, vy := 0.0)]
      && r.offX == px - s.ducks[i].x
    ensures (!Contains(Rect(s.spongeX, s.spongeY, SpongeSize, SpongeSize), px, py)
             && NewestHit(s.ducks, px, py, |s.ducks|).None? && NewestHit(s.cones, px, py, |s.cones|).Some?) ==>
      var i := NewestHit(s.cones, px, py, |s.cones|).value;
      r.target == ConeAt(i) && r.cones == s.cones[i := s.cones[i].(grabbed := true, vy := 0.0)]
    ensures (!Contains(Rect(s.spongeX, s.spongeY, SpongeSize, SpongeSize), px, py)
             && NewestHit(s.ducks, px, py, |s.ducks|).None? && NewestHit(s.cones, px, py, |s.cones|).None?) ==> r == s
    ensures Inv(s) ==> Inv(r)
  {
    if Contains(Rect(s.spongeX, s.spongeY, SpongeSize, SpongeSize), px, py) then
      s.(target := SpongeTarget, offX := px - s.spongeX, offY := py - s.spongeY, spongeDragging := true)
    else match NewestHit(s.ducks, px, py, |s.ducks|)
      case Some(i) =>
        s.(target := DuckAt(i), offX := px - s.ducks[i].x, offY := py - s.ducks[i].y,
           ducks := s.ducks[i := s.ducks[i].(grabbed := true, vy := 0.0)])
      case None =>
        match NewestHit(s.cones, px, py, |s.cones|)
        case Some(i) =>
          s.(target := ConeAt(i), offX := px - s.cones[i].x, offY := py - s.cones[i].y,
             cones := s.cones[i := s.cones[i].(grabbed := true, vy := 0.0)])
        case None => s
  }

  /** `moveDrag`: the target's corner follows the pointer less the grab
      offset. */
  function MoveDrag(s: Shower, px: real, py: real): (r: Shower)
    ensures s.target == NoTarget ==> r == s
    ensures s.target == SpongeTarget ==> r.spongeX == px - s.offX && r.spongeY == py - s.offY
    ensures s.target.DuckAt? && s.target.i < |s.ducks| ==>
      r.ducks == s.ducks[s.target.i := s.ducks[s.target.i].(x := px - s.offX, y := py - s.offY)]
    ensures s.target.ConeAt? && s.target.i < |s.cones| ==>
      r.cones == s.cones[s.target.i := s.cones[s.target.i].(x := px - s.offX, y := py - s.offY)]
    ensures Inv(s) ==> Inv(r)
  {
    match s.target
    case NoTarget => s
    case SpongeTarget => s.(spongeX := px - s.offX, spongeY := py - s.offY)
    case DuckAt(i) =>
      if i < |s.ducks| then s.(ducks := s.ducks[i := s.ducks[i].(x := px - s.offX, y := py - s.offY)]) else s
    case ConeAt(i) =>
      if i < |s.cones| then s.(cones := s.cones[i := s.cones[i].(x := px - s.offX, y := py - s.offY)]) else s
    case Orphan(it) => s.(target := Orphan(it.(x := px - s.offX, y := py - s.offY)))
  }

  /** `stopDrag`: the target is let go (an item stops) and the drag ends. */
  function StopDrag(s: Shower): (r: Shower)
    ensures |r.ducks| == |s.ducks| && |r.cones| == |s.cones|
    ensures r.target == NoTarget
    ensures s.target == SpongeTarget ==> !r.spongeDragging
    ensures s.target.DuckAt? && s.target.i < |s.ducks| ==> !r.ducks[s.target.i].grabbed
    ensures s.target.ConeAt? && s.target.i < |s.cones| ==> !r.cones[s.target.i].grabbed
    ensures s.target == NoTarget ==> r == s
    ensures r.(ducks := s.ducks, cones := s.cones, spongeDragging := s.spongeDragging, target := s.target) == s
    ensures s.target != SpongeTarget ==> r.spongeDragging == s.spongeDragging
    ensures s.target.DuckAt? && s.target.i < |s.ducks| ==>
      r.ducks[s.target.i] == (if s.ducks[s.target.i].grabbed
                              then s.ducks[s.target.i].(grabbed := false, vy := 0.0) else s.ducks[s.target.i])
    ensures s.target.ConeAt? && s.target.i < |s.cones| ==>
      r.cones[s.target.i] == (if s.cones[s.target.i].grabbed
                              then s.cones[s.target.i].(grabbed := false, vy := 0.0) else s.cones[s.target.i])
    ensures forall k :: 0 <= k < |s.ducks| && s.target != DuckAt(k) ==> r.ducks[k] == s.ducks[k]
    ensures forall k :: 0 <= k < |s.cones| && s.target != ConeAt(k) ==> r.cones[k] == s.cones[k]
    ensures Inv(s) ==> Inv(r)
  {
    match s.target
    case NoTarget => s
    case SpongeTarget => s.(spongeDragging := false, target := NoTarget)
    case DuckAt(i) =>
      if i < |s.ducks| && s.ducks[i].grabbed
      then s.(ducks := s.ducks[i := s.ducks[i].(grabbed := false, vy := 0.0)], target := NoTarget)
      else s.(target := NoTarget)
    case ConeAt(i) =>
      if i < |s.cones| && s.cones[i].grabbed
      then s.(cones := s.cones[i := s.cones[i].(grabbed := false, vy := 0.0)], target := NoTarget)
      else s.(target := NoTarget)
    case Orphan(_) => s.(target := NoTarget)
  }

  /** The washing hitbox in canvas coordinates. */
  function Hitbox(s: Shower): Rect
  {
    Rect(s.petX + HitOffsetX, s.petY + HitOffsetY, HitW, HitH)
  }

  /** One item under the frame's physics: a held item stays put; a free one
      accelerates by 0.5 and, if it ends below the ground, is put on it
      with its velocity reversed and cut to 30%. */
  function Fall(it: Item, groundY: real): (r: Item)
    ensures it.grabbed ==> r == it
    ensures !it.grabbed ==> r.vy == (if it.y + it.vy + ItemGravity + Size(it.kind).1 > groundY
                                     then (it.vy + ItemGravity) * Rebound else it.vy + ItemGravity)
    ensures !it.grabbed ==> r.y + Size(it.kind).1 <= groundY || r.y == it.y + it.vy + ItemGravity
    ensures !it.grabbed && it.y + it.vy + ItemGravity + Size(it.kind).1 > groundY ==> r.y + Size(it.kind).1 == groundY
    ensures r.kind == it.kind && r.x == it.x && r.grabbed == it.grabbed
  {
    if it.grabbed then it
    else
      var vy := it.vy + ItemGravity;
      var y := it.y + vy;
      if y + Size(it.kind).1 > groundY then it.(y := groundY - Size(it.kind).1, vy := vy * Rebound)
      else it.(y := y, vy := vy)
  }

  /** Whether the sponge touches the pet's hitbox. */
  predicate SpongeOnPet(s: Shower)
  {
    IsTouching(Rect(s.spongeX, s.spongeY, SpongeSize, SpongeSize), Hitbox(s))
  }

  /** The look half of a frame: the look follows the sponge, and turning
      wet plays a splash. */
  function Wash(s: Shower): (r: Shower)
    ensures r.look == (if SpongeOnPet(s) then Wet else Dry)
    ensures SpongeOnPet(s) && s.look == Dry ==>
      |r.played| == |s.played| + 1 && r.played[|s.played|].key == "splash"
    ensures !(SpongeOnPet(s) && s.look == Dry) ==> r.played == s.played
    ensures r.ducks == s.ducks && r.cones == s.cones && r.target == s.target && r.running == s.running
    ensures r.groundY == s.groundY && r.spongeX == s.spongeX && r.spongeY == s.spongeY
    ensures r.spongeDragging == s.spongeDragging && r.petX == s.petX && r.petY == s.petY
  {
    if SpongeOnPet(s) && s.look == Dry then PlaySound(s.(look := Wet), "splash", 0.9, 1.0)
    else if !SpongeOnPet(s) && s.look == Wet then s.(look := Dry)
    else
      assert s.look == Dry || s.look == Wet;
      s
  }

  /** One `update()` frame: the look follows the sponge, then the ducks and
      coneheads fall. Nothing happens once the mode is cleaned up. */
  function Frame(s: Shower): (r: Shower)
    ensures !s.running ==> r == s
    ensures s.running ==> r.look == (if SpongeOnPet(s) then Wet else Dry)
    ensures s.running && SpongeOnPet(s) && s.look == Dry ==>
      |r.played| == |s.played| + 1 && r.played[|s.played|].key == "splash"
    ensures s.running && !(SpongeOnPet(s) && s.look == Dry) ==> r.played == s.played
    ensures |r.ducks| == |s.ducks| && |r.cones| == |s.cones|
    ensures s.running ==> forall i :: 0 <= i < |s.ducks| ==> r.ducks[i] == Fall(s.ducks[i], s.groundY)
    ensures s.running ==> forall i :: 0 <= i < |s.cones| ==> r.cones[i] == Fall(s.cones[i], s.groundY)
    ensures r.target == s.target && r.spongeX == s.spongeX && r.spongeY == s.spongeY
    ensures r.petX == s.petX && r.petY == s.petY && r.running == s.running
    ensures Inv(s) ==> Inv(r)
  {
    if !s.running then s
    else
      var s1 := Wash(s);
      s1.(ducks := seq(|s.ducks|, i requires 0 <= i < |s.ducks| => Fall(s.ducks[i], s.groundY)),
          cones := seq(|s.cones|, i requires 0 <= i < |s.cones| => Fall(s.cones[i], s.groundY)))
  }

  /** The splash plays once per touch: a second frame with the sponge still
      on the pet plays nothing. */
  lemma SplashOncePerTouch(s: Shower)
    requires s.running && s.look == Dry
    requires SpongeOnPet(s)
    ensures |Frame(s).played| == |s.played| + 1
    ensures Frame(Frame(s)).played == Frame(s).played
  {
  }

  /** As written, the wet look the bubble and foam buttons set lasts only
      until the next frame when the sponge is away from the pet. */
  lemma BubbleLookUndone(s: Shower)
    requires s.running
    requires !SpongeOnPet(s)
    ensures BathEffect(s, "bubble").look == Wet
    ensures Frame(BathEffect(s, "bubble")).look == Dry
  {
  }

  /** `window._modeCleanup`: the loop stops, the toolbar goes, and the canvas
      is replaced by a clone (`clone`), which carries no listeners. */
  function Cleanup(s: Shower, clone: nat): (r: Shower)
    requires clone !in s.withListeners
    ensures !r.running && !r.toolbar && r.canvas == clone && r.canvas !in r.withListeners
    ensures r.withListeners == s.withListeners
  {
    s.(running := false, toolbar := false, canvas := clone)
  }

  /** After cleanup no frame changes anything. */
  lemma NoFrameAfterCleanup(s: Shower, clone: nat)
    requires clone !in s.withListeners
    ensures Frame(Cleanup(s, clone)) == Cleanup(s, clone)
  {
  }

  datatype Event =
    | DuckButton(rnd: real, rndRate: real)
    | ConeButton(rnd: real, rndRate: real)
    | BubbleButton
    | FoamButton
    | ClearButton
    | Press(px: real, py: real)
    | Drag(px: real, py: real)
    | Release
    | Tick

  /** One event; draws outside [0, 1) cannot come from `Math.random()` and
      are ignored. Once the toolbar has left the page its buttons fire
      nothing, and once the canvas has lost its listeners pointer events
      change nothing. */
  function Step(s: Shower, e: Event): (r: Shower)
    ensures Inv(s) ==> Inv(r)
    ensures !s.toolbar && !e.Press? && !e.Drag? && !e.Release? && !e.Tick? ==> r == s
    ensures s.canvas !in s.withListeners && (e.Press? || e.Drag? || e.Release?) ==> r == s
  {
    var live := s.canvas in s.withListeners;
    match e
    case DuckButton(a, b) => if s.toolbar && 0.0 <= a < 1.0 && 0.0 <= b < 1.0 then SpawnDuck(s, a, b) else s
    case ConeButton(a, b) => if s.toolbar && 0.0 <= a < 1.0 && 0.0 <= b < 1.0 then SpawnCone(s, a, b) else s
    case BubbleButton => if s.toolbar then BathEffect(s, "bubble") else s
    case FoamButton => if s.toolbar then BathEffect(s, "foam") else s
    case ClearButton => if s.toolbar then ClearBath(s) else s
    case Press(x, y) => if live then StartDrag(s, x, y) else s
    case Drag(x, y) => if live then MoveDrag(s, x, y) else s
    case Release => if live then StopDrag(s) else s
    case Tick => Frame(s)
  }

  function Run(s: Shower, es: seq<Event>): Shower
    decreases |es|
  {
    if es == [] then s else Run(Step(s, es[0]), es[1..])
  }

  /** In every reachable state the drag target is a held object of its
      list. */
  lemma {:induction false} RunKeepsInv(width: real, height: real, canvas: nat, es: seq<Event>)
    ensures Inv(Run(Load(width, height, canvas), es))
  {
    RunFrom(Load(width, height, canvas), es);
  }

  lemma {:induction false} RunFrom(s: Shower, es: seq<Event>)
    requires Inv(s)
    ensures Inv(Run(s, es))
    decreases |es|
  {
    if es != [] {
      RunFrom(Step(s, es[0]), es[1..]);
    }
  }
}
