/** The multi-food feeding mode of pet_multi_feed.js: toolbar buttons spawn
    foods above the pet, foods fall onto a floor, and a food dragged onto the
    pet is eaten, setting the pet's mood and playing a sound from a small
    pool of pre-loaded audio elements. */
module MultiFeed {
  import opened Common
  import Dom

  const PetW: real := 300.0
  const PetH: real := 300.0
  const GroundHeight: real := 100.0
  const Gravity: real := 0.6
  const Bounce: real := 0.4
  /** Below this speed a bouncing food comes to rest. */
  const RestSpeed: real := 0.8

  datatype Kind = Fish | Garlic | IceLettuce | Brain | Duck | Candy | Chili

  /** A food's reaction class. */
  datatype Taste = Plain | Ice | Hot

  datatype FoodDef = FoodDef(name: string, liked: bool, w: real, h: real, taste: Taste)

  /** The spawn table. */
  function Def(k: Kind): (d: FoodDef)
    ensures d.liked <==> (k != Garlic && k != Duck)
    ensures d.taste == Ice <==> (k == IceLettuce || k == Candy)
    ensures d.taste == Hot <==> k == Chili
    ensures d.name == "Rubber Duck" <==> k == Duck
    ensures d.w > 0.0 && d.h > 0.0
  {
    match k
    case Fish => FoodDef("Fish", true, 200.0, 100.0, Plain)
    case Garlic => FoodDef("Garlic", false, 100.0, 100.0, Plain)
    case IceLettuce => FoodDef("Ice Lettuce", true, 100.0, 100.0, Ice)
    case Brain => FoodDef("Brain", true, 100.0, 100.0, Plain)
    case Duck => FoodDef("Rubber Duck", false, 120.0, 120.0, Plain)
    case Candy => FoodDef("Candy", true, 100.0, 100.0, Ice)
    case Chili => FoodDef("Chili", true, 100.0, 150.0, Hot)
  }

  /** The toolbar's spawn buttons, by element id. */
  function ButtonKind(id: string): (r: Option<Kind>)
    ensures r.Some? <==> id in {"spawnFish", "spawngarlic", "spawnBrain", "spawnicelettuce", "spawnDuck", "spawncandy", "spawnSpicy"}
    ensures id == "spawnSpicy" ==> r == Some(Chili)
  {
    if id == "spawnFish" then Some(Fish)
    else if id == "spawngarlic" then Some(Garlic)
    else if id == "spawnBrain" then Some(Brain)
    else if id == "spawnicelettuce" then Some(IceLettuce)
    else if id == "spawnDuck" then Some(Duck)
    else if id == "spawncandy" then Some(Candy)
    else if id == "spawnSpicy" then Some(Chili)
    else None
  }

  datatype SoundKey = Yum | Yuck | BounceSound | Frozen | SpicySound | Quack

  /** How many audio elements each pool holds. */
  function PoolSize(k: SoundKey): (n: nat)
    ensures 2 <= n <= 3
  {
    match k
    case Yum => 3
    case Yuck => 3
    case BounceSound => 2
    case Frozen => 2
    case SpicySound => 2
    case Quack => 3
  }

  /** One `playSound` call: which pool, which of its elements, at what
      volume and playback rate. */
  datatype Played = Played(key: SoundKey, slot: nat, volume: real, rate: real)

  datatype Mood = NormalMood | Happy | Disgust | Brainfreeze | SpicyMood

  datatype Food = Food(id: nat, kind: Kind, x: real, y: real, vy: real,
                       drag: bool, visible: bool, justSpawned: bool)

  /** What `activeFood` refers to: nothing, a food of the list (by
      position), or a food object the list no longer holds because the list
      was cleared while it was held. */
  datatype Grip = NoGrip | InList(i: nat) | Orphan(food: Food)

  datatype Feed = Feed(
    foods: seq<Food>,
    nextId: nat,
    grip: Grip,
    hasMoved: bool,
    petX: real, petY: real,
    mood: Mood,
    moodTimers: nat,          // pending 1500 ms mood resets
    bubble: Option<string>,   // the bubble's text while shown
    bubbleTimer: bool,        // a hide timer is pending
    played: seq<Played>,
    soundIndex: nat,
    floorY: real,             // fixed when the script runs
    groundY: real,
    width: real, height: real,
    looping: bool,
    listeners: set<Dom.Listener>,
    toolbar: bool)            // the spawn toolbar, with its buttons, is in the page

  /** The six canvas listeners, installed from one table and removed from
      the same table. */
  const CanvasListeners: set<Dom.Listener> := {
    Dom.Listener(Dom.Canvas, "mousedown", "down"), Dom.Listener(Dom.Canvas, "mousemove", "move"),
    Dom.Listener(Dom.Canvas, "mouseup", "up"), Dom.Listener(Dom.Canvas, "touchstart", "down"),
    Dom.Listener(Dom.Canvas, "touchmove", "move"), Dom.Listener(Dom.Canvas, "touchend", "up")}

  /** The resize listener is an anonymous arrow function. */
  const ResizeArrow: Dom.Listener := Dom.Listener(Dom.Window, "resize", "<arrow>")

  /** The state right after the script ran on a `width` x `height` window:
      no food, the pet standing on the ground. */
  function Load(width: real, height: real): (f: Feed)
    ensures f.foods == [] && f.grip == NoGrip && f.mood == NormalMood
    ensures f.petY + PetH / 2.0 == f.groundY && f.floorY == f.groundY - 10.0
    ensures CanvasListeners <= f.listeners && ResizeArrow in f.listeners && f.toolbar
  {
    Feed([], 0, NoGrip, false, width / 2.0, height - 100.0 - 150.0, NormalMood, 0, None, false,
      [], 0, height - GroundHeight - 10.0, height - GroundHeight, width, height, true,
      CanvasListeners + {ResizeArrow}, true)
  }

  /** Ids are issued in increasing order and never reused; a grip on the
      list points into it; a pet in a mood has a reset pending; a shown
      bubble has a hide timer. */
  ghost predicate Inv(f: Feed)
  {
    && (forall i :: 0 <= i < |f.foods| ==> f.foods[i].id < f.nextId)
    && (forall i, j :: 0 <= i < j < |f.foods| ==> f.foods[i].id < f.foods[j].id)
    && (f.grip.InList? ==> f.grip.i < |f.foods|)
    && (f.grip.Orphan? ==> f.grip.food.id < f.nextId)
    && (f.moodTimers == 0 ==> f.mood == NormalMood)
    && (f.bubble.Some? ==> f.bubbleTimer)
  }

  /** `playSound(key, volume, rate)`: the element used is picked by one
      counter shared by all pools, modulo the pool's size. */
  function PlaySound(f: Feed, key: SoundKey, volume: real, rate: real): (r: Feed)
    ensures r.soundIndex == f.soundIndex + 1
    ensures r.played == f.played + [Played(key, f.soundIndex % PoolSize(key), volume, rate)]
    ensures r.played[|f.played|].slot < PoolSize(key)
    ensures r == f.(soundIndex := r.soundIndex, played := r.played)
  {
    f.(played := f.played + [Played(key, f.soundIndex % PoolSize(key), volume, rate)],
       soundIndex := f.soundIndex + 1)
  }

  /** `playQuack()`: a quack at a random pitch between 0.9 and 1.1. */
  function PlayQuack(f: Feed, rnd: real): (r: Feed)
    requires 0.0 <= rnd < 1.0
    ensures |r.played| == |f.played| + 1 && r.played[|f.played|].key == Quack
    ensures 0.9 <= r.played[|f.played|].rate < 1.1
    ensures r == f.(soundIndex := r.soundIndex, played := r.played)
  {
    PlaySound(f, Quack, 0.9, 0.9 + rnd * 0.2)
  }

  /** `showBubble(text)`: the text is shown and the previous hide timer is
      replaced by a new one. */
  function ShowBubble(f: Feed, text: string): (r: Feed)
    ensures r == f.(bubble := Some(text), bubbleTimer := true)
  {
    f.(bubble := Some(text), bubbleTimer := true)
  }

  /** `spawnFood(kind)`: a new food, marked just spawned, appears 300 above
      the pet and up to 100 to either side of it (`rndX` is the draw); a duck
      quacks (`rndRate` is the pitch draw). */
  function Spawn(f: Feed, k: Kind, rndX: real, rndRate: real): (r: Feed)
    requires 0.0 <= rndX < 1.0 && 0.0 <= rndRate < 1.0
    ensures |r.foods| == |f.foods| + 1 && r.foods[..|f.foods|] == f.foods
    ensures var n := r.foods[|f.foods|];
      && n.id == f.nextId && n.kind == k && n.visible && n.justSpawned && !n.drag && n.vy == 0.0
      && f.petX - 100.0 <= n.x < f.petX + 100.0 && n.y == f.petY - 300.0
    ensures r.nextId == f.nextId + 1 && r.grip == f.grip
    ensures k == Duck ==> |r.played| == |f.played| + 1 && r.played[|f.played|].key == Quack
    ensures k != Duck ==> r.played == f.played
    ensures Inv(f) ==> Inv(r)
  {
    var n := Food(f.nextId, k, f.petX + (rndX * 200.0 - 100.0), f.petY - 300.0, 0.0, false, true, true);
    var f1 := f.(foods := f.foods + [n], nextId := f.nextId + 1);
    assert f1.foods[..|f.foods|] == f.foods;
    if k == Duck then PlayQuack(f1, rndRate) else f1
  }

  /** The 800 ms timer of the food `id`: it is no longer just spawned. The
      closure holds the food object, so a held orphan is reached too. */
  function SpawnTimer(f: Feed, id: nat): (r: Feed)
    ensures |r.foods| == |f.foods|
    ensures forall i :: 0 <= i < |f.foods| ==>
      r.foods[i] == (if f.foods[i].id == id then f.foods[i].(justSpawned := false) else f.foods[i])
    ensures f.grip.Orphan? && f.grip.food.id == id ==> r.grip == Orphan(f.grip.food.(justSpawned := false))
    ensures !(f.grip.Orphan? && f.grip.food.id == id) ==> r.grip == f.grip
    ensures Inv(f) ==> Inv(r)
  {
    var fs := seq(|f.foods|, i requires 0 <= i < |f.foods| =>
      if f.foods[i].id == id then f.foods[i].(justSpawned := false) else f.foods[i]);
    var g := if f.grip.Orphan? && f.grip.food.id == id then Orphan(f.grip.food.(justSpawned := false)) else f.grip;
    f.(foods := fs, grip := g)
  }

  /** `clearFoods()`: the list is emptied; a food being held stays held,
      outside the list. */
  function ClearFoods(f: Feed): (r: Feed)
    ensures r.foods == []
    ensures f.grip.InList? && f.grip.i < |f.foods| ==> r.grip == Orphan(f.foods[f.grip.i])
    ensures !f.grip.InList? ==> r.grip == f.grip
    ensures Inv(f) ==> Inv(r)
  {
    var g := if f.grip.InList? && f.grip.i < |f.foods| then Orphan(f.foods[f.grip.i])
             else if f.grip.InList? then NoGrip else f.grip;
    f.(foods := [], grip := g)
  }

  /** A shown food strictly contains the point. */
  predicate Grabbable(food: Food, px: real, py: real)
  {
    food.visible && StrictlyInsideCentred(px, py, food.x, food.y, Def(food.kind).w, Def(food.kind).h)
  }

  /** The first food at or after `i`, in spawn order, that the point grabs. */
  function FirstGrab(fs: seq<Food>, px: real, py: real, i: nat): (r: Option<nat>)
    requires i <= |fs|
    ensures r.Some? ==> i <= r.value < |fs| && Grabbable(fs[r.value], px, py)
    ensures r.Some? ==> forall k :: i <= k < r.value ==> !Grabbable(fs[k], px, py)
    ensures r.None? ==> forall k :: i <= k < |fs| ==> !Grabbable(fs[k], px, py)
    decreases |fs| - i
  {
    if i == |fs| then None
    else if Grabbable(fs[i], px, py) then Some(i)
    else FirstGrab(fs, px, py, i + 1)
  }

  /** `down`: the oldest shown food under the point is held and stopped;
      with none, nothing changes (an earlier grip included). */
  function Down(f: Feed, px: real, py: real): (r: Feed)
    ensures FirstGrab(f.foods, px, py, 0).None? ==> r == f
    ensures FirstGrab(f.foods, px, py, 0).Some? ==>
      var i := FirstGrab(f.foods, px, py, 0).value;
      && r.grip == InList(i) && !r.hasMoved
      && r.foods == f.foods[i := f.foods[i].(drag := true, vy := 0.0)]
    ensures Inv(f) ==> Inv(r)
  {
    match FirstGrab(f.foods, px, py, 0)
    case None => f
    case Some(i) => f.(grip := InList(i), foods := f.foods[i := f.foods[i].(drag := true, vy := 0.0)], hasMoved := false)
  }

  /** `move`: the held food, in the list or not, follows the point. */
  function Move(f: Feed, px: real, py: real): (r: Feed)
    ensures f.grip == NoGrip ==> r == f
    ensures f.grip.InList? && f.grip.i < |f.foods| ==>
      r.foods == f.foods[f.grip.i := f.foods[f.grip.i].(x := px, y := py)] && r.hasMoved
    ensures f.grip.Orphan? ==> r.grip == Orphan(f.grip.food.(x := px, y := py)) && r.foods == f.foods && r.hasMoved
    ensures Inv(f) ==> Inv(r)
  {
    match f.grip
    case NoGrip => f
    case InList(i) =>
      if i < |f.foods| then f.(foods := f.foods[i := f.foods[i].(x := px, y := py)], hasMoved := true)
      else f.(hasMoved := true)
    case Orphan(food) => f.(grip := Orphan(food.(x := px, y := py)), hasMoved := true)
  }

  /** The food touches the pet: both centre distances below the summed
      half-sizes. */
  predicate HitsPet(food: Food, petX: real, petY: real)
  {
    && Abs(food.x - petX) < Def(food.kind).w / 2.0 + PetW / 2.0
    && Abs(food.y - petY) < Def(food.kind).h / 2.0 + PetH / 2.0
  }

  /** The mood a food leaves the pet in. */
  function MoodFor(k: Kind): (m: Mood)
    ensures Def(k).taste == Ice ==> m == Brainfreeze
    ensures Def(k).taste == Hot ==> m == SpicyMood
    ensures Def(k).taste == Plain ==> m == (if Def(k).liked then Happy else Disgust)
  {
    match Def(k).taste
    case Ice => Brainfreeze
    case Hot => SpicyMood
    case Plain => if Def(k).liked then Happy else Disgust
  }

  /** The hit test of `checkCollision`: the food is shown, past its spawn
      grace period, and overlaps the pet. */
  predicate Eats(f: Feed, food: Food)
  {
    food.visible && !food.justSpawned && HitsPet(food, f.petX, f.petY)
  }

  /** The food object `activeFood` refers to, if any. */
  function Held(f: Feed): (o: Option<Food>)
    ensures f.grip.NoGrip? ==> o.None?
    ensures f.grip.InList? ==> o == (if f.grip.i < |f.foods| then Some(f.foods[f.grip.i]) else None)
    ensures f.grip.Orphan? ==> o == Some(f.grip.food)
  {
    match f.grip
    case NoGrip => None
    case InList(i) => if i < |f.foods| then Some(f.foods[i]) else None
    case Orphan(food) => Some(food)
  }

  /** `checkCollision(food)`: a shown food that is past its spawn grace
      period and touches the pet is eaten: it disappears, the pet's mood
      and bubble follow its kind, its sound plays (a duck quacks first), and
      a mood reset is scheduled. Returns the new state and the food. */
  function CheckCollision(f: Feed, food: Food, rnd: real): (r: (Feed, Food))
    requires 0.0 <= rnd < 1.0
    ensures !Eats(f, food) ==> r == (f, food)
    ensures Eats(f, food) ==>
      && r.1 == food.(visible := false)
      && r.0.mood == MoodFor(food.kind) && r.0.moodTimers == f.moodTimers + 1
      && r.0.bubble == Some(BubbleText(food.kind)) && r.0.bubbleTimer
      && |r.0.played| == |f.played| + (if food.kind == Duck then 2 else 1)
      && r.0.played[..|f.played|] == f.played
      && r.0.played[|r.0.played| - 1].key == SoundFor(food.kind)
      && r.0.played[|r.0.played| - 1].volume == 0.9 && r.0.played[|r.0.played| - 1].rate == 1.0
      && (food.kind == Duck ==> r.0.played[|f.played|].key == Quack)
      && r.0.foods == f.foods && r.0.grip == f.grip
    ensures Inv(f) ==> Inv(r.0)
  {
    if !Eats(f, food) then (f, food)
    else
      var q := if Def(food.kind).name == "Rubber Duck" then PlayQuack(f, rnd) else f;
      var shown := q.(mood := MoodFor(food.kind), bubble := Some(BubbleText(food.kind)),
                      bubbleTimer := true, moodTimers := f.moodTimers + 1);
      (PlaySound(shown, SoundFor(food.kind), 0.9, 1.0), food.(visible := false))
  }

  /** The bubble text of a food's reaction. */
  function BubbleText(k: Kind): (t: string)
    ensures Def(k).taste == Ice ==> t == "Brrr! \U{1F9CA}"
    ensures Def(k).taste == Hot ==> t == "Spicy! \U{1F336}\U{FE0F}"
    ensures Def(k).taste == Plain ==> t == (if Def(k).liked then "Yummy!" else "Yuck!")
  {
    match Def(k).taste
    case Ice => "Brrr! \U{1F9CA}"
    case Hot => "Spicy! \U{1F336}\U{FE0F}"
    case Plain => if Def(k).liked then "Yummy!" else "Yuck!"
  }

  /** The sound pool of a food's reaction. */
  function SoundFor(k: Kind): (key: SoundKey)
    ensures Def(k).taste == Ice ==> key == Frozen
    ensures Def(k).taste == Hot ==> key == SpicySound
    ensures Def(k).taste == Plain ==> key == (if Def(k).liked then Yum else Yuck)
  {
    match Def(k).taste
    case Ice => Frozen
    case Hot => SpicySound
    case Plain => if Def(k).liked then Yum else Yuck
  }

  /** `up`: a held food that was moved is checked against the pet; it is
      released either way, and the grip ends. A food only clicked, not
      moved, is never eaten. */
  function Up(f: Feed, rnd: real): (r: Feed)
    requires 0.0 <= rnd < 1.0
    ensures r.grip == NoGrip
    ensures |r.foods| == |f.foods|
    ensures f.grip.InList? && f.grip.i < |f.foods| ==> !r.foods[f.grip.i].drag
    ensures forall k :: 0 <= k < |f.foods| && !(f.grip.InList? && f.grip.i == k) ==> r.foods[k] == f.foods[k]
    ensures var eaten := f.hasMoved && Held(f).Some? && Eats(f, Held(f).value);
      && (eaten ==> r.mood == MoodFor(Held(f).value.kind) && r.moodTimers == f.moodTimers + 1
                    && r.bubble == Some(BubbleText(Held(f).value.kind)) && |r.played| > |f.played|
                    && r.played[..|f.played|] == f.played)
      && (!eaten ==> r.mood == f.mood && r.moodTimers == f.moodTimers && r.bubble == f.bubble
                     && r.played == f.played && r.soundIndex == f.soundIndex)
      && (f.grip.InList? && f.grip.i < |f.foods| ==>
            r.foods[f.grip.i] == f.foods[f.grip.i].(drag := false, visible := f.foods[f.grip.i].visible && !eaten))
    ensures Inv(f) ==> Inv(r)
  {
    match f.grip
    case NoGrip => f
    case InList(i) =>
      if i >= |f.foods| then f.(grip := NoGrip)
      else
        var c := Release(f, f.foods[i], rnd);
        c.0.(foods := f.foods[i := c.1.(drag := false)], grip := NoGrip)
    case Orphan(food) =>
      var c := Release(f, food, rnd);
      c.0.(grip := NoGrip)
  }

  /** The collision check of `up`, made only when the held food was moved. */
  function Release(f: Feed, food: Food, rnd: real): (r: (Feed, Food))
    requires 0.0 <= rnd < 1.0
    ensures f.hasMoved && Eats(f, food) ==>
      && r.1 == food.(visible := false)
      && r.0.mood == MoodFor(food.kind) && r.0.moodTimers == f.moodTimers + 1
      && r.0.bubble == Some(BubbleText(food.kind)) && |r.0.played| > |f.played|
      && r.0.played[..|f.played|] == f.played
    ensures !(f.hasMoved && Eats(f, food)) ==> r == (f, food)
    ensures r.0.foods == f.foods && r.0.grip == f.grip
    ensures Inv(f) ==> Inv(r.0)
  {
    if f.hasMoved then CheckCollision(f, food, rnd) else (f, food)
  }

  /** One food under `applyGravity`: a held or hidden food stays put; a food
      above the floor accelerates by 0.6 and falls; a food on or below the
      floor is put on it and bounces back at 40% speed, or rests when the
      bounce is slower than 0.8. */
  function Fall(food: Food, floorY: real): (r: Food)
    ensures food.drag || !food.visible ==> r == food
    ensures !food.drag && food.visible && food.y + Def(food.kind).h / 2.0 < floorY ==>
      r.vy == food.vy + Gravity && r.y == food.y + r.vy
    ensures !food.drag && food.visible && food.y + Def(food.kind).h / 2.0 >= floorY ==>
      && r.y + Def(food.kind).h / 2.0 == floorY
      && r.vy == (if Abs(-food.vy * Bounce) < RestSpeed then 0.0 else -food.vy * Bounce)
      && Abs(r.vy) <= Abs(food.vy) * Bounce
      && (r.vy == 0.0 || Abs(r.vy) >= RestSpeed)
    ensures r.id == food.id && r.kind == food.kind && r.x == food.x && r.visible == food.visible
    ensures r.drag == food.drag && r.justSpawned == food.justSpawned
  {
    if food.drag || !food.visible then food
    else
      var h := Def(food.kind).h;
      if food.y + h / 2.0 < floorY then
        var vy := food.vy + Gravity;
        food.(vy := vy, y := food.y + vy)
      else
        var vy := -food.vy * Bounce;
        food.(y := floorY - h / 2.0, vy := if Abs(vy) < RestSpeed then 0.0 else vy)
  }

  /** A food resting on the floor stays there. */
  lemma RestingFoodStays(food: Food, floorY: real)
    requires !food.drag && food.visible && food.vy == 0.0
    requires food.y + Def(food.kind).h / 2.0 == floorY
    ensures Fall(food, floorY) == food
  {
  }

  /** `applyGravity()` over the whole list. */
  function ApplyGravity(f: Feed): (r: Feed)
    ensures |r.foods| == |f.foods|
    ensures forall i :: 0 <= i < |f.foods| ==> r.foods[i] == Fall(f.foods[i], f.floorY)
    ensures r == f.(foods := r.foods)
    ensures Inv(f) ==> Inv(r)
  {
    f.(foods := seq(|f.foods|, i requires 0 <= i < |f.foods| => Fall(f.foods[i], f.floorY)))
  }

  /** The resize arrow: the ground follows the window and the pet stands on
      it; the floor the foods land on does not move. */
  function Resize(f: Feed, width: real, height: real): (r: Feed)
    ensures r.groundY == height - GroundHeight && r.petY + PetH / 2.0 == r.groundY
    ensures r.floorY == f.floorY && r.foods == f.foods
  {
    f.(width := width, height := height, groundY := height - GroundHeight,
       petY := height - GroundHeight - PetH / 2.0)
  }

  /** `window._modeCleanup`: the six canvas listeners go and the bubble is
      hidden; it asks to remove `resizeCanvas` from the window, which was
      never added, so the resize arrow stays, and the frame loop is never
      cancelled. */
  function Cleanup(f: Feed): (r: Feed)
    ensures r.listeners !! CanvasListeners
    ensures ResizeArrow in f.listeners ==> ResizeArrow in r.listeners
    ensures r.bubble.None? && r.looping == f.looping && !r.toolbar
  {
    f.(listeners := f.listeners - CanvasListeners - {Dom.Listener(Dom.Window, "resize", "resizeCanvas")},
       bubble := None, toolbar := false)
  }

  datatype Event =
    | Button(button: string, rndX: real, rndRate: real)
    | ClearButton
    | Press(px: real, py: real)
    | Drag(px: real, py: real)
    | Release(rnd: real)
    | SpawnTimerFired(food: nat)
    | MoodTimerFired
    | BubbleTimerFired
    | Frame
    | ResizeTo(width: real, height: real)

  /** Whether the page still has a handler for the event: the toolbar's
      buttons go with the toolbar, the canvas handlers with their listeners,
      and the resize arrow is never removed. Timers and frames always run. */
  predicate Listens(f: Feed, e: Event)
  {
    match e
    case Button(_, _, _) => f.toolbar
    case ClearButton => f.toolbar
    case Press(_, _) => CanvasListeners <= f.listeners
    case Drag(_, _) => CanvasListeners <= f.listeners
    case Release(_) => CanvasListeners <= f.listeners
    case ResizeTo(_, _) => ResizeArrow in f.listeners
    case _ => true
  }

  /** One event the page still listens for; an event nobody listens for
      changes nothing. */
  function Step(f: Feed, e: Event): (r: Feed)
    ensures !Listens(f, e) ==> r == f
    ensures Inv(f) ==> Inv(r)
  {
    if Listens(f, e) then Handle(f, e) else f
  }

  /** The handler of one event; draws outside [0, 1) cannot come from
      `Math.random()` and are ignored. */
  function Handle(f: Feed, e: Event): (r: Feed)
    ensures Inv(f) ==> Inv(r)
  {
    match e
    case Button(id, rx, rr) =>
      if ButtonKind(id).Some? && 0.0 <= rx < 1.0 && 0.0 <= rr < 1.0 then Spawn(f, ButtonKind(id).value, rx, rr) else f
    case ClearButton => ClearFoods(f)
    case Press(x, y) => Down(f, x, y)
    case Drag(x, y) => Move(f, x, y)
    case Release(rnd) => if 0.0 <= rnd < 1.0 then Up(f, rnd) else f
    case SpawnTimerFired(id) => SpawnTimer(f, id)
    case MoodTimerFired =>
      if f.moodTimers == 0 then f else f.(mood := NormalMood, moodTimers := f.moodTimers - 1)
    case BubbleTimerFired => f.(bubble := None, bubbleTimer := false)
    case Frame => if f.looping then ApplyGravity(f) else f
    case ResizeTo(w, h) => Resize(f, w, h)
  }

  function Run(f: Feed, es: seq<Event>): Feed
    decreases |es|
  {
    if es == [] then f else Run(Step(f, es[0]), es[1..])
  }

  /** Every reachable state keeps food ids unique and ordered and the grip
      pointing into the list. */
  lemma {:induction false} RunKeepsInv(width: real, height: real, es: seq<Event>)
    ensures Inv(Run(Load(width, height), es))
  {
    RunFrom(Load(width, height), es);
  }

  lemma {:induction false} RunFrom(f: Feed, es: seq<Event>)
    requires Inv(f)
    ensures Inv(Run(f, es))
    decreases |es|
  {
    if es != [] {
      RunFrom(Step(f, es[0]), es[1..]);
    }
  }

  /** As written, clearing the foods while one is held does not end the
      drag: the cleared food can still be carried to the pet and eaten,
      changing the pet's mood although no food is on screen. */
  lemma ClearedFoodStillFeeds(f: Feed, px: real, py: real, rnd: real)
    requires 0.0 <= rnd < 1.0
    requires f.grip.InList? && f.grip.i < |f.foods|
    requires f.foods[f.grip.i].visible && !f.foods[f.grip.i].justSpawned
    requires HitsPet(f.foods[f.grip.i].(x := f.petX, y := f.petY), f.petX, f.petY)
    ensures var r := Up(Move(ClearFoods(f), f.petX, f.petY), rnd);
      r.foods == [] && r.mood == MoodFor(f.foods[f.grip.i].kind)
  {
  }

  /** As written, a second press on another food before the release leaves
      the first food marked as held: the release frees only the second, and
      the first stays held, untouched by gravity, until it is pressed and
      released again. */
  lemma SecondPressStrandsFirst(f: Feed, ax: real, ay: real, qx: real, qy: real, rnd: real)
    requires 0.0 <= rnd < 1.0
    requires FirstGrab(f.foods, ax, ay, 0).Some? && FirstGrab(f.foods, qx, qy, 0).Some?
    requires FirstGrab(f.foods, ax, ay, 0) != FirstGrab(f.foods, qx, qy, 0)
    ensures var a := FirstGrab(f.foods, ax, ay, 0).value;
      var r := Up(Down(Down(f, ax, ay), qx, qy), rnd);
      && r.foods[a].drag
      && ApplyGravity(r).foods[a] == r.foods[a]
  {
    var a := FirstGrab(f.foods, ax, ay, 0).value;
    var b := FirstGrab(f.foods, qx, qy, 0).value;
    var d1 := Down(f, ax, ay);
    assert forall k :: 0 <= k < |f.foods| && k != a ==> d1.foods[k] == f.foods[k];
    assert d1.foods[b] == f.foods[b];
    assert FirstGrab(d1.foods, qx, qy, 0) == Some(b) by {
      FirstGrabSame(f.foods, d1.foods, qx, qy, 0);
    }
  }

  /** Holding and stopping foods does not change what a press grabs. */
  lemma {:induction false} FirstGrabSame(fs: seq<Food>, gs: seq<Food>, px: real, py: real, i: nat)
    requires |fs| == |gs| && i <= |fs|
    requires forall k :: 0 <= k < |fs| ==>
      (gs[k].visible == fs[k].visible && gs[k].x == fs[k].x && gs[k].y == fs[k].y && gs[k].kind == fs[k].kind)
    ensures FirstGrab(gs, px, py, i) == FirstGrab(fs, px, py, i)
    decreases |fs| - i
  {
    if i < |fs| {
      assert Grabbable(gs[i], px, py) == Grabbable(fs[i], px, py);
      FirstGrabSame(fs, gs, px, py, i + 1);
    }
  }
}
