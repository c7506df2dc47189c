/** The two-food feeding mode of feed_mode.js: an apple (liked) and a candy
    (disliked) lie on the ground; any shown food that touches the
    stationary pet in an animation frame is eaten, whether or not it is
    being dragged. */
module FeedMode {
  import opened Common
  import Dom

  const PetW: real := 180.0
  const PetH: real := 250.0
  const FoodW: real := 100.0
  const FoodH: real := 100.0
  const GroundHeight: real := 100.0

  datatype Mood = NormalMood | Happy | Disgust

  datatype Food = Food(name: string, liked: bool, x: real, y: real, drag: bool, visible: bool)

  datatype Feed = Feed(
    foods: seq<Food>,
    petX: real, petY: real,
    mood: Mood,
    moodTimers: nat,           // pending 1000 ms mood resets
    bubble: Option<string>,    // the bubble's text while shown
    bubbleTimer: bool,
    groundY: real,
    hint: Option<string>,      // #hint-text, when the page has it
    looping: bool,
    listeners: set<Dom.Listener>)

  /** The six canvas listeners and the window's resize listener. */
  const CanvasListeners: set<Dom.Listener> := {
    Dom.Listener(Dom.Canvas, "mousedown", "down"), Dom.Listener(Dom.Canvas, "mousemove", "move"),
    Dom.Listener(Dom.Canvas, "mouseup", "up"), Dom.Listener(Dom.Canvas, "touchstart", "down"),
    Dom.Listener(Dom.Canvas, "touchmove", "move"), Dom.Listener(Dom.Canvas, "touchend", "up")}
  const ResizeListener: Dom.Listener := Dom.Listener(Dom.Window, "resize", "onResize")

  /** The state right after the script ran on a `width` x `height` window:
      both foods shown, resting on the ground. */
  function Load(width: real, height: real, hasHint: bool): (s: Feed)
    ensures |s.foods| == 2 && s.foods[0].liked && !s.foods[1].liked
    ensures forall i :: 0 <= i < 2 ==> s.foods[i].visible && !s.foods[i].drag && s.foods[i].y == s.groundY - FoodH
    ensures s.petY == s.groundY - 250.0 && s.groundY == height - GroundHeight
    ensures hasHint ==> s.hint == Some("Drag a food onto the pet")
    ensures s.listeners == CanvasListeners + {ResizeListener}
    ensures Inv(s) && s.moodTimers == 0 && s.mood == NormalMood && s.bubble.None?
  {
    var g := height - GroundHeight;
    Feed([Food("apple", true, 300.0, g - FoodH, false, true), Food("candy", false, 520.0, g - FoodH, false, true)],
      width / 2.0, g - 250.0, NormalMood, 0, None, false, g,
      if hasHint then Some("Drag a food onto the pet") else None, true,
      CanvasListeners + {ResizeListener})
  }

  /** A pet in a mood has a reset pending; a shown bubble has a hide timer. */
  ghost predicate Inv(s: Feed)
  {
    && |s.foods| == 2
    && (s.moodTimers == 0 ==> s.mood == NormalMood)
    && (s.bubble.Some? ==> s.bubbleTimer)
  }

  /** A shown food strictly contains the point. */
  predicate Grabbable(f: Food, px: real, py: real)
  {
    f.visible && StrictlyInsideCentred(px, py, f.x, f.y, FoodW, FoodH)
  }

  /** The first food at or after `i` that the point grabs. */
  function FirstGrab(fs: seq<Food>, px: real, py: real, i: nat): (r: Option<nat>)
    requires i <= |fs|
    ensures r.Some? ==> i <= r.value < |fs| && Grabbable(fs[r.value], px, py)
    ensures r.Some? ==> forall k :: i <= k < r.value ==> !Grabbable(fs[k], px, py)
    ensures r.None? ==> forall k :: i <= k < |fs| ==> !Grabbable(fs[k], px, py)
    decreases |fs| - i
  {
    if i == |fs| then None
    else if Grabbable(fs[i], px, py) then Some(i)
    else FirstGrab(fs, px, py, i + 1)
  }

  /** `down`: the first shown food under the point is marked held; foods
      held already stay held. */
  function Down(s: Feed, px: real, py: real): (r: Feed)
    ensures |r.foods| == |s.foods|
    ensures FirstGrab(s.foods, px, py, 0).None? ==> r == s
    ensures FirstGrab(s.foods, px, py, 0).Some? ==>
      r.foods == s.foods[FirstGrab(s.foods, px, py, 0).value := s.foods[FirstGrab(s.foods, px, py, 0).value].(drag := true)]
    ensures r == s.(foods := r.foods)
  {
    match FirstGrab(s.foods, px, py, 0)
    case None => s
    case Some(i) => s.(foods := s.foods[i := s.foods[i].(drag := true)])
  }

  /** `move`: every held food jumps to the point. */
  function Move(s: Feed, px: real, py: real): (r: Feed)
    ensures |r.foods| == |s.foods|
    ensures forall i :: 0 <= i < |s.foods| ==>
      r.foods[i] == (if s.foods[i].drag then s.foods[i].(x := px, y := py) else s.foods[i])
    ensures r == s.(foods := r.foods)
  {
    s.(foods := seq(|s.foods|, i requires 0 <= i < |s.foods| =>
      if s.foods[i].drag then s.foods[i].(x := px, y := py) else s.foods[i]))
  }

  /** `up`: every food is released. */
  function Up(s: Feed): (r: Feed)
    ensures |r.foods| == |s.foods|
    ensures forall i :: 0 <= i < |s.foods| ==> r.foods[i] == s.foods[i].(drag := false)
    ensures r == s.(foods := r.foods)
  {
    s.(foods := seq(|s.foods|, i requires 0 <= i < |s.foods| => s.foods[i].(drag := false)))
  }

  /** The food touches the pet: both centre distances below the summed
      half-sizes. */
  predicate Touches(f: Food, petX: real, petY: real)
  {
    Abs(f.x - petX) < FoodW / 2.0 + PetW / 2.0 && Abs(f.y - petY) < FoodH / 2.0 + PetH / 2.0
  }

  /** A food the frame eats. */
  predicate Eaten(f: Food, petX: real, petY: real)
  {
    f.visible && Touches(f, petX, petY)
  }

  /** The last food at or after `i` that a frame eats. */
  function LastEaten(fs: seq<Food>, petX: real, petY: real, i: nat): (r: Option<nat>)
    requires i <= |fs|
    ensures r.Some? ==> i <= r.value < |fs| && Eaten(fs[r.value], petX, petY)
    ensures r.Some? ==> forall k :: r.value < k < |fs| ==> !Eaten(fs[k], petX, petY)
    ensures r.None? ==> forall k :: i <= k < |fs| ==> !Eaten(fs[k], petX, petY)
    decreases |fs| - i
  {
    if i == |fs| then None
    else
      var later := LastEaten(fs, petX, petY, i + 1);
      if later.Some? then later
      else if Eaten(fs[i], petX, petY) then Some(i)
      else None
  }

  /** How many foods at or after `i` a frame eats. */
  function EatenCount(fs: seq<Food>, petX: real, petY: real, i: nat): (r: nat)
    requires i <= |fs|
    ensures r == 0 <==> forall k :: i <= k < |fs| ==> !Eaten(fs[k], petX, petY)
    decreases |fs| - i
  {
    if i == |fs| then 0 else (if Eaten(fs[i], petX, petY) then 1 else 0) + EatenCount(fs, petX, petY, i + 1)
  }

  /** The body of `collide()`'s loop for the foods `i..`: each shown food
      touching the pet disappears, sets the mood and the bubble, and
      schedules a mood reset. */
  function CollideFrom(s: Feed, i: nat): (r: Feed)
    requires i <= |s.foods|
    ensures |r.foods| == |s.foods|
    ensures forall k :: 0 <= k < i ==> r.foods[k] == s.foods[k]
    ensures forall k :: i <= k < |s.foods| ==>
      r.foods[k] == (if Eaten(s.foods[k], s.petX, s.petY) then s.foods[k].(visible := false) else s.foods[k])
    ensures r.moodTimers == s.moodTimers + EatenCount(s.foods, s.petX, s.petY, i)
    ensures r.bubbleTimer == (s.bubbleTimer || EatenCount(s.foods, s.petX, s.petY, i) > 0)
    ensures r.petX == s.petX && r.petY == s.petY && r.listeners == s.listeners && r.looping == s.looping
    ensures r.groundY == s.groundY && r.hint == s.hint
    decreases |s.foods| - i
  {
    if i == |s.foods| then s
    else
      var s1 := EatAt(s, i);
      EatenAfter(s.foods, s1.foods, s.petX, s.petY, i);
      CollideFrom(s1, i + 1)
  }

  /** Food `i` eaten if it touches the pet: hidden, mood and bubble set,
      a mood reset scheduled. */
  function EatAt(s: Feed, i: nat): (r: Feed)
    requires i < |s.foods|
    ensures |r.foods| == |s.foods|
    ensures forall k :: 0 <= k < |s.foods| && k != i ==> r.foods[k] == s.foods[k]
    ensures r.foods[i] == (if Eaten(s.foods[i], s.petX, s.petY) then s.foods[i].(visible := false) else s.foods[i])
    ensures !Eaten(s.foods[i], s.petX, s.petY) ==> r == s
    ensures Eaten(s.foods[i], s.petX, s.petY) ==>
      && r.mood == (if s.foods[i].liked then Happy else Disgust)
      && r.bubble == Some(if s.foods[i].liked then "Yum!" else "Yuck!") && r.bubbleTimer
      && r.moodTimers == s.moodTimers + 1
    ensures r.petX == s.petX && r.petY == s.petY && r.listeners == s.listeners && r.looping == s.looping
    ensures r.groundY == s.groundY && r.hint == s.hint
  {
    var f := s.foods[i];
    if Eaten(f, s.petX, s.petY)
    then s.(mood := if f.liked then Happy else Disgust,
            bubble := Some(if f.liked then "Yum!" else "Yuck!"), bubbleTimer := true,
            moodTimers := s.moodTimers + 1,
            foods := s.foods[i := f.(visible := false)])
    else s
  }

  /** The mood and the bubble after the foods `i..`: the last food eaten
      decides both; with nothing eaten they stay. */
  lemma {:induction false} CollideFromMood(s: Feed, i: nat)
    requires i <= |s.foods|
    ensures LastEaten(s.foods, s.petX, s.petY, i).None? ==>
      CollideFrom(s, i).mood == s.mood && CollideFrom(s, i).bubble == s.bubble
    ensures LastEaten(s.foods, s.petX, s.petY, i).Some? ==>
      var f := s.foods[LastEaten(s.foods, s.petX, s.petY, i).value];
      CollideFrom(s, i).mood == (if f.liked then Happy else Disgust)
      && CollideFrom(s, i).bubble == Some(if f.liked then "Yum!" else "Yuck!")
    decreases |s.foods| - i
  {
    if i < |s.foods| {
      var s1 := EatAt(s, i);
      EatenAfter(s.foods, s1.foods, s.petX, s.petY, i);
      CollideFromMood(s1, i + 1);
      assert CollideFrom(s, i) == CollideFrom(s1, i + 1);
      var later := LastEaten(s.foods, s.petX, s.petY, i + 1);
      if later.Some? {
        assert LastEaten(s.foods, s.petX, s.petY, i) == later;
        assert s1.foods[later.value] == s.foods[later.value];
      } else if Eaten(s.foods[i], s.petX, s.petY) {
        assert LastEaten(s.foods, s.petX, s.petY, i) == Some(i);
      } else {
        assert s1 == s;
      }
    }
  }

  /** Hiding food `i` does not change which later foods are eaten. */
  lemma EatenAfter(fs: seq<Food>, gs: seq<Food>, petX: real, petY: real, i: nat)
    requires i < |fs| && |gs| == |fs|
    requires forall k :: 0 <= k < |fs| && k != i ==> gs[k] == fs[k]
    ensures LastEaten(gs, petX, petY, i + 1) == LastEaten(fs, petX, petY, i + 1)
    ensures EatenCount(gs, petX, petY, i + 1) == EatenCount(fs, petX, petY, i + 1)
  {
    SameFrom(fs, gs, petX, petY, i + 1);
  }

  lemma {:induction false} SameFrom(fs: seq<Food>, gs: seq<Food>, petX: real, petY: real, j: nat)
    requires j <= |fs| && |gs| == |fs|
    requires forall k :: j <= k < |fs| ==> gs[k] == fs[k]
    ensures LastEaten(gs, petX, petY, j) == LastEaten(fs, petX, petY, j)
    ensures EatenCount(gs, petX, petY, j) == EatenCount(fs, petX, petY, j)
    decreases |fs| - j
  {
    if j < |fs| {
      SameFrom(fs, gs, petX, petY, j + 1);
    }
  }

  /** `collide()`, run once per animation frame. */
  function Collide(s: Feed): (r: Feed)
    ensures |r.foods| == |s.foods|
    ensures forall k :: 0 <= k < |s.foods| ==>
      (r.foods[k].visible <==> s.foods[k].visible && !Touches(s.foods[k], s.petX, s.petY))
    ensures Inv(s) ==> Inv(r)
  {
    CollideFromMood(s, 0);
    CollideFrom(s, 0)
  }

  /** A second frame with nothing moved eats nothing more: the mood, the
      bubble and the foods stay as the first frame left them. */
  lemma CollideSettles(s: Feed)
    ensures var once := Collide(s);
      var twice := Collide(once);
      twice.foods == once.foods && twice.mood == once.mood && twice.moodTimers == once.moodTimers
  {
    var once := Collide(s);
    assert forall k :: 0 <= k < |once.foods| ==> !Eaten(once.foods[k], once.petX, once.petY);
    var twice := Collide(once);
    CollideFromMood(once, 0);
    assert LastEaten(once.foods, once.petX, once.petY, 0).None?;
    assert EatenCount(once.foods, once.petX, once.petY, 0) == 0;
    assert forall k :: 0 <= k < |once.foods| ==> twice.foods[k] == once.foods[k];
  }

  /** As written, a food lying within 140 of the pet horizontally when the
      mode starts is eaten by the first frame without being touched, since
      the resting food and the pet already overlap vertically. */
  lemma NearFoodEatenAtOnce(width: real, height: real, hasHint: bool)
    requires Abs(300.0 - width / 2.0) < 140.0
    ensures !Collide(Load(width, height, hasHint)).foods[0].visible
    ensures Collide(Load(width, height, hasHint)).mood != NormalMood
  {
    var s := Load(width, height, hasHint);
    assert Eaten(s.foods[0], s.petX, s.petY);
    assert LastEaten(s.foods, s.petX, s.petY, 0).Some?;
    CollideFromMood(s, 0);
  }

  /** A food, once eaten, never comes back. */
  lemma EatenStaysHidden(s: Feed, e: Event, k: nat)
    requires k < |s.foods| && !s.foods[k].visible
    ensures k < |Step(s, e).foods| && !Step(s, e).foods[k].visible
  {
  }

  /** `onResize`: the ground and the pet follow the window; a food lower
      than half its height above the new ground is lifted to rest on it. */
  function Resize(s: Feed, height: real): (r: Feed)
    ensures r.groundY == height - GroundHeight && r.petY == r.groundY - 250.0
    ensures |r.foods| == |s.foods|
    ensures forall i :: 0 <= i < |s.foods| ==>
      r.foods[i].y == (if s.foods[i].y > r.groundY - FoodH / 2.0 then r.groundY - FoodH else s.foods[i].y)
    ensures forall i :: 0 <= i < |s.foods| ==> r.foods[i].visible == s.foods[i].visible
    ensures Inv(s) ==> Inv(r)
  {
    var g := height - GroundHeight;
    s.(groundY := g, petY := g - 250.0,
       foods := seq(|s.foods|, i requires 0 <= i < |s.foods| =>
         if s.foods[i].y > g - FoodH / 2.0 then s.foods[i].(y := g - FoodH) else s.foods[i]))
  }

  /** `window._modeCleanup`: the frame loop stops, every listener the mode
      added is removed and the bubble is hidden. */
  function Cleanup(s: Feed): (r: Feed)
    ensures !r.looping && r.bubble.None?
    ensures r.listeners !! (CanvasListeners + {ResizeListener})
    ensures r.listeners <= s.listeners
  {
    s.(looping := false, listeners := s.listeners - CanvasListeners - {ResizeListener}, bubble := None)
  }

  /** Cleanup right after loading leaves no listener of the mode behind. */
  lemma CleanupRemovesAll(width: real, height: real, hasHint: bool)
    ensures Cleanup(Load(width, height, hasHint)).listeners == {}
  {
  }

  datatype Event =
    | Press(px: real, py: real)
    | Drag(px: real, py: real)
    | Release
    | Frame
    | MoodTimerFired
    | BubbleTimerFired
    | ResizeTo(height: real)

  /** One event. Once the canvas or resize listeners are removed their
      events change nothing; the timers already set still fire. */
  function Step(s: Feed, e: Event): (r: Feed)
    ensures Inv(s) ==> Inv(r)
    ensures !(CanvasListeners <= s.listeners) && (e.Press? || e.Drag? || e.Release?) ==> r == s
    ensures ResizeListener !in s.listeners && e.ResizeTo? ==> r == s
  {
    var live := CanvasListeners <= s.listeners;
    match e
    case Press(x, y) => if live then Down(s, x, y) else s
    case Drag(x, y) => if live then Move(s, x, y) else s
    case Release => if live then Up(s) else s
    case Frame => if s.looping then Collide(s) else s
    case MoodTimerFired => if s.moodTimers == 0 then s else s.(mood := NormalMood, moodTimers := s.moodTimers - 1)
    case BubbleTimerFired => s.(bubble := None, bubbleTimer := false)
    case ResizeTo(h) => if ResizeListener in s.listeners then Resize(s, h) else s
  }

  function Run(s: Feed, es: seq<Event>): Feed
    decreases |es|
  {
    if es == [] then s else Run(Step(s, es[0]), es[1..])
  }

  /** Every reachable state keeps its two foods, a pending reset for any
      mood and a hide timer for a shown bubble: from the script's start,
      over any run of events. */
  lemma {:induction false} RunKeepsInv(width: real, height: real, hasHint: bool, es: seq<Event>)
    ensures Inv(Run(Load(width, height, hasHint), es))
  {
    RunFrom(Load(width, height, hasHint), es);
  }

  lemma {:induction false} RunFrom(s: Feed, es: seq<Event>)
    requires Inv(s)
    ensures Inv(Run(s, es))
    decreases |es|
  {
    if es != [] {
      RunFrom(Step(s, es[0]), es[1..]);
    }
  }

  /** Over any run, an eaten food stays eaten. */
  lemma {:induction false} EatenStaysHiddenRun(s: Feed, es: seq<Event>, k: nat)
    requires k < |s.foods| && !s.foods[k].visible
    ensures k < |Run(s, es).foods| && !Run(s, es).foods[k].visible
    decreases |es|
  {
    if es != [] {
      EatenStaysHidden(s, es[0], k);
      EatenStaysHiddenRun(Step(s, es[0]), es[1..], k);
    }
  }
}
