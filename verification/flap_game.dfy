/** The flap game of pet_game.js: a zombie falls under gravity and jumps on a
    key, click or touch; pole pairs scroll in from the right, and passing one
    scores a point, every fifth point narrowing the gap and raising the
    speed. Frames, the countdown interval and image loads arrive as events;
    every `Math.random()` draw is an event parameter. */
module FlapGame {
  import opened Common
  import Dom

  const GroundMargin: real := 40.0
  const ZombieW: real := 90.0
  const ZombieH: real := 120.0
  const PoleW: real := 90.0
  const Gravity: real := 0.45
  const JumpPower: real := -8.5
  const StartSpeed: real := 3.8
  const MaxSpeed: real := 7.5
  const StartGap: int := 230
  /** The gap stops narrowing once it is no longer above this. */
  const GapFloor: int := 160
  const PoleDistance: real := 250.0
  const MinTop: real := 80.0

  datatype Zombie = Zombie(x: real, y: real, dy: real, alive: bool)

  datatype Pole = Pole(x: real, topH: real, bottomY: real, passed: bool)

  datatype Sfx = JumpSfx | FailSfx

  datatype Game = Game(
    width: real, height: real,        // window.innerWidth / innerHeight
    zombie: Zombie,
    poles: seq<Pole>,
    score: nat,
    gameOver: bool,
    started: bool,
    speed: real,
    gap: int,                         // poleGap, whole pixels
    lastSpawnX: real,
    worldOffsetX: real,
    looping: bool,                    // an animation frame is requested
    restartShown: bool,
    modeShown: bool,
    countdown: Option<int>,           // the countdown interval and its count
    awaiting: set<nat>,               // images whose load event is still to come
    left: int,                        // the load counter
    sfx: seq<Sfx>,
    listeners: set<Dom.Listener>)

  const KeyListener: Dom.Listener := Dom.Listener(Dom.Window, "keydown", "onKeyDown")
  const MouseListener: Dom.Listener := Dom.Listener(Dom.Window, "mousedown", "onMouseDown")
  const TouchListener: Dom.Listener := Dom.Listener(Dom.Window, "touchstart", "onTouchStart")
  const ResizeListener: Dom.Listener := Dom.Listener(Dom.Window, "resize", "resize")

  const WindowListeners: set<Dom.Listener> := {KeyListener, MouseListener, TouchListener, ResizeListener}

  /** The keys that flap: space, the up arrow and w in either case. */
  predicate FlapKey(key: string)
  {
    key == " " || key == "ArrowUp" || key == "w" || key == "W"
  }

  /** The difficulty bounds: the gap narrows by 6 from 230 and never below
      158, the speed climbs from 3.8 to at most 7.5, and every pole on screen
      has at least the narrowest gap. */
  ghost predicate Inv(g: Game)
  {
    && 158 <= g.gap <= StartGap && (StartGap - g.gap) % 6 == 0
    && StartSpeed <= g.speed <= MaxSpeed
    && (forall i :: 0 <= i < |g.poles| ==> g.poles[i].bottomY - g.poles[i].topH >= 158.0)
    && (!g.zombie.alive ==> g.gameOver)
    && (g.looping ==> g.started)
  }

  /** `collides`: the zombie's box shrunk by 5 on every side overlaps the
      pole's column and pokes above the top pole by more than 4 or below the
      bottom one by more than 6. */
  predicate Collides(z: Zombie, p: Pole)
  {
    var zx1 := z.x + 5.0;
    var zx2 := z.x + ZombieW - 5.0;
    var zy1 := z.y + 5.0;
    var zy2 := z.y + ZombieH - 5.0;
    (zx2 > p.x && zx1 < p.x + PoleW) && (zy1 < p.topH - 4.0 || zy2 > p.bottomY + 6.0)
  }

  /** A zombie away from the pole's column never collides, and any gap of at
      least 101 lets a zombie at the top of the gap through. */
  lemma GapIsPassable(z: Zombie, p: Pole)
    ensures z.x + ZombieW - 5.0 <= p.x ==> !Collides(z, p)
    ensures z.x + 5.0 >= p.x + PoleW ==> !Collides(z, p)
    ensures p.bottomY - p.topH >= 101.0 && z.y == p.topH - 9.0 ==> !Collides(z, p)
    ensures z.y + 5.0 < p.topH - 4.0 && z.x + ZombieW - 5.0 > p.x && z.x + 5.0 < p.x + PoleW ==> Collides(z, p)
  {
  }

  /** All three images (zombie, zombie hit, pole) were complete when the
      script checked them. */
  predicate AllComplete(complete: seq<bool>)
    requires |complete| == 3
  {
    complete[0] && complete[1] && complete[2]
  }

  /** Before any image has loaded: the listeners are on, the pace is the
      initial one and nothing is running. `complete` tells which images were
      complete at the check. Unless all were, each of the three gets a load
      listener: the images' `src` is set by the same script, so even a
      cached image fires its load event only after the script has run (the
      HTML Standard's "update the image data" queues it as a task), and the
      listener hears it. */
  function Initial(width: real, height: real, complete: seq<bool>): (g: Game)
    requires |complete| == 3
    ensures g.listeners == WindowListeners && !g.started && !g.looping
    ensures g.speed == StartSpeed && g.gap == StartGap && g.left == 3
    ensures AllComplete(complete) ==> g.awaiting == {}
    ensures !AllComplete(complete) ==> g.awaiting == {0, 1, 2}
    ensures Inv(g)
  {
    Game(width, height, Zombie(0.0, 0.0, 0.0, true), [], 0, false, false, StartSpeed, StartGap, 0.0, 0.0,
      false, false, false, None, if AllComplete(complete) then {} else {0, 1, 2}, 3, [], WindowListeners)
  }

  /** `Math.random() * (hi - lo) + lo` lies in [lo, hi). */
  function Scale(a: real, lo: real, hi: real): (r: real)
    requires 0.0 <= a < 1.0 && lo < hi
    ensures lo <= r < hi
  {
    Portion(a, hi - lo) + lo
  }

  /** The pole pair `spawnPole` makes: its top between 80 and `maxTop` (by
      the draw `rnd`) and the current gap below it. An initial pole goes one
      window width beyond the previous pole's x plus 250, a later one just
      past the right edge. */
  function NewPole(g: Game, initial: bool, rnd: real): (p: Pole)
    requires 0.0 <= rnd < 1.0
    ensures MinTop <= p.topH < Max(MinTop + 10.0, g.height - g.gap as real - (GroundMargin + 120.0))
    ensures p.bottomY == p.topH + g.gap as real && !p.passed
    ensures !initial ==> p.x == g.width + PoleW
    ensures initial && g.poles == [] ==> p.x == g.width
    ensures initial && g.poles != [] ==> p.x == g.width + g.poles[|g.poles| - 1].x + PoleDistance
  {
    var maxTop := Max(MinTop + 10.0, g.height - g.gap as real - (GroundMargin + 120.0));
    var topH := Scale(rnd, MinTop, maxTop);
    var x := if initial then g.width + (if |g.poles| > 0 then g.poles[|g.poles| - 1].x + PoleDistance else 0.0)
             else g.width + PoleW;
    Pole(x, topH, topH + g.gap as real, false)
  }

  /** `spawnPole`: the new pole joins the list and marks the spawn point. */
  function SpawnPole(g: Game, initial: bool, rnd: real): (r: Game)
    requires 0.0 <= rnd < 1.0
    ensures r.poles == g.poles + [NewPole(g, initial, rnd)]
    ensures r.lastSpawnX == g.worldOffsetX + NewPole(g, initial, rnd).x
    ensures r == g.(poles := r.poles, lastSpawnX := r.lastSpawnX)
  {
    g.(poles := g.poles + [NewPole(g, initial, rnd)], lastSpawnX := g.worldOffsetX + NewPole(g, initial, rnd).x)
  }

  /** `maybeSpawn`: a new pole once the world has scrolled 250 past the last
      spawn point. */
  function MaybeSpawn(g: Game, rnd: real): (r: Game)
    requires 0.0 <= rnd < 1.0
    ensures g.worldOffsetX + g.width - g.lastSpawnX >= PoleDistance ==>
      |r.poles| == |g.poles| + 1 && r.poles[|g.poles|].x == g.width + PoleW
    ensures g.worldOffsetX + g.width - g.lastSpawnX < PoleDistance ==> r == g
    ensures r.worldOffsetX == g.worldOffsetX && r.speed == g.speed && r.started == g.started
    ensures r.looping == g.looping && r.zombie == g.zombie && r.score == g.score
    ensures r.countdown == g.countdown
    ensures Inv(g) ==> Inv(r)
  {
    if g.worldOffsetX + g.width - g.lastSpawnX >= PoleDistance then SpawnPole(g, false, rnd) else g
  }

  /** `resetGame`: the zombie back at a quarter of the width (kept between 40
      and 110 short of the right edge) and mid-height (at least 20), two
      initial poles, score 0. The speed and gap are not reset. */
  function ResetGame(g: Game, r1: real, r2: real): (r: Game)
    requires 0.0 <= r1 < 1.0 && 0.0 <= r2 < 1.0
    ensures r.zombie == Zombie(Max(40.0, Min(g.width * 0.25, g.width - ZombieW - 20.0)),
                               Max(20.0, g.height / 2.0 - ZombieH / 2.0), 0.0, true)
    ensures |r.poles| == 2 && r.score == 0 && !r.gameOver && r.started
    ensures r.speed == g.speed && r.gap == g.gap
    ensures r.poles[0].x == g.width && r.poles[1].x == 2.0 * g.width + PoleDistance
    ensures r.worldOffsetX == 0.0 && r.lastSpawnX == r.poles[1].x
    ensures Inv(g) ==> Inv(r)
  {
    var z := Zombie(Max(40.0, Min(g.width * 0.25, g.width - ZombieW - 20.0)),
                    Max(20.0, g.height / 2.0 - ZombieH / 2.0), 0.0, true);
    var g0 := g.(worldOffsetX := 0.0, lastSpawnX := 0.0, zombie := z, poles := [], score := 0,
                 gameOver := false, started := true);
    SpawnPole(SpawnPole(g0, true, r1), true, r2)
  }

  /** `hit`: a living zombie dies once; the game is over, the fail sound
      plays and the restart button shows. */
  function Hit(g: Game): (r: Game)
    ensures !g.zombie.alive ==> r == g
    ensures g.zombie.alive ==> !r.zombie.alive && r.gameOver && r.restartShown && r.sfx == g.sfx + [FailSfx]
    ensures r.poles == g.poles && r.score == g.score && r.speed == g.speed && r.gap == g.gap
    ensures r.zombie.x == g.zombie.x && r.zombie.y == g.zombie.y && r.zombie.dy == g.zombie.dy
    ensures r.looping == g.looping && r.started == g.started && r.worldOffsetX == g.worldOffsetX
    ensures r.countdown == g.countdown
  {
    if !g.zombie.alive then g
    else g.(zombie := g.zombie.(alive := false), gameOver := true, sfx := g.sfx + [FailSfx], restartShown := true)
  }

  /** One pole of `drawPolesAndCollide`: it moves left by the current speed,
      kills a zombie it collides with, and when it is first fully left of the
      zombie it scores; every fifth point narrows the gap (while above 160)
      and speeds up by 0.2 up to 7.5. */
  function PassPole(g: Game, p: Pole): (r: (Game, Pole))
    ensures r.1 == p.(x := p.x - g.speed, passed := r.1.passed)
    ensures r.1.passed == (p.passed || p.x - g.speed + PoleW < g.zombie.x)
    ensures r.0.score == g.score + (if !p.passed && r.1.passed then 1 else 0)
    ensures g.zombie.alive && Collides(g.zombie, r.1) ==> !r.0.zombie.alive && r.0.gameOver
    ensures r.0.poles == g.poles && r.0.zombie.x == g.zombie.x && r.0.zombie.y == g.zombie.y
    ensures r.0.looping == g.looping && r.0.started == g.started && r.0.worldOffsetX == g.worldOffsetX
    ensures r.0.countdown == g.countdown
    ensures g.speed <= MaxSpeed ==> g.speed <= r.0.speed <= MaxSpeed
    ensures r.0.score % 5 != 0 || r.0.score == g.score ==> r.0.speed == g.speed && r.0.gap == g.gap
    ensures Inv(g) ==> Inv(r.0)
  {
    var moved := p.(x := p.x - g.speed);
    var g1 := if g.zombie.alive && Collides(g.zombie, moved) then Hit(g) else g;
    assert Inv(g) ==> Inv(g1);
    if !moved.passed && moved.x + PoleW < g1.zombie.x then (Score(g1), moved.(passed := true))
    else (g1, moved)
  }

  /** A point scored: every fifth point narrows the gap by 6 while it is
      above 160 and adds 0.2 to the speed, up to 7.5. */
  function Score(g: Game): (r: Game)
    ensures r.score == g.score + 1
    ensures r.score % 5 != 0 ==> r.speed == g.speed && r.gap == g.gap
    ensures r.score % 5 == 0 ==> r.gap == (if g.gap > GapFloor then g.gap - 6 else g.gap)
    ensures r.score % 5 == 0 ==> r.speed == Min(g.speed + 0.2, MaxSpeed)
    ensures g.speed <= MaxSpeed ==> g.speed <= r.speed <= MaxSpeed
    ensures r == g.(score := r.score, gap := r.gap, speed := r.speed)
    ensures Inv(g) ==> Inv(r)
  {
    var score := g.score + 1;
    if score % 5 == 0
    then g.(score := score, gap := if g.gap > GapFloor then g.gap - 6 else g.gap,
            speed := Min(g.speed + 0.2, MaxSpeed))
    else g.(score := score)
  }

  /** How many poles went from unpassed to passed between `ps` and `qs`. */
  function NewlyPassed(ps: seq<Pole>, qs: seq<Pole>): (n: nat)
    requires |ps| == |qs|
    ensures n <= |ps|
  {
    if ps == [] then 0
    else (if !ps[0].passed && qs[0].passed then 1 else 0) + NewlyPassed(ps[1..], qs[1..])
  }

  /** The loop of `drawPolesAndCollide` over `ps`, in order, each pole
      seeing the speed the earlier ones left. */
  function Sweep(g: Game, ps: seq<Pole>): (r: (Game, seq<Pole>))
    ensures |r.1| == |ps|
    ensures forall i :: 0 <= i < |ps| ==>
      r.1[i].topH == ps[i].topH && r.1[i].bottomY == ps[i].bottomY && (ps[i].passed ==> r.1[i].passed)
    ensures r.0.score == g.score + NewlyPassed(ps, r.1)
    ensures r.0.poles == g.poles && r.0.zombie.x == g.zombie.x && r.0.zombie.y == g.zombie.y
    ensures r.0.looping == g.looping && r.0.started == g.started && r.0.worldOffsetX == g.worldOffsetX
    ensures r.0.countdown == g.countdown
    ensures g.speed <= MaxSpeed ==> g.speed <= r.0.speed <= MaxSpeed
    ensures !g.zombie.alive ==> !r.0.zombie.alive
    ensures Inv(g) ==> Inv(r.0)
    decreases |ps|
  {
    if ps == [] then (g, [])
    else
      var (g1, p1) := PassPole(g, ps[0]);
      var rest := Sweep(g1, ps[1..]);
      assert ps[1..] == (ps)[1..] && ([p1] + rest.1)[1..] == rest.1;
      (rest.0, [p1] + rest.1)
  }

  /** `a` is `b` with some elements dropped: the rest keep their order and
      their repetitions. */
  predicate IsSubsequence(a: seq<Pole>, b: seq<Pole>)
    decreases |b|
  {
    a == [] || (b != [] && ((a[0] == b[0] && IsSubsequence(a[1..], b[1..])) || IsSubsequence(a, b[1..])))
  }

  /** `poles.filter(p => p.x + p.w > 0)`. */
  function OnScreen(ps: seq<Pole>): (r: seq<Pole>)
    ensures |r| <= |ps| && IsSubsequence(r, ps)
    ensures forall i :: 0 <= i < |r| ==> r[i] in ps && r[i].x + PoleW > 0.0
    ensures forall i :: 0 <= i < |ps| && ps[i].x + PoleW > 0.0 ==> ps[i] in r
  {
    if ps == [] then []
    else if ps[0].x + PoleW > 0.0 then
      var rest := OnScreen(ps[1..]);
      assert ([ps[0]] + rest)[1..] == rest;
      [ps[0]] + rest
    else OnScreen(ps[1..])
  }

  /** The zombie half of `loop`: gravity, then the floor (which kills) and
      the ceiling. */
  function Fly(g: Game): (r: Game)
    ensures var floorY := g.height - GroundMargin - ZombieH;
      && r.zombie.dy == g.zombie.dy + Gravity
      && r.zombie.y >= 0.0
      && (floorY >= 0.0 ==> r.zombie.y <= floorY)
      && (g.zombie.y + g.zombie.dy + Gravity > floorY && g.zombie.alive ==> !r.zombie.alive && r.gameOver)
    ensures r.poles == g.poles && r.score == g.score && r.looping == g.looping && r.started == g.started
    ensures r.worldOffsetX == g.worldOffsetX && r.speed == g.speed && r.countdown == g.countdown
    ensures Inv(g) ==> Inv(r)
  {
    var dy := g.zombie.dy + Gravity;
    var y := g.zombie.y + dy;
    var floorY := g.height - GroundMargin - ZombieH;
    var g1 := g.(zombie := g.zombie.(dy := dy, y := y));
    var g2 := if y > floorY then Hit(g1.(zombie := g1.zombie.(y := floorY))) else g1;
    if g2.zombie.y < 0.0 then g2.(zombie := g2.zombie.(y := 0.0)) else g2
  }

  /** `loop` once the game is on: the zombie flies, the world scrolls by the
      speed, maybe a pole spawns, the poles move and collide, and the ones
      off the left edge go. */
  function LoopBody(g: Game, rnd: real): (r: Game)
    requires 0.0 <= rnd < 1.0
    requires g.started
    ensures r.looping && r.score >= g.score && r.countdown == g.countdown
    ensures g.speed <= MaxSpeed ==> g.speed <= r.speed <= MaxSpeed
    ensures r.worldOffsetX == g.worldOffsetX + g.speed
    ensures forall i :: 0 <= i < |r.poles| ==> r.poles[i].x + PoleW > 0.0
    ensures Inv(g) ==> Inv(r)
  {
    var g1 := Fly(g.(looping := true));
    var g2 := MaybeSpawn(g1.(worldOffsetX := g1.worldOffsetX + g1.speed), rnd);
    SweepAndPrune(g2)
  }

  /** The pole half of `loop`: every pole moves and collides, then the ones
      off the left edge go. */
  function SweepAndPrune(g: Game): (r: Game)
    ensures r.looping == g.looping && r.score >= g.score && r.countdown == g.countdown
    ensures g.speed <= MaxSpeed ==> g.speed <= r.speed <= MaxSpeed
    ensures r.worldOffsetX == g.worldOffsetX
    ensures forall i :: 0 <= i < |r.poles| ==> r.poles[i].x + PoleW > 0.0
    ensures Inv(g) ==> Inv(r)
  {
    var sw := Sweep(g, g.poles);
    var kept := OnScreen(sw.1);
    assert Inv(g) ==> forall i :: 0 <= i < |sw.1| ==> sw.1[i].bottomY - sw.1[i].topH >= 158.0;
    sw.0.(poles := kept)
  }

  /** An animation frame: `loop` stops for good once the game is over. */
  function Frame(g: Game, rnd: real): (r: Game)
    requires 0.0 <= rnd < 1.0
    ensures !g.looping ==> r == g
    ensures g.looping && g.gameOver ==> r == g.(looping := false)
    ensures g.looping && !g.gameOver && Inv(g) ==> r.looping && r.score >= g.score
    ensures Inv(g) ==> Inv(r)
  {
    if !g.looping then g
    else if g.gameOver then g.(looping := false)
    else if g.started then LoopBody(g, rnd)
    else g
  }

  /** `flap`: a living zombie in a started game gets the jump velocity and
      the jump sound; otherwise nothing happens. */
  function Flap(g: Game): (r: Game)
    ensures g.started && g.zombie.alive ==> r.zombie.dy == JumpPower && r.sfx == g.sfx + [JumpSfx]
                                            && r.zombie.y == g.zombie.y
    ensures !(g.started && g.zombie.alive) ==> r == g
    ensures Inv(g) ==> Inv(r)
  {
    if !g.started || !g.zombie.alive then g
    else g.(zombie := g.zombie.(dy := JumpPower), sfx := g.sfx + [JumpSfx])
  }

  /** `onKeyDown`: only the flap keys, and only while the listener is on. */
  function KeyDown(g: Game, key: string): (r: Game)
    ensures KeyListener in g.listeners && FlapKey(key) ==> r == Flap(g)
    ensures !(KeyListener in g.listeners && FlapKey(key)) ==> r == g
    ensures Inv(g) ==> Inv(r)
  {
    if KeyListener in g.listeners && FlapKey(key) then Flap(g) else g
  }

  /** `onMouseDown` / `onTouchStart`: a press anywhere but on a button. */
  function PointerDown(g: Game, l: Dom.Listener, onButton: bool): (r: Game)
    requires l == MouseListener || l == TouchListener
    ensures l in g.listeners && !onButton ==> r == Flap(g)
    ensures l !in g.listeners || onButton ==> r == g
    ensures Inv(g) ==> Inv(r)
  {
    if l in g.listeners && !onButton then Flap(g) else g
  }

  /** The restart button: it goes, the animation frame is cancelled, and a
      countdown from 3 starts. */
  function RestartClick(g: Game): (r: Game)
    ensures g.restartShown ==> !r.restartShown && !r.looping && r.countdown == Some(3)
    ensures !g.restartShown ==> r == g
    ensures Inv(g) ==> Inv(r)
  {
    if g.restartShown then g.(restartShown := false, looping := false, countdown := Some(3)) else g
  }

  /** Start the game: `resetGame()` and one `loop()` at once. */
  function Begin(g: Game, r1: real, r2: real, r3: real): (r: Game)
    requires 0.0 <= r1 < 1.0 && 0.0 <= r2 < 1.0 && 0.0 <= r3 < 1.0
    ensures r.started && r.looping && r.countdown == g.countdown
    ensures g.speed <= MaxSpeed ==> g.speed <= r.speed <= MaxSpeed
    ensures Inv(g) ==> Inv(r)
  {
    LoopBody(ResetGame(g, r1, r2), r3)
  }

  /** One tick of the countdown interval (every 500 ms): the count shown
      drops, and after "Ready!" the interval stops and the game restarts. */
  function CountdownTick(g: Game, r1: real, r2: real, r3: real): (r: Game)
    requires 0.0 <= r1 < 1.0 && 0.0 <= r2 < 1.0 && 0.0 <= r3 < 1.0
    ensures g.countdown.None? ==> r == g
    ensures g.countdown.Some? && g.countdown.value - 1 >= -1 ==> r == g.(countdown := Some(g.countdown.value - 1))
    ensures g.countdown.Some? && g.countdown.value - 1 < -1 ==>
      r.countdown.None? && r.started && r.looping
    ensures Inv(g) ==> Inv(r)
  {
    match g.countdown
    case None => g
    case Some(c) =>
      if c - 1 < -1 then
        var g0 := g.(countdown := None);
        assert Inv(g) ==> Inv(g0);
        Begin(g0, r1, r2, r3)
      else g.(countdown := Some(c - 1))
  }

  /** The countdown shows 3, 2, 1 and "Ready!" and restarts on the fifth
      tick. */
  lemma CountdownTakesFiveTicks(g: Game, r1: real, r2: real, r3: real)
    requires 0.0 <= r1 < 1.0 && 0.0 <= r2 < 1.0 && 0.0 <= r3 < 1.0
    requires g.countdown == Some(3)
    ensures var g4 := CountdownTick(CountdownTick(CountdownTick(CountdownTick(g, r1, r2, r3), r1, r2, r3), r1, r2, r3), r1, r2, r3);
      g4.countdown == Some(-1) && g4 == g.(countdown := Some(-1))
      && CountdownTick(g4, r1, r2, r3).looping
  {
  }

  /** The start once the three images are there (`waitForImagesThenStart`,
      or the last load listener): the game begins and the mode button
      shows; the load listeners and counter stay as they were. */
  function Launch(g: Game, r1: real, r2: real, r3: real): (r: Game)
    requires 0.0 <= r1 < 1.0 && 0.0 <= r2 < 1.0 && 0.0 <= r3 < 1.0
    ensures r.started && r.looping && r.modeShown
    ensures r.awaiting == g.awaiting && r.left == g.left
    ensures Inv(g) ==> Inv(r)
  {
    Begin(g, r1, r2, r3).(modeShown := true, awaiting := g.awaiting, left := g.left)
  }

  /** The script's start: at once if every image is complete, otherwise a
      load listener on each of the three images counts down from 3. */
  function Load(width: real, height: real, complete: seq<bool>, r1: real, r2: real, r3: real): (r: Game)
    requires |complete| == 3
    requires 0.0 <= r1 < 1.0 && 0.0 <= r2 < 1.0 && 0.0 <= r3 < 1.0
    ensures AllComplete(complete) ==> r.started && r.looping && r.modeShown && r.awaiting == {}
    ensures !AllComplete(complete) ==> r == Initial(width, height, complete) && r.awaiting == {0, 1, 2}
    ensures Inv(r)
  {
    var g := Initial(width, height, complete);
    if AllComplete(complete) then Launch(g, r1, r2, r3) else g
  }

  /** Image `i` fires its load event: its listener counts down, and the
      start happens when the count reaches zero. An image with no listener
      (none were attached because every image was complete) changes
      nothing. So does a second event from the same image: each image's
      source is set once, so it fires its load event at most once. */
  function ImageLoaded(g: Game, i: nat, r1: real, r2: real, r3: real): (r: Game)
    requires 0.0 <= r1 < 1.0 && 0.0 <= r2 < 1.0 && 0.0 <= r3 < 1.0
    ensures i !in g.awaiting ==> r == g
    ensures i in g.awaiting ==> r.awaiting == g.awaiting - {i} && r.left == g.left - 1
    ensures i in g.awaiting && g.left - 1 == 0 ==> r.started && r.looping
    ensures i in g.awaiting && g.left - 1 != 0 ==> r == g.(awaiting := g.awaiting - {i}, left := g.left - 1)
    ensures Inv(g) ==> Inv(r)
  {
    if i !in g.awaiting then g
    else
      var g1 := g.(awaiting := g.awaiting - {i}, left := g.left - 1);
      assert Inv(g) ==> Inv(g1);
      if g1.left == 0 then Launch(g1, r1, r2, r3) else g1
  }

  /** A sequence of image load events, in the order they fire. */
  function LoadEvents(g: Game, loads: seq<nat>, r1: real, r2: real, r3: real): Game
    requires 0.0 <= r1 < 1.0 && 0.0 <= r2 < 1.0 && 0.0 <= r3 < 1.0
    decreases |loads|
  {
    if loads == [] then g else LoadEvents(ImageLoaded(g, loads[0], r1, r2, r3), loads[1..], r1, r2, r3)
  }

  /** How the load counter relates to the listeners still waiting: before
      the start the counter is their (positive) number; after it none wait. */
  predicate LoadCounting(g: Game)
  {
    if g.started then g.awaiting == {} else g.left == |g.awaiting| && g.left > 0
  }

  /** Over any sequence of load events, the waiting listeners are those whose
      image has not fired, and the game has started exactly when it had
      already or every waiting image has fired. */
  lemma {:induction false} LoadsCount(g: Game, loads: seq<nat>, r1: real, r2: real, r3: real)
    requires 0.0 <= r1 < 1.0 && 0.0 <= r2 < 1.0 && 0.0 <= r3 < 1.0
    requires LoadCounting(g)
    ensures var r := LoadEvents(g, loads, r1, r2, r3);
      && LoadCounting(r)
      && r.awaiting == g.awaiting - (set i | i in loads)
      && (r.started <==> g.started || g.awaiting <= (set i | i in loads))
    decreases |loads|
  {
    if loads != [] {
      var i := loads[0];
      var g1 := ImageLoaded(g, i, r1, r2, r3);
      LoadCounts(g, i, r1, r2, r3);
      LoadsCount(g1, loads[1..], r1, r2, r3);
      assert (set k | k in loads) == {i} + (set k | k in loads[1..]);
    }
  }

  /** One load event: its listener, if waiting, is removed and counted, and
      the game starts exactly when it was the last one waiting. */
  lemma LoadCounts(g: Game, i: nat, r1: real, r2: real, r3: real)
    requires 0.0 <= r1 < 1.0 && 0.0 <= r2 < 1.0 && 0.0 <= r3 < 1.0
    requires LoadCounting(g)
    ensures var r := ImageLoaded(g, i, r1, r2, r3);
      && LoadCounting(r)
      && r.awaiting == g.awaiting - {i}
      && (r.started <==> g.started || g.awaiting <= {i})
  {
    if i in g.awaiting {
      assert |g.awaiting - {i}| == |g.awaiting| - 1;
      if g.left == 1 {
        assert g.awaiting - {i} == {};
      }
    }
  }

  /** The game started by the script runs exactly when every image was
      complete at the check or all three images have fired their load
      event, whatever their order and however often they repeat. */
  lemma LoadsStartGame(width: real, height: real, complete: seq<bool>,
                       r1: real, r2: real, r3: real, loads: seq<nat>)
    requires |complete| == 3
    requires 0.0 <= r1 < 1.0 && 0.0 <= r2 < 1.0 && 0.0 <= r3 < 1.0
    ensures LoadEvents(Load(width, height, complete, r1, r2, r3), loads, r1, r2, r3).started
      <==> AllComplete(complete) || (0 in loads && 1 in loads && 2 in loads)
  {
    var g0 := Load(width, height, complete, r1, r2, r3);
    if !AllComplete(complete) {
      assert |g0.awaiting| == 3;
    }
    LoadsCount(g0, loads, r1, r2, r3);
  }

  /** With an image not yet complete, the three load events start the game
      exactly on the third, in any order. */
  lemma StartsOnThirdLoad(width: real, height: real, complete: seq<bool>,
                          r1: real, r2: real, r3: real, i: nat, j: nat, k: nat)
    requires |complete| == 3 && !AllComplete(complete)
    requires 0.0 <= r1 < 1.0 && 0.0 <= r2 < 1.0 && 0.0 <= r3 < 1.0
    requires {i, j, k} == {0, 1, 2}
    ensures var g0 := Load(width, height, complete, r1, r2, r3);
      && !LoadEvents(g0, [i], r1, r2, r3).started
      && !LoadEvents(g0, [i, j], r1, r2, r3).started
      && LoadEvents(g0, [i, j, k], r1, r2, r3).started
  {
    LoadsStartGame(width, height, complete, r1, r2, r3, [i]);
    LoadsStartGame(width, height, complete, r1, r2, r3, [i, j]);
    LoadsStartGame(width, height, complete, r1, r2, r3, [i, j, k]);
  }

  /** The mode button's `window._modeCleanup`: the frame is cancelled, the
      four window listeners and both buttons go, and the game is over. The
      countdown interval and the image load listeners are left alone. */
  function Cleanup(g: Game): (r: Game)
    ensures !r.looping && r.gameOver && !r.restartShown && !r.modeShown
    ensures r.listeners == g.listeners - WindowListeners && r.listeners !! WindowListeners
    ensures r.countdown == g.countdown && r.awaiting == g.awaiting
    ensures Inv(g) ==> Inv(r)
  {
    g.(looping := false, listeners := g.listeners - WindowListeners, restartShown := false,
       modeShown := false, gameOver := true)
  }

  /** After cleanup no input flaps. */
  lemma NoFlapAfterCleanup(g: Game, key: string, onButton: bool)
    ensures KeyDown(Cleanup(g), key) == Cleanup(g)
    ensures PointerDown(Cleanup(g), MouseListener, onButton) == Cleanup(g)
    ensures PointerDown(Cleanup(g), TouchListener, onButton) == Cleanup(g)
  {
  }

  /** As written, a countdown still running at cleanup outlives it: its last
      tick restarts the game and its animation loop. */
  lemma CountdownOutlivesCleanup(g: Game, r1: real, r2: real, r3: real)
    requires 0.0 <= r1 < 1.0 && 0.0 <= r2 < 1.0 && 0.0 <= r3 < 1.0
    requires g.countdown == Some(-1)
    ensures !Cleanup(g).looping
    ensures var r := CountdownTick(Cleanup(g), r1, r2, r3); r.looping && r.started && r.countdown.None?
  {
  }

  /** As written, a restart keeps the pace reached: the gap and speed of the
      previous round carry over. */
  lemma RestartKeepsPace(g: Game, r1: real, r2: real, r3: real)
    requires 0.0 <= r1 < 1.0 && 0.0 <= r2 < 1.0 && 0.0 <= r3 < 1.0
    ensures ResetGame(g, r1, r2).gap == g.gap
    ensures ResetGame(g, r1, r2).speed == g.speed
  {
  }

  /** As written, the second initial pole is placed a whole window width
      past the first one's x plus 250, so it starts two screens away. */
  lemma SecondPoleTwoScreensAway(g: Game, r1: real, r2: real)
    requires 0.0 <= r1 < 1.0 && 0.0 <= r2 < 1.0
    ensures ResetGame(g, r1, r2).poles[1].x - ResetGame(g, r1, r2).poles[0].x == g.width + PoleDistance
  {
  }

  /** A change of the window's size. Resets, spawns and the floor read
      `window.innerWidth` and `window.innerHeight` live, so the new size
      counts whether or not the `resize` listener is still on; that listener
      only sizes the canvas for the device pixel ratio. */
  function Resize(g: Game, width: real, height: real): (r: Game)
    ensures r == g.(width := width, height := height)
    ensures r.zombie == g.zombie && r.poles == g.poles
  {
    g.(width := width, height := height)
  }

  datatype Event =
    | AnimationFrame(rnd: real)
    | Key(key: string)
    | MouseDown(onButton: bool)
    | TouchStart(onButton: bool)
    | RestartButton
    | CountdownInterval(r1: real, r2: real, r3: real)
    | ImageLoad(image: nat, r1: real, r2: real, r3: real)
    | ModeButton
    | WindowResize(width: real, height: real)

  predicate Draw(x: real)
  {
    0.0 <= x < 1.0
  }

  /** One event; draws outside [0, 1) cannot come from `Math.random()` and
      are ignored, as are resizes while the listener is off. */
  function Step(g: Game, e: Event): (r: Game)
    ensures Inv(g) ==> Inv(r)
  {
    match e
    case AnimationFrame(x) => if Draw(x) then Frame(g, x) else g
    case Key(k) => KeyDown(g, k)
    case MouseDown(b) => PointerDown(g, MouseListener, b)
    case TouchStart(b) => PointerDown(g, TouchListener, b)
    case RestartButton => RestartClick(g)
    case CountdownInterval(a, b, c) => if Draw(a) && Draw(b) && Draw(c) then CountdownTick(g, a, b, c) else g
    case ImageLoad(i, a, b, c) => if Draw(a) && Draw(b) && Draw(c) then ImageLoaded(g, i, a, b, c) else g
    case ModeButton => if g.modeShown then Cleanup(g) else g
    case WindowResize(w, h) => Resize(g, w, h)
  }

  function Run(g: Game, es: seq<Event>): Game
    decreases |es|
  {
    if es == [] then g else Run(Step(g, es[0]), es[1..])
  }

  /** However long the game runs and however often it restarts, the gap stays
      between 158 and 230, the speed between 3.8 and 7.5, and every pole
      keeps a gap of at least 158. */
  lemma {:induction false} PaceBounded(width: real, height: real, complete: seq<bool>,
                                       r1: real, r2: real, r3: real, es: seq<Event>)
    requires |complete| == 3
    requires 0.0 <= r1 < 1.0 && 0.0 <= r2 < 1.0 && 0.0 <= r3 < 1.0
    ensures Inv(Run(Load(width, height, complete, r1, r2, r3), es))
  {
    RunFrom(Load(width, height, complete, r1, r2, r3), es);
  }

  lemma {:induction false} RunFrom(g: Game, es: seq<Event>)
    requires Inv(g)
    ensures Inv(Run(g, es))
    decreases |es|
  {
    if es != [] {
      RunFrom(Step(g, es[0]), es[1..]);
    }
  }
}
