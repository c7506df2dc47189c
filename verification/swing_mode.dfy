/** The swing mode of swing.js: a pendulum pulled left with a force slider,
    released on the slider's change event, and swung under an adjustable
    gravity with air damping, its angle held within ±180°. `Math.sin` of the
    current angle is a parameter of each frame. */
module SwingMode {
  import opened Common
  import Dom

  const MaxPull: real := 50.0
  const Damping: real := 0.995
  const PivotAbove: real := 250.0
  const StartGravity: real := 9.8
  const MinGravity: real := 1.0
  const MaxGravity: real := 25.0
  /** The fixed point of `|v| <= 0.995 * (|v| + 25)`: no swing gets faster. */
  const MaxVelocity: real := 4975.0

  datatype Swing = Swing(
    x: real, y: real,                 // the pivot
    angle: real,                      // degrees
    velocity: real,
    pulling: bool,
    pullAngle: real,
    gravity: real,
    power: real,
    running: bool,
    sliders: bool,                    // both sliders and their style are in the page
    canvas: nat,
    listeners: set<Dom.Listener>)

  const ResizeListener: Dom.Listener := Dom.Listener(Dom.Window, "resize", "resizeCanvas")

  /** The angle stays within ±180°, the pull within 0..-50°, the gravity
      within the slider's 1..25, and the velocity within 4975. */
  predicate Inv(s: Swing)
  {
    && -180.0 <= s.angle <= 180.0
    && -MaxPull <= s.pullAngle <= 0.0
    && MinGravity <= s.gravity <= MaxGravity
    && -MaxVelocity <= s.velocity <= MaxVelocity
    && 0.0 <= s.power <= 1.0
  }

  /** The script's start in a window `width` wide, canvas element `canvas`:
      the pendulum hangs still from 250 above the top centre. */
  function Load(width: real, canvas: nat): (s: Swing)
    ensures s.x == width / 2.0 && s.y == -PivotAbove
    ensures s.angle == 0.0 && s.velocity == 0.0 && !s.pulling && s.gravity == StartGravity
    ensures s.running && s.sliders && s.listeners == {ResizeListener}
    ensures Inv(s)
  {
    Swing(width / 2.0, -PivotAbove, 0.0, 0.0, false, 0.0, StartGravity, 0.0, true, true, canvas, {ResizeListener})
  }

  /** `resizeCanvas`: the pivot moves to the new top centre. */
  function Resize(s: Swing, width: real): (r: Swing)
    ensures r.x == width / 2.0 && r.y == -PivotAbove
    ensures r.angle == s.angle && r.velocity == s.velocity
    ensures Inv(s) ==> Inv(r)
  {
    s.(x := width / 2.0, y := -PivotAbove)
  }

  /** The force slider's input event at `value` (0..100): the swing is held
      at a pull of up to 50° to the left. */
  function Pull(s: Swing, value: real): (r: Swing)
    requires 0.0 <= value <= 100.0
    ensures r.pulling && r.power == value / 100.0 && r.pullAngle == -(value / 100.0) * MaxPull
    ensures -MaxPull <= r.pullAngle <= 0.0
    ensures r.angle == s.angle && r.velocity == s.velocity
    ensures Inv(s) ==> Inv(r)
  {
    s.(power := value / 100.0, pulling := true, pullAngle := -(value / 100.0) * MaxPull)
  }

  /** The force slider's change event: the swing is let go from the pull
      angle at rest, and the slider goes back to 0. */
  function Release(s: Swing): (r: Swing)
    ensures !r.pulling && r.angle == s.pullAngle && r.velocity == 0.0
    ensures r.pullAngle == 0.0 && r.power == 0.0
    ensures Inv(s) ==> Inv(r)
  {
    s.(pulling := false, angle := s.pullAngle, velocity := 0.0, pullAngle := 0.0, power := 0.0)
  }

  /** Pulling to `value` and letting go starts the swing at that pull. */
  lemma PullThenRelease(s: Swing, value: real)
    requires 0.0 <= value <= 100.0
    ensures Release(Pull(s, value)).angle == -value / 2.0
    ensures Release(Pull(s, value)).velocity == 0.0
    ensures !Release(Pull(s, value)).pulling
  {
  }

  /** The gravity slider's input event at `value` (1..25). */
  function SetGravity(s: Swing, value: real): (r: Swing)
    requires MinGravity <= value <= MaxGravity
    ensures r == s.(gravity := value)
    ensures Inv(s) ==> Inv(r)
  {
    s.(gravity := value)
  }

  /** `-GRAVITY * sin(angle)` is at most the gravity in size. */
  lemma AccelBounded(g: real, sine: real)
    requires MinGravity <= g <= MaxGravity && -1.0 <= sine <= 1.0
    ensures -MaxGravity <= -g * sine <= MaxGravity
  {
    MulNonNegative(g, 1.0 - sine);
    MulNonNegative(g, 1.0 + sine);
    assert g * (1.0 - sine) == g - g * sine;
    assert g * (1.0 + sine) == g + g * sine;
    assert -g * sine == -(g * sine);
  }

  /** A frame's damped velocity stays within 4975: the speed gains at most
      25, and damping by 0.995 takes 4975 + 25 back to 4975. */
  lemma DampedVelocityBounded(vel: real, g: real, sine: real)
    requires -MaxVelocity <= vel <= MaxVelocity && MinGravity <= g <= MaxGravity && -1.0 <= sine <= 1.0
    ensures -MaxVelocity <= (vel - g * sine) * Damping <= MaxVelocity
  {
    AccelBounded(g, sine);
    var v := vel - g * sine;
    assert -MaxVelocity - MaxGravity <= v <= MaxVelocity + MaxGravity;
    MulNonNegative(5000.0 - v, Damping);
    MulNonNegative(5000.0 + v, Damping);
  }

  /** The "bounce back within 180°" step of `updatePhysics`: an angle past
      either end is set to that end, any other is kept. */
  function ClampAngle(a: real): (c: real)
    ensures -180.0 <= c <= 180.0
    ensures -180.0 <= a <= 180.0 ==> c == a
    ensures a > 180.0 ==> c == 180.0
    ensures a < -180.0 ==> c == -180.0
  {
    if a > 180.0 then 180.0 else if a < -180.0 then -180.0 else a
  }

  /** `updatePhysics` with `sine` the sine of the current angle: while held
      nothing moves; otherwise the velocity gains `-gravity * sine`, the
      angle moves by it, the velocity is damped, and the angle is clamped
      to ±180°. */
  function UpdatePhysics(s: Swing, sine: real): (r: Swing)
    ensures s.pulling ==> r == s
    ensures !s.pulling ==> r.velocity == (s.velocity - s.gravity * sine) * Damping
    ensures !s.pulling ==> -180.0 <= r.angle <= 180.0
    ensures !s.pulling && -180.0 <= s.angle + s.velocity - s.gravity * sine <= 180.0 ==>
      r.angle == s.angle + s.velocity - s.gravity * sine
    ensures Inv(s) && -1.0 <= sine <= 1.0 ==> Inv(r)
  {
    if s.pulling then s
    else
      var v := s.velocity - s.gravity * sine;
      var a := s.angle + v;
      var r := s.(velocity := v * Damping, angle := ClampAngle(a));
      if Inv(s) && -1.0 <= sine <= 1.0 then
        DampedVelocityBounded(s.velocity, s.gravity, sine);
        r
      else r
  }

  /** Gravity pulls back: a swing at rest on the right (positive sine) starts
      moving left, and one on the left starts moving right. */
  lemma GravityRestores(s: Swing, sine: real)
    requires !s.pulling && s.velocity == 0.0 && MinGravity <= s.gravity && -180.0 <= s.angle <= 180.0
    ensures sine > 0.0 ==> UpdatePhysics(s, sine).velocity < 0.0
    ensures sine < 0.0 ==> UpdatePhysics(s, sine).velocity > 0.0
    ensures sine == 0.0 ==> UpdatePhysics(s, sine).velocity == 0.0 && UpdatePhysics(s, sine).angle == s.angle
  {
    if sine > 0.0 {
      MulPositive(s.gravity, sine);
    } else if sine < 0.0 {
      MulPositive(s.gravity, -sine);
      assert s.gravity * (-sine) == -(s.gravity * sine);
      MulPositive(s.velocity - s.gravity * sine, Damping);
    } else {
      assert s.gravity * sine == 0.0;
    }
  }

  /** The angle `drawSwing` rotates by: the pull while held, else the swing's. */
  function DrawnAngle(s: Swing): (a: real)
    ensures Inv(s) ==> -180.0 <= a <= 180.0
    ensures s.pulling ==> a == s.pullAngle
    ensures !s.pulling ==> a == s.angle
  {
    if s.pulling then s.pullAngle else s.angle
  }

  /** One animation frame of `loop`: physics while running. */
  function Frame(s: Swing, sine: real): (r: Swing)
    ensures !s.running ==> r == s
    ensures s.running ==> r == UpdatePhysics(s, sine)
    ensures Inv(s) && -1.0 <= sine <= 1.0 ==> Inv(r)
  {
    if s.running then UpdatePhysics(s, sine) else s
  }

  /** `window._modeCleanup`: the loop stops, the resize listener, sliders and
      style go, and the canvas is replaced by a clone (`clone`). */
  function Cleanup(s: Swing, clone: nat): (r: Swing)
    requires clone != s.canvas
    ensures !r.running && !r.sliders && ResizeListener !in r.listeners
    ensures r.listeners == s.listeners - {ResizeListener} && r.canvas == clone && r.canvas != s.canvas
    ensures Inv(s) ==> Inv(r)
  {
    s.(running := false, sliders := false, listeners := s.listeners - {ResizeListener}, canvas := clone)
  }

  /** After cleanup the swing is frozen. */
  lemma FrozenAfterCleanup(s: Swing, clone: nat, sine: real)
    requires clone != s.canvas
    ensures Frame(Cleanup(s, clone), sine) == Cleanup(s, clone)
  {
  }

  datatype Event =
    | ForceInput(value: real)
    | ForceChange
    | GravityInput(value: real)
    | WindowResize(width: real)
    | AnimationFrame(sine: real)

  /** One event. Slider values outside their ranges and sines outside
      [-1, 1] cannot arise and are ignored; the sliders only fire while in
      the page. */
  function Step(s: Swing, e: Event): (r: Swing)
    ensures Inv(s) ==> Inv(r)
  {
    match e
    case ForceInput(v) => if s.sliders && 0.0 <= v <= 100.0 then Pull(s, v) else s
    case ForceChange => if s.sliders then Release(s) else s
    case GravityInput(v) => if s.sliders && MinGravity <= v <= MaxGravity then SetGravity(s, v) else s
    case WindowResize(w) => if ResizeListener in s.listeners then Resize(s, w) else s
    case AnimationFrame(x) => if -1.0 <= x <= 1.0 then Frame(s, x) else s
  }

  function Run(s: Swing, es: seq<Event>): Swing
    decreases |es|
  {
    if es == [] then s else Run(Step(s, es[0]), es[1..])
  }

  /** Whatever the user does with the sliders, the swing stays within ±180°
      and its speed within 4975 degrees per frame. */
  lemma {:induction false} SwingBounded(width: real, canvas: nat, es: seq<Event>)
    ensures Inv(Run(Load(width, canvas), es))
    ensures -180.0 <= DrawnAngle(Run(Load(width, canvas), es)) <= 180.0
  {
    RunFrom(Load(width, canvas), es);
  }

  lemma {:induction false} RunFrom(s: Swing, es: seq<Event>)
    requires Inv(s)
    ensures Inv(Run(s, es))
    decreases |es|
  {
    if es != [] {
      RunFrom(Step(s, es[0]), es[1..]);
    }
  }
}
