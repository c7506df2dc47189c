/** Shared vocabulary of the pet modes: optional values, real-valued helpers
    for the canvas geometry, the few string operations the modes perform,
    and the identity of an event listener. */
module Common {

  /** JavaScript's `null` (or an absent property) versus a present value. */
  datatype Option<T> = None | Some(value: T)

  function Abs(x: real): (r: real)
    ensures r >= 0.0
    ensures r == x || r == -x
  {
    if x < 0.0 then -x else x
  }

  /** `Math.max` on two reals. */
  function Max(a: real, b: real): (r: real)
    ensures r >= a && r >= b
    ensures r == a || r == b
  {
    if a >= b then a else b
  }

  /** `Math.min` on two reals. */
  function Min(a: real, b: real): (r: real)
    ensures r <= a && r <= b
    ensures r == a || r == b
  {
    if a <= b then a else b
  }

  /** Products of positive (non-negative) reals are positive (non-negative). */
  lemma MulPositive(x: real, y: real)
    requires x > 0.0 && y > 0.0
    ensures x * y > 0.0
  {
  }

  lemma MulNonNegative(x: real, y: real)
    requires x >= 0.0 && y >= 0.0
    ensures x * y >= 0.0
  {
  }

  /** A fraction in [0, 1) of a positive amount is below the amount. */
  lemma MulBelow(a: real, d: real)
    requires 0.0 <= a < 1.0 && d > 0.0
    ensures 0.0 <= a * d < d
  {
    MulNonNegative(a, d);
    MulPositive(1.0 - a, d);
    assert (1.0 - a) * d == d - a * d;
  }

  /** The share `a * d` of a positive amount `d`, for a fraction `a` in [0, 1). */
  function Portion(a: real, d: real): (p: real)
    requires 0.0 <= a < 1.0 && d > 0.0
    ensures 0.0 <= p < d
  {
    MulBelow(a, d);
    a * d
  }

  /** A rectangle given by its top-left corner and its size. */
  datatype Box = Box(x: real, y: real, w: real, h: real)

  /** A rectangle given by its centre and its size, as the drag tests of the
      modes write it (`p.x > f.x - f.w/2 && p.x < f.x + f.w/2 ...`). */
  predicate StrictlyInsideCentred(px: real, py: real, cx: real, cy: real, w: real, h: real)
  {
    && px > cx - w / 2.0 && px < cx + w / 2.0
    && py > cy - h / 2.0 && py < cy + h / 2.0
  }
}

/** The string operations the mode scripts apply to element ids. Only the
    ASCII letters are case-mapped. */
module Text {

  /** `s` holds `sub` starting at position `i`. */
  predicate OccursAt(s: string, sub: string, i: int)
  {
    0 <= i && i + |sub| <= |s| && s[i..i + |sub|] == sub
  }

  /** `String.prototype.includes`. */
  predicate Contains(s: string, sub: string)
  {
    exists i :: 0 <= i <= |s| - |sub| && OccursAt(s, sub, i)
  }

  /** First position at or after `k` where `sub` occurs, or -1. */
  function IndexFrom(s: string, sub: string, k: nat): (r: int)
    requires k <= |s| + 1
    ensures r == -1 || (k <= r && OccursAt(s, sub, r))
    ensures r == -1 ==> forall j :: k <= j <= |s| - |sub| ==> !OccursAt(s, sub, j)
    ensures r >= 0 ==> forall j :: k <= j < r ==> !OccursAt(s, sub, j)
    decreases |s| + 1 - k
  {
    if k + |sub| > |s| then -1
    else if s[k..k + |sub|] == sub then k
    else IndexFrom(s, sub, k + 1)
  }

  /** `String.prototype.indexOf`: the first occurrence of `sub`, or -1. */
  function IndexOf(s: string, sub: string): (r: int)
    ensures r == -1 <==> !Contains(s, sub)
    ensures r >= 0 ==> OccursAt(s, sub, r)
    ensures r >= 0 ==> forall j :: 0 <= j < r ==> !OccursAt(s, sub, j)
  {
    IndexFrom(s, sub, 0)
  }

  /** `String.prototype.replace` with a string pattern: only the FIRST
      occurrence is replaced; without one the string is returned as is. */
  function ReplaceFirst(s: string, pat: string, rep: string): (r: string)
    ensures !Contains(s, pat) ==> r == s
    ensures Contains(s, pat) ==>
      exists i :: 0 <= i <= |s| - |pat| && OccursAt(s, pat, i)
        && (forall j :: 0 <= j < i ==> !OccursAt(s, pat, j))
        && r == s[..i] + rep + s[i + |pat|..]
  {
    var i := IndexOf(s, pat);
    if i < 0 then s else s[..i] + rep + s[i + |pat|..]
  }

  function LowerChar(c: char): (d: char)
    ensures 'A' <= c <= 'Z' ==> 'a' <= d <= 'z'
    ensures !('A' <= c <= 'Z') ==> d == c
  {
    if 'A' <= c <= 'Z' then (c as int - 'A' as int + 'a' as int) as char else c
  }

  function UpperChar(c: char): (d: char)
    ensures 'a' <= c <= 'z' ==> 'A' <= d <= 'Z'
    ensures !('a' <= c <= 'z') ==> d == c
  {
    if 'a' <= c <= 'z' then (c as int - 'a' as int + 'A' as int) as char else c
  }

  /** `String.prototype.toLowerCase` on ASCII letters. */
  function ToLower(s: string): (r: string)
    ensures |r| == |s|
    ensures forall i :: 0 <= i < |s| ==> r[i] == LowerChar(s[i])
  {
    seq(|s|, i requires 0 <= i < |s| => LowerChar(s[i]))
  }

  /** Lower-casing twice is lower-casing once, and a lower-case string has
      no upper-case ASCII letter. */
  lemma ToLowerIdempotent(s: string)
    ensures ToLower(ToLower(s)) == ToLower(s)
    ensures forall i :: 0 <= i < |s| ==> !('A' <= ToLower(s)[i] <= 'Z')
  {
  }

  /** `s.charAt(0).toUpperCase() + s.slice(1)`. */
  function Capitalize(s: string): (r: string)
    ensures |r| == |s|
    ensures |s| > 0 ==> r[0] == UpperChar(s[0]) && r[1..] == s[1..]
  {
    if |s| == 0 then "" else [UpperChar(s[0])] + s[1..]
  }
}

/** Identity of an event listener as the DOM sees it: `addEventListener`
    with the same target, event type and function reference a second time
    adds nothing, and `removeEventListener` removes by the same triple. The
    handler is named by the source's function name (`<arrow>` names an
    anonymous arrow function, which no later call can name). */
module Dom {

  datatype Target = Window | Document | Canvas

  datatype Listener = Listener(target: Target, event: string, handler: string)

  /** The listeners installed by `table.forEach(([ev, fn]) =>
      target.addEventListener(ev, fn))`. */
  function Table(t: Target, rows: seq<(string, string)>): (r: set<Listener>)
    ensures forall i :: 0 <= i < |rows| ==> Listener(t, rows[i].0, rows[i].1) in r
    ensures forall l :: l in r ==> l.target == t && (l.event, l.handler) in rows
    decreases |rows|
  {
    if rows == [] then {} else {Listener(t, rows[0].0, rows[0].1)} + Table(t, rows[1..])
  }

  /** The listeners of a target. */
  function On(s: set<Listener>, t: Target): (r: set<Listener>)
    ensures r <= s
    ensures forall l :: l in s && l.target == t ==> l in r
  {
    set l | l in s && l.target == t
  }
}
