/** The mode-aware connector of pet_link.js: it holds at most one cleanup
    callback returned by `window.initScriptPlus()`, storing it on the
    normal-mode signal and running it on the unload signal. No script of
    the page defines `initScriptPlus` or dispatches the signals, so both are
    inputs here. */
module PetLink {
  import opened Common

  /** What `plusCleanup` holds: null, a value that is not a function, or a
      callback (which may throw). */
  datatype Stored = Nothing | NotCallable | Callback(id: nat, throws: bool)

  /** What `window.initScriptPlus` is when the signal arrives: absent (or
      falsy), a truthy non-function (calling it throws a TypeError), a
      function that throws, or a function returning a value. */
  datatype InitHook = Absent | NotAFunction | Throws | Returns(result: Stored)

  datatype Link = Link(plusCleanup: Stored)

  /** `attachScriptPlus()`. The stored value is replaced by the hook's
      result without the old callback being invoked; an exception from the
      call escapes the listener before the assignment. */
  function Attach(l: Link, hook: InitHook): (r: Link)
    ensures hook.Returns? ==> r.plusCleanup == hook.result
    ensures !hook.Returns? ==> r == l
  {
    match hook
    case Returns(v) => Link(v)
    case _ => l
  }

  /** `detachScriptPlus()`: `invoked` is the callback that ran (its
      exception is swallowed); afterwards nothing is stored. */
  function Detach(l: Link): (r: (Link, Option<nat>))
    ensures r.0.plusCleanup == Nothing
    ensures l.plusCleanup.Callback? <==> r.1.Some?
    ensures l.plusCleanup.Callback? ==> r.1 == Some(l.plusCleanup.id)
  {
    match l.plusCleanup
    case Callback(id, _) => (Link(Nothing), Some(id))
    case _ => (Link(Nothing), None)
  }

  /** A second detach invokes nothing and changes nothing. */
  lemma DetachIdempotent(l: Link)
    ensures var once := Detach(l).0;
      Detach(once) == (once, None)
  {
  }

  /** Attaching twice loses the first callback: it is never invoked, and
      the next detach runs only the second. */
  lemma AttachOverwrites(l: Link, a: nat, b: nat)
    ensures var r := Attach(Attach(l, Returns(Callback(a, false))), Returns(Callback(b, false)));
      Detach(r).1 == Some(b)
  {
  }

  /** The page-level signals the connector listens to. */
  datatype Signal = NormalSignal(hook: InitHook) | UnloadSignal

  /** One signal: the normal signal attaches, the unload signal detaches. */
  function OnSignal(l: Link, s: Signal): (r: (Link, Option<nat>))
    ensures s.NormalSignal? ==> r == (Attach(l, s.hook), None)
    ensures s.UnloadSignal? ==> r == Detach(l)
  {
    match s
    case NormalSignal(h) => (Attach(l, h), None)
    case UnloadSignal => Detach(l)
  }

  /** The callbacks run over a sequence of signals. */
  function Invocations(l: Link, ss: seq<Signal>): (r: seq<nat>)
    decreases |ss|
  {
    if ss == [] then []
    else
      var step := OnSignal(l, ss[0]);
      (if step.1.Some? then [step.1.value] else []) + Invocations(step.0, ss[1..])
  }

  /** How many unload signals `ss` holds. */
  function Unloads(ss: seq<Signal>): nat
    decreases |ss|
  {
    if ss == [] then 0 else (if ss[0].UnloadSignal? then 1 else 0) + Unloads(ss[1..])
  }

  /** Over any sequence of signals each unload runs at most one callback,
      and a callback runs only on an unload: no more callbacks run than
      there are unload signals. */
  lemma {:induction false} AtMostOnePerUnload(l: Link, ss: seq<Signal>)
    ensures |Invocations(l, ss)| <= Unloads(ss)
    decreases |ss|
  {
    if ss != [] {
      AtMostOnePerUnload(OnSignal(l, ss[0]).0, ss[1..]);
    }
  }
}
