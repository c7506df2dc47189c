/** The mode switchboard of pet_modes.js: the two-slot mode handle
    (`window._modeName`, `window._modeCleanup`), the one `<script>` element it
    tracks, and the status text. Loading a mode's code is abstracted: the
    inserted script either runs (and may set the handle) and fires `load`, or
    fails and fires `error`. */
module Switchboard {
  import opened Common
  import SoundManager

  /** What `window._modeCleanup` holds: nothing, a value that is not a
      function, or a mode's teardown (which may throw). */
  datatype Cleanup = NoCleanup | NotCallable | Callback(mode: string, throws: bool)

  /** The switchboard's observable actions, in the order they happen. */
  datatype Action =
    | Silenced(handles: seq<SoundManager.Handle>)
    | RanCleanup(mode: string)
    | CleanupFailed(mode: string)
    | RemovedScript(id: nat)
    | InsertedScript(id: nat, src: string)

  /** What a mode's code does to the handle when it runs: each slot is set
      to a new value or left alone (music.js sets no cleanup at all). */
  datatype ModeRun = ModeRun(setsCleanup: Option<Cleanup>, setsName: Option<Option<string>>)

  datatype Board = Board(
    name: Option<string>,          // window._modeName
    cleanup: Cleanup,              // window._modeCleanup
    tracked: Option<nat>,          // activeScriptEl
    inBody: set<nat>,              // inserted script elements still in document.body
    pending: map<nat, string>,     // inserted scripts whose load/error has not fired -> title
    nextScript: nat,               // identity of the next script element
    hint: Option<string>,          // text of #hint-text; None when the page has no such element
    sounds: SoundManager.Manager,  // window.SoundManager
    trace: seq<Action>)

  /** The board every page starts from, before the automatic first load. */
  function Initial(hasHint: bool, sounds: SoundManager.Manager): (b: Board)
    ensures Wf(b)
  {
    Board(None, NoCleanup, None, {}, map[], 0, if hasHint then Some("") else None, sounds, [])
  }

  /** Bookkeeping invariant: the only switchboard script left in the body is
      the tracked one, and every script identity is below the counter. */
  ghost predicate Wf(b: Board)
  {
    && (b.tracked.None? ==> b.inBody == {})
    && (b.tracked.Some? ==> b.inBody == {b.tracked.value} && b.tracked.value < b.nextScript)
    && (forall id :: id in b.pending ==> id < b.nextScript)
  }

  /** The actions of the `_modeCleanup` call: it runs only if it is a
      function, and its exception is caught (and logged). */
  function CleanupActions(c: Cleanup): (r: seq<Action>)
    ensures c.Callback? && !c.throws ==> r == [RanCleanup(c.mode)]
    ensures c.Callback? && c.throws ==> r == [RanCleanup(c.mode), CleanupFailed(c.mode)]
    ensures !c.Callback? ==> r == []
  {
    match c
    case Callback(m, throws) => if throws then [RanCleanup(m), CleanupFailed(m)] else [RanCleanup(m)]
    case _ => []
  }

  /** `unloadActiveMode()`. */
  function Unload(b: Board): (r: Board)
    ensures r.name == None && r.cleanup == NoCleanup && r.tracked == None
    ensures b.tracked.Some? ==> r.inBody == b.inBody - {b.tracked.value}
    ensures b.tracked.None? ==> r.inBody == b.inBody
    ensures r.trace == b.trace + CleanupActions(b.cleanup)
      + (if b.tracked.Some? then [RemovedScript(b.tracked.value)] else [])
    ensures r.pending == b.pending && r.nextScript == b.nextScript
    ensures r.hint == b.hint && r.sounds == b.sounds
    ensures Wf(b) ==> Wf(r) && r.inBody == {}
  {
    var t := b.trace + CleanupActions(b.cleanup);
    match b.tracked
    case Some(id) =>
      b.(name := None, cleanup := NoCleanup, tracked := None, inBody := b.inBody - {id},
         trace := t + [RemovedScript(id)])
    case None =>
      b.(name := None, cleanup := NoCleanup, trace := t)
  }

  /** `loadMode(src, label)`: silence every registered sound, unload the
      current mode, then insert and track one new script element. */
  function LoadMode(b: Board, src: string, title: string): (r: Board)
    ensures var stop := SoundManager.StopAll(b.sounds);
      var removal := if b.tracked.Some? then [RemovedScript(b.tracked.value)] else [];
      r.trace == b.trace + [Silenced(stop.stopped)] + CleanupActions(b.cleanup) + removal
        + [InsertedScript(b.nextScript, src)]
    ensures |r.sounds.active| == 0
    ensures r.name == None && r.cleanup == NoCleanup
    ensures r.tracked == Some(b.nextScript) && r.nextScript == b.nextScript + 1
    ensures r.pending == b.pending[b.nextScript := title]
    ensures r.hint == b.hint
    ensures Wf(b) ==> Wf(r) && r.inBody == {b.nextScript}
  {
    var stop := SoundManager.StopAll(b.sounds);
    var silenced := b.(sounds := stop.manager, trace := b.trace + [Silenced(stop.stopped)]);
    var u := Unload(silenced);
    var id := u.nextScript;
    u.(tracked := Some(id), inBody := u.inBody + {id}, pending := u.pending[id := title],
       nextScript := id + 1, trace := u.trace + [InsertedScript(id, src)])
  }

  /** The script `id` ran (`run` is what its code did to the handle) and its
      `load` event fired: the status shows the label and the name becomes
      the label, overwriting whatever name the mode's code set. A script
      removed by a later `loadMode` can still complete, since removing a
      script element whose fetch has started does not cancel it. */
  function OnLoad(b: Board, id: nat, run: ModeRun): (r: Board)
    ensures id !in b.pending ==> r == b
    ensures id in b.pending ==>
      && r.name == Some(b.pending[id])
      && (b.hint.Some? ==> r.hint == Some(b.pending[id] + " Loaded"))
      && (b.hint.None? ==> r.hint == None)
      && r.cleanup == (if run.setsCleanup.Some? then run.setsCleanup.value else b.cleanup)
      && r.pending == b.pending - {id}
      && r.tracked == b.tracked && r.inBody == b.inBody && r.trace == b.trace
    ensures Wf(b) ==> Wf(r)
  {
    if id !in b.pending then b
    else
      var title := b.pending[id];
      var c := if run.setsCleanup.Some? then run.setsCleanup.value else b.cleanup;
      b.(cleanup := c, name := Some(title),
         hint := if b.hint.Some? then Some(title + " Loaded") else None,
         pending := b.pending - {id})
  }

  /** The script `id` failed to load: the status reports the error and
      nothing else changes; there is no retry. */
  function OnError(b: Board, id: nat): (r: Board)
    ensures id !in b.pending ==> r == b
    ensures id in b.pending ==>
      && (b.hint.Some? ==> r.hint == Some("Error loading " + b.pending[id]))
      && (b.hint.None? ==> r.hint == None)
      && r == b.(hint := r.hint, pending := b.pending - {id})
    ensures Wf(b) ==> Wf(r)
  {
    if id !in b.pending then b
    else
      var title := b.pending[id];
      b.(hint := if b.hint.Some? then Some("Error loading " + title) else None,
         pending := b.pending - {id})
  }

  /** The mode buttons and what each loads: (script, label). */
  function Descriptor(buttonId: string): (r: Option<(string, string)>)
    ensures r.Some? <==>
      (buttonId in {"normal-btn", "karaoke-btn", "feed-btn", "shower-btn", "troll-btn", "sleep-btn"})
  {
    if buttonId == "normal-btn" then Some(("pet_script.js", "Normal Mode"))
    else if buttonId == "karaoke-btn" then Some(("music.js", "Karaoke Mode"))
    else if buttonId == "feed-btn" then Some(("pet_multi_feed.js", "Feeding Mode"))
    else if buttonId == "shower-btn" then Some(("pet_shower.js", "Shower Mode"))
    else if buttonId == "troll-btn" then Some(("trolling.js", "Trolling Mode"))
    else if buttonId == "sleep-btn" then Some(("pet_sleep.js", "Sleep Mode"))
    else None
  }

  /** A click on a mode button. */
  function Click(b: Board, buttonId: string): (r: Board)
    ensures Descriptor(buttonId).None? ==> r == b
    ensures Descriptor(buttonId).Some? ==>
      r.tracked == Some(b.nextScript) && b.nextScript in r.pending && r.pending[b.nextScript] == Descriptor(buttonId).value.1
  {
    match Descriptor(buttonId)
    case Some(d) => LoadMode(b, d.0, d.1)
    case None => b
  }

  /** The automatic first load of normal mode when the page opens. */
  function Start(hasHint: bool, sounds: SoundManager.Manager): (r: Board)
    ensures r.tracked == Some(0) && r.inBody == {0} && r.pending == map[0 := "Normal Mode"]
    ensures r.name == None && Wf(r)
  {
    LoadMode(Initial(hasHint, sounds), "pet_script.js", "Normal Mode")
  }

  /** Any board reached by a sequence of `loadMode` calls. */
  function LoadAll(b: Board, calls: seq<(string, string)>): Board
    decreases |calls|
  {
    if calls == [] then b else LoadAll(LoadMode(b, calls[0].0, calls[0].1), calls[1..])
  }

  /** At most one tracked script: however many modes are loaded in a row
      (the same one again included), exactly one switchboard script is left
      in the body, it is the tracked one, and it is the last inserted. */
  lemma {:induction false} OneScriptAfterLoads(b: Board, calls: seq<(string, string)>)
    requires Wf(b)
    requires |calls| > 0
    ensures var r := LoadAll(b, calls);
      Wf(r) && r.tracked == Some(r.nextScript - 1) && r.inBody == {r.nextScript - 1}
      && r.nextScript == b.nextScript + |calls|
    decreases |calls|
  {
    var b' := LoadMode(b, calls[0].0, calls[0].1);
    if |calls| > 1 {
      OneScriptAfterLoads(b', calls[1..]);
    }
  }

  /** Teardown before load: within one `loadMode`, the sounds are silenced
      first, the old teardown runs next, and the new script is inserted
      last. */
  lemma TeardownBeforeLoad(b: Board, src: string, title: string, mode: string, throws: bool)
    requires b.cleanup == Callback(mode, throws)
    ensures var r := LoadMode(b, src, title);
      var n := |b.trace|;
      && r.trace[n].Silenced?
      && r.trace[n + 1] == RanCleanup(mode)
      && r.trace[|r.trace| - 1] == InsertedScript(b.nextScript, src)
  {
  }

  /** A throwing teardown does not block the switch: the handle is cleared
      and the next mode loads and is named after its label. */
  lemma ThrowingTeardownContained(b: Board, mode: string, src: string, title: string, run: ModeRun)
    requires b.cleanup == Callback(mode, true)
    ensures var r := LoadMode(b, src, title);
      && CleanupFailed(mode) in r.trace
      && OnLoad(r, b.nextScript, run).name == Some(title)
  {
    var r := LoadMode(b, src, title);
    assert r.trace[|b.trace| + 2] == CleanupFailed(mode);
  }

  /** A mode that fails to load leaves the switchboard idle (no name, no
      teardown) with the error shown; the next button still loads a mode. */
  lemma FailedLoadLeavesIdle(b: Board, src: string, title: string, src2: string, title2: string, run: ModeRun)
    requires b.hint.Some?
    ensures var r := OnError(LoadMode(b, src, title), b.nextScript);
      && r.name == None && r.cleanup == NoCleanup
      && r.hint == Some("Error loading " + title)
      && var r2 := LoadMode(r, src2, title2);
         OnLoad(r2, r.nextScript, run).hint == Some(title2 + " Loaded")
  {
  }

  /** As written, the `load` handler overwrites the name a mode sets for
      itself: normal mode names itself "normal" but ends up named
      "Normal Mode", which is not the name script_plus.js waits for. */
  lemma LabelOverwritesModeName(b: Board, run: ModeRun)
    requires run.setsName == Some(Some("normal"))
    ensures var r := OnLoad(Click(b, "normal-btn"), b.nextScript, run);
      r.name == Some("Normal Mode") && r.name != Some("normal")
  {
  }
}
