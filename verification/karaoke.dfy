/** The karaoke mode of music.js: a user-chosen audio or video file plays
    while the pet alternates between two dance frames. Modelled: the stop
    routine, the pause toggle, the `window._modeName` setter trap that stops
    playback, the document-wide click classifier, the file-change guard, the
    dance-frame interval and the image-readiness guard of the idle frame. */
module Karaoke {
  import opened Common
  import Text

  /** The element created for the chosen file. */
  datatype Player = Player(video: bool, url: nat, paused: bool)

  /** The pause button's caption ("Pause" or "Resume", each with an icon). */
  datatype PauseCaption = PauseCaption | ResumeCaption

  datatype Karaoke = Karaoke(
    loaded: nat,                 // pet images loaded so far (of 2)
    base: nat,                   // dance frame shown: 1 = base_music1, 2 = base_music2
    animationRunning: bool,
    toggle: bool,
    animInterval: bool,          // animationInterval is set
    progressInterval: bool,      // progressUpdater is set
    player: Option<Player>,      // mediaPlayer
    isPlaying: bool,
    isPaused: bool,
    currentMode: Option<string>,
    stored: Option<string>,      // _modeNameValue behind the window._modeName property
    pauseCaption: PauseCaption,
    progressShown: bool,
    progressWidth: real,         // progress bar width in percent
    pauseShown: bool,
    uploadValue: string,         // uploadInput.value
    urls: nat,                   // object URLs created so far (none is ever revoked)
    pickerOpens: nat)            // times the file picker was opened

  /** The state right after music.js ran; `previous` is the window's mode
      name at that moment. */
  function Loaded(previous: Option<string>): (k: Karaoke)
    ensures k.stored == (if previous == None || previous == Some("") then Some("none") else previous)
    ensures k.currentMode == Some("none") && !k.isPlaying && k.player.None?
  {
    Karaoke(0, 1, false, false, false, false, None, false, false, Some("none"),
      if previous == None || previous == Some("") then Some("none") else previous,
      PauseCaption, false, 0.0, false, "", 0, 0)
  }

  /** The playback flags, the timers, the player and the visible controls
      move together; the frame shown matches the toggle. */
  ghost predicate Inv(k: Karaoke)
  {
    && k.isPlaying == k.player.Some?
    && k.animationRunning == k.isPlaying
    && k.animInterval == k.isPlaying
    && k.progressInterval == k.isPlaying
    && k.progressShown == k.isPlaying
    && k.pauseShown == k.isPlaying
    && (k.isPaused ==> k.isPlaying && k.player.value.paused)
    && k.base == (if k.toggle then 2 else 1)
  }

  /** `stopKaraoke()`: no player, both intervals cleared, the flags down
      and the first frame shown. The pause caption is not reset. */
  function StopKaraoke(k: Karaoke): (r: Karaoke)
    ensures r.player.None? && !r.animInterval && !r.progressInterval
    ensures !r.animationRunning && !r.toggle && !r.isPlaying && !r.isPaused
    ensures r.base == 1 && !r.progressShown && r.progressWidth == 0.0 && !r.pauseShown
    ensures r.pauseCaption == k.pauseCaption && r.currentMode == k.currentMode && r.stored == k.stored
    ensures r.urls == k.urls && r.uploadValue == k.uploadValue && r.loaded == k.loaded
    ensures Inv(r)
  {
    k.(player := None, animInterval := false, progressInterval := false,
       animationRunning := false, toggle := false, progressShown := false,
       progressWidth := 0.0, pauseShown := false, base := 1,
       isPlaying := false, isPaused := false)
  }

  /** Stopping twice is stopping once. */
  lemma StopIdempotent(k: Karaoke)
    ensures StopKaraoke(StopKaraoke(k)) == StopKaraoke(k)
  {
  }

  /** The karaoke button: ignored while playing; otherwise the mode becomes
      "karaoke" and the file picker opens. */
  function KaraokeButton(k: Karaoke): (r: Karaoke)
    ensures k.isPlaying ==> r == k
    ensures !k.isPlaying ==> r == k.(currentMode := Some("karaoke"), pickerOpens := k.pickerOpens + 1)
  {
    if k.isPlaying then k
    else k.(currentMode := Some("karaoke"), pickerOpens := k.pickerOpens + 1)
  }

  /** The chosen file, by its MIME type. */
  datatype File = File(mime: string)

  predicate IsVideo(f: File)
  {
    |f.mime| >= 6 && f.mime[..6] == "video/"
  }

  /** The upload input's `change` handler: ignored without a file or while
      playing; otherwise a clean stop, then playback and the dance start.
      `started` is whether the first `play()` call succeeded (the
      tap-to-start fallback is not modelled). */
  function FileChosen(k: Karaoke, file: Option<File>, started: bool): (r: Karaoke)
    ensures file.None? || k.isPlaying ==> r == k
    ensures file.Some? && !k.isPlaying ==>
      && r.isPlaying && r.animationRunning && r.animInterval && r.progressInterval
      && r.player == Some(Player(IsVideo(file.value), k.urls, !started))
      && !r.isPaused && !r.toggle && r.base == 1
      && r.urls == k.urls + 1
    ensures Inv(k) ==> Inv(r)
  {
    if file.None? || k.isPlaying then k
    else
      var s := StopKaraoke(k);
      s.(isPlaying := true, player := Some(Player(IsVideo(file.value), s.urls, !started)),
         urls := s.urls + 1, animationRunning := true, animInterval := true,
         progressShown := true, pauseShown := true, progressInterval := true)
  }

  /** One firing of the 400 ms dance interval: the frame shown is 2 if the
      toggle was off and 1 if it was on, then the toggle flips. */
  function DanceTick(k: Karaoke): (r: Karaoke)
    ensures !k.animInterval ==> r == k
    ensures k.animInterval ==> r.base == (if k.toggle then 1 else 2) && r.toggle == !k.toggle
    ensures Inv(k) ==> Inv(r)
  {
    if !k.animInterval then k
    else k.(base := if k.toggle then 1 else 2, toggle := !k.toggle)
  }

  /** Two dance ticks show the frame the dance started from again. */
  lemma TwoTicksRestoreFrame(k: Karaoke)
    requires Inv(k) && k.animInterval
    ensures DanceTick(DanceTick(k)).base == k.base
    ensures DanceTick(DanceTick(k)).toggle == k.toggle
  {
  }

  /** One firing of the 100 ms progress interval: with a known, non-zero
      duration (`None` stands for NaN) the bar shows the elapsed share in
      percent; otherwise it is left as it is. */
  function ProgressTick(k: Karaoke, position: real, duration: Option<real>): (r: Karaoke)
    ensures !k.progressInterval || duration.None? || duration == Some(0.0) ==> r == k
    ensures k.progressInterval && duration.Some? && duration.value != 0.0 ==>
      r == k.(progressWidth := position / duration.value * 100.0)
    ensures k.progressInterval && duration.Some? && 0.0 <= position <= duration.value && duration.value != 0.0 ==>
      0.0 <= r.progressWidth <= 100.0
  {
    if !k.progressInterval || duration.None? || duration.value == 0.0 then k
    else k.(progressWidth := position / duration.value * 100.0)
  }

  /** The pause button: nothing without a player; otherwise each click
      flips `isPaused`, pauses or resumes the player and swaps the caption. */
  function PauseClick(k: Karaoke): (r: Karaoke)
    ensures k.player.None? ==> r == k
    ensures k.player.Some? ==>
      && r.isPaused == !k.isPaused
      && r.pauseCaption == (if k.isPaused then PauseCaption else ResumeCaption)
      && r.player == Some(k.player.value.(paused := !k.isPaused))
    ensures Inv(k) ==> Inv(r)
  {
    match k.player
    case None => k
    case Some(p) =>
      if !k.isPaused then k.(player := Some(p.(paused := true)), isPaused := true, pauseCaption := ResumeCaption)
      else k.(player := Some(p.(paused := false)), isPaused := false, pauseCaption := PauseCaption)
  }

  /** Two pause clicks give back the flag and the caption. */
  lemma PauseClickTwice(k: Karaoke)
    requires Inv(k) && k.player.Some?
    requires k.pauseCaption == (if k.isPaused then ResumeCaption else PauseCaption)
    requires k.player.value.paused == k.isPaused
    ensures PauseClick(PauseClick(k)) == k
  {
  }

  /** The `window._modeName` setter installed by music.js: the value is
      stored and becomes `currentMode`; playback is stopped (and the upload
      input cleared) only on a change away from exactly "karaoke". */
  function SetModeName(k: Karaoke, value: Option<string>): (r: Karaoke)
    ensures r.stored == value && r.currentMode == value
    ensures k.stored == Some("karaoke") && value != Some("karaoke") ==>
      r == StopKaraoke(k).(stored := value, currentMode := value, uploadValue := "")
    ensures !(k.stored == Some("karaoke") && value != Some("karaoke")) ==>
      r == k.(stored := value, currentMode := value)
  {
    var k1 := k.(stored := value);
    var k2 := if k.stored == Some("karaoke") && value != Some("karaoke")
              then StopKaraoke(k1).(uploadValue := "") else k1;
    k2.(currentMode := value)
  }

  /** The switchboard names a loaded mode by its label, so the stored name
      is "Karaoke Mode", not "karaoke": its later reset of the name to null
      does not stop playback. */
  lemma LabelNameDoesNotStop(k: Karaoke)
    requires k.stored == Some("Karaoke Mode") && k.isPlaying
    ensures SetModeName(k, None).isPlaying
    ensures SetModeName(k, None).player == k.player
  {
  }

  /** The id fragments that mark a mode button. */
  predicate IsModeId(low: string)
  {
    || Text.Contains(low, "feed") || Text.Contains(low, "troll") || Text.Contains(low, "bath")
    || Text.Contains(low, "dance") || Text.Contains(low, "game") || Text.Contains(low, "normal")
    || Text.Contains(low, "sleep") || Text.Contains(low, "mode")
  }

  /** The document-wide click listener; `id` is the clicked element's id
      ("" when it has none). */
  function DocumentClick(k: Karaoke, id: string): (r: Karaoke)
    ensures !(k.currentMode == Some("karaoke") && id != "" && id != "karaoke-btn" && IsModeId(Text.ToLower(id)))
      ==> r == k
    ensures k.currentMode == Some("karaoke") && id != "" && id != "karaoke-btn"
            && IsModeId(Text.ToLower(id)) ==>
      var name := Text.ReplaceFirst(Text.ToLower(id), "-btn", "");
      && !r.isPlaying && r.player.None? && !r.animInterval && r.uploadValue == ""
      && r.stored == Some(name) && r.currentMode == Some(name)
  {
    if k.currentMode == Some("karaoke") && id != "" && id != "karaoke-btn" then
      var low := Text.ToLower(id);
      if IsModeId(low) then
        var k1 := StopKaraoke(k).(uploadValue := "");
        var k2 := SetModeName(k1, Some(Text.ReplaceFirst(low, "-btn", "")));
        k2.(currentMode := k2.stored)
      else k
    else k
  }

  /** A click on the feed button while in karaoke stops playback and names
      the mode "feed". */
  lemma FeedButtonStopsKaraoke(k: Karaoke)
    requires k.currentMode == Some("karaoke") && k.isPlaying
    ensures var r := DocumentClick(k, "feed-btn");
      !r.isPlaying && r.stored == Some("feed")
  {
    FeedButtonMode();
    assert "feed-btn" != "karaoke-btn" by {
      assert |"feed-btn"| != |"karaoke-btn"|;
    }
  }

  /** The feed button's id, lower-cased and stripped of "-btn", is "feed". */
  lemma FeedButtonMode()
    ensures IsModeId(Text.ToLower("feed-btn"))
    ensures Text.ReplaceFirst(Text.ToLower("feed-btn"), "-btn", "") == "feed"
  {
    var low := Text.ToLower("feed-btn");
    assert low == "feed-btn";
    assert Text.OccursAt(low, "feed", 0);
    assert Text.IndexFrom(low, "-btn", 4) == 4;
    assert low[3..7][0] == 'd';
    assert Text.IndexFrom(low, "-btn", 3) == 4;
    assert low[2..6][0] == 'e';
    assert Text.IndexFrom(low, "-btn", 2) == 4;
    assert low[1..5][0] == 'e';
    assert Text.IndexFrom(low, "-btn", 1) == 4;
    assert low[0..4][0] == 'f';
    assert Text.IndexFrom(low, "-btn", 0) == 4;
    assert Text.ReplaceFirst(low, "-btn", "") == "feed";
  }

  /** An image `onload`: `drawn` reports whether the idle frame was drawn,
      which happens exactly when the second image arrives. */
  function ImageLoaded(k: Karaoke): (r: (Karaoke, bool))
    ensures r.0 == k.(loaded := k.loaded + 1)
    ensures r.1 <==> k.loaded + 1 == 2
  {
    var k' := k.(loaded := k.loaded + 1);
    (k', k'.loaded == 2)
  }

  /** `drawIdle()` draws nothing until both images have loaded. */
  function IdleFrame(k: Karaoke): (r: Option<nat>)
    ensures k.loaded < 2 ==> r.None?
    ensures k.loaded >= 2 ==> r == Some(1)
  {
    if k.loaded < 2 then None else Some(1)
  }

  /** Starting from a fresh load, one image is not enough to draw the idle
      frame, and the second image draws it. */
  lemma IdleNeedsBothImages(previous: Option<string>)
    ensures var k0 := Loaded(previous);
      var one := ImageLoaded(k0);
      var two := ImageLoaded(one.0);
      && !one.1 && IdleFrame(one.0).None?
      && two.1 && IdleFrame(two.0).Some?
  {
  }

  datatype Event =
    | ImageLoad
    | KaraokeClick
    | Chosen(file: Option<File>, started: bool)
    | Tick
    | Progress(position: real, duration: Option<real>)
    | Pause
    | NameSet(value: Option<string>)
    | Click(id: string)

  function Step(k: Karaoke, e: Event): (r: Karaoke)
    ensures Inv(k) ==> Inv(r)
  {
    match e
    case ImageLoad => ImageLoaded(k).0
    case KaraokeClick => KaraokeButton(k)
    case Chosen(f, started) => FileChosen(k, f, started)
    case Tick => DanceTick(k)
    case Progress(p, d) => ProgressTick(k, p, d)
    case Pause => PauseClick(k)
    case NameSet(v) => SetModeName(k, v)
    case Click(id) => DocumentClick(k, id)
  }

  function Run(k: Karaoke, es: seq<Event>): Karaoke
    decreases |es|
  {
    if es == [] then k else Run(Step(k, es[0]), es[1..])
  }

  /** In every reachable state, playback, timers, the player and the
      visible controls agree, and a paused flag means a paused player. */
  lemma {:induction false} RunKeepsInv(previous: Option<string>, es: seq<Event>)
    ensures Inv(Run(Loaded(previous), es))
  {
    RunFrom(Loaded(previous), es);
  }

  lemma {:induction false} RunFrom(k: Karaoke, es: seq<Event>)
    requires Inv(k)
    ensures Inv(Run(k, es))
    decreases |es|
  {
    if es != [] {
      RunFrom(Step(k, es[0]), es[1..]);
    }
  }
}
