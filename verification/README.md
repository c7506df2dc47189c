# Zombiepet mode lifecycle, in Dafny

A model of the browser virtual pet "Zombiepet". The page shows one pet on one
canvas, and a row of mode buttons switches between play modes. This project
covers two things:

- The **mode switchboard** (`pet_modes.js`). It holds a two-slot mode handle:
  `window._modeName` and `window._modeCleanup`. It also tracks the one
  `<script>` element it inserted and writes a status line. On every mode
  change it silences the process-wide **sound registry** (`SoundManager`),
  runs the old mode's teardown, removes the old script and inserts the new
  one.
- The **state machine of each mode**. Each mode is a record of its
  variables, with one pure function per handler. A `Step`/`Run` pair
  replays any sequence of user events, frames and timer ticks. A
  `RunKeepsInv`-style lemma proves the mode's invariant holds in every
  reachable state. The modes are:
  - normal (`pet_script.js`);
  - sit-pose overlay (`script_plus.js`) with its connector (`pet_link.js`);
  - karaoke (`music.js`);
  - tic-tac-toe (`pet_xox.js`);
  - sleep (`pet_sleep.js`);
  - multi-food feeding (`pet_multi_feed.js`);
  - two-food feeding (`feed_mode.js`);
  - shower (`pet_shower.js`);
  - troll (`trolling.js`);
  - flap game (`pet_game.js`);
  - swing (`swing.js`).

The modules follow the files. Most modules have one `.dfy` file, named after
its mode. `common.dfy` holds three small modules: `Common` (`Option`, real
helpers), `Text` (the string operations the handlers use) and `Dom`
(listener identity).

Modelling choices:

- Values are exact: `real` for coordinates and velocities, `nat` for
  counters.
- Every nondeterministic or external input is a parameter:
  - `Math.random()` draws are reals in [0, 1);
  - `performance.now()`;
  - `Math.sin` of the swing angle;
  - pointer coordinates;
  - whether an image is cached;
  - whether the browser allows audio;
  - what a mode's code does when it runs.
- An image whose `src` the running script sets fires its `load` event only
  after that script, even when it comes from the cache and is already
  `complete` (the "update the image data" steps of the HTML Standard queue
  the event as a task). A load listener the script attaches therefore
  always hears it.
- A DOM listener is identified by its target, event name and handler
  function. This gives set semantics: adding the same listener twice adds it
  once.
- Teardowns that replace the canvas with a clone (shower, swing) give the
  state a new canvas identity.
- Where a handler keeps a reference that a "clear" operation dropped from
  its list, the model keeps the dropped record as an orphan target. This
  covers a food or duck held while the bath or the food list is cleared.

Several lemmas show behaviour of the code as written that its authors
probably did not mean. They document the code and are not findings:

- The switchboard's `load` handler overwrites the name a mode gives itself
  (`Switchboard.LabelOverwritesModeName`). As a result the sit overlay's
  first-load check never sees "normal".
- A replaced canvas keeps the sit overlay's listeners on the old element
  (`SitOverlay.ReplacedCanvasKeepsListeners`).
- In sleep mode, one release can put the pet straight to sleep
  (`SleepMode.OneReleaseSleeps`).
- In multi-food feeding:
  - a food held while the list is cleared can still be eaten
    (`MultiFeed.ClearedFoodStillFeeds`);
  - a second press leaves the first food held, untouched by gravity, until
    it is pressed and released again (`MultiFeed.SecondPressStrandsFirst`).
- In two-food feeding, a food close to the pet is eaten in the first frame
  (`FeedMode.NearFoodEatenAtOnce`).
- In shower mode, the bubble and foam buttons' wet look is undone by the
  next frame (`ShowerMode.BubbleLookUndone`).
- In troll mode:
  - a removed can still waters (`TrollMode.HiddenCanStillWaters`);
  - a stale touch flag mutes the next drag (`TrollMode.StaleTouchMutesNextDrag`).
- In the flap game:
  - a countdown outlives cleanup (`FlapGame.CountdownOutlivesCleanup`);
  - a restart keeps the pace reached (`FlapGame.RestartKeepsPace`);
  - the second initial pole starts two screens away
    (`FlapGame.SecondPoleTwoScreensAway`).
- In normal mode, a pet released under the ground rises by its depth, not
  by the `-15` of `endDrag`: the next frame, run as written, derives its
  velocity from the lift (`NormalMode.DeepReleaseRisesByDepth`).

Where the design description and the code disagree, the model follows the
code:

- **Who sets the mode name.** The design says each mode sets its own name as
  the last step of its start. In the code the switchboard's `load` handler
  then overwrites it with the button label (`pet_modes.js:60`).
- **Resources left behind by a teardown.** The design says repeated loads
  must never accumulate listeners. In the code several teardowns leave
  things behind:
  - sleep mode keeps its seven canvas listeners;
  - multi-food feeding keeps its resize listener;
  - normal mode keeps its unfired unlock listeners;
  - the flap game keeps its countdown interval and image-load listeners;
  - karaoke installs no `_modeCleanup` at all, so its window resize
    listener (`music.js:40`), its document click listener (`music.js:193`)
    and its `_modeName` accessor (`music.js:177`) survive every switch.

  Each mode's `Cleanup` contract states exactly what it removes.
- **Which failures reach the status line.** The design says a mode whose
  code fails to initialise is reported as an error. In the code only a
  failed script fetch fires `error` (`pet_modes.js:62-65`). A script that
  throws still fires `load`.
- **How the sit overlay is switched off.** The design says overlays switch
  off through mode-change signals. No script of the page dispatches
  `pet:mode:normal` or `pet:mode:unload`, so the model treats those signals
  as inputs.

## Model

| member | source | states |
|---|---|---|
| `SoundManager.Install` | pet_modes.js:4-28 | An existing registry is kept with its handles; a new one starts empty. |
| `SoundManager.Register` | pet_modes.js:7-9 | The handle is appended and every earlier handle keeps its position. |
| `SoundManager.Stop` | pet_modes.js:12-16 | A healthy handle ends paused at position 0; one whose `pause()` throws is untouched; one whose seek throws is paused but not rewound; source and volume never change. |
| `SoundManager.StopEach` | pet_modes.js:10-18 | Every handle is processed even when others throw, each as `Stop` describes, in order. |
| `SoundManager.StopAll` | pet_modes.js:10-18 | The registry ends empty; every healthy handle was paused and rewound, and every handle whose `pause()` did not throw is paused. |
| `SoundManager.StopAllIfLoaded` | pet_shower.js:6 | A loaded registry is emptied before the mode does anything else (the same guard opens swing.js:5 and the switchboard at pet_modes.js:52, and guards troll mode's teardown at trolling.js:279; trolling.js itself opens at lines 5-6 without it); with no registry nothing happens. |
| `SoundManager.PlayClone` | pet_modes.js:19-26 | A clone that can be made and has a volume in [0, 1] is registered at the end, playing, with the base's source; otherwise (an exception swallowed) the registry is unchanged. |
| `SoundManager.PlayCloneDefault` | pet_modes.js:19 | Without a volume, the clone plays at 0.9. |
| `SoundManager.RegisterThenStopAll` | pet_modes.js:7-18 | A handle registered last is stopped last and rewound, and the earlier handles are stopped exactly as without it. |
| `SoundManager.ClonesAreSilenced` | pet_modes.js:10-26 | However many clones a mode played, the next bulk stop leaves the registry empty with every one of them paused at position 0. |
| `Switchboard.Initial` | pet_modes.js:33-36 | The page starts with no mode, no teardown and no tracked script, in a consistent bookkeeping state. |
| `Switchboard.CleanupActions` | pet_modes.js:39-43 | The teardown runs only when it is a function, and a throwing teardown is logged rather than propagated. |
| `Switchboard.Unload` | pet_modes.js:38-49 | The name and teardown are cleared, the tracked script is removed and forgotten, the teardown's actions are recorded, and nothing else changes; a consistent board ends with no script in the body. |
| `Switchboard.LoadMode` | pet_modes.js:51-68 | The actions happen in order: silence the sounds, run the old teardown, remove the old script, insert the new one. Afterwards the registry is empty, the new script is the only one tracked and it awaits its load under its label. |
| `Switchboard.OnLoad` | pet_modes.js:57-61 | A pending script's load shows "<label> Loaded" and names the mode by its label, overwriting any name the mode set, while keeping the teardown the mode installed; an unknown script changes nothing. |
| `Switchboard.OnError` | pet_modes.js:62-65 | A pending script's failure shows "Error loading <label>" when the page has a hint element, and a page without one stays without. Nothing else changes: the switchboard stays idle. |
| `Switchboard.Descriptor` | pet_modes.js:70-94 | Exactly the six mode buttons load a mode. |
| `Switchboard.Click` | pet_modes.js:70-94 | A mode button starts loading its script under its label; any other element changes nothing. |
| `Switchboard.Start` | pet_modes.js:96-97 | The page opens by loading normal mode: one tracked script, pending as "Normal Mode". |
| `Switchboard.OneScriptAfterLoads` | pet_modes.js:51-68 | However many loads happen in a row, including the same mode again, exactly one switchboard script is left in the body, and it is the last one inserted. |
| `Switchboard.TeardownBeforeLoad` | pet_modes.js:52-56 | Within one load, the sounds are silenced first, the old teardown runs next and the new script is inserted last. |
| `Switchboard.ThrowingTeardownContained` | pet_modes.js:38-43 | A throwing teardown is recorded as failed, and the next mode still loads and gets its name. |
| `Switchboard.FailedLoadLeavesIdle` | pet_modes.js:62-65 | After a failed load there is no name and no teardown, the error is shown, and the next button still loads its mode. |
| `Switchboard.LabelOverwritesModeName` | pet_modes.js:60 | Normal mode names itself "normal", but ends up named "Normal Mode". |
| `SitOverlay.EnableSit` | script_plus.js:62-66 | Sitting turns on together with the pose override; an existing button reads "Normal". |
| `SitOverlay.DisableSit` | script_plus.js:68-72 | Sitting turns off together with the override; an existing button reads "Sit". |
| `SitOverlay.ToggleSit` | script_plus.js:74-76 | The sit flag flips, and the override follows it. |
| `SitOverlay.ToggleTwice` | script_plus.js:74-76 | Two toggles restore the state. |
| `SitOverlay.ExitSit` | script_plus.js:81-83 | Pressing the pet leaves the sit pose when it is on, and otherwise does nothing. |
| `SitOverlay.CreateButton` | script_plus.js:104-116 | A button already present is kept as is; otherwise a new "Sit" button appears with sitting off. |
| `SitOverlay.AttachExit` | script_plus.js:85-91 | Without a canvas nothing happens; otherwise the mousedown and touchstart exit listeners are on that canvas. |
| `SitOverlay.DetachExit` | script_plus.js:93-99 | Only the current canvas loses its exit listeners; listeners on any other element stay. |
| `SitOverlay.Init` | script_plus.js:121-127 | A second call while initialised changes nothing; a first call creates the button and attaches the exit listeners. |
| `SitOverlay.Cleanup` | script_plus.js:129-139 | Afterwards the overlay is uninitialised, not sitting, without an override or button, and the current canvas carries no exit listener. |
| `SitOverlay.CleanupIdempotent` | script_plus.js:129-139 | Cleaning up twice is cleaning up once. |
| `SitOverlay.InitIdempotent` | script_plus.js:121-127 | Initialising twice is initialising once. |
| `SitOverlay.PoseLoop` | script_plus.js:43-57 | Until both images are ready there is no sprite. After that the sprite is 135x230, and its frame flips once the timer passes 20 ticks. |
| `SitOverlay.OnNormal` | script_plus.js:144-147 | The normal-mode signal leaves one "Sit" button with sitting off and the exit listeners on the canvas. |
| `SitOverlay.Step` | script_plus.js:74-149 | Every event keeps the flag, the override and the button text in agreement. |
| `SitOverlay.RunKeepsInv` | script_plus.js:62-76 | From the script's start and its first-load check, whatever the window's mode name and canvas, in every state over any run of events the flag, the override and the button text agree. |
| `SitOverlay.FreshIsConsistent` | script_plus.js:16-29 | The state the script starts from (no button, sit off, counters at 0, images not loaded) satisfies the invariant, before and after a first-load check that does not initialise. |
| `SitOverlay.FirstLoad` | script_plus.js:154-156 | Only a mode name of exactly "normal" initialises the overlay when the script runs. |
| `SitOverlay.RepeatedNormalSignals` | script_plus.js:144-147 | Repeated normal-mode signals still leave exactly one button, with sitting off. |
| `SitOverlay.ReplacedCanvasKeepsListeners` | script_plus.js:93-99 | After the canvas is swapped for a clone, cleanup leaves the exit listeners on the old canvas element. |
| `PetLink.Attach` | pet_link.js:8-12 | The value `initScriptPlus()` returns replaces the stored callback, and the old one is never run. An absent or throwing hook changes nothing. |
| `PetLink.Detach` | pet_link.js:14-19 | A stored callback runs exactly once, and afterwards nothing is stored. |
| `PetLink.DetachIdempotent` | pet_link.js:14-19 | A second detach runs nothing and changes nothing. |
| `PetLink.AttachOverwrites` | pet_link.js:8-12 | After two attaches, the next detach runs only the second callback. |
| `PetLink.OnSignal` | pet_link.js:22-29 | The normal signal only attaches and runs nothing; the unload signal detaches. |
| `PetLink.AtMostOnePerUnload` | pet_link.js:14-29 | Over any sequence of signals, no more callbacks run than there are unload signals. |
| `Karaoke.Loaded` | music.js:14-31 | The mode starts idle with nothing playing. The stored mode name is the window's previous name, or "none" when that name was empty. |
| `Karaoke.StopKaraoke` | music.js:133-159 | No player, both intervals cleared, flags down, first dance frame, and the progress bar and pause button hidden. The mode name and upload value are untouched. |
| `Karaoke.StopIdempotent` | music.js:133-159 | Stopping twice is stopping once. |
| `Karaoke.KaraokeButton` | music.js:124-130 | While playing the button does nothing; otherwise the mode becomes "karaoke" and the file picker opens. |
| `Karaoke.FileChosen` | music.js:222-258 | Without a file, or while playing, nothing happens. Otherwise a video or audio player (by MIME type) is made from a new object URL, noted as blocked when autoplay is refused. Playback, the dance from its first frame and both intervals start. |
| `Karaoke.DanceTick` | music.js:245-248 | Each dance tick shows the other frame. |
| `Karaoke.TwoTicksRestoreFrame` | music.js:245-248 | Two dance ticks show the starting frame again. |
| `Karaoke.ProgressTick` | music.js:254-258 | With a known non-zero duration the bar is the played percentage, which lies in [0, 100] for a position within the track; otherwise nothing changes. |
| `Karaoke.PauseClick` | music.js:162-173 | Without a player nothing happens; otherwise each click flips the paused flag and the caption. |
| `Karaoke.PauseClickTwice` | music.js:162-173 | Two clicks on pause restore the state. |
| `Karaoke.SetModeName` | music.js:176-190 | The name is stored. Leaving "karaoke" for another name stops playback and clears the upload; any other write only records the name. |
| `Karaoke.LabelNameDoesNotStop` | music.js:176-190 | Writing no name while karaoke plays leaves playback running. |
| `Karaoke.DocumentClick` | music.js:193-219 | During karaoke, a click on a mode-like button other than karaoke's stops playback and renames the mode after the lower-cased id less "-btn"; any other click changes nothing. |
| `Karaoke.FeedButtonStopsKaraoke` | music.js:193-219 | The feed button stops karaoke and names the mode "feed". |
| `Karaoke.FeedButtonMode` | music.js:202-215 | The id "feed-btn" counts as a mode button and yields the mode name "feed". |
| `Karaoke.ImageLoaded` | music.js:16-21 | Each image load counts up, and the idle frame is drawn exactly when the count reaches two. |
| `Karaoke.IdleFrame` | music.js:43-52 | The idle frame appears only once both images have loaded. |
| `Karaoke.IdleNeedsBothImages` | music.js:14-21 | After one image load the idle frame is not drawn; after the second it is. |
| `Karaoke.Step` | music.js:124-258 | Every handler keeps the player, timers, flags and visible controls consistent. |
| `Karaoke.RunKeepsInv` | music.js:124-258 | In every reachable state the player, timers, flags and controls are consistent. |
| `TicTacToe.Line` | pet_xox.js:103-112 | There are eight winning lines, each of three cells on the board. |
| `TicTacToe.FirstWin` | pet_xox.js:113-115 | The answer is the owner of a complete line; there is none exactly when no line at or after `k` is complete. |
| `TicTacToe.CheckWinner` | pet_xox.js:102-117 | A win exactly when some line is complete, with the winner owning one. A draw exactly when no player has a line and the board is full. Ongoing exactly when no line exists and a cell is empty. |
| `TicTacToe.WinnerIsLineOwner` | pet_xox.js:102-117 | When only one player owns a line, that player wins, whatever the order of the lines. |
| `TicTacToe.Minimax` | pet_xox.js:151-177 | A win for O scores 10 - depth, a win for X scores depth - 10, and a draw scores 0. Every score lies within what a win at this depth is worth, and an unfinished board's score is bounded by the next depth's. |
| `TicTacToe.BestChild` | pet_xox.js:157-176 | The max or min over the empty cells' continuations lies within the next depth's bounds, and exists whenever a cell is empty. |
| `TicTacToe.BestMove` | pet_xox.js:134-149 | A full board is left alone. Otherwise O takes an empty cell with the highest score, the first such cell. |
| `TicTacToe.PlaceBest` | pet_xox.js:134-149 | Given the cells' scores, a full board is left alone; otherwise O takes the first empty cell that no empty cell outscores. |
| `TicTacToe.BestMoveTakesWin` | pet_xox.js:134-177 | If O can win with one move, the best move wins. |
| `TicTacToe.EmptyCells` | pet_xox.js:129 | The empty cells at or after `i`, all of them and only those. |
| `TicTacToe.RandomMove` | pet_xox.js:128-132 | A full board is left alone; otherwise O marks exactly one empty cell. |
| `TicTacToe.PickIndex` | pet_xox.js:131 | floor(rnd * n) is a valid position among n. |
| `TicTacToe.AiMove` | pet_xox.js:120-126 | O marks exactly one empty cell, if any. "Easy" plays at random, and any difficulty other than Easy or Medium plays the best move. |
| `TicTacToe.CellIndexAsWritten` | pet_xox.js:187-196 | The guard lets through every point of the closed board square, its far edges included. The index is then between 0 and 12. A point strictly inside the board addresses the index of the cell it lies in, as `CellIndex` gives it. |
| `TicTacToe.FloorIsBand` | pet_xox.js:194-195 | For a coordinate strictly inside the board, `Math.floor(v / cell)` is the third of the board the coordinate lies in. |
| `TicTacToe.InteriorClickAsIntended` | pet_xox.js:181-216 | A click strictly inside the board is handled exactly as by the half-open mapping; only a click on the far edges tells them apart. |
| `TicTacToe.ThirdsUpToThree` | pet_xox.js:194-195 | A coordinate of the closed board gives column or row 0 to 3. |
| `TicTacToe.EdgeClickMisplaced` | pet_xox.js:193-196 | A click on the top row's right edge marks cell 3, and a click on the bottom edge addresses index 9. |
| `TicTacToe.CellIndex` | pet_xox.js:187-196 | A cell is hit exactly when the point lies in the half-open board. The cell is one of the nine, and the point lies in that cell's third of the board in both axes. |
| `TicTacToe.Band` | pet_xox.js:194-195 | The column or row is the third of the board the coordinate lies in. |
| `TicTacToe.Reset` | pet_xox.js:219-224 | The board is empty, with no off-board marks. No result is recorded and the game is on; the difficulty is kept. |
| `TicTacToe.EmptyGridIsFresh` | pet_xox.js:220-222 | The emptied board is undecided and holds no X and no O. |
| `TicTacToe.ChooseDifficulty` | pet_xox.js:242-247 | The button id, capitalised, becomes the difficulty, and the game resets. |
| `TicTacToe.ButtonDifficulties` | pet_xox.js:235-247 | The three buttons give "Easy", "Medium" and "Hard". |
| `TicTacToe.Cue` | pet_xox.js:207-212 | The player's win plays yuck.mp3, the computer's win plays fail.mp3, and a draw plays nothing. |
| `TicTacToe.PetImage` | pet_xox.js:50-55 | base_play2 after the player's win, base_play1 after the computer's, base_play otherwise. |
| `TicTacToe.Click` | pet_xox.js:181-216 | A finished game restarts. Otherwise, for the index the click addresses as written: no index, an occupied cell or an off-board index already marked leaves the game unchanged. An empty cell gets X, X's count grows by one, and O's by one exactly when X did not decide the board. A new off-board index is recorded, X's count stays, and O gains one exactly when the board was undecided. No existing mark is overwritten, and a game that ends records its sound. Board, result, counts and off-board marks stay consistent. |
| `TicTacToe.ClickIndex` | pet_xox.js:187-196 | A canvas whose smaller side is not positive maps no click. Otherwise the click is taken relative to the centred board of 0.6 times that side and mapped as written. Any index is between 0 and 12. |
| `TicTacToe.ClickIntended` | pet_xox.js:181-216 | With the half-open mapping, no click makes an off-board mark. An X lands on the empty cell under the pointer. Board, result and counts stay consistent. |
| `TicTacToe.Answer` | pet_xox.js:200-213 | The computer marks one empty cell exactly when the board is undecided, so O's count grows by one then and X's never, and no earlier mark changes. The game is over exactly when the new board is decided, and then the result and its sound are recorded. |
| `TicTacToe.Turn` | pet_xox.js:198-215 | X lands on the chosen cell and no earlier mark changes. X's count grows by one, and O's by one exactly when X's mark left the board undecided. The game is over exactly when the board is decided; then the result is the board's outcome and its sound is added. Board, result and counts stay consistent. |
| `TicTacToe.CountsAfterTurn` | pet_xox.js:198-201 | X's move adds one X. The computer's reply, if any, adds one O. No mark already on the board is overwritten. |
| `TicTacToe.OffBoardTurn` | pet_xox.js:196-215 | An X at index 9 to 12 is recorded off the board. X's count stays, and O gains one exactly when the board was undecided. No earlier mark changes, and the invariant is kept. |
| `TicTacToe.CountsAfterReply` | pet_xox.js:128-149 | The computer's reply adds one O and no X, and every earlier mark stays. |
| `TicTacToe.OffBoardKeepsInv` | pet_xox.js:196-213 | An off-board mark followed by one O keeps the invariant. |
| `TicTacToe.BottomEdgeClickGivesAwayTurn` | pet_xox.js:187-201 | In any unfinished game, a click on the board's bottom edge places no X on the board, but the computer moves: O gains a mark and X does not. |
| `TicTacToe.BottomEdgeIsOffBoard` | pet_xox.js:187-196 | A click on the bottom edge of a 5 x 5 canvas's board addresses index 9. |
| `TicTacToe.Step` | pet_xox.js:181-247 | Every event, with clicks mapped as written, keeps the recorded result equal to the board's outcome. The mark counts, off-board marks included, stay in step. |
| `TicTacToe.RunKeepsInv` | pet_xox.js:181-247 | In every reachable game the result is the board's true outcome. Off-board marks lie at indices 9 to 12. X's marks plus off-board marks equal O's marks, or lead by one once X has finished the game. |
| `TicTacToe.StartIsConsistent` | pet_xox.js:22-25 | The starting game is consistent. |
| `SleepMode.Load` | pet_sleep.js:32-69 | The pet is shown and free, the bed normal and the blanket hidden. The ground is 100 above the bottom edge and the bed 300. |
| `SleepMode.StartDrag` | pet_sleep.js:81-109 | The pet and the blanket are each grabbed when shown and strictly under the point, independently; a grabbed pet stops. |
| `SleepMode.MoveDrag` | pet_sleep.js:112-121 | A held pet follows the pointer; otherwise a held blanket does; otherwise nothing changes. |
| `SleepMode.EndDrag` | pet_sleep.js:124-166 | Both drags end. A pet dropped over the bed goes to bed (preSleep, with the blanket out). The bed ends sleeping exactly when a blanket was dropped over a preSleep bed, and clicks are blocked from that moment. |
| `SleepMode.Click` | pet_sleep.js:169-207 | A blocked click, or one outside a sleeping bed, changes nothing. A click inside a sleeping bed wakes the pet beside the bed, with the blanket out. |
| `SleepMode.WokenPetBesideBed` | pet_sleep.js:169-207 | The woken pet is not over the bed, so it does not go straight back to sleep. |
| `SleepMode.Resize` | pet_sleep.js:218-222 | The bed follows the new height and the ground line does not move. |
| `SleepMode.Update` | pet_sleep.js:226-248 | Only a shown, released pet on a normal bed moves. It falls by its damped displacement plus gravity and lands on the ground. The quarter-speed bounce velocity set on landing is never used, because the next frame derives the velocity from the last two positions, so a landed pet stays on the ground. |
| `SleepMode.BedImage` | pet_sleep.js:258-263 | Each bed state has its own image. |
| `SleepMode.Cleanup` | pet_sleep.js:297-300 | The loop and the resize listener go; every canvas listener stays. |
| `SleepMode.Step` | pet_sleep.js:81-248 | A resize after its listener was removed by the teardown at pet_sleep.js:299 changes nothing. Every event keeps the pet shown exactly while the bed is normal. |
| `SleepMode.RunKeepsInv` | pet_sleep.js:81-248 | In every reachable state the pet is shown exactly while the bed is normal, only shown objects are held, and a sleeping bed has no blanket out. |
| `SleepMode.BlanketClickIgnored` | pet_sleep.js:150-165 | The click that ends the blanket drop cannot wake the pet it has just put to sleep. |
| `SleepMode.OneReleaseSleeps` | pet_sleep.js:124-166 | A press grabbing both the pet and a blanket over the bed puts the pet to sleep in one release. |
| `MultiFeed.Def` | pet_multi_feed.js:103-111 | Only garlic and the duck are disliked, ice lettuce and candy are icy, and chili is hot. |
| `MultiFeed.ButtonKind` | pet_multi_feed.js:344-356 | Exactly the seven toolbar ids spawn a food. |
| `MultiFeed.PoolSize` | pet_multi_feed.js:15-22 | Every pool holds two or three elements. |
| `MultiFeed.Load` | pet_multi_feed.js:9-232 | No food, no grip, a normal mood, the pet standing on the ground and the floor 10 above it. The six canvas listeners and the resize listener are on. |
| `MultiFeed.PlaySound` | pet_multi_feed.js:25-37 | One shared counter picks the pool element round robin; the call plays exactly one element and changes nothing else. |
| `MultiFeed.PlayQuack` | pet_multi_feed.js:42-44 | One quack at a pitch in [0.9, 1.1). |
| `MultiFeed.ShowBubble` | pet_multi_feed.js:89-96 | The text shows, and a new hide timer replaces the old one. |
| `MultiFeed.Spawn` | pet_multi_feed.js:113-132 | One new food, marked just spawned, is appended 300 above the pet and within 100 of it horizontally. Only a duck quacks. |
| `MultiFeed.SpawnTimer` | pet_multi_feed.js:128 | The food's grace period ends, whether it is in the list or held after a clear. |
| `MultiFeed.ClearFoods` | pet_multi_feed.js:134-136 | The list empties, and a held food stays held outside it. |
| `MultiFeed.FirstGrab` | pet_multi_feed.js:154-161 | The oldest shown food strictly under the point, or none. |
| `MultiFeed.Down` | pet_multi_feed.js:152-170 | That food is held and stopped; a miss changes nothing. |
| `MultiFeed.Move` | pet_multi_feed.js:172-179 | The held food follows the pointer and the grip is marked moved. |
| `MultiFeed.MoodFor` | pet_multi_feed.js:208-218 | Icy food gives brain freeze, hot food spiciness, and plain food happiness or disgust as liked. |
| `MultiFeed.CheckCollision` | pet_multi_feed.js:200-225 | A shown food past its grace period that touches the pet disappears, and a mood reset is scheduled. The mood and the bubble's text follow its kind. The sounds played so far are kept, and the kind's sound is added at volume 0.9 and rate 1. A duck adds a quack first, so it adds exactly two sounds, and any other food adds one. Anything else is left alone. |
| `MultiFeed.BubbleText` | pet_multi_feed.js:208-219 | Ice says "Brrr! 🧊", hot food says "Spicy! 🌶️", and other food says "Yummy!" when liked and "Yuck!" otherwise. |
| `MultiFeed.SoundFor` | pet_multi_feed.js:211-220 | The sound pool for each reaction. |
| `MultiFeed.Up` | pet_multi_feed.js:181-185 | The grip ends, the held food is released, and every other food is unchanged. The pet eats the held food, in the list or not, exactly when it was moved and passes the collision test. Then the mood and bubble follow its kind, a mood reset is scheduled, and sounds are added after the old ones. Otherwise mood, bubble, timers and sounds stay. A food of the list ends hidden exactly when it was hidden already or was eaten. |
| `MultiFeed.Fall` | pet_multi_feed.js:235-244 | A held or hidden food stays put. Above the floor a free food gains 0.6 of speed and moves by it. On or below the floor it is put on the floor, and its speed becomes minus 0.4 times the old speed, or 0 when that is below 0.8 in size. |
| `MultiFeed.RestingFoodStays` | pet_multi_feed.js:236-243 | A food resting on the floor stays. |
| `MultiFeed.ApplyGravity` | pet_multi_feed.js:234-246 | Every food falls on its own and nothing else changes. |
| `MultiFeed.Resize` | pet_multi_feed.js:285-289 | The ground follows the window and the pet stands on it; the food floor does not move. |
| `MultiFeed.Cleanup` | pet_multi_feed.js:362-367 | The canvas listeners and the spawn toolbar go and the bubble hides; the resize arrow stays and the loop keeps running. |
| `MultiFeed.Step` | pet_multi_feed.js:113-289 | An event whose listener or toolbar button has been removed by the teardown at pet_multi_feed.js:362-366 changes nothing. Every event keeps ids unique and ordered and the grip inside the list. |
| `MultiFeed.Handle` | pet_multi_feed.js:113-289 | Every handler keeps ids unique and ordered and the grip inside the list. |
| `MultiFeed.RunKeepsInv` | pet_multi_feed.js:113-289 | In every reachable state food ids are unique and ordered and the grip points into the list. |
| `MultiFeed.ClearedFoodStillFeeds` | pet_multi_feed.js:134-185 | A food held while the list is cleared can still be carried to the pet and eaten. |
| `MultiFeed.SecondPressStrandsFirst` | pet_multi_feed.js:152-185 | After a press on one food, a press on another and one release, the first food is still marked held, and a gravity step leaves it where it is. It stays held, untouched by gravity, until it is pressed and released again. |
| `MultiFeed.FirstGrabSame` | pet_multi_feed.js:154-161 | Holding and stopping foods does not change what a press grabs. |
| `FeedMode.Load` | feed_mode.js:5-67 | An apple (liked) and a candy (disliked), both shown and resting on the ground. The pet stands 250 above the ground, and the hint and the listeners are set. The mood is normal with no reset pending and no bubble, so the invariant holds from the start. |
| `FeedMode.FirstGrab` | feed_mode.js:79-86 | The first shown food strictly under the point, or none. |
| `FeedMode.Down` | feed_mode.js:77-88 | That food is marked held; foods held already stay held. |
| `FeedMode.Move` | feed_mode.js:89-97 | Every held food jumps to the pointer. |
| `FeedMode.Up` | feed_mode.js:98-100 | Every food is released. |
| `FeedMode.LastEaten` | feed_mode.js:109-122 | The last food a frame eats decides the mood. |
| `FeedMode.EatenCount` | feed_mode.js:109-122 | A frame eats no food exactly when no shown food touches the pet. |
| `FeedMode.CollideFrom` | feed_mode.js:110-121 | Every shown food touching the pet is hidden, each one schedules a mood reset, and the bubble timer runs once any is eaten. Earlier foods, the pet, the ground and the listeners are untouched. |
| `FeedMode.EatAt` | feed_mode.js:111-120 | A shown food touching the pet is hidden and sets mood, bubble and a pending reset by its liking. Any other food changes nothing. |
| `FeedMode.CollideFromMood` | feed_mode.js:110-121 | The last food eaten decides the mood and the bubble. With nothing eaten, both stay. |
| `FeedMode.Collide` | feed_mode.js:109-122 | A food ends hidden exactly when it was hidden or a shown food touching the pet. |
| `FeedMode.CollideSettles` | feed_mode.js:109-122 | A second frame with nothing moved eats nothing more. |
| `FeedMode.NearFoodEatenAtOnce` | feed_mode.js:51-63 | A food within 140 of the pet horizontally is eaten by the first frame, untouched. |
| `FeedMode.EatenStaysHidden` | feed_mode.js:77-164 | An eaten food stays hidden after any event. |
| `FeedMode.Resize` | feed_mode.js:156-164 | The ground and the pet follow the window, and a food too low is lifted onto the ground; visibility is kept. |
| `FeedMode.Cleanup` | feed_mode.js:168-173 | The loop stops, the bubble hides, and every listener of the mode goes. |
| `FeedMode.CleanupRemovesAll` | feed_mode.js:102-173 | A cleanup right after loading leaves no listener at all. |
| `FeedMode.Step` | feed_mode.js:77-171 | A pointer or resize event after its listener was removed changes nothing; timers already set still fire. Every event keeps two foods, a pending reset for a mood and a timer for a shown bubble. |
| `FeedMode.RunKeepsInv` | feed_mode.js:77-164 | From the script's start, over any run of events, there are two foods, any mood but the normal one has a reset pending, and a shown bubble has a hide timer. |
| `FeedMode.EatenStaysHiddenRun` | feed_mode.js:109-122 | Over any run, an eaten food stays eaten. |
| `ShowerMode.TouchingSymmetric` | pet_shower.js:297-304 | Touching is symmetric, and a rectangle touches itself. |
| `ShowerMode.Size` | pet_shower.js:121-141 | A duck is 150x150 and a conehead 100x150. |
| `ShowerMode.PoolSize` | pet_shower.js:48-54 | Quack has three elements; splash, bubble, foam and conehead have two; any other key has no pool. |
| `ShowerMode.Load` | pet_shower.js:5-41 | No duck or conehead, nothing held, the dry look, the ground 100 above the bottom and the pet 400 above the ground. The loop is running and the canvas carries the listeners. |
| `ShowerMode.PlaySound` | pet_shower.js:57-69 | A key without a pool does nothing. Otherwise one element is played, chosen round robin by the shared counter. |
| `ShowerMode.RoundRobin` | pet_shower.js:57-61 | Two sounds in a row from one pool use consecutive elements. |
| `ShowerMode.SpawnDuck` | pet_shower.js:120-131 | One duck at the top edge within the canvas width less 100, at rest, plus a quack at a pitch in [0.9, 1.1). |
| `ShowerMode.SpawnCone` | pet_shower.js:133-146 | One conehead likewise, with its sound at a pitch in [0.95, 1.05). |
| `ShowerMode.BathEffect` | pet_shower.js:147-155 | The bubble and foam buttons play their sound and set the wet look. |
| `ShowerMode.ClearBath` | pet_shower.js:157-161 | Both lists empty and the look is dry; a held item stays the drag target. |
| `ShowerMode.NewestHit` | pet_shower.js:200-215 | The newest item containing the point, or none. |
| `ShowerMode.StartDrag` | pet_shower.js:183-233 | The sponge first, then the newest duck, then the newest conehead. The grabbed point stays under the pointer and a grabbed item stops; a miss changes nothing. |
| `ShowerMode.MoveDrag` | pet_shower.js:235-241 | The target keeps the grab offset to the pointer. |
| `ShowerMode.StopDrag` | pet_shower.js:243-252 | Without a target nothing changes. Otherwise the target is cleared. The sponge stops being dragged; a grabbed duck or cone is let go with its vertical speed set to 0. Every other duck and cone, the sponge's flag when it was not the target, and every other field stay as they were. |
| `ShowerMode.Fall` | pet_shower.js:367-376 | A held item stays. A free one gains 0.5 and, when it ends below the ground, is put on it with its velocity reversed and cut to 30%. |
| `ShowerMode.Wash` | pet_shower.js:356-363 | The look is wet exactly while the sponge touches the hitbox, and turning wet plays one splash. |
| `ShowerMode.Frame` | pet_shower.js:329-396 | Nothing happens once stopped. Otherwise the look follows the sponge and every duck and conehead falls. |
| `ShowerMode.SplashOncePerTouch` | pet_shower.js:357-360 | A second frame with the sponge still on the pet plays nothing. |
| `ShowerMode.BubbleLookUndone` | pet_shower.js:147-150 | The wet look from the bubble button lasts until the next frame when the sponge is away. |
| `ShowerMode.Cleanup` | pet_shower.js:408-415 | The loop stops, the toolbar goes, and the canvas is replaced by a clone without listeners. |
| `ShowerMode.NoFrameAfterCleanup` | pet_shower.js:329-330 | After cleanup no frame changes anything. |
| `ShowerMode.Step` | pet_shower.js:120-262 | A toolbar button after the toolbar was removed by the teardown at pet_shower.js:408-415, or a pointer event on a canvas without listeners, changes nothing. Every event keeps the drag target a held object of its list. |
| `ShowerMode.RunKeepsInv` | pet_shower.js:166-252 | In every reachable state the drag target is a held object of its list. |
| `TrollMode.RegisterSounds` | trolling.js:36-43 | With a registry, the three original sounds are appended, paused; without one nothing happens. |
| `TrollMode.Load` | trolling.js:5-25 | The plain face, water mode off, the can at home, no water playing, and every listener on. |
| `TrollMode.AtMostOneWaterLoop` | trolling.js:58-66 | The invariant means at most one water loop is audible. |
| `TrollMode.StopWater` | trolling.js:58-66 | The active clone is paused and forgotten. |
| `TrollMode.StopWaterIdempotent` | trolling.js:58-66 | Stopping twice is stopping once. |
| `TrollMode.HammerDown` | trolling.js:127-134 | The hammered face and one hammer sound. |
| `TrollMode.HammerUp` | trolling.js:136-145 | Back to the plain face, whatever was showing. |
| `TrollMode.HammerIsHeld` | trolling.js:127-145 | The hammered face lasts only while the button is held. |
| `TrollMode.Butter` | trolling.js:150-156 | The buttered face and one butter sound. |
| `TrollMode.ToggleWater` | trolling.js:161-171 | Water mode flips; turning it off silences the water and puts the can home, but keeps the touch flag. |
| `TrollMode.ToggleTwiceAtRest` | trolling.js:161-171 | Two toggles with the can at rest restore the state. |
| `TrollMode.HitSymmetric` | trolling.js:179-181 | The hit test is symmetric, and touching edges are no hit. |
| `TrollMode.StartDrag` | trolling.js:188-197 | Only in water mode, and only on the can (edges included), does a press grab; grabbing silences the water. |
| `TrollMode.DragMove` | trolling.js:199-216 | The can follows the pointer. Arriving on the pet wets it and starts one new loop, leaving stops it, and the touch flag equals the can being on the pet. |
| `TrollMode.EndDrag` | trolling.js:218-226 | A dragged can goes home, silenced. |
| `TrollMode.Remove` | trolling.js:243-248 | The plain face, no water and water mode off; the drag is not ended. |
| `TrollMode.HiddenCanStillWaters` | trolling.js:199-248 | A can still held when Remove is pressed waters the pet with water mode off. |
| `TrollMode.StaleTouchMutesNextDrag` | trolling.js:161-216 | Turning water off with the can on the pet makes the next drag onto the pet silent. |
| `TrollMode.Resize` | trolling.js:14-18 | The ground follows the window; the pet stays. |
| `TrollMode.Cleanup` | trolling.js:273-282 | The loop stops, the toolbar and every listener go, the water stops and the registry is emptied. |
| `TrollMode.SilentAfterCleanup` | trolling.js:273-282 | After cleanup no water loop plays. |
| `TrollMode.Step` | trolling.js:127-248 | An event whose listener or toolbar button has been removed by the teardown at trolling.js:275-277 changes nothing. Every event keeps only the active water clone playing. |
| `TrollMode.Handle` | trolling.js:127-248 | Every handler keeps only the active water clone playing. |
| `TrollMode.OneWaterLoopEver` | trolling.js:58-226 | However the user plays, at most one water loop is ever playing. |
| `FlapGame.GapIsPassable` | pet_game.js:140-152 | A zombie away from the pole's column never collides, and a gap of at least 101 lets a zombie at its top through. |
| `FlapGame.Initial` | pet_game.js:4-54 | The four window listeners are on, the pace is the starting one, the counter is 3, and nothing runs. No load listener waits when every image was complete at the check; otherwise all three images have one. |
| `FlapGame.Scale` | pet_game.js:119 | A scaled draw lies in [lo, hi). |
| `FlapGame.NewPole` | pet_game.js:116-132 | The pole's top lies between 80 and the maximum, and its gap is the current one. |
| `FlapGame.SpawnPole` | pet_game.js:116-132 | The new pole is appended and marks the spawn point. |
| `FlapGame.MaybeSpawn` | pet_game.js:134-137 | A pole spawns exactly when the world has scrolled 250 past the last spawn. |
| `FlapGame.ResetGame` | pet_game.js:70-86 | The zombie is back at a quarter of the width and mid-height, with two initial poles, score 0 and the world scroll at 0; the speed and gap are kept. |
| `FlapGame.Hit` | pet_game.js:155-161 | A living zombie dies once: the game is over, the fail sound plays and the restart button shows. |
| `FlapGame.PassPole` | pet_game.js:254-267 | The pole moves left by the speed and kills a living zombie it hits. First passing it scores one, and a score that is no fifth point leaves the pace alone. Pace bounds and the gap floor hold. |
| `FlapGame.Score` | pet_game.js:261-266 | The score rises by one. Every fifth point narrows the gap by 6 while above 160 and adds 0.2 to the speed, capped at 7.5; other points change neither. |
| `FlapGame.NewlyPassed` | pet_game.js:262-266 | Counts the poles newly passed. |
| `FlapGame.Sweep` | pet_game.js:253-268 | The score rises by the poles newly passed; the pace stays within bounds and never slows. |
| `FlapGame.SweepAndPrune` | pet_game.js:253-269 | Every pole moves and collides, and the poles off the left edge go. The score never drops, and the pace never slows nor exceeds 7.5. |
| `FlapGame.OnScreen` | pet_game.js:269 | Exactly the poles not fully off the left edge stay. The result is a subsequence of the input, so their order and repetitions are kept. |
| `FlapGame.Fly` | pet_game.js:278-286 | Gravity, then the floor (which kills) and the ceiling. |
| `FlapGame.LoopBody` | pet_game.js:273-294 | The world scrolls by the speed, the score never drops, only poles still on screen remain, and the pace never slows nor exceeds 7.5. |
| `FlapGame.Frame` | pet_game.js:273-294 | The loop stops for good once the game is over. |
| `FlapGame.Flap` | pet_game.js:89-93 | Only a living zombie in a started game jumps, with the jump sound. |
| `FlapGame.KeyDown` | pet_game.js:95-100 | Only space, up and w flap, and only while the listener is on. |
| `FlapGame.PointerDown` | pet_game.js:101-109 | A press flaps unless it is on a button. |
| `FlapGame.RestartClick` | pet_game.js:181-185 | The button goes, the frame is cancelled, and the countdown starts at 3. |
| `FlapGame.Begin` | pet_game.js:219-239 | The game starts and loops, and its pace never slows. |
| `FlapGame.CountdownTick` | pet_game.js:219-239 | The count drops, and after "Ready!" the interval stops and the game restarts. |
| `FlapGame.CountdownTakesFiveTicks` | pet_game.js:219-239 | The countdown restarts the game on its fifth tick. |
| `FlapGame.Launch` | pet_game.js:304-317 | The game begins and the mode button shows; the load listeners and counter are left as they were. |
| `FlapGame.Load` | pet_game.js:303-322 | With every image complete the game starts at once and no load listener waits. Otherwise nothing runs yet, and all three images wait for their load event. |
| `FlapGame.ImageLoaded` | pet_game.js:311-319 | A waiting image's load removes its listener and drops the count by one; the game starts when the count reaches zero. A load with no listener changes nothing. |
| `FlapGame.LoadCounts` | pet_game.js:310-318 | One load event removes its image's listener, if still waiting, and counts it down; the game starts exactly when that was the last listener waiting. |
| `FlapGame.LoadsCount` | pet_game.js:310-318 | Over any sequence of load events, the waiting listeners are exactly those whose image has not fired, and the counter equals their number until the start. The game has started exactly when it had before, or every waiting image has fired. |
| `FlapGame.LoadsStartGame` | pet_game.js:303-322 | The game runs exactly when every image was complete at the check, or all three images have fired their load event, in any order and with any repeats. |
| `FlapGame.StartsOnThirdLoad` | pet_game.js:310-318 | With an image not yet complete, the three load events start the game on the third and not before, in any order. |
| `FlapGame.Cleanup` | pet_game.js:325-335 | The frame is cancelled, the four listeners and both buttons go, and the game is over. |
| `FlapGame.NoFlapAfterCleanup` | pet_game.js:95-109 | After cleanup no key or press flaps. |
| `FlapGame.CountdownOutlivesCleanup` | pet_game.js:219-239 | A countdown still running at cleanup restarts the game on its last tick. |
| `FlapGame.RestartKeepsPace` | pet_game.js:70-86 | A restart keeps the gap and speed reached. |
| `FlapGame.SecondPoleTwoScreensAway` | pet_game.js:121 | The second initial pole starts a window width past the first plus 250. |
| `FlapGame.Resize` | pet_game.js:9-18 | The window's new size is recorded for later spawns, resets and the floor. |
| `FlapGame.Step` | pet_game.js:89-335 | Every event keeps the gap, speed and pole gaps within bounds. A window resize always updates the size that later code reads. |
| `FlapGame.PaceBounded` | pet_game.js:116-268 | However long the game runs and restarts, the gap stays in [158, 230], the speed in [3.8, 7.5], and every pole's gap at least 158. |
| `NormalMode.Initial` | pet_script.js:10-40 | The pet stands on the ground in the middle, at rest, with every listener installed. |
| `NormalMode.Unlock` | pet_script.js:56-66 | The firing once-listener goes, and the audio unlocks when the play is allowed. |
| `NormalMode.StartDrag` | pet_script.js:93-102 | A press strictly inside the pet grabs it. |
| `NormalMode.MoveDrag` | pet_script.js:103-109 | A held pet's centre follows the pointer. |
| `NormalMode.EndDrag` | pet_script.js:110-131 | The pet starts from rest at the release point. Released under the ground, it is lifted onto it with velocity -15 and a soft thud. |
| `NormalMode.Volume` | pet_script.js:198-199 | The thud volume is 0.2 plus a thirtieth of the impact up to an impact of 24, at least 0.2 for any impact, and never above 1. |
| `NormalMode.Integrate` | pet_script.js:157-226 | A free pet moves by its damped displacement plus gravity. A landing sits exactly on the ground and thuds when the impact exceeds 2 and the cooldown allows. No frame ends with the pet under the ground. |
| `NormalMode.UpdateAsWritten` | pet_script.js:157-226 | `update()` with the inclusive submerged test of line 180. |
| `NormalMode.Update` | pet_script.js:157-226 | `update()` with the strict test: only a pet actually under the ground counts as an impact. |
| `NormalMode.RestingPetThuds` | pet_script.js:175-199 | A pet resting on the ground thuds every frame the cooldown allows. |
| `NormalMode.RestingPetQuiet` | pet_script.js:175-199 | With the strict test a resting pet stays put, in silence. |
| `NormalMode.StartIsRestingOnGround` | pet_script.js:10-40 | The starting pet is such a resting pet. |
| `NormalMode.DeepReleaseRisesByDepth` | pet_script.js:110-131 | A pet released more than 2 below the ground, followed by one frame of the update as written, rises by 0.985 times the depth less gravity, not by 15: the lift is not a landing. |
| `NormalMode.Draw` | pet_script.js:234-246 | The pet stands on the ground, falls fast, or flaps, switching frame after 10 ticks. |
| `NormalMode.Frame` | pet_script.js:250-257 | Nothing happens once the loop is cancelled. Otherwise `update()` as written (the inclusive test of line 180), then draw. A pet that is not held ends on or above the ground, and the invariant is kept. |
| `NormalMode.Resize` | pet_script.js:144-153 | The ground follows the window, and a pet below it is put on it. |
| `NormalMode.Cleanup` | pet_script.js:260-264 | The frame and the canvas and resize listeners go; the unfired unlock listeners stay. |
| `NormalMode.Step` | pet_script.js:93-257 | Every event keeps the invariant: the flap counters stay in range, a pet that is not held is on or above the ground, and every thud's volume is in [0, 1]. |
| `NormalMode.RunKeepsInv` | pet_script.js:93-257 | Over any session, the flap counters stay in range, and a pet that is not held is never left under the ground. Every thud was played at a volume between 0 and 1. |
| `SwingMode.Load` | swing.js:14-40 | The pendulum hangs still from 250 above the top centre under gravity 9.8. |
| `SwingMode.Resize` | swing.js:33-38 | The pivot moves to the new top centre; the swing is untouched. |
| `SwingMode.Pull` | swing.js:112-116 | The swing is held at a pull of value/100 times 50 degrees to the left. |
| `SwingMode.Release` | swing.js:118-125 | The swing is let go from the pull angle at rest, and the slider is back at 0. |
| `SwingMode.PullThenRelease` | swing.js:112-125 | Pulling to `value` and letting go starts the swing at -value/2 degrees. |
| `SwingMode.SetGravity` | swing.js:130-132 | The gravity slider sets the gravity. |
| `SwingMode.AccelBounded` | swing.js:141 | The gravity term is at most the gravity in size. |
| `SwingMode.DampedVelocityBounded` | swing.js:141-144 | From a velocity within 4975, adding the gravity term and damping by 0.995 gives a velocity within 4975 again. |
| `SwingMode.UpdatePhysics` | swing.js:137-149 | While held nothing moves. Otherwise the angle moves by the accelerated velocity within ±180, and the velocity is damped by 0.995. |
| `SwingMode.GravityRestores` | swing.js:137-149 | A swing at rest on either side starts moving back toward the centre. |
| `SwingMode.DrawnAngle` | swing.js:157 | The pull is drawn while held, the swing's angle otherwise, within ±180. |
| `SwingMode.Frame` | swing.js:186-192 | Physics while running; frozen otherwise. |
| `SwingMode.Cleanup` | swing.js:197-207 | The loop stops, the listener and sliders go, and the canvas is replaced by a clone. |
| `SwingMode.FrozenAfterCleanup` | swing.js:197-207 | After cleanup no frame moves the swing. |
| `SwingMode.Step` | swing.js:112-192 | Every event keeps the swing within its bounds. |
| `SwingMode.SwingBounded` | swing.js:112-192 | Whatever the user does, the angle stays within ±180 and the velocity within 4975. |

## Left out

- FlapGame.ImageLoaded: a second load event from an image that has already
  fired is ignored, where the listener in the code would count it again.
  Each image's source is set once (`pet_game.js:32-34`), so it fires its
  load event at most once.
- Drawing: canvas painting, images, sizes, fonts, CSS styling and the
  drag-scroll toolbars of the multi-food, shower and troll modes. These
  produce no state the model observes.
- Media playback itself: actual audio and video output, object URLs,
  `play()` promises, and the tap-to-play overlay of `music.js:260-289`. A
  sound is modelled only by being recorded as played.
- Timers and animation frames are modelled as events. Only the handler's
  effect is modelled, not its scheduling.
- Script injection and execution are abstracted (`pet_modes.js:55-56`).
  What a mode's code does when it runs is an input of `Switchboard.OnLoad`.
- Floating-point rounding: arithmetic is exact. `Math.sin` is a parameter.
- The modes are modelled one by one, not as one composed page. Examples are
  the karaoke setter intercepting the switchboard's name writes, and the sit
  overlay reacting to signals nobody sends. The signals
  `pet:mode:normal`/`pet:mode:unload` and `window.initScriptPlus` are
  inputs.
- Writes of `window._modeName` inside the modes are not tracked, except
  where the switchboard and karaoke react to them.
- The tic-tac-toe mode's teardown (`pet_xox.js:252-255`) only removes a
  resize listener and the button bar, which the model does not track.
- TrollMode.HammerDown, TrollMode.Butter, TrollMode.DragMove: a sound clone in troll mode always succeeds. The
  exception path of `playSound` is not modelled.
- FlapGame.Resize: the device-pixel-ratio canvas sizing is not modelled.
  Only the logical size is kept.
- FlapGame.Frame: a frame before the game has started is ignored.
- TicTacToe.Minimax: requires depth plus the number of empty cells to be at
  most 9. This holds for every call `bestMove` makes, since the search
  always starts right after O's move.
- TicTacToe.CellIndex: a board of size zero (a zero-sized window) hits no
  cell, whereas the code would divide by zero.
- TicTacToe.Click: on a board of size zero the click is ignored. In the code
  the one point (0, 0) then gives index NaN, which would act as an off-board
  mark.
- Text.ToLower: only the ASCII letters are case-mapped (`LowerChar`,
  `UpperChar`, `Capitalize` alike). The ids and labels the modes apply it to
  are ASCII.
- The synchronous first `loop()` or `update()` call a script makes when it
  runs (`feed_mode.js:154`, `pet_shower.js:403`, `pet_multi_feed.js:271`,
  `pet_script.js:257`, `pet_sleep.js:294`, `swing.js:192`) is not part of the `Initial`/`Load` state. It is the
  first `AnimationFrame` event of a run.
- Debug drawing of the shower mode's hitbox, and its unused circular
  variant (`pet_shower.js:314-320`).

## Findings

| source | as written | input that shows it | evidently intended | confidence | as-written member | corrected member |
|---|---|---|---|---|---|---|
| pet_xox.js:193-196 | the guard admits x == size or y == size, and `Math.floor` then yields column or row 3 | a click exactly on the board's right edge in the top row (x = size, y = 0) marks cell 3, in the middle row; a click on the bottom edge gives index 9, outside the board, and hands the computer a free move (`TicTacToe.BottomEdgeClickGivesAwayTurn`) | the far edges belong to no cell (or to the last column/row), so every accepted click addresses one of the nine cells it lies in | not executed | `TicTacToe.EdgeClickMisplaced` | `TicTacToe.ClickIntended` |
| pet_script.js:180 | `wasUnderground` uses `>=`, so a pet resting exactly on the ground counts as submerged, and its impact is raised to 2.01 | the pet at rest on the ground right after load, with audio unlocked: every frame after the 120 ms cooldown replays the landing sound | only a pet actually below the ground is an impact, so a resting pet is silent | not executed | `NormalMode.RestingPetThuds` | `NormalMode.RestingPetQuiet` |
