# Snake, modelled in Dafny

This project models the core of a browser Snake game written in TypeScript
and React, and proves properties of that model. The core is the game state
machine in `useSnakeGame`: a 20x20 grid, a snake stored head first, one food
cell, a heading, game-over and pause flags, and a score. Four smaller
components are modelled beside it:

- the board view, which decodes 400 flat cell indices into grid cells;
- the high-score table: sorted copy, top five, badges, highlighting;
- the welcome form: name validation, submit gate, generation classifier,
  age drop-down, picture;
- the background-music player: playlist navigation, failure fallback,
  play/pause rule, time display.

Modules, one per source file:

- `SnakeGame` (`snake_game.dfy`) gives every transition twice. It first
  gives it as a function on a `State` value (`Step`, `Turn`, `KeyPressed`,
  `ControlClicked`). Class `Game` then holds the hook's six fields and
  updates them in place. Each method is proved equal to its transition
  function, and the invariant `Inv` holds on every run of events.
- `GameBoard` (`game_board.dfy`) is pure: the index decoding is a
  bijection, and the head/body/food predicates hold where they should. It
  also counts free cells, which shows that the tick's food draw always has
  a free cell while the snake has fewer than 400 segments.
- `Scoreboard` (`scoreboard.dfy`) sorts by insertion. It is proved a
  permutation, non-increasing by score, and stable.
- `WelcomeScreen` (`welcome_screen.dfy`) holds the pure classifiers. Class
  `Form` holds the form's state.
- `MusicPlayer` (`music_player.dfy`) holds the index arithmetic, with
  JavaScript's truncating `%` written out as `JsRem`. Class `Player` holds
  the `isPlaying`/`currentTrack` state.
- `Decimal` (`decimal.dfy`) prints non-negative safe integers and reads plain
  numerals back. Track ids and the time display use it.
- `Optional` (`option.dfy`) is the usual `Option` type.

Classic Snake wraps around at the edges, forbids U-turns and never puts
food on the snake. This code does none of these, and the model follows the
code:

- **Walls.** Leaving the grid is a collision that ends the game
  (`RightEdgeIsAWall`). There is no wrap-around.
- **Heading guard.** The guard accepts a request only on the same axis as
  the current heading. On the four unit headings this means U-turns are
  taken and perpendicular turns are refused (`GuardOnUnitHeadings`). There
  is no anti-reversal rule.
- **Food placement.** New food is drawn against the snake from before the
  move. After eating, the food can therefore land on the new head
  (`FoodMayLandOnNewHead`). The tail is not an obstacle, so a growing snake
  can also hold one cell twice (`SnakeMayRepeatCell`). "Food is never on
  the snake" is not claimed.
- **Keyboard only.** The page wires up the keyboard but not the on-screen
  pad. The guard therefore keeps a keyboard player's heading left or right
  for the whole game. The snake stays on row 10, never reaches the food on
  row 5, and the score stays 0 (`KeyboardNeverScores`). The two states
  above with food on the head or a repeated cell are reached only through
  the pad, which the hook exposes but the page does not use.
- **High scores.** The table only sorts and slices the list it is given.
  No capped or persisted list is modelled.

## Model

| member | source | states |
|---|---|---|
| SnakeGame.Initial | src/hooks/useSnakeGame.tsx:4-16 | the start state has one segment, score 0, and is neither over nor paused |
| SnakeGame.KeyDirection | src/hooks/useSnakeGame.tsx:115-124 | every key in the table maps to one of the four unit headings |
| SnakeGame.ToLower | src/hooks/useSnakeGame.tsx:108 | lower-casing keeps the length and replaces each upper-case ASCII letter by its lower-case form, keeping every other character |
| SnakeGame.BrowserKeysTurn | src/hooks/useSnakeGame.tsx:105-128 | while the game runs, the browser's key names "ArrowUp".."ArrowRight" and w/a/s/d in either case request their heading through the guard |
| SnakeGame.KeyboardNeverScores | src/hooks/useSnakeGame.tsx:95-129 | from a state with a horizontal heading and a one-cell snake on row 10, any run of ticks, keys and restarts keeps the heading horizontal and the snake on row 10, so the score stays 0 |
| SnakeGame.KeyboardStep | src/hooks/useSnakeGame.tsx:95-147 | each tick, key or restart keeps the keyboard-play state: horizontal heading, one cell on row 10, food (5,5), score 0 |
| SnakeGame.InitialKeyboardReachable | src/hooks/useSnakeGame.tsx:5-7 | the start state is a keyboard-play state |
| SnakeGame.Step | src/hooks/useSnakeGame.tsx:59-93 | `moveSnake` as a function; its behaviour is stated by IdleTickIsNoOp, CollisionEndsGame, PlainMoveShifts, EatingGrows, StepPreservesInv and StepKeepsConnected |
| SnakeGame.Collides | src/hooks/useSnakeGame.tsx:35-57 | the collision rule; Game.CheckCollision's loop is proved to compute it |
| SnakeGame.Accepts | src/hooks/useSnakeGame.tsx:96-99 | the heading guard; GuardOnUnitHeadings states which headings it takes |
| SnakeGame.Turn | src/hooks/useSnakeGame.tsx:95-102 | `handleDirectionChange` as a function; Game.ChangeDirection is proved equal to it, InputKeepsBoard states its effect |
| SnakeGame.KeyPressed | src/hooks/useSnakeGame.tsx:105-129 | the key handler as a function; its behaviour is stated by InputIgnoredAfterGameOver, SpaceTogglesPause, BrowserKeysTurn and InputKeepsBoard |
| SnakeGame.ControlClicked | src/hooks/useSnakeGame.tsx:149-153 | `handleControlClick` as a function; InputIgnoredAfterGameOver and InputKeepsBoard state its effect |
| SnakeGame.IdleTickIsNoOp | src/hooks/useSnakeGame.tsx:60 | a tick changes nothing while the game is over or paused |
| SnakeGame.CollisionEndsGame | src/hooks/useSnakeGame.tsx:68-76 | a colliding tick sets game over and leaves the snake, food and score unchanged |
| SnakeGame.PlainMoveShifts | src/hooks/useSnakeGame.tsx:62-66 | without food the head advances by the heading inside the grid, the old body minus its tail follows, and the length, food and score stay |
| SnakeGame.EatingGrows | src/hooks/useSnakeGame.tsx:78-87 | eating keeps the whole old body behind the new head, grows by one, adds 10 points and installs the drawn food |
| SnakeGame.StepPreservesInv | src/hooks/useSnakeGame.tsx:59-93 | a tick whose food draw obeys the sampling exit condition keeps a non-empty in-grid snake, in-grid food, and score = 10 x growth |
| SnakeGame.StepKeepsConnected | src/hooks/useSnakeGame.tsx:62-92 | with a unit heading a tick keeps consecutive segments adjacent |
| SnakeGame.PauseResumeRestoresState | src/hooks/useSnakeGame.tsx:60 | pause, a timer tick, then resume gives back the exact state |
| SnakeGame.FoodMayLandOnNewHead | src/hooks/useSnakeGame.tsx:19-33 | a draw accepted against the pre-move snake can put the food on the new head |
| SnakeGame.SnakeMayRepeatCell | src/hooks/useSnakeGame.tsx:47-52 | a valid, connected snake can eat food on its own tail and then hold one cell twice |
| SnakeGame.EatingTailRepeats | src/hooks/useSnakeGame.tsx:47-87 | when the tick eats food lying on the tail, the new head and the kept tail are the same cell, and the snake grows by one |
| SnakeGame.FirstTickMovesRight | src/hooks/useSnakeGame.tsx:5-7 | the first tick from the start gives snake [(10,11)], food (5,5), score 0 |
| SnakeGame.RightEdgeIsAWall | src/hooks/useSnakeGame.tsx:38-45 | moving right from column 19 ends the game instead of wrapping |
| SnakeGame.GuardOnUnitHeadings | src/hooks/useSnakeGame.tsx:95-102 | on unit headings the guard accepts exactly the same heading or its reversal |
| SnakeGame.KeyTableCoversHeadings | src/hooks/useSnakeGame.tsx:115-124 | each of the four headings is reached by an arrow key |
| SnakeGame.InputIgnoredAfterGameOver | src/hooks/useSnakeGame.tsx:106 | once the game is over, keys and pad taps change nothing |
| SnakeGame.SpaceTogglesPause | src/hooks/useSnakeGame.tsx:110-113 | while the game runs, space flips the pause flag and nothing else |
| SnakeGame.OtherKeysIgnored | src/hooks/useSnakeGame.tsx:105-129 | a key that is neither space nor in the table leaves the whole state unchanged |
| SnakeGame.InputKeepsBoard | src/hooks/useSnakeGame.tsx:95-129 | input never changes snake, food or score; a pad tap sets the heading to d exactly when the game runs and the guard accepts, or it already was d |
| SnakeGame.ApplyPreservesInv | src/hooks/useSnakeGame.tsx:59-153 | every event (tick, key, tap, restart) keeps the invariant |
| SnakeGame.RunPreservesInv | src/hooks/useSnakeGame.tsx:15 | after any admissible run of events the invariant holds, so the score is a non-negative multiple of 10 |
| SnakeGame.RestartResets | src/hooks/useSnakeGame.tsx:140-147 | a restart after any run returns the start state |
| SnakeGame.Game.constructor | src/hooks/useSnakeGame.tsx:11-16 | the fields start in the start state, which satisfies the invariant |
| SnakeGame.Game.CheckCollision | src/hooks/useSnakeGame.tsx:35-57 | the loop returns true exactly when the head is off the grid or on a segment other than the tail |
| SnakeGame.Game.GenerateFood | src/hooks/useSnakeGame.tsx:19-33 | when a free cell exists, the drawn food is in the grid and off the current snake |
| SnakeGame.Game.Tick | src/hooks/useSnakeGame.tsx:59-93 | the new fields are Step of the old ones, the invariant is kept, and on eating the food is off the pre-move snake |
| SnakeGame.Game.ChangeDirection | src/hooks/useSnakeGame.tsx:95-102 | the heading becomes d exactly when the guard accepts it; nothing else changes |
| SnakeGame.Game.TogglePause | src/hooks/useSnakeGame.tsx:111 | only the pause flag flips |
| SnakeGame.Game.KeyDown | src/hooks/useSnakeGame.tsx:105-129 | the new fields are KeyPressed of the old ones, and the invariant is kept |
| SnakeGame.Game.ControlClick | src/hooks/useSnakeGame.tsx:149-153 | the new fields are ControlClicked of the old ones, and the invariant is kept |
| SnakeGame.Game.Restart | src/hooks/useSnakeGame.tsx:140-147 | every field is reset to the start state |
| GameBoard.CellAt | src/components/GameBoard.tsx:21-23 | every index in [0,400) decodes to a cell inside the grid |
| GameBoard.Render | src/components/GameBoard.tsx:18-19 | the board has exactly 400 cells, each styled by the head/body/food predicates of its index |
| GameBoard.IndexOfCellAt | src/components/GameBoard.tsx:21-23 | decoding then re-encoding an index gives the index |
| GameBoard.CellAtIndexOf | src/components/GameBoard.tsx:21-23 | every grid cell has an index in [0,400) that decodes to it |
| GameBoard.CellAtInjective | src/components/GameBoard.tsx:21-38 | distinct indices decode to distinct cells |
| GameBoard.HeadIsSnakeCell | src/components/GameBoard.tsx:27-38 | a head cell is a snake cell and is never also drawn as body |
| GameBoard.SnakeCellsAreSegments | src/components/GameBoard.tsx:27-31 | a cell is drawn as snake exactly when some segment sits on it |
| GameBoard.OneFoodCell | src/components/GameBoard.tsx:21-25 | at most one index shows food, and one does exactly when the food is on the grid |
| GameBoard.OneHeadCell | src/components/GameBoard.tsx:33-38 | with the head in the grid exactly one index shows the head |
| GameBoard.IsFoodCell | src/components/GameBoard.tsx:21-25 | `isFoodCell`; OneFoodCell states that one index shows food exactly when the food is on the grid |
| GameBoard.IsSnakeCell | src/components/GameBoard.tsx:27-31 | `isSnakeCell`; SnakeCellsAreSegments states it holds exactly on the segments |
| GameBoard.IsSnakeHead | src/components/GameBoard.tsx:33-38 | `isSnakeHead`; HeadIsSnakeCell and OneHeadCell state it |
| GameBoard.LookAt | src/components/GameBoard.tsx:51-56 | the three class choices for one cell; HeadIsSnakeCell states head and body exclude each other |
| GameBoard.FreeCountBound | src/components/GameBoard.tsx:18-19 | at least 400 - length cells are free of the snake |
| GameBoard.ShortSnakeLeavesFreeCell | src/hooks/useSnakeGame.tsx:21-31 | a snake shorter than 400 leaves a free cell, so the food draw can end |
| Scoreboard.Insert | src/components/Scoreboard.tsx:55 | inserting adds one entry and puts e or the old first entry in front |
| Scoreboard.SortByScore | src/components/Scoreboard.tsx:55 | the sorted copy has the list's length |
| Scoreboard.SortPermutes | src/components/Scoreboard.tsx:55 | the sorted copy holds exactly the list's entries (same multiset) |
| Scoreboard.SortOrders | src/components/Scoreboard.tsx:55 | the sorted copy is non-increasing by score |
| Scoreboard.SortStable | src/components/Scoreboard.tsx:55 | entries of equal score keep their list order |
| Scoreboard.InsertStable | src/components/Scoreboard.tsx:55 | insertion places the new entry ahead of every entry with its score |
| Scoreboard.RankBadge | src/components/Scoreboard.tsx:83-91 | trophy exactly for index 0, medal for 1, award for 2, else the position index+1 |
| Scoreboard.TopRows | src/components/Scoreboard.tsx:77 | min(5, n) rows are shown |
| Scoreboard.RenderRows | src/components/Scoreboard.tsx:77-114 | the rows are the first min(5, n) sorted entries with their badges, highlighted exactly for the current player; the empty-list row shows exactly for an empty list |
| Scoreboard.ShownAreBest | src/components/Scoreboard.tsx:55-77 | shown rows run highest first, and no entry left out scores above a shown one |
| Scoreboard.Render | src/components/Scoreboard.tsx:55-114 | the table body; RenderRows and ShownAreBest state it |
| Scoreboard.IsCurrentPlayer | src/components/Scoreboard.tsx:80 | the highlight test; RenderRows states rows are highlighted exactly for the current player's name |
| WelcomeScreen.TrimStart | src/components/WelcomeScreen.tsx:63 | the result is a suffix that starts with non-white space, and all that was dropped is white space |
| WelcomeScreen.TrimEnd | src/components/WelcomeScreen.tsx:63 | the result is a prefix that ends with non-white space, and all that was dropped is white space |
| WelcomeScreen.NameValidIff | src/components/WelcomeScreen.tsx:62-64 | a name is valid exactly when it holds a character that is not white space |
| WelcomeScreen.HelpersAgree | src/components/WelcomeScreen.tsx:100-138 | label and colour each separate exactly the generations; gradient and description heading agree with them |
| WelcomeScreen.OlderIsNotLater | src/components/WelcomeScreen.tsx:100-108 | a larger age never falls in a later generation |
| WelcomeScreen.AgeOptions | src/components/WelcomeScreen.tsx:306 | there are 100 options and option i has age 5 + i |
| WelcomeScreen.AgeOptionsRange | src/components/WelcomeScreen.tsx:306-318 | the ages offered are exactly 5..104; the default 10 is among them; the Gen Alpha marking goes exactly to options labelled Gen Alpha |
| WelcomeScreen.LabelAlphaIff | src/components/WelcomeScreen.tsx:307-309 | the label is Gen Alpha exactly when the birth year is 2013 or later |
| WelcomeScreen.Trim | src/components/WelcomeScreen.tsx:63 | `trim`; the contracts of TrimStart and TrimEnd state what is dropped |
| WelcomeScreen.IsNameValid | src/components/WelcomeScreen.tsx:62-64 | the validity flag; NameValidIff states it |
| WelcomeScreen.GenerationOf | src/components/WelcomeScreen.tsx:100-108 | the cutoffs on the birth year; OlderIsNotLater and HelpersAgree state them |
| WelcomeScreen.GenerationLabel | src/components/WelcomeScreen.tsx:100-108 | `getGenerationLabel`; HelpersAgree and LabelAlphaIff state it |
| WelcomeScreen.GenerationColor | src/components/WelcomeScreen.tsx:110-118 | `getGenerationColor`; HelpersAgree states it tells the generations apart |
| WelcomeScreen.GenerationGradient | src/components/WelcomeScreen.tsx:120-128 | `getGenerationGradient`; HelpersAgree states it follows the generation |
| WelcomeScreen.GenerationDescriptionHeading | src/components/WelcomeScreen.tsx:130-138 | the heading of `getGenerationDescription`; HelpersAgree states it follows the generation |
| WelcomeScreen.ImageOrUndefined | src/components/WelcomeScreen.tsx:69 | `playerImage \|\| undefined`; Form.Submit states the picture passed on |
| WelcomeScreen.Form.constructor | src/components/WelcomeScreen.tsx:14-16 | empty name, age 10, no picture |
| WelcomeScreen.Form.Submit | src/components/WelcomeScreen.tsx:66-71 | starts exactly when the name is valid; passes the untrimmed name, the age, and the picture unless it is absent or empty |
| WelcomeScreen.Form.SetName | src/components/WelcomeScreen.tsx:262 | the name becomes the typed value; nothing else changes |
| WelcomeScreen.Form.SelectAge | src/components/WelcomeScreen.tsx:299 | parsing the chosen option's printed age gives that age back |
| WelcomeScreen.Form.ImageRead | src/components/WelcomeScreen.tsx:77-81 | a non-empty data URL becomes the picture; an empty one changes nothing |
| WelcomeScreen.Form.RemoveImage | src/components/WelcomeScreen.tsx:92-97 | the picture becomes absent; nothing else changes |
| Decimal.ToString | src/components/MusicPlayer.tsx:233 | a printed number is a non-empty digit string with no leading zero |
| Decimal.ParseNumeral | src/components/MusicPlayer.tsx:232 | parsing succeeds exactly on digit strings |
| Decimal.ParseToString | src/components/MusicPlayer.tsx:232-233 | reading back a printed number gives the number |
| Decimal.ToStringInjective | src/components/MusicPlayer.tsx:233 | two numbers print alike exactly when they are equal |
| MusicPlayer.JsRem | src/components/MusicPlayer.tsx:276 | a = trunc(a/n) x n + remainder, with the remainder in [0,n) for a non-negative dividend and in (-n,0] for a negative one |
| MusicPlayer.JsRemUnique | src/components/MusicPlayer.tsx:276 | any quotient and remainder meeting those three facts are the truncated quotient and JsRem, so they define JavaScript's `%` |
| MusicPlayer.FindIndex | src/components/MusicPlayer.tsx:274 | -1 exactly when no track has the id, else the first position holding it |
| MusicPlayer.NextIndexSteps | src/components/MusicPlayer.tsx:274-276 | next lands in [0,n), steps forward by one, wraps from last to first, and maps not-found (-1) to 0 |
| MusicPlayer.PrevIndexSteps | src/components/MusicPlayer.tsx:305-307 | previous lands in [0,n), steps back by one, wraps from first to last, and maps not-found (-1) to n-2 (0 for a single track) |
| MusicPlayer.NextIndex | src/components/MusicPlayer.tsx:276 | the next index; NextIndexSteps and NextPrevInverse state its behaviour |
| MusicPlayer.PrevIndex | src/components/MusicPlayer.tsx:307 | the previous index; PrevIndexSteps and NextPrevInverse state its behaviour |
| MusicPlayer.NextTarget | src/components/MusicPlayer.tsx:263-292 | the track `playNextTrack` picks; NoCurrentStartsFirst, NextMovesOn and MovingOnAgrees state it |
| MusicPlayer.PrevTarget | src/components/MusicPlayer.tsx:295-313 | the track `playPreviousTrack` picks; NoCurrentStartsFirst and PrevIndexSteps state it |
| MusicPlayer.RecoveryTarget | src/components/MusicPlayer.tsx:135-150 | the track `handlePlaybackError` picks; RecoveryMovesOn and MovingOnAgrees state it |
| MusicPlayer.FallbackId | src/components/MusicPlayer.tsx:232 | the retry id; FallbackIdCycles states it on numbered ids |
| MusicPlayer.FallbackTrack | src/components/MusicPlayer.tsx:232-233 | the retry track; FallbackMovesOn and MovingOnAgrees state it |
| MusicPlayer.NextMovesOn | src/components/MusicPlayer.tsx:274-283 | on a numbered playlist next picks the following track, wrapping to the first |
| MusicPlayer.RecoveryMovesOn | src/components/MusicPlayer.tsx:139-143 | on a numbered playlist error recovery picks the following track, wrapping to the first |
| MusicPlayer.FallbackMovesOn | src/components/MusicPlayer.tsx:232-233 | on a numbered playlist the failed-play fallback picks the following track, wrapping to the first |
| MusicPlayer.FindNumbered | src/components/MusicPlayer.tsx:274 | on a numbered playlist the track with id k sits at index k-1 |
| MusicPlayer.Toggled | src/components/MusicPlayer.tsx:248-260 | `togglePlayPause` on the state; ToggleTwice states it and Player.TogglePlayPause is proved equal to it |
| MusicPlayer.Picked | src/components/MusicPlayer.tsx:184-190 | `handlePlayTrack` up to the load; PickCurrentToggles and PickLoadPick state it |
| MusicPlayer.Player.TrackEnded | src/components/MusicPlayer.tsx:97-123 | the mount-time `ended` listener sees no current track, so it always picks the first track and starts its load whenever there is audio |
| MusicPlayer.NextPrevInverse | src/components/MusicPlayer.tsx:274-307 | next and previous undo each other on every position |
| MusicPlayer.FallbackIdCycles | src/components/MusicPlayer.tsx:232-233 | on ids 1..n the fallback id is the cyclic successor, n followed by 1 |
| MusicPlayer.MovingOnAgrees | src/components/MusicPlayer.tsx:135-150 | on a playlist numbered 1..n, next, error recovery and the failed-play fallback all pick the following track, wrapping to the first |
| MusicPlayer.PlaylistCycles | src/components/MusicPlayer.tsx:29-79 | on the game's eight tracks all three ways of moving on go from track 8 to track 1 |
| MusicPlayer.GameTracksNumbered | src/components/MusicPlayer.tsx:29-79 | the playlist has eight tracks with ids "1" to "8" in order |
| MusicPlayer.NoCurrentStartsFirst | src/components/MusicPlayer.tsx:264-302 | with no track loaded, next and previous both start the first track |
| MusicPlayer.PickCurrentToggles | src/components/MusicPlayer.tsx:184-190 | picking the loaded track flips play/pause and never starts a load |
| MusicPlayer.PickLoadPick | src/components/MusicPlayer.tsx:184-260 | picking another track starts its load; once loaded, picking it pauses it and picking again resumes it |
| MusicPlayer.ToggleTwice | src/components/MusicPlayer.tsx:248-260 | toggling twice restores the state; with no track toggling does nothing |
| MusicPlayer.Player.constructor | src/components/MusicPlayer.tsx:87-91 | not playing, no track, the game's playlist |
| MusicPlayer.Player.TogglePlayPause | src/components/MusicPlayer.tsx:248-260 | no effect without audio or a track, else isPlaying is negated |
| MusicPlayer.Player.PlayTrack | src/components/MusicPlayer.tsx:184-190 | the loaded track toggles; any other track starts a load and leaves the state as it was |
| MusicPlayer.Player.StartPlaylist | src/components/MusicPlayer.tsx:126-132 | picks the first track |
| MusicPlayer.Player.RecoverFromError | src/components/MusicPlayer.tsx:135-150 | with a track and audio, picks the track after it (or the first when it is not found); otherwise nothing |
| MusicPlayer.Player.LoadSucceeded | src/components/MusicPlayer.tsx:215-225 | the loaded track becomes current and playing |
| MusicPlayer.Player.LoadFailed | src/components/MusicPlayer.tsx:228-241 | the retry target is the fallback track; the failed track stays current only if it had been set |
| MusicPlayer.Player.PlayNext | src/components/MusicPlayer.tsx:263-292 | from the next button: picks the next target and applies the same-track rule |
| MusicPlayer.Player.PlayPrevious | src/components/MusicPlayer.tsx:295-313 | picks the previous target and applies the same-track rule |
| MusicPlayer.FormatTime | src/components/MusicPlayer.tsx:316-320 | the minutes printed, a colon, then two digits |
| MusicPlayer.TwoDigits | src/components/MusicPlayer.tsx:318-319 | padded seconds are two digits that read back as the seconds |
| MusicPlayer.FormatTimeReadsBack | src/components/MusicPlayer.tsx:316-320 | the display reads back as minutes x 60 + seconds = t, with seconds below 60 |

## Left out

- Timers, listeners, toasts, console logging and React's batching of state updates are not modelled. One timer tick is one `Tick` call; one key press is one `KeyDown` call.
- SnakeGame.Game.GenerateFood: the `Math.random` retry loop becomes one nondeterministic choice of a cell that the loop would accept. Its distribution is not modelled. The loop never ends on a full grid, so the method requires a free cell.
- SnakeGame.ToLower: folds only ASCII letters. `toLowerCase` on other scripts is not modelled; no such key is in the table.
- Keys that name inherited object properties (such as "constructor") are not modelled. They pass the table lookup, but the guard always refuses them, so nothing changes either way.
- Firebase, storage, sharing and page glue are not part of this model. This includes the Scoreboard's fetch of remote scores and its loading/error flags: the table is rendered from whatever score list it holds.
- WelcomeScreen.GenerationDescriptionHeading: models only each description's heading (name and birth years), not the prose after it.
- WelcomeScreen.Form.Submit: reads validity straight from the current name. The component keeps it in an effect-updated flag, which lags one render behind typing.
- Animations, hover and slider state, focus handling, `FileReader` and the reset of the file input's value are not modelled.
- `new Date().getFullYear()` is the `year` parameter.
- WelcomeScreen.Form.SelectAge: the value comes from an option of the drop-down. `parseInt` on other strings is not modelled.
- Decimal.ToString: prints plain digits for every natural number. JavaScript switches to exponent notation from 10^21, and `parseInt` rounds numerals above 2^53; neither is modelled, because the numbers printed here are track ids 1 to 8 and minutes.
- Decimal.ParseNumeral: reads plain digit strings only. `parseInt`'s handling of signs, white space and trailing junk is not modelled; every track id is a plain numeral.
- The music player's `Audio` element, `fetch`, promise chains, `alert`, the 300 ms and 500 ms retry delays, and volume/seek are not modelled. So are the expanded-panel flag, the cover art and `currentTime`/`duration` as floating-point values. The asynchronous steps become separate methods (`LoadSucceeded`, `LoadFailed`).
- MusicPlayer.FormatTime: works on whole non-negative seconds. Fractional and negative times are not modelled.
- MusicPlayer.Player.LoadFailed: the retry runs 500 ms later with the handler of the render that started the failed load, and that handler compares against the current track of that render. The model returns only the retry target; it does not model which render's state the retry sees. For example, with track 2 playing and track 1 failing, the source's retry finds track 2 "current" and only toggles pause.
- Every handler except `TrackEnded` is modelled as running on the current state. The `ended` listener is modelled by `TrackEnded` against the mount-time state; other stale closures are not modelled.
- MusicPlayer.Player.PlayNext: the `try`/`catch` fallback to the first track is not modelled separately. With a non-empty playlist nothing in the `try` throws; with an empty one the model picks no track, and so does the source.
