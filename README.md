# AeroGesture: the two game clients, modelled in Dafny

AeroGesture is a Flappy-Bird game steered by a pinch of thumb and index
finger in front of a webcam, with a score server holding a global
leaderboard. This project models the game logic of its two clients:

- `fp.py`, the single-file client: a threaded gesture controller (a moving
  average of the pinch distance and a two-threshold hysteresis that raises a
  one-shot flap flag), dt-based bird physics, a pipe spawn timer, per-pipe
  scoring, and fire-and-forget background calls to the server.
- `game_multiplayer.py`, the arcade client: a frame-stepped engine in whole
  pixels, the pinch test on the camera frame, a flap cooldown in
  milliseconds, a pipe spawn period, a sprite group that drops pipes leaving
  the field, one point per spawned pair, and blocking server calls.

Each client's loop works on module globals that it updates in place. The
globals are modelled twice: as one `World` value, with a frame as a function
from `World` to `World` (`FpGame.AfterFrame`, `MpGame.AfterFrame`), and as a
class `Game` whose fields are those globals and whose methods run the frame
step by step on `Bird` and `Pipe` objects, each method proved to leave the
fields equal to the function applied to their old values. The properties are
proved about the functions: invariants every frame keeps, how often a frame
can submit a score, the flap cooldown, the spawn period, scoring once per
pair, and the round trip of the leaderboard text.

Modules:

- `Wrappers`: `Option`.
- `Text`: the Python string operations the clients use on names and
  leaderboard rows (upper-casing, slicing, padding, decimal formatting) with
  their inverses.
- `Service`: the requests a client sends and the rows and outcomes it
  receives.
- `Events`: the event queue and the three screens.
- `FpGesture`, `FpEngine`, `FpGame`, `FpLeaderboard`: `fp.py`.
- `MpEngine`, `MpGame`, `MpLeaderboard`: `game_multiplayer.py`.

Inputs that the source reads from the outside world are parameters: the
frame time from `clock.tick`, `time.time()`, `pygame.time.get_ticks()`, the
event queue, what the camera and the hand tracker report, the random draws
of `create_pipes`, and how the server answers. A request put on the wire is
an entry appended to an `outbox` sequence.

Three behaviours of the code a reader may not expect:

- In `fp.py` the pipes are a plain list. `Pipe.kill()` only removes a sprite
  from groups, and these pipes are in none, so pipes that leave the field
  are never removed. The model keeps them. Scoring still counts each top
  pipe once, because a scored pipe is marked.
- In `fp.py` a bird that reaches the floor in the same frame as it hits a
  pipe submits its score twice. `FpGame.FloorAndPipeInOneFrameSubmitTwice`
  exhibits this.
- In `game_multiplayer.py`, scoring looks only at the oldest pipe in the
  group, and it gives one point per spawned pair rather than one per pipe.

## Model

The contracts are written with definitions of the source's own tests and
invariants. These carry no contract of their own; the members in the table
below state what holds of them:

- `FpEngine.Collides` and `MpEngine.Collides`: the rectangle overlap of
  `colliderect` (fp.py:437) and `spritecollide` (game_multiplayer.py:464);
  `MpEngine.AnyCollides` is the latter over the whole group.
- `FpEngine.Passed`: the scoring test of fp.py:441.
- `MpEngine.OnField`: the negation of the kill test of game_multiplayer.py:312.
- `MpEngine.IsPinch`: the pinch test of game_multiplayer.py:413-416 on
  squared distances, tied to `math.hypot` by `MpEngine.HypotBelowThreshold`.
- `MpGame.Fell` and `MpGame.Crash`: the floor contact of a frame, and the
  loop stopped by an uncaught exception.
- `MpEngine.Fall`: n frames of `Bird.update` without a flap, used by
  `MpEngine.CeilingHoldsTheBird`.
- `FpGame.Inv`, `FpGame.ScoreMatchesPipes` and `MpGame.Inv`: the loop
  invariants that the `...KeepsInv` lemmas prove.

| member | source | states |
|---|---|---|
| Text.Upper | fp.py:393 | upper-casing a typed character keeps the length, leaves no lower-case ASCII letter, and changes nothing else |
| Text.DropLast | fp.py:392 | Backspace removes exactly the last character, and putting it back gives the old name; an empty name stays empty |
| Text.Take | fp.py:471 | the 12-character cut of a name is a prefix of it, of length min(length, 12) |
| Text.PadRight | fp.py:471 | left alignment in a 12-wide column: the text first, then spaces up to the width, never truncated |
| Text.NatToString | fp.py:471 | a rank is printed as a non-empty run of digits, with a leading zero only for 0 |
| Text.ParseNatToString | fp.py:471 | reading the printed digits back gives the number |
| Text.IntToString | fp.py:471 | a score is printed as a non-empty string |
| Text.IntToStringRoundTrip | fp.py:471 | reading a printed score back gives the same integer, negative or not |
| Events.Unicode | fp.py:393 | a key press carries at most one character; a character key carries its character, and Return carries CR |
| FpGesture.RelativeDistance | fp.py:145-149 | the pinch as a percentage of the hand size; a zero hand size counts as one pixel |
| FpGesture.Smooth | fp.py:152-153 | the first sample is taken as it is; after that the average lies between the old value and the sample, at 0.7 of the old distance to the sample |
| FpGesture.ProcessRead | fp.py:113-182 | a frame without a hand changes nothing; a flap fires exactly when the smoothed distance drops below 45 while the hand was not pinching; below 45 the hand is pinching, above 65 it is released, and in between it keeps its state |
| FpGesture.FlapsAlternateWithReleases | fp.py:161-167 | over any run of frames, the flaps fired and the releases seen differ exactly by the change of the pinching flag |
| FpGesture.NoSecondFlapWithoutRelease | fp.py:161-167 | without a release in between, frames fire at most one flap, and none if the hand was already pinching |
| FpGesture.HandlessFramesChangeNothing | fp.py:113-124 | frames with a failed read or without a hand leave the controller as it was and fire nothing |
| FpGesture.GestureController.constructor | fp.py:98-106 | the controller starts at distance 0, not pinching, with no pending flap |
| FpGesture.GestureController.Capture | fp.py:113-182 | one pass of the capture thread moves the controller as ProcessRead says, and sets the pending flag when a flap fires without clearing it otherwise |
| FpGesture.GestureController.CaptureAll | fp.py:111-185 | after a run of frames the controller is in the state those frames lead to, and a flap is pending exactly when one was before or one of the frames fired |
| FpGesture.GestureController.GetState | fp.py:187-191 | the game loop receives the pending flap and clears it, and nothing else changes |
| FpGesture.ReadTwice | fp.py:187-191 | of two reads of the flag by the game loop, the second sees a flap exactly when a frame between them fired one, so no flap is delivered twice |
| FpEngine.Trunc | fp.py:250 | storing a float in a Rect moves it less than one toward zero |
| FpEngine.BirdFlap | fp.py:243-244 | a flap sets the velocity to -550 and leaves the position alone |
| FpEngine.BirdUpdate | fp.py:247-266 | the bird moves by the new velocity (gravity added, capped at 800 px/s) times dt, truncated; a move to y ≤ 0 leaves it on the ceiling at rest; it is alive exactly when the moved position is above the floor, and a floor contact leaves it on the floor; after the step it is inside the playfield |
| FpEngine.CeilingHoldsTheBird | fp.py:260-262 | a bird resting on the ceiling stays there with zero velocity in any frame shorter than about 24 ms |
| FpEngine.NewPipe | fp.py:296-301 | a new pipe is not yet scored; a top pipe hangs from y = 0 and a bottom pipe stands on the floor |
| FpEngine.PipeUpdate | fp.py:317-318 | a pipe moves left by 240 px/s times dt, to within a pixel, and nothing else about it changes |
| FpEngine.CreatePipes | fp.py:324-328 | a top pipe and then a bottom pipe at the spawn column, both at least 55 px tall, with an opening of 180 px, or 181 when both truncations round down |
| FpEngine.TopHeight | fp.py:324-326 | the top pipe's height before truncation lies between MIN_H and the height that leaves MIN_H for the bottom pipe |
| FpEngine.Bird.constructor | fp.py:234-238 | a new bird is at the start height at rest |
| FpEngine.Bird.Flap | fp.py:243-244 | the object's flap is BirdFlap |
| FpEngine.Bird.Update | fp.py:247-266 | the object's update is BirdUpdate, and it returns whether the bird is alive |
| FpEngine.Pipe.constructor | fp.py:296-301 | the object's state is NewPipe |
| FpEngine.Pipe.Update | fp.py:317-319 | the object moves as PipeUpdate says |
| FpEngine.NewPipePair | fp.py:324-328 | two new Pipe objects whose states are CreatePipes |
| FpGame.ClampDt | fp.py:377-378 | the frame time is the tick in seconds, capped at 0.05 |
| FpGame.Reset | fp.py:334-341 | reset_game enters PLAYING with score 0, no pipes, the timer at 0, a new bird and the session clock restarted; the name, the player id, the cache and the outbox are kept |
| FpGame.SubmitRequests | fp.py:366-368 | a score is sent exactly when the player id is truthy, with the id, the score and the duration |
| FpGame.StartSession | fp.py:388-391 | a confirmed name starts PLAYING with score 0, no pipes, a new bird and the session clock at now, and sends one register call for that name; the name and the player id are kept until the callback |
| FpGame.EndSession | fp.py:426-428 | a terminal condition enters GAME_OVER and sends a score (id, score, session length) only for a truthy id, then a leaderboard request; the bird, pipes, score and id are kept |
| FpGame.AfterEvent | fp.py:380-397 | QUIT stops the loop, any key keeps it running, and a stopped loop handles nothing; events never change the player id or the cache |
| FpGame.AfterEvents | fp.py:380-397 | the loop keeps running after the events exactly when none of them is QUIT; the player id and the cache are kept |
| FpGame.AfterBird | fp.py:423-428 | the flap (if any) then Bird.update: the bird becomes the step's bird; the game is over, with a submission for a truthy id and a leaderboard request, exactly when the step reports the floor; pipes, score and timer are kept |
| FpGame.AfterSpawn | fp.py:430-433 | a new pair is appended and the timer restarts at 0 exactly when the timer plus dt exceeds 2 s; otherwise only the timer grows by dt |
| FpGame.AfterPlayTick | fp.py:423-442 | a PLAYING frame adds two pipes exactly when the spawn timer runs out, restarting it, and keeps the loop flag, the name and the player id |
| FpGame.PlayTickGameOver | fp.py:423-442 | a PLAYING frame ends in GAME_OVER exactly when Bird.update reports the floor or some moved pipe, spawned ones included, overlaps the moved bird |
| FpGame.AfterLogic | fp.py:412-456 | on the name screen a pinch with a non-empty name starts a session (register call included) and nothing else changes it; at game over a pinch restarts and nothing else changes it; a start or restart gives PLAYING, score 0, no pipes and a new bird; off PLAYING without a change the globals are kept; the loop flag is never changed |
| FpGame.AfterRefresh | fp.py:463-465 | a leaderboard request and a new time stamp exactly when more than 15 s have passed since the last one, and nothing otherwise; afterwards the next refresh is not yet due |
| FpGame.AfterFrame | fp.py:376-465 | a stopped loop runs no frame, and the loop runs on after a frame exactly when none of its events is QUIT |
| FpGame.AfterKey | fp.py:386-397 | on the name screen Return with a name starts a session (PLAYING and a register call for that name) and without one changes nothing, Backspace drops the last character, and a printable key appends its upper case while the name is shorter than 12; in PLAYING Space flaps the bird and other keys do nothing; Escape at game over returns to the name screen with an empty name; the screen changes in no other case, and keys never change the player id or the cache |
| FpGame.PipeTick | fp.py:436-442 | one pass of the pipe loop moves the pipe at its index as PipeUpdate says, ends the game when the moved pipe overlaps the bird, and gives a point and the scored mark exactly when it is an unscored top pipe past the bird; the other pipes, the bird and the player id are untouched |
| FpGame.Scan | fp.py:435-442 | the pipe loop keeps the number of pipes, and leaves the pipes after its bound unchanged |
| FpGame.ScanGameOver | fp.py:435-440 | after the pipe loop the game is over exactly when some moved pipe overlaps the bird, and otherwise the state is unchanged |
| FpGame.AfterRegister | fp.py:344-348 | a 200 answer sets the player id to the answer's, possibly None; an exception clears it; another status leaves it; nothing else changes |
| FpGame.AfterFetch | fp.py:356-360 | a 200 answer replaces the cache, with [] when the list is missing; any other outcome keeps it; nothing else changes |
| FpGame.InitialInv | fp.py:69-76 | the starting globals satisfy the loop invariant |
| FpGame.KeyKeepsInv | fp.py:386-397 | a key press keeps the invariant: at most 12 characters with no lower-case letter |
| FpGame.EventsKeepInv | fp.py:380-397 | the event loop keeps the invariant |
| FpGame.PipeTickKeepsScore | fp.py:436-442 | one pass of the pipe loop keeps the score equal to the number of passed top pipes, each marked scored exactly when passed |
| FpGame.ScanKeepsScore | fp.py:435-442 | the pipe loop keeps that score invariant |
| FpGame.PlayTickKeepsInv | fp.py:423-442 | a PLAYING frame keeps the invariant: the score invariant, the timer in [0, 2], and the bird inside the playfield no faster than 800 px/s downwards |
| FpGame.FrameKeepsInv | fp.py:376-465 | every frame keeps the invariant |
| FpGame.EndSessionSubmits | fp.py:426-428 | a game over sends exactly one score if the player id is truthy, and none otherwise |
| FpGame.EventsSubmitNothing | fp.py:380-397 | the event loop sends no score and does not change the player id |
| FpGame.ScanSubmitsNothingWithoutId | fp.py:435-442 | without a truthy player id, the pipe loop sends no score |
| FpGame.PlayTickSubmitsNothingWithoutId | fp.py:423-442 | without a truthy player id, a PLAYING frame sends no score and keeps the id |
| FpGame.LogicSubmitsNothingWithoutId | fp.py:412-456 | without a truthy player id, no screen's branch sends a score |
| FpGame.RefreshSubmitsNothing | fp.py:463-465 | the periodic refresh sends no score and keeps the id |
| FpGame.NoIdNoSubmission | fp.py:366-367 | without a truthy player id a frame never submits a score, and only the register callback changes the id |
| FpGame.FloorAndPipeInOneFrameSubmitTwice | fp.py:425-440 | from a world that satisfies the invariant (the bird 10 px above the floor at full fall speed over a bottom pipe), a 50 ms frame submits two scores, one for the floor and one for the pipe |
| FpGame.LandingOnPipeTick | fp.py:423-442 | the PLAYING branch of that frame alone already submits the score twice |
| FpGame.Game.constructor | fp.py:69-76 | the globals start in their initial state |
| FpGame.Game.ResetGame | fp.py:334-341 | the globals become Reset of the old ones, with a new Bird object |
| FpGame.Game.ResetScore | fp.py:338-339 | score 0 and PLAYING; nothing else changes |
| FpGame.Game.RestartClocks | fp.py:340-341 | the spawn timer back to 0 and the session clock to now; nothing else changes |
| FpGame.Game.StartGame | fp.py:388-391 | reset_game followed by a register call for the name |
| FpGame.Game.EndGame | fp.py:426-428 | GAME_OVER, a submission for a truthy id, then a leaderboard request |
| FpGame.Game.NameKey | fp.py:387-394 | a key on the name screen, as AfterKey says |
| FpGame.Game.HandleKey | fp.py:386-397 | the globals change as AfterKey says |
| FpGame.Game.HandleEvent | fp.py:380-397 | one event, as AfterEvent says: nothing once QUIT has stopped the loop |
| FpGame.Game.HandleEvents | fp.py:380-397 | the event loop changes the globals as AfterEvents says, and stops at QUIT |
| FpGame.Game.BirdTick | fp.py:424-428 | the flap, Bird.update and the game over at the floor on the objects, as AfterBird says: GAME_OVER with a submission and a leaderboard request exactly when the bird reaches the floor |
| FpGame.Game.Spawn | fp.py:430-433 | the spawn timer on the objects, as AfterSpawn says: two new Pipe objects and the timer at 0 exactly when the timer plus dt exceeds 2 s, else the timer grows by dt; the list stays free of duplicates |
| FpGame.Game.PipeStep | fp.py:436-442 | one pass of the pipe loop on the Pipe object at index i, as PipeTick says |
| FpGame.Game.MovePipe | fp.py:436 | p.update(dt) changes only the pipe at index i, to PipeUpdate of its old value |
| FpGame.Game.ScorePipe | fp.py:441-442 | score + 1 and the pipe marked scored exactly when it is an unscored top pipe past the bird; otherwise nothing changes |
| FpGame.Game.ScanPipes | fp.py:435-442 | the whole pipe loop on the objects, as Scan says |
| FpGame.Game.PlayTick | fp.py:423-442 | the PLAYING branch on the objects, as AfterPlayTick says, so the frame ends in GAME_OVER exactly when PlayTickGameOver says and spawns exactly when the timer runs out |
| FpGame.Game.Logic | fp.py:412-456 | the branch for the current screen on the objects, as AfterLogic says: pinch start with a non-empty name, pinch restart at game over, the PLAYING tick otherwise |
| FpGame.Game.Refresh | fp.py:463-465 | a leaderboard request every 15 seconds, as AfterRefresh says |
| FpGame.Game.Frame | fp.py:376-465 | one iteration of the main loop changes the globals as AfterFrame says, and consumes the controller's pending flap exactly when the loop is still running |
| FpGame.Game.OnRegistered | fp.py:344-348 | the register callback, as AfterRegister says |
| FpGame.Game.OnLeaderboard | fp.py:356-360 | the leaderboard callback, as AfterFetch says |
| FpLeaderboard.ScoreShown | fp.py:469-470 | a row shows its best score, or 0 when it has none |
| FpLeaderboard.NameColumn | fp.py:471 | the name column is 12 wide: the first 12 characters of the name, then spaces |
| FpLeaderboard.FormatRow | fp.py:471 | a panel line starts with '#', and its length is that of the rank and the score plus 15 |
| FpLeaderboard.Rows | fp.py:467-472 | one line per row of the cache, at most 10, the i-th for rank i + 1 |
| FpLeaderboard.ParseFormatRow | fp.py:471 | every panel line reads back as its rank, its name column and its score, names with spaces included |
| FpLeaderboard.RowsAreDistinct | fp.py:468-471 | two rows of the panel never print the same line |
| MpEngine.QuartersToPixels | game_multiplayer.py:274 | int() of the velocity truncates a count of quarter pixels toward zero |
| MpEngine.BirdFlap | game_multiplayer.py:269-270 | a flap sets the velocity to -6.5 and leaves the position alone |
| MpEngine.BirdUpdate | game_multiplayer.py:272-284 | the bird gains 0.25 px/frame and moves by the whole-pixel part of the new velocity; a move to the ceiling at 50 or above it leaves it on the ceiling at rest; it is alive exactly when the moved position is above the floor, and a floor contact leaves it on the floor at rest; after the step it is between the ceiling and the floor |
| MpEngine.CeilingHoldsTheBird | game_multiplayer.py:276-278 | a bird that reaches the ceiling without a flap stays there at rest for every later frame |
| MpEngine.NewPipe | game_multiplayer.py:290-308 | a bottom pipe stands on the floor and a top pipe hangs from the ceiling |
| MpEngine.Move | game_multiplayer.py:311 | a pipe moves 4 px left, and nothing else about it changes |
| MpEngine.GroupUpdate | game_multiplayer.py:310-313 | the group after an update is no larger, and holds only pipes still on the field |
| MpEngine.GroupUpdateMembers | game_multiplayer.py:310-313 | the survivors are exactly the moved pipes that are still on the field |
| MpEngine.GroupUpdateAppend | game_multiplayer.py:310-313 | the update of a group split in two is the update of the first part followed by that of the second: survivors keep their relative order, so the oldest pipe stays first |
| MpEngine.CreatePipes | game_multiplayer.py:319-329 | the bottom pipe, then the top pipe, at the spawn column, with an opening of exactly 220 px centred on gap_y; for draws in range the opening lies between the ceiling and the floor |
| MpEngine.BottomPipeCanFloat | game_multiplayer.py:321-327 | the bottom pipe need not reach the floor: with gap_y 250 and height 150 it ends 90 px above it |
| MpEngine.HypotBelowThreshold | game_multiplayer.py:413-416 | the hypot test against 30 holds exactly when the squared distance is below 900 |
| MpEngine.Bird.constructor | game_multiplayer.py:260-267 | a new bird is centred at the start height, at rest |
| MpEngine.Bird.Flap | game_multiplayer.py:269-270 | the object's flap is BirdFlap |
| MpEngine.Bird.Update | game_multiplayer.py:272-284 | the object's update is BirdUpdate, and it returns whether the bird is alive |
| MpEngine.Pipe.constructor | game_multiplayer.py:290-308 | the object's state is NewPipe |
| MpEngine.Pipe.Update | game_multiplayer.py:310-313 | the object moves 4 px left and reports a kill exactly when it has left the field |
| MpEngine.NewPipePair | game_multiplayer.py:319-329 | two distinct new Pipe objects whose states are CreatePipes |
| MpEngine.UpdateGroup | game_multiplayer.py:453 | updating the group on the sprites keeps each at most once and adds none, and the values left are GroupUpdate of the old ones, in order |
| MpEngine.UpdateMember | game_multiplayer.py:310-313 | one sprite moves by PIPE_SPEED and stays in the group exactly when it is still on the field; the group stays free of duplicates |
| MpGame.RegisterResult | game_multiplayer.py:71-82 | the player id of a 200 answer, None on any other status or an exception |
| MpGame.FetchResult | game_multiplayer.py:100-109 | the rows of a 200 answer ([] when the list is missing), [] on any other status or an exception |
| MpGame.SubmitRequests | game_multiplayer.py:84-98 | a score is sent exactly when the player id is truthy, with pipes_passed equal to the score |
| MpGame.Reset | game_multiplayer.py:331-340 | reset_game enters PLAYING with score 0, an empty group and a new bird, and sets the spawn clock so that the first pair comes 500 ms after the reset |
| MpGame.StartSession | game_multiplayer.py:370-372 | confirming a name sets the player id from the register answer, sends the register call and starts PLAYING with score 0, no pipes and a new bird; the name and the flap clock are kept |
| MpGame.EndSession | game_multiplayer.py:464-468 | a game over enters GAME_OVER and replaces the cache with the fetch result, and leaves the game itself alone |
| MpGame.AfterKey | game_multiplayer.py:368-388 | on the name screen Return with a name registers (the player id from the answer, a register call) and starts PLAYING, Backspace drops the last character, Escape ends the loop, and a printable key appends its upper case while the name is shorter than 15; in PLAYING Space flaps; Escape at game over returns to the name screen, forgetting name and player id; keys never touch the flap clock |
| MpGame.AfterEvent | game_multiplayer.py:365-388 | one event never touches the camera state, the flap clock or the crash flag |
| MpGame.AfterEvents | game_multiplayer.py:364-388 | the event loop leaves the camera state, the flap clock and the crash flag alone |
| MpGame.AfterCamera | game_multiplayer.py:391-426 | a failed read changes nothing; a hand sets the flap to the pinch test; a read without a hand clears it, and crashes when no hand was ever seen |
| MpGame.FlapGate | game_multiplayer.py:447-449 | a pinch flaps the bird exactly when more than 200 ms passed since the last flap time, which then moves to now |
| MpGame.Spawn | game_multiplayer.py:456-461 | a pair is appended exactly when more than 1800 ms passed since the last one; the clock then restarts and the pair is unscored |
| MpGame.Judge | game_multiplayer.py:464-468 | the game ends (once) exactly when the bird overlaps a pipe or fell, and the game itself is left alone |
| MpGame.ScorePass | game_multiplayer.py:471-474 | one point, and the pair marked scored, exactly when the pair has not scored and the oldest pipe in the group is left of the bird; otherwise nothing changes |
| MpGame.Refresh | game_multiplayer.py:188-192 | a leaderboard request exactly when more than 5 s have passed since the last one; the cache is then replaced by the fetch result, possibly [], and the time stamp set; otherwise nothing changes |
| MpGame.Motion | game_multiplayer.py:447-453 | the flap gate, then the bird step and the group update, and nothing else |
| MpGame.AfterPlayTick | game_multiplayer.py:445-489 | a PLAYING frame never changes the loop or crash flags |
| MpGame.AfterLogic | game_multiplayer.py:434-510 | on the name screen a pinch starts a session exactly when the name is non-empty and more than 500 ms passed since the last flap; at game over a pinch restarts under the same 500 ms gate; a start or restart gives PLAYING, score 0, no pipes, a new bird and the flap clock at now, and the name screen's also registers; no branch changes the loop or crash flags |
| MpGame.AfterFrame | game_multiplayer.py:360-510 | a stopped loop runs no frame, a frame never restarts the loop, and a crash stops it |
| MpGame.InitialInv | game_multiplayer.py:59-68 | the starting globals satisfy the loop invariant |
| MpGame.KeyKeepsInv | game_multiplayer.py:368-388 | a key press keeps the invariant: at most 15 characters with no lower-case letter |
| MpGame.EventsKeepInv | game_multiplayer.py:364-388 | the event loop keeps the invariant |
| MpGame.PlayTickKeepsInv | game_multiplayer.py:445-474 | a PLAYING frame keeps the bird between the ceiling and the floor and only on-field pipes in the group |
| MpGame.LogicKeepsInv | game_multiplayer.py:434-510 | every screen's branch keeps the invariant |
| MpGame.FrameKeepsInv | game_multiplayer.py:360-510 | every frame keeps the invariant, including that a crash has stopped the loop |
| MpGame.AfterSpawnKeeps | game_multiplayer.py:463-474 | the game over, scoring and refresh steps leave the group and both clocks alone, and the score moves by at most one, for a passed head pipe of an unscored pair |
| MpGame.FlapCooldownHolds | game_multiplayer.py:440-510 | the flap clock only moves to now, and only more than 200 ms after its old value (500 ms on the name and game-over screens), so two pinch flaps are more than 200 ms apart |
| MpGame.LogicFlapCooldown | game_multiplayer.py:440-510 | each screen's gate on the flap clock: 200 ms in PLAYING, 500 ms otherwise |
| MpGame.PlayTickScoresOncePerPair | game_multiplayer.py:456-474 | a PLAYING frame adds at most one point, for a head pipe that has passed the bird; after that, no more points until the next pair spawns |
| MpGame.PlayTickSpawnPeriod | game_multiplayer.py:456-461 | a PLAYING frame appends a pair exactly when the spawn period has run out, and then restarts it at the current tick |
| MpGame.EventsKeepQuit | game_multiplayer.py:364-366 | the event loop never restarts the loop, and a QUIT anywhere in the queue stops it |
| MpGame.QuitEndsTheLoop | game_multiplayer.py:359-366 | a QUIT anywhere in a frame's events ends the loop after that frame |
| MpGame.EventsSubmitNothing | game_multiplayer.py:364-388 | the event loop sends no score |
| MpGame.EndSessionSubmits | game_multiplayer.py:464-468 | a game over sends one score for a truthy player id and none otherwise |
| MpGame.RefreshSubmitsNothing | game_multiplayer.py:188-192 | the periodic refresh sends no score and keeps the player id |
| MpGame.PlayTickSubmitsAtMostOnce | game_multiplayer.py:445-474 | a PLAYING frame sends one score exactly when it ends the game with a truthy player id |
| MpGame.LogicSubmitsAtMostOnce | game_multiplayer.py:434-510 | only the PLAYING branch sends a score, once, when it ends the game with a truthy id |
| MpGame.AtMostOneSubmissionPerFrame | game_multiplayer.py:360-510 | a frame sends at most one score, and none when the player id is falsy |
| MpGame.FirstFrameWithoutHandCrashes | game_multiplayer.py:391-440 | a first frame whose camera read fails or finds no hand stops the program |
| MpGame.Game.constructor | game_multiplayer.py:59-68 | the globals start in their initial state |
| MpGame.Game.ResetGame | game_multiplayer.py:331-340 | the globals become Reset of the old ones, with a new Bird object |
| MpGame.Game.ResetScore | game_multiplayer.py:336-339 | score 0, PLAYING, and the pair not yet scored; nothing else changes |
| MpGame.Game.RestartClocks | game_multiplayer.py:338-340 | the spawn clock and the session clock of reset_game; nothing else changes |
| MpGame.Game.StartGame | game_multiplayer.py:370-372 | the register call, then reset_game, as StartSession says |
| MpGame.Game.EndGame | game_multiplayer.py:465-468 | GAME_OVER, the submission and the fetched cache, as EndSession says |
| MpGame.Game.NameKey | game_multiplayer.py:369-378 | a key on the name screen, as AfterKey says |
| MpGame.Game.HandleKey | game_multiplayer.py:368-388 | a key on any screen, as AfterKey says |
| MpGame.Game.HandleEvent | game_multiplayer.py:365-388 | one event, as AfterEvent says |
| MpGame.Game.HandleEvents | game_multiplayer.py:364-388 | the event loop, as AfterEvents says |
| MpGame.Game.Abort | game_multiplayer.py:425 | the NameError stops the loop |
| MpGame.Game.ReadCamera | game_multiplayer.py:391-426 | the camera step, as AfterCamera says |
| MpGame.Game.FlapStep | game_multiplayer.py:447-449 | the pinch flap gate on the objects, as FlapGate says |
| MpGame.Game.MotionStep | game_multiplayer.py:447-453 | the flap gate, the bird and the group on the objects, as Motion says, returning whether the bird fell |
| MpGame.Game.MoveSprites | game_multiplayer.py:452-453 | Bird.update and the group update on the objects, and nothing else |
| MpGame.Game.SpawnStep | game_multiplayer.py:456-461 | the spawn on the objects, as Spawn says, with two new Pipe objects |
| MpGame.Game.JudgeStep | game_multiplayer.py:464-468 | the collision and fall check, as Judge says |
| MpGame.Game.ScoreStep | game_multiplayer.py:471-474 | the scoring step, as ScorePass says |
| MpGame.Game.RefreshStep | game_multiplayer.py:188-192 | the leaderboard refresh, as Refresh says |
| MpGame.Game.PlayTick | game_multiplayer.py:445-489 | the PLAYING branch on the objects, as AfterPlayTick says |
| MpGame.Game.Logic | game_multiplayer.py:434-510 | the branch for the current screen, as AfterLogic says |
| MpGame.Game.Frame | game_multiplayer.py:360-510 | one iteration of the loop changes the globals as AfterFrame says |
| MpLeaderboard.ShownName | game_multiplayer.py:215 | a shown name is 1 to 12 characters: a prefix of a non-empty name (the whole name when it fits), "Anonymous" for an empty one |
| MpLeaderboard.ShownScore | game_multiplayer.py:216 | a row shows its best score, or 0 when it has none |
| MpLeaderboard.Present | game_multiplayer.py:197-216 | the placeholder exactly when the cache is empty; otherwise one row view per row of the cache, at most 10, the i-th for rank i + 1 |
| MpLeaderboard.MedalsAreTheTopThree | game_multiplayer.py:207-212 | a rank has a colour other than white exactly when it is in the top three, and exactly those ranks get a one-character medal |
| MpLeaderboard.MarkDeterminesRank | game_multiplayer.py:212 | two ranks never show the same mark |

## Left out

- Drawing: fonts, colours, positions, the camera overlay, particles, stars, the bird's tilt and wing animation, and the gradient pipe images. None of them feeds back into the game state.
- Concurrency: the capture thread of `fp.py` and its lock are modelled as sequential steps, `Capture` and `GetState`. The background HTTP threads become a request in the outbox and a callback run later. The interleavings are not modelled.
- HTTP and the server: every call's outcome is an input, and app.py is not part of this model.
- Landmark extraction and MediaPipe: `fp.py` receives the two distances the thread computes, and `game_multiplayer.py` the integer tip positions. `math.hypot` is stated as a relation on reals.
- Floating point: Python floats are reals, so there is no rounding error. A float stored in a `pygame.Rect`, or passed to `int()`, is truncated toward zero. Two results rely on that truncation: `FpEngine.CeilingHoldsTheBird` (a bird resting on the ceiling moves by 1700·dt² < 1 pixel, which is dropped) and the lower bound PIPE_GAP on the opening in `FpEngine.CreatePipes` (both pipe heights are rounded down).
- The sleeps in the capture thread, `GestureController.stop`, and the `print` warnings of the network fallbacks.
- Quitting `fp.py`: the camera release, `pygame.quit()` and `sys.exit()` become the loop flag cleared before anything else in the frame is handled.
- Text.Upper: only the ASCII letters are upper-cased. The Unicode case mappings of `str.upper`, some of which change the length, are not modelled.
- Text.IsPrintable: it excludes only the C0 and C1 controls and DEL, not the other Unicode categories `str.isprintable` rejects.
- Server answers in `game_multiplayer.py`: one register answer and one leaderboard answer per frame. When a frame fetches twice (a game over and the refresh), both fetches get the same answer.
- Clocks in `game_multiplayer.py`: one `time.time()` value per frame. `get_ticks()` is read twice: at the top of the loop, and inside `reset_game`, after a blocking register call.
- MpLeaderboard.ShownName: a `None` username is not modelled, only the empty string; both show "Anonymous".
- FpLeaderboard.ScoreShown and MpLeaderboard.ShownScore: best scores are integers. `int()` of a fractional score from the server is not modelled.
