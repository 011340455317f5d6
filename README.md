# Flappy Bird Mini — simulation core in Dafny

This project models the simulation core of Flappy Bird Mini (`flappybird.py`): a bird
flies past pairs of pipes that scroll in from the right. In manual mode the player flaps with
SPACE under gravity and dies on touching a pipe, the ceiling or the floor. In auto mode a
controller steers the bird and the bird cannot die.

Modules, one per component of the game loop:

- `Config` (`config.dfy`): window size, gravity, flap strength, pipe and bird sizes, the
  range of the random pipe height (the subset type `PipeHeight`).
- `Rects` (`rects.dfy`): pygame's integer rectangles. Centres use C's truncating halving.
  `Collides` is the model's definition of `colliderect`: rectangles of zero width or height
  touch nothing, spans are normalised, and edges that merely touch do not collide.
- `Pipes` (`pipes.dfy`): `create_pipe` and `move_pipes`. `MovePipes` keeps the two loops of
  the source, a shift of every pair and then an order-preserving filter. It is proved equal to
  the specification function `Moved`, whose properties are lemmas.
- `Collision` (`collision.dfy`): `check_collision`. It answers "still alive", as its
  callers use it.
- `Controller` (`controller.dfy`): `auto_controller`. It has the next-pipe search (a loop
  proved against the recursive `NearestAhead`), the centring and tracking velocities over
  `real`, and the clamp that keeps the bird on screen. `Steer` is the whole controller as a
  function. The `AutoController` method follows the source, including its recursive call
  when no pipe is ahead.
- `Game` (`game.dfy`): `run_game` as an `Episode` class whose `Tick` method performs one
  pass of the game loop. Its invariant `Valid` covers several facts:
  - the bird only moves vertically;
  - the score is 0.01 times the number of running ticks;
  - the speed is `5 + floor(score / 20)`;
  - a waiting episode is manual, has no pipes, and keeps the bird at rest at its start
    position;
  - every pipe pair keeps its created shape.

Inputs the source takes from the outside world are parameters:
- The events drained in a tick are a sequence of `Event`. A `SpawnPipe` event stands for the
  1500 ms pipe timer firing and carries the random height.
- The state of the auto mode's exit button is `exitPressed`.
- `conv: real -> int` is the conversion pygame applies when `centery += v` writes a float
  into an integer field. Every clamp property holds whatever that conversion does.

Behaviour of the code worth knowing:
- The only auto strategy is velocity steering (lines 189-220).
- `move_pipes` is called even while a manual episode waits. The track is empty then, so
  nothing moves; `Scroll` proves this.
- The frame estimate divides by `max(1.0, pipe_speed)` (line 193).
- Ties in the next-pipe search go to the earliest pair, because the comparison is strict.
- The score grows on every running tick whether or not pipes are present. The comment at
  line 282 says otherwise.
- For a pipe height below 170 the upper pipe's height `pipe_height - 170` is negative.
  Under `Collides` that rectangle spans from `pipe_height - 170` up to 0. It lies entirely
  above the window, so for a living bird the opening reaches the ceiling (`HitIffOutsideGap`).

## Model

| member | source | states |
|---|---|---|
| Pipes.CreatePipe | flappybird.py:39-43 | both pipes sit at x = WIDTH + 100 with width PIPE_WIDTH; the lower one spans from the drawn height to the floor, the upper one from 0 to height - gap, so the opening is exactly `gap` tall; with PIPE_GAP the pair is well formed |
| Pipes.GapCenterInsideGap | flappybird.py:190 | the gap centre lies strictly inside the opening, PIPE_GAP / 2 above the lower pipe's top |
| Pipes.Shift | flappybird.py:46-48 | both pipes of a pair move left by exactly `speed`, nothing else changes, and the pair keeps its shape (same column) |
| Pipes.SurvivorsExact | flappybird.py:49 | a pair survives culling if and only if it is in the track and its right edge is right of -50 |
| Pipes.SurvivorsSubsequence | flappybird.py:49 | culling yields an in-order subsequence of its input: no pair is added or reordered |
| Pipes.SurvivorsCount | flappybird.py:49 | culling keeps every copy of an on-screen pair and drops every copy of an off-screen one |
| Pipes.SurvivorsLength | flappybird.py:49 | culling never lengthens the track, and keeps its length exactly when every pair is on screen |
| Pipes.MovedSpec | flappybird.py:45-49 | one scroll step yields an in-order subsequence of the shifted pairs that holds every copy of each shifted pair whose right edge is right of -50 and no copy of any other, which fixes the result exactly; it is never longer than the input and keeps every pair well formed |
| Pipes.MovePipes | flappybird.py:45-49 | the shift loop followed by the filter computes `Moved`: every kept pair is on screen, no pair is added, and pair shape is preserved |
| Collision.CheckCollision | flappybird.py:59-65 | returns false exactly when the bird's top is at or above 0, its bottom is at or below the floor, or it overlaps either pipe of some pair; true otherwise |
| Collision.HitIffOutsideGap | flappybird.py:62-64 | inside a pipe's column, a bird within the play band hits the pair if and only if it leaves the opening |
| Collision.ClearOfColumnsIsAlive | flappybird.py:59-65 | a bird inside the play band and outside every pipe column is alive |
| Collision.GapAdmitsBird | flappybird.py:39-43 | every created opening leaves room for the 40-pixel bird to pass alive |
| Controller.Clamp | flappybird.py:172 | `max(-m, min(m, x))` lies in [-m, m], equals x inside that range and the nearer bound outside it |
| Controller.CenteringVelocity | flappybird.py:164-172 | the centring velocity lies in [-8, 8]; it points toward mid-screen when the previous velocity does not point away, and is 0 at rest on mid-screen |
| Controller.FramesAhead | flappybird.py:193 | the estimated ticks until the pipe arrives are at least 1 |
| Controller.TrackingVelocity | flappybird.py:189-207 | the tracking velocity lies in [-(10 + 0.5 speed), 10 + 0.5 speed]; it points toward the gap centre when the previous velocity does not point away, and is 0 at rest on the gap centre |
| Controller.KeepInBand | flappybird.py:212-218 | afterwards the bird's centre is at least 20 and its bottom at most HEIGHT - FLOOR_HEIGHT - 2; the velocity is 0 whenever either clamp fired; a bird inside the band is left alone |
| Controller.NearestAheadUnique | flappybird.py:179-183 | at most one pair is the earliest nearest pair strictly ahead of the bird |
| Controller.NearestAhead | flappybird.py:176-187 | it yields none if and only if no pair's centre is strictly ahead of the bird; otherwise the pair it names is ahead, no pair ahead is nearer, and every earlier pair ahead is strictly farther |
| Controller.NextPipe | flappybird.py:176-185 | the scan with a strict `<` finds exactly `NearestAhead`: the nearest pair ahead, the earliest one on ties, or none |
| Controller.Steer | flappybird.py:162-220 | the controller moves the bird only vertically; with no pipe ahead the velocity lies in [-8, 8] and the bird moves by it; with a pipe ahead the velocity lies in [-(10 + 0.5 speed), 10 + 0.5 speed], the bird ends inside the band, and either the bird moved by the velocity or the velocity is 0 |
| Controller.AutoController | flappybird.py:162-220 | the method, including its recursive call when no pair is ahead, computes `Steer`, with the velocity bounds and the band for the tracking branch |
| Game.Difficulty | flappybird.py:285-286 | the speed is at least 5 and grows by one for every full 20 points of score |
| Game.DifficultyMonotone | flappybird.py:286 | a higher score never gives a lower speed |
| Game.DifficultyAfterTicks | flappybird.py:283-286 | after n running ticks of 0.01 points the speed is 5 + n div 2000 |
| Game.HandleEvents | flappybird.py:240-252 | the event loop's effect on waiting, velocity and track: SPACE in manual mode clears waiting and sets JUMP_STRENGTH, a timer event appends `create_pipe(h)` with PIPE_GAP unless waiting, other events do nothing (ESC is handled by `DrainEvents`); it only appends to the track, never re-enters waiting, and spawns nothing in an episode that is still waiting |
| Game.Spawned | flappybird.py:251-252 | every pair a timer event creates is well formed and starts at x = WIDTH + 100 |
| Game.WaitingIgnoresEvents | flappybird.py:247-252 | while waiting, any events without a manual SPACE change nothing; in particular no pipe is spawned |
| Game.SpaceStarts | flappybird.py:247-250 | in manual mode a SPACE in the tick's events ends the waiting phase and leaves the velocity at JUMP_STRENGTH |
| Game.AutoIgnoresSpace | flappybird.py:247 | in auto mode the event loop changes neither the waiting flag nor the velocity |
| Game.RunningSpawnsEveryPair | flappybird.py:251-252 | a running episode stays running, and every timer event appends its new pair to the track in order |
| Game.Episode.constructor | flappybird.py:231-237 | a new episode has the bird at rest at (200, 300), no pipes, score 0 and speed 5; only a manual episode starts waiting |
| Game.Episode.DrainEvents | flappybird.py:240-252 | the event loop stops at the first ESC; otherwise it applies every event in order and leaves bird, score and speed untouched; waiting is never re-entered |
| Game.Episode.Fly | flappybird.py:256-271 | while waiting the bird does not move; manual play adds gravity and then moves by the velocity; auto play applies the controller; only the auto exit button ends the episode here |
| Game.Episode.Scroll | flappybird.py:278-286 | pipes always scroll and cull; a running episode gains 0.01 points and recomputes its speed from the score; while waiting the track stays empty and score and speed stay put |
| Game.Episode.Judge | flappybird.py:288-292 | the episode ends in a crash exactly when it is manual, running and not alive; auto mode and the waiting phase cannot die; a crash records max(high score, score) |
| Game.Episode.Tick | flappybird.py:239-311 | the result is one full tick from events to crash test. The invariant is kept and waiting is never re-entered. Auto mode never crashes, and ESC always returns home. The speed is 5 + running ticks div 2000. Each of the three phases (waiting, manual running, auto running) gets its exact new state |

## Left out

- Rendering and UI are not modelled: the sky, clouds, floor scroll, pipe drawing, bird rotation, score text, buttons, the home and game-over screens, and the menu loop.
- The game-over screen's choice between retry and home is not modelled. A crash is the outcome `GameOver`, after the high score has been updated.
- The QUIT event exits the process and is not modelled.
- The frame clock is not modelled. The 1500 ms pipe timer is the `SpawnPipe` event, and `random.randint(150, 400)` is the height that event carries.
- Float rounding is not modelled: velocities and the score are exact `real`s. Float-to-int writes into rectangle fields go through the parameter `conv`.
- The displayed score `int(score)` is rendering and is not modelled.
- Pipes.MovePipes: the source shifts the `Rect` objects of the old list in place and returns a new list that shares them. The model returns new values; the caller replaces the old list, so the sharing is not observable.
- Controller.AutoController: the source writes the moved bird into the global `bird_rect`. The model returns the moved rectangle and the episode stores it.
- Controller.AutoController: the `gap` parameter is unused in the source (the gap centre comes from the rectangles) and is dropped.
- Rects.Collides is the model's own definition of pygame's `colliderect`; pygame's implementation is not part of this model.
