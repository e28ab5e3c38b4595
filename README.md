# Pong: per-frame game logic

A model of the Pong clone in `pong/SDLProject/main.cpp`. Each frame, the
main loop calls `process_input`, then `update`, then `render`. Between
frames, all game state lives in a handful of globals:

- the two paddles' position offsets and movement vectors;
- the ball's position and movement;
- the previous tick count;
- the running flag.

`process_input` does three things:

- Each event whose type is SDL_QUIT *toggles* the running flag. The second case label, `SDL_WINDOWEVENT_CLOSE`, is a window-event ID rather than an event type, so a window close toggles the flag only through the SDL_QUIT that follows it.
- UP/DOWN set the right paddle's vertical movement, and W/S set the left one's.
- Movement vectors longer than one are normalised.

`update` does the rest of the frame:

- It computes delta time from the tick count.
- It measures `fabs(a - b) - margin` gaps against the walls and the paddles.
- It stops a paddle that pushes into a wall it is within 0.035 of.
- It integrates the paddles and resets their movement.
- It flips the ball's vertical movement near the top and bottom walls, and its horizontal movement at a paddle.
- It calls `shutdown()` when the ball's start-of-frame x is past a side wall.
- It integrates the ball.

The project has four modules:

- `Vectors` (vectors.dfy): `glm::vec3` as a vector of reals, `fabs`, and the "normalise when longer than one" clamp.
- `PongRules` (rules.dfy): the game's constants and each per-frame rule as a small function (gap, key axis, quit toggling, paddle clamp, ball reflections).
- `PongFrame` (frame.dfy): the globals as a `State` value, and what `process_input` (`AfterInput`), `update` (`AfterUpdate`), one pass (`Step`) and the main loop (`Run`) do to it. The lemmas about the game's behaviour are stated here.
- `PongGame` (game.dfy): the class `Game`. Its fields are the globals. Its methods `ProcessInput`, `Update` and `Play` overwrite the fields in place, as the source does. Each method is proved to compute the matching `PongFrame` function, so every lemma about those functions holds of the object.

Two behaviours of the code are kept as written:

- A quit event toggles the running flag instead of clearing it.
- `shutdown()` does not stop the loop. The running flag changes only through quit events, and the ball still moves in the frame that calls `shutdown()`. The model records the call in a `shutdownCalled` flag.

The paddle wall clamp reacts only inside a 0.035 band around each wall. A paddle moves 4·dt per frame, so it can step over the band and leave the playfield. `PongFrame.PaddleSkipsTheWallBand` shows this with 0.1 s frames.

## Model

| member | source | states |
|---|---|---|
| Vectors.Abs | pong/SDLProject/main.cpp:275-288 | `fabs`: the result is never negative and is the argument or its negation |
| Vectors.LengthSquared | pong/SDLProject/main.cpp:244-257 | definition: x² + y² + z², the square of `glm::length`; over the reals it exceeds 1 exactly when `glm::length` does |
| Vectors.ClampLength | pong/SDLProject/main.cpp:254-257 | the ball's movement after normalisation is at most one long; it is unchanged when it already was, and otherwise it is a unit vector in the same direction |
| Vectors.ClampLengthIdempotent | pong/SDLProject/main.cpp:254-257 | normalising a second time changes nothing |
| Vectors.SignFlipsKeepLength | pong/SDLProject/main.cpp:332-347 | negating components of a vector keeps its length |
| PongRules.Seconds | pong/SDLProject/main.cpp:265 | the tick count in seconds is never negative |
| PongRules.Gap | pong/SDLProject/main.cpp:275-288 | a gap is negative exactly when a lies strictly within margin of b, and is never below -margin |
| PongRules.Toggles | pong/SDLProject/main.cpp:217-219 | definition: true for the events matched by the two case labels at lines 217-218 |
| PongRules.QuitCount | pong/SDLProject/main.cpp:213-223 | the number of events matching a toggle case label is at most the queue length, and is zero exactly when no event toggles |
| PongRules.QuitCountAppend | pong/SDLProject/main.cpp:213-223 | appending an event adds one to the count exactly when that event toggles |
| PongRules.AfterEvents | pong/SDLProject/main.cpp:213-223 | after the event loop, the running flag is flipped exactly when an odd number of quit events arrived |
| PongRules.KeyAxis | pong/SDLProject/main.cpp:228-241 | the negative key gives -1, even when both keys are held; the positive key alone gives 1; with neither key held the axis keeps its value |
| PongRules.ClampPaddleY | pong/SDLProject/main.cpp:305-312 | the clamped movement is either 0 or unchanged; it changes exactly when the paddle moves up within the top band or down within the bottom band |
| PongRules.PastWallNotClamped | pong/SDLProject/main.cpp:305-312 | a paddle past a wall's band is not clamped, so it is not pushed back |
| PongRules.AtMostOneWallFlip | pong/SDLProject/main.cpp:283-284 | no ball position is within both the top and the bottom reflection band |
| PongRules.NearHorizontalWall | pong/SDLProject/main.cpp:332-336 | the ball is near a horizontal wall exactly when its y lies strictly within 0.1 of MAX_Y or of MIN_Y |
| PongRules.BounceY | pong/SDLProject/main.cpp:332-339 | the ball's vertical movement is negated exactly when the ball is near the top or bottom wall, and keeps its size |
| PongRules.AtMostOnePaddleHit | pong/SDLProject/main.cpp:285-288 | no ball position hits both paddles |
| PongRules.HitsPaddle | pong/SDLProject/main.cpp:340-344 | the ball hits a paddle exactly when its x lies strictly within 0.65 of the paddle's lane and its y strictly within 0.65 of the paddle's offset |
| PongRules.BounceX | pong/SDLProject/main.cpp:340-347 | the ball's horizontal movement is negated exactly when the ball is within the margin of a paddle on both axes, and keeps its size |
| PongRules.OutOfBounds | pong/SDLProject/main.cpp:349 | the test that calls `shutdown()` holds exactly when the ball's x is further than MAX_X = 5 from the centre |
| PongFrame.PaddleMovementShort | pong/SDLProject/main.cpp:244-252 | a paddle movement set by the keys is at most one long, so the paddles' normalisation never applies |
| PongFrame.Initial | pong/SDLProject/main.cpp:90-105 | the start state is consistent and running, has no shutdown, zero ticks and zero positions, and a ball movement with components in [-3, 1] and z = 0 |
| PongFrame.AfterInput | pong/SDLProject/main.cpp:210-259 | the running flag flips with the quit-event parity; DOWN/S win over UP/W; paddles not pressed keep their movement; every movement is at most one long; the ball's movement is `ClampLength` of the old one, so it is kept when at most one long and otherwise becomes a unit vector in the same direction; positions, ticks and shutdown are untouched |
| PongFrame.Integrate | pong/SDLProject/main.cpp:313 | an axis the movement does not use keeps its coordinate |
| PongFrame.MovePaddle | pong/SDLProject/main.cpp:305-315 | a paddle stays in its lane and moves along y by the clamped movement times speed times dt; a paddle pressing into a wall it is within the band of does not move |
| PongFrame.ReflectBall | pong/SDLProject/main.cpp:332-347 | the new ball movement is y negated near a wall and x negated at a paddle, both measured at the start-of-frame positions; z and the length are kept |
| PongFrame.AfterUpdate | pong/SDLProject/main.cpp:261-357 | previous ticks becomes the new tick count; paddle movements are reset to zero; the running flag is kept; shutdown is called exactly when the start-of-frame ball x is out of bounds; paddles and ball move by their movement times speed times the delta time |
| PongFrame.PaddleStepBound | pong/SDLProject/main.cpp:313-315 | a paddle moves at most speed·abs(dt) in one frame, for either paddle's speed |
| PongFrame.ClampedStepBound | pong/SDLProject/main.cpp:313 | a movement of size at most one, times speed·dt, is at most speed·abs(dt) |
| PongFrame.Step | pong/SDLProject/main.cpp:119-124 | one pass keeps the state consistent, flips running with the quit parity, records the ticks, resets paddle input, calls shutdown exactly when the ball was out of bounds, and leaves the ball's movement at most one long |
| PongFrame.Run | pong/SDLProject/main.cpp:119-124 | the loop does nothing once running is cleared; a shutdown stays recorded; after one pass the ball's movement is at most one long and its length then never changes |
| PongFrame.StepKeepsRunnable | pong/SDLProject/main.cpp:119-124 | after one pass, the loop can go on with any later frame |
| PongFrame.RunUnfold | pong/SDLProject/main.cpp:119-124 | a running loop with frames left runs one pass and then the rest |
| PongFrame.EvenQuitsThroughoutEveryFrame | pong/SDLProject/main.cpp:213-223 | the frame-by-frame even-quits condition holds exactly when every frame brings an even number of quit events |
| PongFrame.EvenQuitsKeepRunning | pong/SDLProject/main.cpp:119-124 | a pass whose frame brings an even number of quit events leaves the game running and records the frame's ticks |
| PongFrame.RunEndsOnlyByQuit | pong/SDLProject/main.cpp:119-124 | if no frame brings an odd number of quit events, every frame is processed, the game is still running at the end, and it has recorded the last frame's ticks, whatever the ball did |
| PongFrame.QuitStopsAfterItsFrame | pong/SDLProject/main.cpp:119-124 | a frame with an odd number of quit events still runs `update`, and then the loop stops |
| PongFrame.BallSpeedSettles | pong/SDLProject/main.cpp:254-257 | the ball's speed after the whole run equals its speed after the first pass, and is at most one |
| PongFrame.OutOfBoundsSeenOneFrameLate | pong/SDLProject/main.cpp:349-354 | the frame that carries the ball out does not call shutdown, and the next one does; neither changes the running flag, and the ball still moves |
| PongFrame.PaddleSkipsTheWallBand | pong/SDLProject/main.cpp:305-315 | with W held and 0.1 s frames, the left paddle goes from 2.9 to 3.3 to 3.7, past MAX_Y |
| PongGame.Game.constructor | pong/SDLProject/main.cpp:90-105 | the globals start at `Initial(rand1, rand2)` |
| PongGame.Game.ProcessInput | pong/SDLProject/main.cpp:210-259 | `process_input` in place computes `AfterInput` of the old globals; the running flag flips with the quit parity, and the ball's movement ends at most one long |
| PongGame.Game.PollEvents | pong/SDLProject/main.cpp:213-223 | the event loop leaves the running flag at `AfterEvents` of its old value |
| PongGame.Game.NormaliseBall | pong/SDLProject/main.cpp:254-257 | the ball's movement ends at `ClampLength` of the old one: replaced by its normalisation exactly when it was longer than one |
| PongGame.Game.MapKeys | pong/SDLProject/main.cpp:228-241 | the key bindings write only the y axis, as `KeyAxis` gives it |
| PongGame.Game.Update | pong/SDLProject/main.cpp:261-357 | `update` in place computes `AfterUpdate` of the old globals |
| PongGame.Game.MoveRightPaddle | pong/SDLProject/main.cpp:305-315 | the right paddle ends at `MovePaddle` of its old position and movement, and its movement is reset to zero |
| PongGame.Game.MoveLeftPaddle | pong/SDLProject/main.cpp:318-328 | the left paddle ends at `MovePaddle` of its old position and movement, and its movement is reset to zero |
| PongGame.Game.ReflectBallMovement | pong/SDLProject/main.cpp:332-347 | the four flip tests leave the ball's movement at `BounceX`/`BounceY` of the old one, with z kept |
| PongGame.Game.Play | pong/SDLProject/main.cpp:115-124 | the main loop over a finite run of frames leaves the globals at `Run` of the old ones |

## Left out

- SDL window and context creation, shader set-up, texture loading, `render` and `draw_object`: these are library calls and drawing, with no game logic.
- The glm model matrices: they only carry translations. The drawn position of a body is its `INIT_POS` plus its position offset.
- `LOG` at line 331: console output.
- `SDL_PollEvent`, `SDL_GetKeyboardState` and `SDL_GetTicks` are parameters. They are a sequence of events, four key flags, and a tick count in milliseconds (`ticksMs: nat`). The 32-bit wrap of the tick counter is not modelled.
- Window close: the event `WindowClose` models an event whose type field equals `SDL_WINDOWEVENT_CLOSE`, as the second case label tests; SDL does not produce such an event (a window close arrives as `SDL_WINDOWEVENT`, an `Other` here), so in practice only `Quit` toggles the running flag.
- `rand()` during static initialisation: its two values are constructor parameters.
- Vectors.ClampLength: `glm::normalize` needs a square root, so its result is passed in by the caller, who must supply a unit vector in the same direction. `glm::length(v) > 1` is modelled as `x² + y² + z² > 1`, which is equivalent over the reals.
- Floating point: every quantity is a `real`. The model has no rounding, and `movement * speed * delta_time` equals `movement * (speed * delta_time)`.
- The code puts no upper bound on delta time, and neither does the model.
- PongFrame.Run: the main loop is modelled over a finite sequence of frames. Play and Run stop when the frames run out, as well as when the running flag is cleared.
- `render` is called once per pass, but it changes no game state, so the model does not include it.
- `2d_scene/SDLProject/main.cpp` and `triangle/SDLProject/main.cpp` are not part of this model.
