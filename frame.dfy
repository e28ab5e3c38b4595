/** The game's global state as a value, and what one call of
    `process_input`, one call of `update` and the main loop do to it.
    These functions are the specification the class in PongGame is proved
    against, and the lemmas below state the source's promises about them. */
module PongFrame {
  import opened Vectors
  import opened PongRules

  /** The globals that `process_input` and `update` read and write.
      Paddle positions are offsets from the paddle's INIT_POS: the drawn
      position is INIT_POS + offset. */
  datatype State = State(
    leftPaddlePosition: Vec3,
    leftPaddleMovement: Vec3,
    rightPaddlePosition: Vec3,
    rightPaddleMovement: Vec3,
    ballPosition: Vec3,
    ballMovement: Vec3,
    previousTicks: real,
    gameIsRunning: bool,
    shutdownCalled: bool)

  /** Which of the four movement keys are held. */
  datatype Keys = Keys(up: bool, down: bool, w: bool, s: bool)

  /** Everything one pass of the main loop receives from outside: the
      queued events, the held keys, what glm::normalize returns for the
      ball's movement, and SDL_GetTicks in milliseconds. */
  datatype Frame = Frame(events: seq<Event>, keys: Keys, ballUnit: Vec3, ticksMs: nat)

  /** A paddle's movement is only ever written on its y axis, to 1 or -1,
      and reset to zero. */
  predicate PaddleMovementOK(m: Vec3) {
    m.x == 0.0 && m.z == 0.0 && -1.0 <= m.y <= 1.0
  }

  /** A paddle's offset never leaves its lane. */
  predicate InLane(p: Vec3) {
    p.x == 0.0 && p.z == 0.0
  }

  /** What holds of every state the program reaches. */
  predicate Consistent(s: State) {
    PaddleMovementOK(s.leftPaddleMovement) && PaddleMovementOK(s.rightPaddleMovement) &&
    InLane(s.leftPaddlePosition) && InLane(s.rightPaddlePosition)
  }

  lemma PaddleMovementShort(m: Vec3)
    requires PaddleMovementOK(m)
    ensures LengthSquared(m) <= 1.0
  {
    if m.y >= 0.0 {
      assert m.y * m.y <= m.y * 1.0;
    } else {
      assert m.y * m.y <= m.y * -1.0;
    }
  }

  /** The globals at start-up. rand1 and rand2 are the two values rand()
      returns during static initialisation; the ball starts moving along
      (rand1 % 5 - 3, rand2 % 5 - 3, 0). */
  function Initial(rand1: nat, rand2: nat): (s: State)
    ensures Consistent(s)
    ensures s.gameIsRunning && !s.shutdownCalled && s.previousTicks == 0.0
    ensures s.leftPaddlePosition == Zero && s.rightPaddlePosition == Zero && s.ballPosition == Zero
    ensures -3.0 <= s.ballMovement.x <= 1.0 && -3.0 <= s.ballMovement.y <= 1.0 && s.ballMovement.z == 0.0
  {
    var randX := (rand1 % 5 + -3) as real;
    var randY := (rand2 % 5 + -3) as real;
    State(Zero, Zero, Zero, Zero, Zero, Vec3(randX, randY, 0.0), 0.0, true, false)
  }

  /** `process_input`: drain the events, map the keys to paddle movement,
      clamp the ball's movement to length one. */
  function AfterInput(s: State, keys: Keys, events: seq<Event>, ballUnit: Vec3): (r: State)
    requires Consistent(s)
    requires NormalSupplied(s.ballMovement, ballUnit)
    ensures Consistent(r)
    ensures r.gameIsRunning <==> (s.gameIsRunning != (QuitCount(events) % 2 == 1))
    ensures keys.down ==> r.rightPaddleMovement.y == -1.0
    ensures keys.up && !keys.down ==> r.rightPaddleMovement.y == 1.0
    ensures !keys.up && !keys.down ==> r.rightPaddleMovement == s.rightPaddleMovement
    ensures keys.s ==> r.leftPaddleMovement.y == -1.0
    ensures keys.w && !keys.s ==> r.leftPaddleMovement.y == 1.0
    ensures !keys.w && !keys.s ==> r.leftPaddleMovement == s.leftPaddleMovement
    ensures LengthSquared(r.leftPaddleMovement) <= 1.0 && LengthSquared(r.rightPaddleMovement) <= 1.0
    ensures LengthSquared(r.ballMovement) <= 1.0
    ensures LengthSquared(s.ballMovement) <= 1.0 ==> r.ballMovement == s.ballMovement
    ensures r.ballMovement == ClampLength(s.ballMovement, ballUnit)
    ensures r.leftPaddlePosition == s.leftPaddlePosition && r.rightPaddlePosition == s.rightPaddlePosition
    ensures r.ballPosition == s.ballPosition && r.previousTicks == s.previousTicks
    ensures r.shutdownCalled == s.shutdownCalled
  {
    var right := s.rightPaddleMovement.(y := KeyAxis(s.rightPaddleMovement.y, keys.up, keys.down));
    var left := s.leftPaddleMovement.(y := KeyAxis(s.leftPaddleMovement.y, keys.w, keys.s));
    PaddleMovementShort(right);
    PaddleMovementShort(left);
    // Both paddle vectors are at most one long here, so the normalisation
    // of the paddles never applies; only the ball's can.
    s.(gameIsRunning := AfterEvents(s.gameIsRunning, events),
       rightPaddleMovement := right,
       leftPaddleMovement := left,
       ballMovement := ClampLength(s.ballMovement, ballUnit))
  }

  /** `position += movement * speed * delta_time` (over the reals the
      grouping of the two products does not matter): an axis the movement
      does not use keeps its coordinate. */
  function Integrate(p: Vec3, m: Vec3, speed: real, dt: real): (r: Vec3)
    ensures m.x == 0.0 ==> r.x == p.x
    ensures m.z == 0.0 ==> r.z == p.z
  {
    Add(p, Scale(m, speed * dt))
  }

  /** A paddle's move in `update`: its movement is clamped against the wall
      it is within the margin of, then integrated. It moves along y only, by
      the clamped movement times speed times delta time, so a paddle pressing
      into such a wall stays where it is. */
  function MovePaddle(pos: Vec3, move: Vec3, speed: real, dt: real): (r: Vec3)
    ensures InLane(pos) && move.x == 0.0 && move.z == 0.0 ==> InLane(r)
    ensures r.y - pos.y == ClampPaddleY(move.y, pos.y) * (speed * dt)
    ensures ((move.y > 0.0 && Gap(pos.y, MAX_Y, PADDLE_COLLISION_FACTOR) < 0.0) ||
             (move.y < 0.0 && Gap(pos.y, MIN_Y, PADDLE_COLLISION_FACTOR) < 0.0)) ==> r.y == pos.y
  {
    Integrate(pos, move.(y := ClampPaddleY(move.y, pos.y)), speed, dt)
  }

  /** The ball's movement after the wall and paddle tests of `update`,
      all measured at the start-of-frame positions. */
  function ReflectBall(s: State): (r: Vec3)
    ensures r.y == if NearHorizontalWall(s.ballPosition.y) then -s.ballMovement.y else s.ballMovement.y
    ensures r.x ==
      if HitsPaddle(s.ballPosition, LEFT_PADDLE_INIT_POS.x, s.leftPaddlePosition.y) ||
         HitsPaddle(s.ballPosition, RIGHT_PADDLE_INIT_POS.x, s.rightPaddlePosition.y)
      then -s.ballMovement.x else s.ballMovement.x
    ensures r.z == s.ballMovement.z
    ensures LengthSquared(r) == LengthSquared(s.ballMovement)
  {
    var r := Vec3(BounceX(s.ballMovement.x, s.ballPosition, s.leftPaddlePosition.y, s.rightPaddlePosition.y),
                  BounceY(s.ballMovement.y, s.ballPosition.y),
                  s.ballMovement.z);
    SignFlipsKeepLength(s.ballMovement, r);
    r
  }

  /** `update` with SDL_GetTicks() == ticksMs. */
  function AfterUpdate(s: State, ticksMs: nat): (r: State)
    requires Consistent(s)
    ensures Consistent(r)
    ensures r.previousTicks == Seconds(ticksMs)
    ensures r.leftPaddleMovement == Zero && r.rightPaddleMovement == Zero
    ensures r.gameIsRunning == s.gameIsRunning
    ensures r.shutdownCalled <==> s.shutdownCalled || OutOfBounds(s.ballPosition.x)
    ensures r.leftPaddlePosition ==
              MovePaddle(s.leftPaddlePosition, s.leftPaddleMovement, LEFT_PADDLE_SPEED, Seconds(ticksMs) - s.previousTicks)
    ensures r.rightPaddlePosition ==
              MovePaddle(s.rightPaddlePosition, s.rightPaddleMovement, RIGHT_PADDLE_SPEED, Seconds(ticksMs) - s.previousTicks)
    ensures r.ballMovement == ReflectBall(s)
    ensures r.ballPosition == Integrate(s.ballPosition, r.ballMovement, BALL_SPEED, Seconds(ticksMs) - s.previousTicks)
  {
    var ticks := Seconds(ticksMs);
    var deltaTime := ticks - s.previousTicks;
    var ball := ReflectBall(s);
    State(
      leftPaddlePosition := MovePaddle(s.leftPaddlePosition, s.leftPaddleMovement, LEFT_PADDLE_SPEED, deltaTime),
      leftPaddleMovement := Zero,
      rightPaddlePosition := MovePaddle(s.rightPaddlePosition, s.rightPaddleMovement, RIGHT_PADDLE_SPEED, deltaTime),
      rightPaddleMovement := Zero,
      ballPosition := Integrate(s.ballPosition, ball, BALL_SPEED, deltaTime),
      ballMovement := ball,
      previousTicks := ticks,
      gameIsRunning := s.gameIsRunning,
      shutdownCalled := s.shutdownCalled || OutOfBounds(s.ballPosition.x))
  }

  /** A paddle moves at most speed * |delta time| in a frame, whichever
      paddle and speed it is. */
  lemma PaddleStepBound(pos: Vec3, move: Vec3, speed: real, dt: real)
    requires 0.0 <= speed
    requires -1.0 <= move.y <= 1.0
    ensures Abs(MovePaddle(pos, move, speed, dt).y - pos.y) <= speed * Abs(dt)
  {
    var c := ClampPaddleY(move.y, pos.y);
    assert -1.0 <= c <= 1.0;
    ClampedStepBound(c, speed, dt);
  }

  /** |m * (speed * dt)| <= speed * |dt| for a movement |m| <= 1. */
  lemma ClampedStepBound(m: real, speed: real, dt: real)
    requires 0.0 <= speed
    requires -1.0 <= m <= 1.0
    ensures Abs(m * (speed * dt)) <= speed * Abs(dt)
  {
    var step := speed * dt;
    AbsOfProduct(speed, dt);
    assert Abs(speed) == speed;
    assert Abs(step) == speed * Abs(dt);
    AbsOfProduct(m, step);
    AtMostOneShrinks(Abs(m), Abs(step));
    assert Abs(m * step) <= Abs(step);
  }

  /** A factor of at most one does not enlarge a non-negative number. */
  lemma AtMostOneShrinks(k: real, x: real)
    requires 0.0 <= k <= 1.0 && 0.0 <= x
    ensures k * x <= x
  {
    assert x - k * x == (1.0 - k) * x;
  }

  /** |a * b| == |a| * |b|. */
  lemma AbsOfProduct(a: real, b: real)
    ensures Abs(a * b) == Abs(a) * Abs(b)
  {
    if a >= 0.0 && b < 0.0 {
      assert a * b == -(a * -b);
    } else if a < 0.0 && b >= 0.0 {
      assert a * b == -(-a * b);
    } else if a < 0.0 && b < 0.0 {
      assert a * b == -a * -b;
    }
  }

  /** One pass of the main loop: `process_input` then `update`. */
  function Step(s: State, f: Frame): (r: State)
    requires Consistent(s)
    requires NormalSupplied(s.ballMovement, f.ballUnit)
    ensures Consistent(r)
    ensures r.gameIsRunning <==> (s.gameIsRunning != (QuitCount(f.events) % 2 == 1))
    ensures r.previousTicks == Seconds(f.ticksMs)
    ensures r.leftPaddleMovement == Zero && r.rightPaddleMovement == Zero
    ensures r.shutdownCalled <==> s.shutdownCalled || OutOfBounds(s.ballPosition.x)
    ensures LengthSquared(r.ballMovement) <= 1.0
    ensures LengthSquared(s.ballMovement) <= 1.0 ==> LengthSquared(r.ballMovement) == LengthSquared(s.ballMovement)
  {
    AfterUpdate(AfterInput(s, f.keys, f.events, f.ballUnit), f.ticksMs)
  }

  /** The main loop may run these frames from s. */
  predicate CanRun(s: State, frames: seq<Frame>) {
    Consistent(s) && (frames != [] ==> NormalSupplied(s.ballMovement, frames[0].ballUnit))
  }

  /** `while (g_game_is_running) { process_input(); update(); render(); }`
      over a finite run of frames: it stops when the frames run out or when
      a pass has cleared the running flag. */
  function Run(s: State, frames: seq<Frame>): (r: State)
    requires CanRun(s, frames)
    ensures Consistent(r)
    ensures !s.gameIsRunning ==> r == s
    ensures s.shutdownCalled ==> r.shutdownCalled
    ensures s.gameIsRunning && frames != [] ==> LengthSquared(r.ballMovement) <= 1.0
    ensures LengthSquared(s.ballMovement) <= 1.0 ==> LengthSquared(r.ballMovement) == LengthSquared(s.ballMovement)
    decreases |frames|
  {
    if frames == [] || !s.gameIsRunning then s
    else Run(Step(s, frames[0]), frames[1..])
  }

  /** After one pass the ball's movement is at most one long, so the main
      loop can go on with any later frame. */
  lemma StepKeepsRunnable(s: State, f: Frame, rest: seq<Frame>)
    requires Consistent(s) && NormalSupplied(s.ballMovement, f.ballUnit)
    ensures CanRun(Step(s, f), rest)
  {
    var next := Step(s, f);
    assert LengthSquared(next.ballMovement) <= 1.0;
  }

  lemma RunUnfold(s: State, frames: seq<Frame>)
    requires CanRun(s, frames) && s.gameIsRunning && frames != []
    ensures CanRun(Step(s, frames[0]), frames[1..])
    ensures Run(s, frames) == Run(Step(s, frames[0]), frames[1..])
  {
    StepKeepsRunnable(s, frames[0], frames[1..]);
  }

  /** Every frame brings an even number of quit events. */
  predicate EvenQuitsThroughout(frames: seq<Frame>)
    decreases |frames|
  {
    frames == [] || (QuitCount(frames[0].events) % 2 == 0 && EvenQuitsThroughout(frames[1..]))
  }

  lemma {:induction false} EvenQuitsThroughoutEveryFrame(frames: seq<Frame>)
    ensures EvenQuitsThroughout(frames) <==> forall i :: 0 <= i < |frames| ==> QuitCount(frames[i].events) % 2 == 0
    decreases |frames|
  {
    if frames != [] {
      EvenQuitsThroughoutEveryFrame(frames[1..]);
      assert forall i :: 0 < i < |frames| ==> frames[i] == frames[1..][i - 1];
    }
  }

  /** The loop ends only through quit events: if no frame brings an odd
      number of them, every frame is processed (the last tick count is the
      one recorded) and the game is still running at the end, whatever the
      ball did. */
  lemma {:induction false} RunEndsOnlyByQuit(s: State, frames: seq<Frame>)
    requires CanRun(s, frames)
    requires s.gameIsRunning
    requires EvenQuitsThroughout(frames)
    ensures Run(s, frames).gameIsRunning
    ensures frames != [] ==> Run(s, frames).previousTicks == Seconds(frames[|frames| - 1].ticksMs)
    decreases |frames|
  {
    if frames != [] {
      var next, rest := Step(s, frames[0]), frames[1..];
      EvenQuitsKeepRunning(s, frames[0]);
      RunUnfold(s, frames);
      if rest == [] {
        assert Run(next, rest) == next;
        assert frames[|frames| - 1] == frames[0];
      } else {
        RunEndsOnlyByQuit(next, rest);
        assert rest[|rest| - 1] == frames[|frames| - 1];
      }
    }
  }

  /** A pass whose frame brings an even number of quit events leaves the
      game running and records the frame's tick count. */
  lemma EvenQuitsKeepRunning(s: State, f: Frame)
    requires Consistent(s) && NormalSupplied(s.ballMovement, f.ballUnit)
    requires s.gameIsRunning && QuitCount(f.events) % 2 == 0
    ensures Step(s, f).gameIsRunning
    ensures Step(s, f).previousTicks == Seconds(f.ticksMs)
  {
  }

  /** A frame with an odd number of quit events still runs its `update`,
      and then the loop stops. */
  lemma QuitStopsAfterItsFrame(s: State, frames: seq<Frame>)
    requires CanRun(s, frames)
    requires s.gameIsRunning && frames != []
    requires QuitCount(frames[0].events) % 2 == 1
    ensures Run(s, frames) == Step(s, frames[0])
    ensures !Run(s, frames).gameIsRunning
  {
  }

  /** Once the ball's movement has been clamped in the first frame, its
      length never changes again: reflections only flip signs, so the
      normalisation in `process_input` never applies a second time. */
  lemma {:induction false} BallSpeedSettles(s: State, frames: seq<Frame>)
    requires CanRun(s, frames)
    requires s.gameIsRunning && |frames| >= 1
    ensures LengthSquared(Run(s, frames).ballMovement) == LengthSquared(Step(s, frames[0]).ballMovement)
    ensures LengthSquared(Run(s, frames).ballMovement) <= 1.0
  {
    RunUnfold(s, frames);
  }

  // --------------------------------------------------------- scenarios

  /** The out-of-bounds test sees the ball's position from before the
      frame's integration: a frame that carries the ball out does not call
      `shutdown()`, the next one does, and neither clears the running flag
      or stops the ball. A ball heading out while still within the margin
      of a paddle has its horizontal movement negated first and turns
      round, so the scenario needs the paddle to be away from the ball. */
  lemma OutOfBoundsSeenOneFrameLate(s: State, ticks1: nat, ticks2: nat)
    requires Consistent(s) && !s.shutdownCalled
    requires !OutOfBounds(s.ballPosition.x) && OutOfBounds(AfterUpdate(s, ticks1).ballPosition.x)
    ensures var s1 := AfterUpdate(s, ticks1);
            var s2 := AfterUpdate(s1, ticks2);
            !s1.shutdownCalled && s2.shutdownCalled && s2.gameIsRunning == s.gameIsRunning &&
            s2.ballPosition == Integrate(s1.ballPosition, s2.ballMovement, BALL_SPEED, Seconds(ticks2) - Seconds(ticks1))
  {
  }

  /** With W held and 0.1 s frames, the left paddle steps 0.4 at a time:
      from y = 2.9 it jumps over the 0.035 band below MAX_Y to 3.3, and
      from there the clamp no longer applies, so it goes on to 3.7. */
  lemma PaddleSkipsTheWallBand()
    ensures var up := KeyAxis(0.0, true, false);
            var y1 := MovePaddle(Vec3(0.0, 2.9, 0.0), Vec3(0.0, up, 0.0), LEFT_PADDLE_SPEED, 0.1).y;
            var y2 := MovePaddle(Vec3(0.0, y1, 0.0), Vec3(0.0, up, 0.0), LEFT_PADDLE_SPEED, 0.1).y;
            y1 == 3.3 && y2 == 3.7
  {
    assert ClampPaddleY(1.0, 2.9) == 1.0;
    PastWallNotClamped(1.0, 3.3);
  }
}
