/** The Pong clone's globals as an object, and `process_input`, `update`
    and the main loop as methods that update them in place. Each method is
    proved to compute the matching function of PongFrame, so everything
    proved there holds of the object. */
module PongGame {
  import opened Vectors
  import opened PongRules
  import opened PongFrame

  class Game {
    var leftPaddlePosition: Vec3
    var leftPaddleMovement: Vec3
    var rightPaddlePosition: Vec3
    var rightPaddleMovement: Vec3
    var ballPosition: Vec3
    var ballMovement: Vec3
    var previousTicks: real
    var gameIsRunning: bool
    /** Set where `update` calls `shutdown()` (main.cpp:350). */
    var shutdownCalled: bool

    function Snapshot(): State
      reads this
    {
      State(leftPaddlePosition, leftPaddleMovement, rightPaddlePosition, rightPaddleMovement,
            ballPosition, ballMovement, previousTicks, gameIsRunning, shutdownCalled)
    }

    ghost predicate Valid()
      reads this
    {
      Consistent(Snapshot())
    }

    /** Static initialisation; rand1 and rand2 are the values of the two
        rand() calls that pick the ball's first direction. */
    constructor (rand1: nat, rand2: nat)
      ensures Valid()
      ensures Snapshot() == Initial(rand1, rand2)
      ensures gameIsRunning && !shutdownCalled && previousTicks == 0.0
    {
      var randX := (rand1 % 5 + -3) as real;
      var randY := (rand2 % 5 + -3) as real;
      leftPaddleMovement := Zero;
      leftPaddlePosition := Zero;
      rightPaddleMovement := Zero;
      rightPaddlePosition := Zero;
      ballMovement := Vec3(randX, randY, 0.0);
      ballPosition := Zero;
      previousTicks := 0.0;
      gameIsRunning := true;
      shutdownCalled := false;
    }

    /** `process_input`: the queued events, the held keys, and what
        glm::normalize returns for the ball's movement are parameters. */
    method ProcessInput(events: seq<Event>, keys: Keys, ballUnit: Vec3)
      requires Valid()
      requires NormalSupplied(ballMovement, ballUnit)
      modifies this
      ensures Valid()
      ensures Snapshot() == AfterInput(old(Snapshot()), keys, events, ballUnit)
      ensures gameIsRunning <==> (old(gameIsRunning) != (QuitCount(events) % 2 == 1))
      ensures LengthSquared(ballMovement) <= 1.0
    {
      PollEvents(events);
      MapKeys(keys);

      // Normalisation. A paddle's movement is at most one long here, so
      // its `glm::length(...) > 1.0f` test never succeeds.
      PaddleMovementShort(rightPaddleMovement);
      PaddleMovementShort(leftPaddleMovement);
      NormaliseBall(ballUnit);
    }

    /** The ball part of the normalisation: the ball's movement is replaced
        by its normalisation when it is longer than one. */
    method NormaliseBall(ballUnit: Vec3)
      requires NormalSupplied(ballMovement, ballUnit)
      modifies this`ballMovement
      ensures ballMovement == ClampLength(old(ballMovement), ballUnit)
    {
      if LengthSquared(ballMovement) > 1.0 {
        ballMovement := ballUnit;
      }
    }

    /** The event loop of `process_input`: each event whose type matches
        one of the two case labels negates the running flag. */
    method PollEvents(events: seq<Event>)
      modifies this`gameIsRunning
      ensures gameIsRunning == AfterEvents(old(gameIsRunning), events)
    {
      var i := 0;
      while i < |events|
        invariant 0 <= i <= |events|
        invariant gameIsRunning <==> (old(gameIsRunning) != (QuitCount(events[..i]) % 2 == 1))
      {
        if events[i] == Quit || events[i] == WindowClose {
          gameIsRunning := !gameIsRunning;
        }
        QuitCountAppend(events[..i], events[i]);
        assert events[..i + 1] == events[..i] + [events[i]];
        i := i + 1;
      }
      assert events[..i] == events;
    }

    /** The key bindings of `process_input`: UP and DOWN drive the right
        paddle, W and S the left one; each key writes the y axis only. */
    method MapKeys(keys: Keys)
      modifies this`rightPaddleMovement, this`leftPaddleMovement
      ensures rightPaddleMovement == old(rightPaddleMovement).(y := KeyAxis(old(rightPaddleMovement).y, keys.up, keys.down))
      ensures leftPaddleMovement == old(leftPaddleMovement).(y := KeyAxis(old(leftPaddleMovement).y, keys.w, keys.s))
    {
      if keys.up {
        rightPaddleMovement := rightPaddleMovement.(y := 1.0);
      }
      if keys.down {
        rightPaddleMovement := rightPaddleMovement.(y := -1.0);
      }
      if keys.w {
        leftPaddleMovement := leftPaddleMovement.(y := 1.0);
      }
      if keys.s {
        leftPaddleMovement := leftPaddleMovement.(y := -1.0);
      }
    }

    /** `update`, with SDL_GetTicks() == ticksMs. */
    method Update(ticksMs: nat)
      requires Valid()
      modifies this
      ensures Valid()
      ensures Snapshot() == AfterUpdate(old(Snapshot()), ticksMs)
      ensures previousTicks == Seconds(ticksMs)
      ensures leftPaddleMovement == Zero && rightPaddleMovement == Zero
      ensures gameIsRunning == old(gameIsRunning)
    {
      ghost var expected := AfterUpdate(Snapshot(), ticksMs);

      // Delta time.
      var ticks := ticksMs as real / MILLISECONDS_IN_SECOND;
      var deltaTime := ticks - previousTicks;
      previousTicks := ticks;

      // The ball's tests use the paddles' positions from before they move.
      var leftPaddleY, rightPaddleY := leftPaddlePosition.y, rightPaddlePosition.y;

      MoveRightPaddle(deltaTime);
      MoveLeftPaddle(deltaTime);
      ReflectBallMovement(leftPaddleY, rightPaddleY);

      if ballPosition.x > MAX_X || ballPosition.x < MIN_X {
        shutdownCalled := true;
      }

      ballPosition := Integrate(ballPosition, ballMovement, BALL_SPEED, deltaTime);
      assert ballPosition == expected.ballPosition;
    }

    /** The right-paddle part of `update`: clamp against the wall the paddle
        is within the margin of, integrate, reset the movement. */
    method MoveRightPaddle(deltaTime: real)
      modifies this`rightPaddlePosition, this`rightPaddleMovement
      ensures rightPaddlePosition ==
                MovePaddle(old(rightPaddlePosition), old(rightPaddleMovement), RIGHT_PADDLE_SPEED, deltaTime)
      ensures rightPaddleMovement == Zero
    {
      var topGap := Gap(rightPaddlePosition.y, MAX_Y, PADDLE_COLLISION_FACTOR);
      var bottomGap := Gap(rightPaddlePosition.y, MIN_Y, PADDLE_COLLISION_FACTOR);
      if topGap < 0.0 {
        rightPaddleMovement :=
          rightPaddleMovement.(y := if rightPaddleMovement.y > 0.0 then 0.0 else rightPaddleMovement.y);
      }
      if bottomGap < 0.0 {
        rightPaddleMovement :=
          rightPaddleMovement.(y := if rightPaddleMovement.y < 0.0 then 0.0 else rightPaddleMovement.y);
      }
      rightPaddlePosition := Integrate(rightPaddlePosition, rightPaddleMovement, RIGHT_PADDLE_SPEED, deltaTime);
      rightPaddleMovement := Zero;
    }

    /** The left-paddle part of `update`, the same rules as the right one. */
    method MoveLeftPaddle(deltaTime: real)
      modifies this`leftPaddlePosition, this`leftPaddleMovement
      ensures leftPaddlePosition ==
                MovePaddle(old(leftPaddlePosition), old(leftPaddleMovement), LEFT_PADDLE_SPEED, deltaTime)
      ensures leftPaddleMovement == Zero
    {
      var topGap := Gap(leftPaddlePosition.y, MAX_Y, PADDLE_COLLISION_FACTOR);
      var bottomGap := Gap(leftPaddlePosition.y, MIN_Y, PADDLE_COLLISION_FACTOR);
      if topGap < 0.0 {
        leftPaddleMovement :=
          leftPaddleMovement.(y := if leftPaddleMovement.y > 0.0 then 0.0 else leftPaddleMovement.y);
      }
      if bottomGap < 0.0 {
        leftPaddleMovement :=
          leftPaddleMovement.(y := if leftPaddleMovement.y < 0.0 then 0.0 else leftPaddleMovement.y);
      }
      leftPaddlePosition := Integrate(leftPaddlePosition, leftPaddleMovement, LEFT_PADDLE_SPEED, deltaTime);
      leftPaddleMovement := Zero;
    }

    /** The ball part of `update` up to the out-of-bounds test: flip the
        vertical movement near the top or bottom wall and the horizontal
        movement at a paddle, the paddles being at leftPaddleY and
        rightPaddleY. */
    method ReflectBallMovement(leftPaddleY: real, rightPaddleY: real)
      modifies this`ballMovement
      ensures ballMovement == Vec3(BounceX(old(ballMovement).x, ballPosition, leftPaddleY, rightPaddleY),
                                   BounceY(old(ballMovement).y, ballPosition.y),
                                   old(ballMovement).z)
    {
      var topGap := Gap(ballPosition.y, MAX_Y, BALL_COLLISION_FACTOR);
      var bottomGap := Gap(ballPosition.y, MIN_Y, BALL_COLLISION_FACTOR);
      var leftPadX := Gap(ballPosition.x, LEFT_PADDLE_INIT_POS.x, BALL_PADDLE_MARGIN);
      var leftPadY := Gap(ballPosition.y, leftPaddleY, BALL_PADDLE_MARGIN);
      var rightPadX := Gap(ballPosition.x, RIGHT_PADDLE_INIT_POS.x, BALL_PADDLE_MARGIN);
      var rightPadY := Gap(ballPosition.y, rightPaddleY, BALL_PADDLE_MARGIN);
      if topGap < 0.0 {
        ballMovement := ballMovement.(y := ballMovement.y * -1.0);
      }
      if bottomGap < 0.0 {
        ballMovement := ballMovement.(y := ballMovement.y * -1.0);
      }
      if leftPadX < 0.0 && leftPadY < 0.0 {
        ballMovement := ballMovement.(x := ballMovement.x * -1.0);
      }
      if rightPadX < 0.0 && rightPadY < 0.0 {
        ballMovement := ballMovement.(x := ballMovement.x * -1.0);
      }
    }

    /** The main loop over a finite run of frames: input, then update,
        while the running flag is set. */
    method Play(frames: seq<Frame>)
      requires Valid()
      requires frames != [] ==> NormalSupplied(ballMovement, frames[0].ballUnit)
      modifies this
      ensures Valid()
      ensures Snapshot() == Run(old(Snapshot()), frames)
    {
      var i := 0;
      while i < |frames| && gameIsRunning
        invariant 0 <= i <= |frames|
        invariant Valid()
        invariant i > 0 ==> LengthSquared(ballMovement) <= 1.0
        invariant i == 0 ==> Snapshot() == old(Snapshot())
        invariant Run(old(Snapshot()), frames) == Run(Snapshot(), frames[i..])
      {
        RunUnfold(Snapshot(), frames[i..]);
        assert frames[i..][1..] == frames[i + 1..];
        ProcessInput(frames[i].events, frames[i].keys, frames[i].ballUnit);
        Update(frames[i].ticksMs);
        i := i + 1;
      }
    }
  }
}
