/** The constants of the Pong clone and the small rules that `process_input`
    and `update` apply each frame: the key mapping, quit-event toggling,
    the gap measure, the paddle wall clamp and the ball reflections. */
module PongRules {
  import opened Vectors

  // Playfield bounds.
  const MAX_Y: real := 3.0
  const MIN_Y: real := -3.0
  const MAX_X: real := 5.0
  const MIN_X: real := -5.0

  // Where each body is drawn when its position offset is zero.
  const LEFT_PADDLE_INIT_POS: Vec3 := Vec3(-4.74, 0.0, 0.0)
  const RIGHT_PADDLE_INIT_POS: Vec3 := Vec3(4.78, 0.0, 0.0)

  const MILLISECONDS_IN_SECOND: real := 1000.0

  const LEFT_PADDLE_SPEED: real := 4.0
  const RIGHT_PADDLE_SPEED: real := 4.0
  const BALL_SPEED: real := 1.5

  // Collision margins of `update`.
  const PADDLE_COLLISION_FACTOR: real := 0.035
  const BALL_COLLISION_FACTOR: real := 0.1
  const BALL_PADDLE_COLLISION_FACTOR: real := 0.65
  /** The ball-paddle margin is written as the mean of two equal factors. */
  const BALL_PADDLE_MARGIN: real :=
    (1.0 * BALL_PADDLE_COLLISION_FACTOR + 1.0 * BALL_PADDLE_COLLISION_FACTOR) / 2.0

  /** `SDL_GetTicks() / MILLISECONDS_IN_SECOND`: a tick count in seconds. */
  function Seconds(ticksMs: nat): (t: real)
    ensures t >= 0.0
  {
    ticksMs as real / MILLISECONDS_IN_SECOND
  }

  /** `fabs(a - b) - margin`: negative exactly when a lies strictly within
      margin of b, and never below -margin. */
  function Gap(a: real, b: real, margin: real): (g: real)
    ensures g < 0.0 <==> b - margin < a < b + margin
    ensures g >= -margin
  {
    Abs(a - b) - margin
  }

  // ---------------------------------------------------------------- input

  /** The event types `process_input` drains from the queue. WindowClose
      stands for an event whose type field equals SDL_WINDOWEVENT_CLOSE,
      the second case label; SDL reports a window close as an event of type
      SDL_WINDOWEVENT instead (an Other here), followed by SDL_QUIT when the
      last window closes, so in practice only Quit reaches the toggle. */
  datatype Event = Quit | WindowClose | Other

  /** The events the two case labels SDL_QUIT and SDL_WINDOWEVENT_CLOSE
      match; each flips the running flag. */
  predicate Toggles(e: Event) {
    e.Quit? || e.WindowClose?
  }

  /** How many events of a queue flip the running flag. */
  function QuitCount(events: seq<Event>): (n: nat)
    ensures n <= |events|
    ensures n == 0 <==> forall i :: 0 <= i < |events| ==> !Toggles(events[i])
  {
    if events == [] then 0
    else (if Toggles(events[0]) then 1 else 0) + QuitCount(events[1..])
  }

  lemma {:induction false} QuitCountAppend(events: seq<Event>, e: Event)
    ensures QuitCount(events + [e]) == QuitCount(events) + (if Toggles(e) then 1 else 0)
  {
    if events == [] {
      assert [e][1..] == [];
    } else {
      assert (events + [e])[1..] == events[1..] + [e];
      QuitCountAppend(events[1..], e);
    }
  }

  /** The running flag after the event loop, one event at a time:
      every quit event negates it, so it ends up flipped exactly when an
      odd number of quit events arrived. */
  function AfterEvents(running: bool, events: seq<Event>): (r: bool)
    ensures r <==> (running != (QuitCount(events) % 2 == 1))
    decreases |events|
  {
    if events == [] then running
    else AfterEvents(if Toggles(events[0]) then !running else running, events[1..])
  }

  /** One axis of the key mapping: the "positive" key writes 1, then the
      "negative" key writes -1, so with both held the negative key wins;
      with neither held the axis keeps its value. */
  function KeyAxis(current: real, positive: bool, negative: bool): (r: real)
    ensures negative ==> r == -1.0
    ensures positive && !negative ==> r == 1.0
    ensures !positive && !negative ==> r == current
  {
    var afterPositive := if positive then 1.0 else current;
    if negative then -1.0 else afterPositive
  }

  // --------------------------------------------------------------- update

  /** The wall clamp on a paddle's vertical movement, given the paddle's
      position offset y at the start of the frame. Movement into a wall the
      paddle is within PADDLE_COLLISION_FACTOR of becomes zero; any other
      movement is kept. The clamp only ever stops the paddle: it never
      reverses it. */
  function ClampPaddleY(moveY: real, y: real): (r: real)
    ensures r == 0.0 || r == moveY
    ensures r != moveY <==>
      (moveY > 0.0 && MAX_Y - PADDLE_COLLISION_FACTOR < y < MAX_Y + PADDLE_COLLISION_FACTOR) ||
      (moveY < 0.0 && MIN_Y - PADDLE_COLLISION_FACTOR < y < MIN_Y + PADDLE_COLLISION_FACTOR)
  {
    var afterTop :=
      if Gap(y, MAX_Y, PADDLE_COLLISION_FACTOR) < 0.0 then (if moveY > 0.0 then 0.0 else moveY)
      else moveY;
    if Gap(y, MIN_Y, PADDLE_COLLISION_FACTOR) < 0.0 then (if afterTop < 0.0 then 0.0 else afterTop)
    else afterTop
  }

  /** A paddle that has already passed the wall's band is not clamped at all:
      the clamp reacts only inside the band, it does not keep the paddle in. */
  lemma PastWallNotClamped(moveY: real, y: real)
    requires y >= MAX_Y + PADDLE_COLLISION_FACTOR || y <= MIN_Y - PADDLE_COLLISION_FACTOR
    ensures ClampPaddleY(moveY, y) == moveY
  {
  }

  /** True when the ball is within the reflection band of the top or the
      bottom wall. */
  predicate NearHorizontalWall(ballY: real): (near: bool)
    ensures near <==> MAX_Y - BALL_COLLISION_FACTOR < ballY < MAX_Y + BALL_COLLISION_FACTOR ||
                      MIN_Y - BALL_COLLISION_FACTOR < ballY < MIN_Y + BALL_COLLISION_FACTOR
  {
    Gap(ballY, MAX_Y, BALL_COLLISION_FACTOR) < 0.0 || Gap(ballY, MIN_Y, BALL_COLLISION_FACTOR) < 0.0
  }

  /** The ball can never be in both wall bands at once (MAX_Y - MIN_Y = 6 is
      more than twice the margin 0.1), so the two tests of `update` flip the
      vertical movement at most once per frame. */
  lemma AtMostOneWallFlip(ballY: real)
    ensures !(Gap(ballY, MAX_Y, BALL_COLLISION_FACTOR) < 0.0 && Gap(ballY, MIN_Y, BALL_COLLISION_FACTOR) < 0.0)
  {
  }

  /** The two wall tests of `update` applied to the ball's vertical
      movement: negated when the ball is near the top or the bottom wall,
      kept otherwise; never changed in size. */
  function BounceY(moveY: real, ballY: real): (r: real)
    ensures r == if NearHorizontalWall(ballY) then -moveY else moveY
    ensures Abs(r) == Abs(moveY)
  {
    var afterTop := if Gap(ballY, MAX_Y, BALL_COLLISION_FACTOR) < 0.0 then moveY * -1.0 else moveY;
    if Gap(ballY, MIN_Y, BALL_COLLISION_FACTOR) < 0.0 then afterTop * -1.0 else afterTop
  }

  /** The ball is within the ball-paddle margin of a paddle on both axes;
      x is measured against the paddle's lane, y against its offset. */
  predicate HitsPaddle(ball: Vec3, laneX: real, paddleY: real): (hit: bool)
    ensures hit <==> laneX - BALL_PADDLE_MARGIN < ball.x < laneX + BALL_PADDLE_MARGIN &&
                     paddleY - BALL_PADDLE_MARGIN < ball.y < paddleY + BALL_PADDLE_MARGIN
  {
    Gap(ball.x, laneX, BALL_PADDLE_MARGIN) < 0.0 && Gap(ball.y, paddleY, BALL_PADDLE_MARGIN) < 0.0
  }

  /** The lanes are 9.52 apart, more than twice the margin, so no ball
      position hits both paddles. */
  lemma AtMostOnePaddleHit(ball: Vec3, leftY: real, rightY: real)
    ensures !(HitsPaddle(ball, LEFT_PADDLE_INIT_POS.x, leftY) && HitsPaddle(ball, RIGHT_PADDLE_INIT_POS.x, rightY))
  {
  }

  /** The two paddle tests of `update` applied to the ball's horizontal
      movement: negated when the ball hits either paddle, kept otherwise. */
  function BounceX(moveX: real, ball: Vec3, leftY: real, rightY: real): (r: real)
    ensures r == if HitsPaddle(ball, LEFT_PADDLE_INIT_POS.x, leftY) || HitsPaddle(ball, RIGHT_PADDLE_INIT_POS.x, rightY)
                 then -moveX else moveX
    ensures Abs(r) == Abs(moveX)
  {
    var afterLeft := if HitsPaddle(ball, LEFT_PADDLE_INIT_POS.x, leftY) then moveX * -1.0 else moveX;
    if HitsPaddle(ball, RIGHT_PADDLE_INIT_POS.x, rightY) then afterLeft * -1.0 else afterLeft
  }

  /** The test that calls `shutdown()`. */
  predicate OutOfBounds(ballX: real): (out: bool)
    ensures out <==> Abs(ballX) > MAX_X
  {
    ballX > MAX_X || ballX < MIN_X
  }
}
