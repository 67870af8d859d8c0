/** The Pong scene: the initial layout of the two paddles and the ball, the
    keyboard-driven player paddle, and the ball that moves in a straight
    line and reflects off the four walls of the window.

    Positions are exact reals; the program's single-precision rounding is
    not modelled. Elapsed frame time and the two arrow keys are parameters. */
module PongSystems {

  // Playfield and sprite dimensions, in world units.
  const WindowWidth: real := 500.0
  const WindowHeight: real := 500.0
  const PaddleHeight: real := 50.0
  const PaddleWidth: real := 10.0
  const PaddleSpeed: real := 100.0

  /** Highest centre y a paddle may take; the lowest is its negation. */
  const PaddleTop: real := (WindowHeight - PaddleHeight) / 2.0

  /** The ball bounces when a centre coordinate reaches plus or minus this value. */
  const BallLimit: real := (WindowWidth - PaddleWidth) / 2.0

  datatype Vec2 = Vec2(x: real, y: real)

  /** The ball: its centre and its direction of travel (a unit vector at setup). */
  datatype Ball = Ball(translation: Vec2, direction: Vec2)

  /** The entities of the scene, grouped by component. A system acts on the
      first entity its query yields and does nothing when there is none. */
  datatype World = World(players: seq<Vec2>, opponents: seq<Vec2>, balls: seq<Ball>)

  /** Which arrow keys are held during this frame. */
  datatype Keys = Keys(up: bool, down: bool)

  /** One frame of input: elapsed seconds and held keys. */
  datatype Frame = Frame(dt: real, keys: Keys)

  /** One axis of the ball: coordinate and direction component. */
  datatype Axis = Axis(pos: real, dir: real)

  function Abs(v: real): real {
    if v < 0.0 then -v else v
  }

  /** Restricts `v` to `[lo, hi]`; the program's clamp rejects `lo > hi`. */
  function Clamp(v: real, lo: real, hi: real): (r: real)
    requires lo <= hi
    ensures lo <= r <= hi
    ensures lo <= v <= hi ==> r == v
    ensures v <= lo ==> r == lo
    ensures hi <= v ==> r == hi
  {
    if v < lo then lo else if v > hi then hi else v
  }

  predicate InPaddleRange(y: real) {
    -PaddleTop <= y <= PaddleTop
  }

  /** Strictly between the two ball walls. */
  predicate InsideWalls(p: real) {
    -BallLimit < p < BallLimit
  }

  // ---------------------------------------------------------------------
  // Scene setup
  // ---------------------------------------------------------------------

  /** The layout spawned on entering the Pong scene: one player paddle on
      the left edge, one opponent paddle on the right edge, both vertically
      centred, and the ball at the origin heading along `direction` (the
      program passes the normalisation of (3, 2)). */
  function SetupPong(direction: Vec2): (w: World)
    ensures |w.players| == 1 && |w.opponents| == 1 && |w.balls| == 1
    ensures w.players[0] == Vec2(-(WindowWidth - PaddleWidth) / 2.0, 0.0)
    ensures w.opponents[0] == Vec2((WindowWidth - PaddleWidth) / 2.0, 0.0)
    ensures w.players[0].x == -w.opponents[0].x < 0.0
    ensures w.balls[0] == Ball(Vec2(0.0, 0.0), direction)
    ensures InPaddleRange(w.players[0].y) && InPaddleRange(w.opponents[0].y)
    ensures InsideWalls(w.balls[0].translation.x) && InsideWalls(w.balls[0].translation.y)
  {
    World([Vec2(-((WindowHeight - PaddleWidth) / 2.0), 0.0)],
          [Vec2((WindowWidth - PaddleWidth) / 2.0, 0.0)],
          [Ball(Vec2(0.0, 0.0), direction)])
  }

  // ---------------------------------------------------------------------
  // Player paddle
  // ---------------------------------------------------------------------

  /** The player paddle's new y after one frame: Up moves it up by
      `dt * PaddleSpeed` and clamps, then Down moves it down and clamps. */
  function PaddleY(y: real, dt: real, keys: Keys): (r: real)
    ensures keys.up || keys.down ==> InPaddleRange(r)
    ensures InPaddleRange(y) ==> InPaddleRange(r)
    ensures !keys.up && !keys.down ==> r == y
    ensures InPaddleRange(y) && 0.0 <= dt ==> y - dt * PaddleSpeed <= r <= y + dt * PaddleSpeed
    ensures InPaddleRange(y) && 0.0 <= dt && keys.up && !keys.down ==> y <= r
    ensures InPaddleRange(y) && 0.0 <= dt && keys.down && !keys.up ==> r <= y
    ensures keys.up && !keys.down && InPaddleRange(y + dt * PaddleSpeed) ==> r == y + dt * PaddleSpeed
    ensures keys.up && !keys.down && y + dt * PaddleSpeed >= PaddleTop ==> r == PaddleTop
    ensures keys.up && !keys.down && y + dt * PaddleSpeed <= -PaddleTop ==> r == -PaddleTop
    ensures keys.down && !keys.up && InPaddleRange(y - dt * PaddleSpeed) ==> r == y - dt * PaddleSpeed
    ensures keys.down && !keys.up && y - dt * PaddleSpeed <= -PaddleTop ==> r == -PaddleTop
    ensures keys.down && !keys.up && y - dt * PaddleSpeed >= PaddleTop ==> r == PaddleTop
  {
    var afterUp := if keys.up then Clamp(y + dt * PaddleSpeed, -PaddleTop, PaddleTop) else y;
    if keys.down then Clamp(afterUp - dt * PaddleSpeed, -PaddleTop, PaddleTop) else afterUp
  }

  /** The player movement system: moves the first player paddle vertically
      and leaves every other entity, and that paddle's x, as they were. */
  function PlayerMovement(w: World, dt: real, keys: Keys): (r: World)
    ensures r.opponents == w.opponents && r.balls == w.balls
    ensures |r.players| == |w.players|
    ensures |w.players| == 0 ==> r == w
    ensures !keys.up && !keys.down ==> r == w
    ensures |w.players| > 0 ==>
              && r.players[0].x == w.players[0].x
              && r.players[0].y == PaddleY(w.players[0].y, dt, keys)
              && r.players[1..] == w.players[1..]
    ensures |w.players| > 0 && (keys.up || keys.down) ==> InPaddleRange(r.players[0].y)
  {
    if |w.players| == 0 then w
    else
      var p := w.players[0];
      w.(players := [Vec2(p.x, PaddleY(p.y, dt, keys))] + w.players[1..])
  }

  /** The paddle's y after a run of frames, applied in order. */
  function RunPaddle(y: real, frames: seq<Frame>): real
    decreases |frames|
  {
    if frames == [] then y
    else RunPaddle(PaddleY(y, frames[0].dt, frames[0].keys), frames[1..])
  }

  /** A paddle that starts on the playfield stays on it, whatever the frame
      times and keys. */
  lemma {:induction false} PaddleStaysInRange(y: real, frames: seq<Frame>)
    requires InPaddleRange(y)
    ensures InPaddleRange(RunPaddle(y, frames))
    decreases |frames|
  {
    if frames != [] {
      PaddleStaysInRange(PaddleY(y, frames[0].dt, frames[0].keys), frames[1..]);
    }
  }

  /** Holding both keys applies Up and then Down, each clamped in turn. */
  lemma BothKeysIsUpThenDown(y: real, dt: real)
    ensures PaddleY(y, dt, Keys(true, true))
         == PaddleY(PaddleY(y, dt, Keys(true, false)), dt, Keys(false, true))
  {
  }

  /** With both keys held and no clamp binding, the paddle does not move. */
  lemma BothKeysCancel(y: real, dt: real)
    requires InPaddleRange(y) && InPaddleRange(y + dt * PaddleSpeed)
    ensures PaddleY(y, dt, Keys(true, true)) == y
  {
  }

  /** At the top edge the Up step is absorbed by the clamp, so holding both
      keys moves the paddle down: the order of the two steps matters. */
  lemma BothKeysAtTopMovesDown(dt: real)
    requires 0.0 < dt && dt * PaddleSpeed <= 2.0 * PaddleTop
    ensures PaddleY(PaddleTop, dt, Keys(true, true)) == PaddleTop - dt * PaddleSpeed
    ensures PaddleY(PaddleTop, dt, Keys(true, true)) < PaddleTop
  {
  }

  // ---------------------------------------------------------------------
  // Ball
  // ---------------------------------------------------------------------

  /** One axis of the ball for one frame: move by `dt * PaddleSpeed * dir`;
      on reaching or passing a wall, pull the coordinate back to one unit
      inside the walls and reverse the direction component. */
  function AxisStep(a: Axis, dt: real): (r: Axis)
    ensures InsideWalls(r.pos)
    ensures Abs(r.dir) == Abs(a.dir)
    ensures InsideWalls(a.pos + dt * PaddleSpeed * a.dir) <==> r == Axis(a.pos + dt * PaddleSpeed * a.dir, a.dir)
    ensures a.pos + dt * PaddleSpeed * a.dir >= BallLimit ==> r == Axis(BallLimit - 1.0, -a.dir)
    ensures a.pos + dt * PaddleSpeed * a.dir <= -BallLimit ==> r == Axis(-BallLimit + 1.0, -a.dir)
  {
    var moved := a.pos + dt * PaddleSpeed * a.dir;
    if moved >= BallLimit || moved <= -BallLimit then
      Axis(Clamp(moved, -BallLimit + 1.0, BallLimit - 1.0), -a.dir)
    else
      Axis(moved, a.dir)
  }

  function XAxis(b: Ball): Axis {
    Axis(b.translation.x, b.direction.x)
  }

  function YAxis(b: Ball): Axis {
    Axis(b.translation.y, b.direction.y)
  }

  /** The ball after one frame. Each axis moves and bounces on its own, so
      the speed along each axis, and with it the direction's length, is kept. */
  function BallStep(b: Ball, dt: real): (r: Ball)
    ensures XAxis(r) == AxisStep(XAxis(b), dt)
    ensures YAxis(r) == AxisStep(YAxis(b), dt)
    ensures InsideWalls(r.translation.x) && InsideWalls(r.translation.y)
    ensures Abs(r.direction.x) == Abs(b.direction.x) && Abs(r.direction.y) == Abs(b.direction.y)
    ensures r.direction.x * r.direction.x + r.direction.y * r.direction.y
         == b.direction.x * b.direction.x + b.direction.y * b.direction.y
  {
    var x := AxisStep(XAxis(b), dt);
    var y := AxisStep(YAxis(b), dt);
    Ball(Vec2(x.pos, y.pos), Vec2(x.dir, y.dir))
  }

  /** The ball movement system: advances the first ball and leaves every
      other entity as it was. */
  function BallMovement(w: World, dt: real): (r: World)
    ensures r.players == w.players && r.opponents == w.opponents
    ensures |r.balls| == |w.balls|
    ensures |w.balls| == 0 ==> r == w
    ensures |w.balls| > 0 ==> r.balls[0] == BallStep(w.balls[0], dt) && r.balls[1..] == w.balls[1..]
    ensures |w.balls| > 0 ==>
              InsideWalls(r.balls[0].translation.x) && InsideWalls(r.balls[0].translation.y)
  {
    if |w.balls| == 0 then w
    else w.(balls := [BallStep(w.balls[0], dt)] + w.balls[1..])
  }

  /** A bounce on one axis changes neither the other axis's coordinate nor
      its direction component: each axis after a frame depends only on the
      same axis before it. */
  lemma AxesIndependent(b1: Ball, b2: Ball, dt: real)
    ensures XAxis(b1) == XAxis(b2) ==> XAxis(BallStep(b1, dt)) == XAxis(BallStep(b2, dt))
    ensures YAxis(b1) == YAxis(b2) ==> YAxis(BallStep(b1, dt)) == YAxis(BallStep(b2, dt))
  {
  }

  /** The ball after a run of frames with the given frame times. */
  function RunBall(b: Ball, dts: seq<real>): Ball
    decreases |dts|
  {
    if dts == [] then b
    else RunBall(BallStep(b, dts[0]), dts[1..])
  }

  /** Over any run of frames the ball's speed along each axis is kept, and
      after at least one frame the ball is strictly inside the walls. */
  lemma {:induction false} RunBallKeepsSpeedAndWalls(b: Ball, dts: seq<real>)
    ensures Abs(RunBall(b, dts).direction.x) == Abs(b.direction.x)
    ensures Abs(RunBall(b, dts).direction.y) == Abs(b.direction.y)
    ensures |dts| > 0 ==>
              InsideWalls(RunBall(b, dts).translation.x) && InsideWalls(RunBall(b, dts).translation.y)
    decreases |dts|
  {
    if dts != [] {
      var next := BallStep(b, dts[0]);
      RunBallKeepsSpeedAndWalls(next, dts[1..]);
      if |dts| == 1 {
        assert RunBall(next, dts[1..]) == next;
      }
    }
  }
}
