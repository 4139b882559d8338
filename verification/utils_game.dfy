/**
 * The client-side prediction physics of front/src/features/game/utils/utilsGame.ts.
 *
 * It works on a pixel canvas of any size, and the tuning constants live in a
 * module that is not part of this model, so both are parameters here. The
 * functions mutate a shared `VarGame` object; `Vars` is its value, the
 * functions over `Vars` are the specification, and the methods mutate a
 * `VarGame` as the source does.
 */
module ClientGame {
  import opened Wrappers
  import PongState

  type Side = PongState.Side

  /** The score at which the client declares a match over. */
  const ClientWinningScore: nat := 11

  datatype CanvasSize = CanvasSize(width: real, height: real)

  /** The p5 canvas: a browser element, so both dimensions are positive. */
  type Canvas = c: CanvasSize | c.width > 0.0 && c.height > 0.0 witness CanvasSize(1.0, 1.0)

  /** SPEED_X_FACTOR, SPEED_Y_FACTOR and SPEED_INCREASE_FACTOR. */
  datatype Tuning = Tuning(speedXFactor: real, speedYFactor: real, speedIncreaseFactor: real)

  /** The fields of a `VarGame`. */
  datatype Vars = Vars(
    xBall: real, yBall: real,
    xSpeed: real, ySpeed: real,
    yPadL: real, yPadR: real,
    scoreL: nat, scoreR: nat,
    isSpeed: bool)

  function PadW(c: Canvas): real { c.width * 0.0167 }
  function PadH(c: Canvas): real { c.height * 0.2 }
  function Diam(c: Canvas): real { c.width * 0.0125 }

  function PaddleY(v: Vars, side: Side): real {
    if side == PongState.Left then v.yPadL else v.yPadR
  }

  /** +1 for the left paddle, -1 for the right one: the direction the ball leaves in. */
  function SpeedFactor(side: Side): real {
    if side == PongState.Left then 1.0 else -1.0
  }

  predicate Hit(v: Vars, side: Side, c: Canvas) {
    && (if side == PongState.Left then v.xBall <= 0.0 + PadW(c) else v.xBall >= c.width - PadW(c))
    && v.yBall >= PaddleY(v, side) - PadW(c)
    && v.yBall <= PaddleY(v, side) + PadH(c)
  }

  predicate Beyond(v: Vars, side: Side, c: Canvas) {
    if side == PongState.Left then v.xBall < Diam(c) / 2.0 else v.xBall + Diam(c) / 2.0 > c.width
  }

  /** calculateSpeedBasedOnWindowSize: base speeds, scaled only in speed mode. */
  function SpeedsFor(applySpeedMode: bool, c: Canvas, k: Tuning): (r: (real, real))
    // outside speed mode the speeds are the tuned fractions of the canvas size
    ensures !applySpeedMode ==> r == (c.width * k.speedXFactor, c.height * k.speedYFactor)
  {
    if applySpeedMode then (c.width * k.speedXFactor * k.speedIncreaseFactor, c.height * k.speedYFactor * k.speedIncreaseFactor)
    else (c.width * k.speedXFactor * 1.0, c.height * k.speedYFactor * 1.0)
  }

  /** Speed mode multiplies both base speeds by the speed-up factor and so, for a factor of at least 1, never slows the serve. */
  lemma SpeedModeScales(c: Canvas, k: Tuning)
    ensures SpeedsFor(true, c, k).0 == SpeedsFor(false, c, k).0 * k.speedIncreaseFactor
    ensures SpeedsFor(true, c, k).1 == SpeedsFor(false, c, k).1 * k.speedIncreaseFactor
    ensures k.speedIncreaseFactor >= 1.0 ==>
      PongState.Abs(SpeedsFor(true, c, k).0) >= PongState.Abs(SpeedsFor(false, c, k).0)
      && PongState.Abs(SpeedsFor(true, c, k).1) >= PongState.Abs(SpeedsFor(false, c, k).1)
  {
    var f := k.speedIncreaseFactor;
    var (x, y) := SpeedsFor(false, c, k);
    if f >= 1.0 {
      ScaleGrows(x, f);
      ScaleGrows(y, f);
    }
  }

  lemma ScaleGrows(x: real, f: real)
    requires f >= 1.0
    ensures PongState.Abs(x * f) >= PongState.Abs(x)
  {
    if x >= 0.0 {
      assert x * f - x == x * (f - 1.0) >= 0.0;
    } else {
      assert x - x * f == -x * (f - 1.0) >= 0.0;
    }
  }

  /** resetBallSpeed: the base speeds, the horizontal one turned by the side factor. */
  function SpeedReset(v: Vars, applySpeedMode: bool, speedFactor: real, c: Canvas, k: Tuning): (r: Vars)
    ensures r.ySpeed == SpeedsFor(applySpeedMode, c, k).1
    ensures r.xSpeed == SpeedsFor(applySpeedMode, c, k).0 * speedFactor
    ensures r.(xSpeed := v.xSpeed, ySpeed := v.ySpeed) == v
  {
    var (xs, ys) := SpeedsFor(applySpeedMode, c, k);
    v.(ySpeed := ys, xSpeed := xs * speedFactor)
  }

  /**
   * handlePointScored: one point to the side opposite the missed paddle, the
   * ball back to the middle column. `rnd` is the value of Math.random();
   * `rnd % 2` is `rnd` itself, so the ball goes to the bottom edge unless the
   * draw is exactly 0.
   */
  function PointScored(v: Vars, hitRight: bool, c: Canvas, rnd: real): (r: Vars)
    requires 0.0 <= rnd < 1.0
    ensures r.scoreL == v.scoreL + (if hitRight then 1 else 0)
    ensures r.scoreR == v.scoreR + (if hitRight then 0 else 1)
    ensures r.xBall == c.width / 2.0 - Diam(c) / 2.0
    ensures r.yBall == c.height || r.yBall == 0.0
    ensures r.(scoreL := v.scoreL, scoreR := v.scoreR, xBall := v.xBall, yBall := v.yBall) == v
  {
    var scored := if hitRight then v.(scoreL := v.scoreL + 1) else v.(scoreR := v.scoreR + 1);
    scored.(xBall := c.width / 2.0 - Diam(c) / 2.0, yBall := if rnd != 0.0 then c.height else 0.0)
  }

  /** The factor both speeds are multiplied by on a hit. */
  function HitScale(v: Vars, k: Tuning): real {
    if v.isSpeed then k.speedIncreaseFactor else 1.0
  }

  /** The paddle-hit branch of handlePaddleCollision. */
  function Rebound(v: Vars, side: Side, c: Canvas, k: Tuning): (r: Vars)
    // the ball leaves away from the paddle and away from the struck half,
    // both speeds scaled in speed mode
    ensures r.xSpeed == HitScale(v, k) * (PongState.Abs(v.xSpeed) * SpeedFactor(side))
    ensures r.ySpeed == HitScale(v, k) * (if v.yBall < PaddleY(v, side) + PadH(c) / 2.0
                                          then -PongState.Abs(v.ySpeed) else PongState.Abs(v.ySpeed))
    ensures r.(xSpeed := v.xSpeed, ySpeed := v.ySpeed) == v
  {
    var yMidPaddle := PaddleY(v, side) + PadH(c) / 2.0;
    var ys := if v.yBall < yMidPaddle then -PongState.Abs(v.ySpeed) else PongState.Abs(v.ySpeed);
    var xs := PongState.Abs(v.xSpeed) * SpeedFactor(side);
    if v.isSpeed then v.(ySpeed := ys * k.speedIncreaseFactor, xSpeed := xs * k.speedIncreaseFactor)
    else v.(ySpeed := ys, xSpeed := xs)
  }

  /** The beyond-the-paddle branch of handlePaddleCollision. */
  function Miss(v: Vars, side: Side, applySpeedMode: bool, c: Canvas, k: Tuning, rnd: real): (r: Vars)
    requires 0.0 <= rnd < 1.0
    // one point to the opposite side, the ball re-centred and served towards
    // the side that scored, speed mode off
    ensures r.scoreL == v.scoreL + (if side == PongState.Right then 1 else 0)
    ensures r.scoreR == v.scoreR + (if side == PongState.Left then 1 else 0)
    ensures r.xBall == c.width / 2.0 - Diam(c) / 2.0
    ensures r.yBall == c.height || r.yBall == 0.0
    ensures r.ySpeed == SpeedsFor(applySpeedMode, c, k).1
    ensures r.xSpeed == SpeedsFor(applySpeedMode, c, k).0 * SpeedFactor(side)
    ensures !r.isSpeed
    ensures r.yPadL == v.yPadL && r.yPadR == v.yPadR
  {
    var scored := PointScored(v, side == PongState.Right, c, rnd);
    SpeedReset(scored, applySpeedMode, SpeedFactor(side), c, k).(isSpeed := false)
  }

  /** handlePaddleCollision for one side: a hit wins over a miss, and otherwise nothing happens. */
  function Collide(v: Vars, side: Side, applySpeedMode: bool, c: Canvas, k: Tuning, rnd: real): (r: Vars)
    requires 0.0 <= rnd < 1.0
    // a hit never scores, a miss scores exactly one point, and neither moves a paddle
    ensures Hit(v, side, c) ==> r.scoreL == v.scoreL && r.scoreR == v.scoreR
    ensures !Hit(v, side, c) && Beyond(v, side, c) ==>
      r.scoreL + r.scoreR == v.scoreL + v.scoreR + 1 && r.scoreL >= v.scoreL && r.scoreR >= v.scoreR
    ensures !Hit(v, side, c) && !Beyond(v, side, c) ==> r == v
    ensures r.yPadL == v.yPadL && r.yPadR == v.yPadR
  {
    if Hit(v, side, c) then Rebound(v, side, c, k)
    else if Beyond(v, side, c) then Miss(v, side, applySpeedMode, c, k, rnd)
    else v
  }

  /**
   * With a positive speed-up factor, a hit on the left paddle leaves the ball
   * moving right and a hit on the right paddle leaves it moving left, whatever
   * its direction before; the vertical speed points away from the struck half.
   */
  lemma ReboundDirections(v: Vars, side: Side, c: Canvas, k: Tuning)
    requires k.speedIncreaseFactor > 0.0
    ensures side == PongState.Left ==> Rebound(v, side, c, k).xSpeed >= 0.0
    ensures side == PongState.Right ==> Rebound(v, side, c, k).xSpeed <= 0.0
    ensures v.yBall < PaddleY(v, side) + PadH(c) / 2.0 ==> Rebound(v, side, c, k).ySpeed <= 0.0
    ensures v.yBall >= PaddleY(v, side) + PadH(c) / 2.0 ==> Rebound(v, side, c, k).ySpeed >= 0.0
  {
    var h := HitScale(v, k);
    assert h > 0.0;
    var ax := PongState.Abs(v.xSpeed);
    var ay := PongState.Abs(v.ySpeed);
    assert h * (ax * 1.0) >= 0.0;
    assert h * (ax * -1.0) <= 0.0;
    assert h * -ay <= 0.0;
    assert h * ay >= 0.0;
  }

  /** checkWallCollision: the vertical speed flips only when the ball is moving into a wall. */
  function WallBounce(v: Vars, c: Canvas): (r: Vars)
    ensures (v.ySpeed < 0.0 && v.yBall < Diam(c) / 2.0) || (v.ySpeed > 0.0 && v.yBall > c.height - Diam(c) / 2.0)
            ==> r == v.(ySpeed := -v.ySpeed)
    ensures !((v.ySpeed < 0.0 && v.yBall < Diam(c) / 2.0) || (v.ySpeed > 0.0 && v.yBall > c.height - Diam(c) / 2.0))
            ==> r == v
  {
    if (v.ySpeed < 0.0 && v.yBall < Diam(c) / 2.0) || (v.ySpeed > 0.0 && v.yBall > c.height - Diam(c) / 2.0)
    then v.(ySpeed := v.ySpeed * -1.0)
    else v
  }

  /**
   * Unlike the server's bounce, the client's cannot undo itself: on a canvas
   * at least one ball high, a second check right after the first changes nothing.
   */
  lemma WallBounceIdempotent(v: Vars, c: Canvas)
    requires Diam(c) <= c.height
    ensures WallBounce(WallBounce(v, c), c) == WallBounce(v, c)
  {
  }

  /**
   * checkCollision: the left paddle, the right paddle, then the walls. The
   * paddles stay put and at most one point is scored in the whole step: a
   * left miss re-centres the ball, out of reach of the right paddle's checks.
   */
  function CollisionStep(v: Vars, modeSpeed: bool, c: Canvas, k: Tuning, rndL: real, rndR: real): (r: Vars)
    requires 0.0 <= rndL < 1.0 && 0.0 <= rndR < 1.0
    ensures r.scoreL >= v.scoreL && r.scoreR >= v.scoreR
    ensures r.scoreL <= v.scoreL + 1 && r.scoreR <= v.scoreR + 1
    ensures r.scoreL + r.scoreR <= v.scoreL + v.scoreR + 1
    ensures r.yPadL == v.yPadL && r.yPadR == v.yPadR
  {
    var l := Collide(v, PongState.Left, modeSpeed, c, k, rndL);
    assert l.scoreL + l.scoreR > v.scoreL + v.scoreR ==>
      !Hit(l, PongState.Right, c) && !Beyond(l, PongState.Right, c);
    WallBounce(Collide(Collide(v, PongState.Left, modeSpeed, c, k, rndL), PongState.Right, modeSpeed, c, k, rndR), c)
  }

  /**
   * calculation: only the host advances the ball; when either score is 11
   * both scores go back to 0 and both paddles to mid-height.
   */
  function Calculated(v: Vars, isHost: bool, c: Canvas): (r: Vars)
    ensures isHost ==> r.xBall == v.xBall + v.xSpeed && r.yBall == v.yBall + v.ySpeed
    ensures !isHost ==> r.xBall == v.xBall && r.yBall == v.yBall
    ensures v.scoreL == ClientWinningScore || v.scoreR == ClientWinningScore ==>
      r.scoreL == 0 && r.scoreR == 0 && r.yPadL == c.height / 2.0 && r.yPadR == c.height / 2.0
    ensures !(v.scoreL == ClientWinningScore || v.scoreR == ClientWinningScore) ==>
      r.scoreL == v.scoreL && r.scoreR == v.scoreR && r.yPadL == v.yPadL && r.yPadR == v.yPadR
    ensures r.xSpeed == v.xSpeed && r.ySpeed == v.ySpeed && r.isSpeed == v.isSpeed
  {
    var moved := if isHost then v.(xBall := v.xBall + v.xSpeed, yBall := v.yBall + v.ySpeed) else v;
    if v.scoreL == 11 || v.scoreR == 11 then
      moved.(scoreL := 0, scoreR := 0, yPadL := c.height / 2.0, yPadR := c.height / 2.0)
    else moved
  }

  /** movePaddle: only the chosen paddle moves, and only within [-padH/2, height]. */
  function PaddleMoved(v: Vars, newY: real, right: bool, c: Canvas): (r: Vars)
    ensures -PadH(c) / 2.0 <= newY <= c.height ==>
      (if right then r == v.(yPadR := newY) else r == v.(yPadL := newY))
    ensures !(-PadH(c) / 2.0 <= newY <= c.height) ==> r == v
  {
    if newY >= -PadH(c) / 2.0 && newY <= c.height then
      if right then v.(yPadR := newY) else v.(yPadL := newY)
    else v
  }

  /** What the client sends on its game socket; users are named by nickname. */
  datatype Outgoing =
    | ScoreReport(gameId: string, scoreR: nat, scoreL: nat, winner: Option<string>, end: bool)
    | Move(room: string, yBall: real, xBall: real, ySpeed: real, xSpeed: real,
           yPadR: real, yPadL: real, scoreL: nat, scoreR: nat, user: Option<string>, isSpeed: bool)
    | PowerUpRequest(roomId: string)

  /** emitMove as written: the `xSpeed` field carries the ball's x position. */
  function MoveAsWritten(v: Vars, user: Option<string>, room: string, c: Canvas): (m: Outgoing)
    ensures m.Move? && m.xSpeed == m.xBall
  {
    Move(room, v.yBall / c.height, v.xBall / c.width, v.ySpeed / c.height, v.xBall / c.width,
         v.yPadR / c.height, v.yPadL / c.height, v.scoreL, v.scoreR, user, v.isSpeed)
  }

  /**
   * What a receiver that knows the canvas recovers from the message as
   * written: everything but the horizontal speed, which it recovers only
   * when the speed happens to equal the ball's x position.
   */
  lemma MoveAsWrittenRoundTrip(v: Vars, user: Option<string>, room: string, c: Canvas)
    ensures var m := MoveAsWritten(v, user, room, c);
      && m.room == room && m.user == user
      && m.xBall * c.width == v.xBall && m.yBall * c.height == v.yBall
      && m.ySpeed * c.height == v.ySpeed
      && m.yPadR * c.height == v.yPadR && m.yPadL * c.height == v.yPadL
      && m.scoreL == v.scoreL && m.scoreR == v.scoreR && m.isSpeed == v.isSpeed
      && (m.xSpeed * c.width == v.xSpeed <==> v.xSpeed == v.xBall)
  {
    var m := MoveAsWritten(v, user, room, c);
    assert m.xSpeed * c.width == v.xBall;
  }

  /** On a unit canvas, a ball at x = 0.5 moving at 0.01 is reported as moving at 0.5. */
  lemma MoveAsWrittenLosesSpeed()
    ensures var v := Vars(0.5, 0.5, 0.01, 0.01, 0.4, 0.4, 0, 0, false);
            MoveAsWritten(v, None, "room", CanvasSize(1.0, 1.0)).xSpeed * 1.0 != v.xSpeed
  {
  }

  /** emitMove with every field scaled by the canvas dimension it belongs to. */
  function MoveMessage(v: Vars, user: Option<string>, room: string, c: Canvas): (m: Outgoing)
    ensures m.Move? && m.room == room && m.user == user
    ensures m.scoreL == v.scoreL && m.scoreR == v.scoreR && m.isSpeed == v.isSpeed
  {
    Move(room, v.yBall / c.height, v.xBall / c.width, v.ySpeed / c.height, v.xSpeed / c.width,
         v.yPadR / c.height, v.yPadL / c.height, v.scoreL, v.scoreR, user, v.isSpeed)
  }

  /** A receiver that knows the canvas recovers the whole ball and paddle state from a move. */
  lemma MoveRoundTrip(v: Vars, user: Option<string>, room: string, c: Canvas)
    ensures var m := MoveMessage(v, user, room, c);
      && m.xBall * c.width == v.xBall && m.yBall * c.height == v.yBall
      && m.xSpeed * c.width == v.xSpeed && m.ySpeed * c.height == v.ySpeed
      && m.yPadR * c.height == v.yPadR && m.yPadL * c.height == v.yPadL
      && m.scoreL == v.scoreL && m.scoreR == v.scoreR && m.isSpeed == v.isSpeed
  {
  }

  /** The score report handlePaddleCollision sends after a miss, and nothing otherwise. */
  function MissReports(v: Vars, side: Side, applySpeedMode: bool, room: string, c: Canvas, k: Tuning, rnd: real): (r: seq<Outgoing>)
    requires 0.0 <= rnd < 1.0
    ensures |r| <= 1
    ensures |r| == 1 <==> !Hit(v, side, c) && Beyond(v, side, c)
    ensures |r| == 1 ==> r[0] == ScoreReport(room, Collide(v, side, applySpeedMode, c, k, rnd).scoreR,
                                             Collide(v, side, applySpeedMode, c, k, rnd).scoreL, None, false)
  {
    if !Hit(v, side, c) && Beyond(v, side, c) then
      var after := Collide(v, side, applySpeedMode, c, k, rnd);
      [ScoreReport(room, after.scoreR, after.scoreL, None, false)]
    else []
  }

  /**
   * What checkCollision sends: the left side's report, then the right side's;
   * one running (not final) score report per point scored in the step.
   */
  function CollisionReports(v: Vars, modeSpeed: bool, room: string, c: Canvas, k: Tuning, rndL: real, rndR: real): (r: seq<Outgoing>)
    requires 0.0 <= rndL < 1.0 && 0.0 <= rndR < 1.0
    ensures |r| == CollisionStep(v, modeSpeed, c, k, rndL, rndR).scoreL + CollisionStep(v, modeSpeed, c, k, rndL, rndR).scoreR
                   - (v.scoreL + v.scoreR)
    ensures forall i :: 0 <= i < |r| ==> r[i].ScoreReport? && r[i].gameId == room && r[i].winner.None? && !r[i].end
  {
    MissReports(v, PongState.Left, modeSpeed, room, c, k, rndL)
      + MissReports(Collide(v, PongState.Left, modeSpeed, c, k, rndL), PongState.Right, modeSpeed, room, c, k, rndR)
  }

  /**
   * What calculation sends: a final score report naming the winner when a
   * score has reached 11, then, from the host only, its move.
   */
  function CalculationReports(v: Vars, user: string, hostPlayerR: string, joinPlayerL: string, room: string, c: Canvas): (r: seq<Outgoing>)
    ensures (|r| > 0 && r[0].ScoreReport?) <==> (v.scoreL == ClientWinningScore || v.scoreR == ClientWinningScore)
    ensures |r| > 0 && r[0].ScoreReport? ==>
      r[0] == ScoreReport(room, v.scoreR, v.scoreL,
                          Some(if v.scoreL == ClientWinningScore then joinPlayerL else hostPlayerR), true)
    ensures (|r| > 0 && r[|r| - 1].Move?) <==> user == hostPlayerR
    ensures user == hostPlayerR ==> r[|r| - 1] == MoveAsWritten(Calculated(v, true, c), Some(user), room, c)
  {
    (if v.scoreL == 11 || v.scoreR == 11
     then [ScoreReport(room, v.scoreR, v.scoreL, Some(if v.scoreL == 11 then joinPlayerL else hostPlayerR), true)]
     else [])
    + (if user == hostPlayerR then [MoveAsWritten(Calculated(v, true, c), Some(user), room, c)] else [])
  }

  /** The shared game object a client mutates. */
  class VarGame {
    var xBall: real
    var yBall: real
    var xSpeed: real
    var ySpeed: real
    var yPadL: real
    var yPadR: real
    var scoreL: nat
    var scoreR: nat
    var isSpeed: bool

    ghost function Model(): Vars
      reads this
    {
      Vars(xBall, yBall, xSpeed, ySpeed, yPadL, yPadR, scoreL, scoreR, isSpeed)
    }

    constructor (init: Vars)
      ensures Model() == init
    {
      xBall, yBall := init.xBall, init.yBall;
      xSpeed, ySpeed := init.xSpeed, init.ySpeed;
      yPadL, yPadR := init.yPadL, init.yPadR;
      scoreL, scoreR := init.scoreL, init.scoreR;
      isSpeed := init.isSpeed;
    }
  }

  method HandlePaddleCollision(varGame: VarGame, side: Side, applySpeedMode: bool, room: string,
                               c: Canvas, k: Tuning, rnd: real) returns (sent: seq<Outgoing>)
    requires 0.0 <= rnd < 1.0
    modifies varGame
    ensures varGame.Model() == Collide(old(varGame.Model()), side, applySpeedMode, c, k, rnd)
    ensures sent == MissReports(old(varGame.Model()), side, applySpeedMode, room, c, k, rnd)
  {
    ghost var before := varGame.Model();
    var padW := c.width * 0.0167;
    var padH := c.height * 0.2;
    var diam := c.width * 0.0125;
    var paddleXPos := if side == PongState.Left then 0.0 else c.width - padW;
    var yPaddle := if side == PongState.Left then varGame.yPadL else varGame.yPadR;
    var beyondPaddle := if side == PongState.Left then varGame.xBall < diam / 2.0
                        else varGame.xBall + diam / 2.0 > c.width;
    var collisionXCond := if side == PongState.Left then varGame.xBall <= paddleXPos + padW
                          else varGame.xBall >= paddleXPos;
    var speedFactor := if side == PongState.Left then 1.0 else -1.0;

    sent := [];
    if collisionXCond && varGame.yBall >= yPaddle - padW && varGame.yBall <= yPaddle + padH {
      assert Hit(before, side, c);
      BounceOffPaddle(varGame, side, c, k);
    } else if beyondPaddle {
      assert !Hit(before, side, c) && Beyond(before, side, c);
      ServeAfterMiss(varGame, side, applySpeedMode, c, k, rnd);
      sent := [ScoreReport(room, varGame.scoreR, varGame.scoreL, None, false)];
    } else {
      assert !Hit(before, side, c) && !Beyond(before, side, c);
    }
  }

  /** The paddle-hit branch of handlePaddleCollision, in place. */
  method BounceOffPaddle(varGame: VarGame, side: Side, c: Canvas, k: Tuning)
    modifies varGame
    ensures varGame.Model() == Rebound(old(varGame.Model()), side, c, k)
  {
    var padH := c.height * 0.2;
    var yPaddle := if side == PongState.Left then varGame.yPadL else varGame.yPadR;
    var speedFactor := if side == PongState.Left then 1.0 else -1.0;
    var yMidPaddle := yPaddle + padH / 2.0;
    varGame.ySpeed := if varGame.yBall < yMidPaddle then -PongState.Abs(varGame.ySpeed)
                      else PongState.Abs(varGame.ySpeed);
    varGame.xSpeed := PongState.Abs(varGame.xSpeed) * speedFactor;
    if varGame.isSpeed {
      varGame.ySpeed := varGame.ySpeed * k.speedIncreaseFactor;
      varGame.xSpeed := varGame.xSpeed * k.speedIncreaseFactor;
    }
  }

  /** The beyond-the-paddle branch of handlePaddleCollision, in place. */
  method ServeAfterMiss(varGame: VarGame, side: Side, applySpeedMode: bool, c: Canvas, k: Tuning, rnd: real)
    requires 0.0 <= rnd < 1.0
    modifies varGame
    ensures varGame.Model() == Miss(old(varGame.Model()), side, applySpeedMode, c, k, rnd)
  {
    var speedFactor := if side == PongState.Left then 1.0 else -1.0;
    HandlePointScored(side == PongState.Right, varGame, c, rnd);
    ResetBallSpeed(varGame, applySpeedMode, speedFactor, c, k);
    varGame.isSpeed := false;
  }

  method CheckWallCollision(gameVars: VarGame, c: Canvas)
    modifies gameVars
    ensures gameVars.Model() == WallBounce(old(gameVars.Model()), c)
  {
    var diam := c.width * 0.0125;
    if (gameVars.ySpeed < 0.0 && gameVars.yBall < diam / 2.0)
       || (gameVars.ySpeed > 0.0 && gameVars.yBall > c.height - diam / 2.0) {
      gameVars.ySpeed := gameVars.ySpeed * -1.0;
    }
  }

  method ResetBallSpeed(gameVars: VarGame, applySpeedMode: bool, speedFactor: real, c: Canvas, k: Tuning)
    modifies gameVars
    ensures gameVars.Model() == SpeedReset(old(gameVars.Model()), applySpeedMode, speedFactor, c, k)
  {
    var (xs, ys) := SpeedsFor(applySpeedMode, c, k);
    gameVars.ySpeed := ys;
    gameVars.xSpeed := xs * speedFactor;
  }

  method HandlePointScored(hitRight: bool, varG: VarGame, c: Canvas, rnd: real)
    requires 0.0 <= rnd < 1.0
    modifies varG
    ensures varG.Model() == PointScored(old(varG.Model()), hitRight, c, rnd)
  {
    var diam := c.width * 0.0125;
    if hitRight {
      varG.scoreL := varG.scoreL + 1;
    } else {
      varG.scoreR := varG.scoreR + 1;
    }
    varG.xBall := c.width / 2.0 - diam / 2.0;
    if rnd != 0.0 {
      varG.yBall := c.height;
    } else {
      varG.yBall := 0.0;
    }
  }

  method CheckCollision(gameVars: VarGame, modeSpeed: bool, room: string, c: Canvas, k: Tuning, rndL: real, rndR: real)
    returns (sent: seq<Outgoing>)
    requires 0.0 <= rndL < 1.0 && 0.0 <= rndR < 1.0
    modifies gameVars
    ensures gameVars.Model() == CollisionStep(old(gameVars.Model()), modeSpeed, c, k, rndL, rndR)
    ensures sent == CollisionReports(old(gameVars.Model()), modeSpeed, room, c, k, rndL, rndR)
  {
    var fromLeft := HandlePaddleCollision(gameVars, PongState.Left, modeSpeed, room, c, k, rndL);
    var fromRight := HandlePaddleCollision(gameVars, PongState.Right, modeSpeed, room, c, k, rndR);
    CheckWallCollision(gameVars, c);
    sent := fromLeft + fromRight;
  }

  method Calculation(user: string, varGame: VarGame, hostPlayerR: string, joinPlayerL: string, room: string, c: Canvas)
    returns (sent: seq<Outgoing>)
    modifies varGame
    ensures varGame.Model() == Calculated(old(varGame.Model()), user == hostPlayerR, c)
    ensures sent == CalculationReports(old(varGame.Model()), user, hostPlayerR, joinPlayerL, room, c)
  {
    sent := [];
    if user == hostPlayerR {
      varGame.xBall := varGame.xBall + varGame.xSpeed;
      varGame.yBall := varGame.yBall + varGame.ySpeed;
    }
    if varGame.scoreL == 11 || varGame.scoreR == 11 {
      var winner := if varGame.scoreL == 11 then joinPlayerL else hostPlayerR;
      sent := [ScoreReport(room, varGame.scoreR, varGame.scoreL, Some(winner), true)];
      varGame.scoreL := 0;
      varGame.scoreR := 0;
      varGame.yPadL := c.height / 2.0;
      varGame.yPadR := c.height / 2.0;
    }
    if user == hostPlayerR {
      var m := EmitMove(varGame, Some(user), room, c);
      sent := sent + [m];
    }
  }

  /** emitMove as written: the ball's x position goes out in the `xSpeed` field too. */
  method EmitMove(varG: VarGame, user: Option<string>, room: string, c: Canvas) returns (m: Outgoing)
    ensures m == MoveAsWritten(varG.Model(), user, room, c)
  {
    m := Move(room, varG.yBall / c.height, varG.xBall / c.width, varG.ySpeed / c.height, varG.xBall / c.width,
              varG.yPadR / c.height, varG.yPadL / c.height, varG.scoreL, varG.scoreR, user, varG.isSpeed);
  }

  method MovePaddle(newY: real, user: Option<string>, varG: VarGame, room: string, right: bool, c: Canvas)
    returns (sent: seq<Outgoing>)
    modifies varG
    ensures varG.Model() == PaddleMoved(old(varG.Model()), newY, right, c)
    ensures sent == if -PadH(c) / 2.0 <= newY <= c.height then [MoveAsWritten(varG.Model(), user, room, c)] else []
  {
    var padH := c.height * 0.2;
    sent := [];
    if newY >= -padH / 2.0 && newY <= c.height {
      if right {
        varG.yPadR := newY;
      } else {
        varG.yPadL := newY;
      }
      var m := EmitMove(varG, user, room, c);
      sent := [m];
    }
  }

  method HandlePowerUp(user: Option<string>, varGame: VarGame, room: string, c: Canvas) returns (sent: seq<Outgoing>)
    modifies varGame
    ensures varGame.Model() == old(varGame.Model()).(isSpeed := true)
    ensures sent == [PowerUpRequest(room), MoveAsWritten(varGame.Model(), user, room, c)]
  {
    varGame.isSpeed := true;
    var m := EmitMove(varGame, user, room, c);
    sent := [PowerUpRequest(room), m];
  }
}
