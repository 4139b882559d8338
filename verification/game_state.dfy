/**
 * The authoritative server simulation of one match (backend/src/game/game.state.ts).
 *
 * The play field is the unit square. `Phys` is the value of the nine private
 * fields of a `GameState`; the functions over it are the specification the
 * methods of the class are proved against, and the lemmas state what the
 * engine promises: which branch of the collision test fires, the sign rules,
 * monotone scores, the reset after a point and the one-way speed flag.
 */
module PongState {

  // The field and the geometry, as fractions of the field.
  const CanvasWidth: real := 1.0
  const CanvasHeight: real := 1.0
  const PadW: real := CanvasWidth * 0.0167
  const PadH: real := CanvasHeight * 0.2
  const Diam: real := CanvasWidth * 0.0125
  /** Default speed of each axis after a reset. */
  const DefaultXSpeed: real := CanvasWidth * 0.005
  const DefaultYSpeed: real := CanvasHeight * 0.005
  /** Factor applied to both speeds on a paddle hit in speed mode. */
  const SpeedUp: real := 1.25

  datatype Side = Left | Right

  /** The private state of a `GameState`. */
  datatype Phys = Phys(
    xBall: real, yBall: real,
    xSpeed: real, ySpeed: real,
    yPadR: real, yPadL: real,
    scoreL: nat, scoreR: nat,
    isSpeed: bool)

  /** What `getState` hands out: the visible fields, without the speeds. */
  datatype Snapshot = Snapshot(
    yBall: real, xBall: real,
    yPadR: real, yPadL: real,
    scoreL: nat, scoreR: nat,
    isSpeed: bool)

  function Abs(x: real): real { if x < 0.0 then -x else x }

  /** The ball is in the middle of the field with the default speeds and speed mode off. */
  predicate Centred(p: Phys) {
    && p.xBall == CanvasWidth / 2.0 - Diam / 2.0
    && p.yBall == CanvasHeight / 2.0
    && p.xSpeed == DefaultXSpeed
    && p.ySpeed == DefaultYSpeed
    && !p.isSpeed
  }

  /** resetBallPositionAndSpeed: re-centre the ball; paddles and scores are kept. */
  function Recentred(p: Phys): (r: Phys)
    ensures Centred(r)
    ensures r.yPadL == p.yPadL && r.yPadR == p.yPadR
    ensures r.scoreL == p.scoreL && r.scoreR == p.scoreR
  {
    p.(xBall := CanvasWidth / 2.0 - Diam / 2.0, yBall := CanvasHeight / 2.0,
       xSpeed := CanvasWidth * 0.005, ySpeed := CanvasHeight * 0.005,
       isSpeed := false)
  }

  /** The state the constructor builds. */
  function Initial(): (r: Phys)
    ensures Centred(r)
    ensures r.yPadL == 0.5 && r.yPadR == 0.5 && r.scoreL == 0 && r.scoreR == 0
    ensures r.xBall == 0.5 - 0.00625 && r.yBall == 0.5
    ensures r.xSpeed == 0.005 && r.ySpeed == 0.005 && !r.isSpeed
  {
    Recentred(Phys(0.0, 0.0, 0.0, 0.0, CanvasHeight / 2.0, CanvasHeight / 2.0, 0, 0, false))
  }

  function PaddleY(p: Phys, side: Side): real {
    if side == Left then p.yPadL else p.yPadR
  }

  /** The ball has crossed into the paddle's horizontal band. */
  predicate InXBand(p: Phys, side: Side) {
    if side == Left then p.xBall <= 0.0 + PadW else p.xBall >= CanvasWidth - PadW
  }

  /** The paddle hit test; the lower bound uses the paddle width, as written. */
  predicate Hit(p: Phys, side: Side) {
    && InXBand(p, side)
    && p.yBall >= PaddleY(p, side) - PadW
    && p.yBall <= PaddleY(p, side) + PadH
  }

  /** The ball has passed the side boundary. */
  predicate Beyond(p: Phys, side: Side) {
    if side == Left then p.xBall < Diam / 2.0 else p.xBall + Diam / 2.0 > CanvasWidth
  }

  /** The ball struck the upper half of the paddle. */
  predicate AboveMid(p: Phys, side: Side) {
    p.yBall < PaddleY(p, side) + PadH / 2.0
  }

  /** The hit branch of handlePaddleCollision. */
  function Rebound(p: Phys, side: Side): Phys {
    var ys := if AboveMid(p, side) then -Abs(p.ySpeed) else Abs(p.ySpeed);
    var xs := -p.xSpeed;
    if p.isSpeed then p.(ySpeed := ys * 1.25, xSpeed := xs * 1.25)
    else p.(ySpeed := ys, xSpeed := xs)
  }

  /** The miss branch: the opposite side scores and the ball is re-centred. */
  function Scored(p: Phys, side: Side): Phys {
    Recentred(if side == Right then p.(scoreL := p.scoreL + 1) else p.(scoreR := p.scoreR + 1))
  }

  /** handlePaddleCollision for one side: a hit wins over a miss. */
  function Collide(p: Phys, side: Side): (r: Phys)
    // a hit: the horizontal direction flips, the vertical one points away from the struck half
    ensures Hit(p, side) ==>
      && r.xBall == p.xBall && r.yBall == p.yBall && r.isSpeed == p.isSpeed
      && r.scoreL == p.scoreL && r.scoreR == p.scoreR
      && (p.xSpeed > 0.0 ==> r.xSpeed < 0.0) && (p.xSpeed < 0.0 ==> r.xSpeed > 0.0)
      && (AboveMid(p, side) ==> r.ySpeed <= 0.0) && (!AboveMid(p, side) ==> r.ySpeed >= 0.0)
      && Abs(r.xSpeed) == (if p.isSpeed then SpeedUp * Abs(p.xSpeed) else Abs(p.xSpeed))
      && Abs(r.ySpeed) == (if p.isSpeed then SpeedUp * Abs(p.ySpeed) else Abs(p.ySpeed))
    // a miss: exactly one point to the opposite side, then the reset
    ensures !Hit(p, side) && Beyond(p, side) ==>
      && Centred(r)
      && r.scoreL == p.scoreL + (if side == Right then 1 else 0)
      && r.scoreR == p.scoreR + (if side == Left then 1 else 0)
    ensures !Hit(p, side) && !Beyond(p, side) ==> r == p
    ensures r.yPadL == p.yPadL && r.yPadR == p.yPadR
  {
    if Hit(p, side) then Rebound(p, side)
    else if Beyond(p, side) then Scored(p, side)
    else p
  }

  /** The first step of update: the ball moves by exactly its velocity. */
  function Moved(p: Phys): Phys {
    p.(xBall := p.xBall + p.xSpeed, yBall := p.yBall + p.ySpeed)
  }

  /** The wall test of update: the vertical speed flips on or past either wall. */
  function WallBounced(p: Phys): Phys {
    if p.yBall <= 0.0 || p.yBall >= CanvasHeight then p.(ySpeed := -p.ySpeed) else p
  }

  /** update: move, bounce off the walls, then the left paddle, then the right. */
  function Advance(p: Phys): (r: Phys)
    ensures r.scoreL >= p.scoreL && r.scoreR >= p.scoreR
    ensures r.scoreL + r.scoreR <= p.scoreL + p.scoreR + 1
    ensures r.yPadL == p.yPadL && r.yPadR == p.yPadR
    ensures r.isSpeed ==> p.isSpeed
    ensures r.scoreL + r.scoreR == p.scoreL + p.scoreR ==> r.isSpeed == p.isSpeed
    ensures r.scoreL + r.scoreR > p.scoreL + p.scoreR ==> Centred(r)
  {
    var m := WallBounced(Moved(p));
    var l := Collide(m, Left);
    assert l.scoreL + l.scoreR > m.scoreL + m.scoreR ==> !Hit(l, Right) && !Beyond(l, Right);
    Collide(l, Right)
  }

  lemma AdvanceUnfold(p: Phys)
    ensures Advance(p) == Collide(Collide(WallBounced(Moved(p)), Left), Right)
  {
  }

  /** updatePaddlePosition: a zero argument (falsy) leaves that paddle where it is. */
  function SetPaddles(p: Phys, yPadR: real, yPadL: real): (r: Phys)
    ensures r.yPadL == (if yPadL != 0.0 then yPadL else p.yPadL)
    ensures r.yPadR == (if yPadR != 0.0 then yPadR else p.yPadR)
    ensures r.(yPadL := p.yPadL, yPadR := p.yPadR) == p
  {
    var q := if yPadL != 0.0 then p.(yPadL := yPadL) else p;
    if yPadR != 0.0 then q.(yPadR := yPadR) else q
  }

  /** updateSpeedMode: the flag can be switched on here, never off. */
  function WithSpeedMode(p: Phys, isSpeed: bool): (r: Phys)
    ensures r.isSpeed == (p.isSpeed || isSpeed)
    ensures r.(isSpeed := p.isSpeed) == p
  {
    if isSpeed then p.(isSpeed := isSpeed) else p
  }

  /** getState: the seven visible fields. */
  function Visible(p: Phys): Snapshot {
    Snapshot(p.yBall, p.xBall, p.yPadR, p.yPadL, p.scoreL, p.scoreR, p.isSpeed)
  }

  /** n ticks of the loop, with no paddle or power-up message in between. */
  function Run(p: Phys, n: nat): Phys
    decreases n
  {
    if n == 0 then p else Run(Advance(p), n - 1)
  }

  /**
   * Over any number of ticks scores never decrease, grow by at most one point
   * per tick, the paddles stay where they are, and speed mode is never switched
   * on; if it was on and is off afterwards, a point was scored meanwhile.
   */
  lemma {:induction false} RunInvariants(p: Phys, n: nat)
    ensures Run(p, n).scoreL >= p.scoreL && Run(p, n).scoreR >= p.scoreR
    ensures Run(p, n).scoreL + Run(p, n).scoreR <= p.scoreL + p.scoreR + n
    ensures Run(p, n).yPadL == p.yPadL && Run(p, n).yPadR == p.yPadR
    ensures Run(p, n).isSpeed ==> p.isSpeed
    ensures p.isSpeed && !Run(p, n).isSpeed ==>
      Run(p, n).scoreL + Run(p, n).scoreR > p.scoreL + p.scoreR
    decreases n
  {
    if n > 0 {
      RunInvariants(Advance(p), n - 1);
    }
  }

  /** From a fresh state a side needs at least three ticks to reach three points. */
  lemma {:induction false} NoEarlyWin(n: nat)
    requires n < 3
    ensures Run(Initial(), n).scoreL < 3 && Run(Initial(), n).scoreR < 3
  {
    RunInvariants(Initial(), n);
  }

  /**
   * The simulation of one match. The fields are the source's private fields;
   * `Model()` is their value, and each method is proved against the function
   * of the same name above.
   */
  class GameState {
    var xBall: real
    var yBall: real
    var xSpeed: real
    var ySpeed: real
    var yPadR: real
    var yPadL: real
    var scoreL: nat
    var scoreR: nat
    var isSpeed: bool

    ghost function Model(): Phys
      reads this
    {
      Phys(xBall, yBall, xSpeed, ySpeed, yPadR, yPadL, scoreL, scoreR, isSpeed)
    }

    constructor ()
      ensures Model() == Initial()
      ensures yPadL == 0.5 && yPadR == 0.5 && scoreL == 0 && scoreR == 0
      ensures xBall == 0.5 - 0.00625 && yBall == 0.5
      ensures xSpeed == 0.005 && ySpeed == 0.005 && !isSpeed
    {
      yPadR := CanvasHeight / 2.0;
      yPadL := CanvasHeight / 2.0;
      scoreL := 0;
      scoreR := 0;
      new;
      ResetBallPositionAndSpeed();
    }

    method Update()
      modifies this
      ensures Model() == Advance(old(Model()))
    {
      ghost var before := Model();
      xBall := xBall + xSpeed;
      yBall := yBall + ySpeed;
      if yBall <= 0.0 || yBall >= CanvasHeight {
        ySpeed := -ySpeed;
      }
      assert Model() == WallBounced(Moved(before));
      HandlePaddleCollision(Left);
      HandlePaddleCollision(Right);
      AdvanceUnfold(before);
    }

    method UpdatePaddlePosition(newPadR: real, newPadL: real)
      modifies this
      ensures Model() == SetPaddles(old(Model()), newPadR, newPadL)
    {
      if newPadL != 0.0 { yPadL := newPadL; }
      if newPadR != 0.0 { yPadR := newPadR; }
    }

    method UpdateSpeedMode(speed: bool)
      modifies this
      ensures Model() == WithSpeedMode(old(Model()), speed)
    {
      if speed { isSpeed := speed; }
    }

    method GetState() returns (s: Snapshot)
      ensures s.xBall == xBall && s.yBall == yBall && s.yPadL == yPadL && s.yPadR == yPadR
      ensures s.scoreL == scoreL && s.scoreR == scoreR && s.isSpeed == isSpeed
      ensures s == Visible(Model())
    {
      s := Snapshot(yBall, xBall, yPadR, yPadL, scoreL, scoreR, isSpeed);
    }

    method HandlePaddleCollision(side: Side)
      modifies this
      ensures Model() == Collide(old(Model()), side)
    {
      var padW := CanvasWidth * 0.0167;
      var padH := CanvasHeight * 0.2;
      var diam := CanvasWidth * 0.0125;
      var paddleXPos := if side == Left then 0.0 else CanvasWidth - padW;
      var yPaddle := if side == Left then yPadL else yPadR;
      var beyondPaddle := if side == Left then xBall < diam / 2.0 else xBall + diam / 2.0 > CanvasWidth;
      var collisionXCond := if side == Left then xBall <= paddleXPos + padW else xBall >= paddleXPos;

      if collisionXCond && yBall >= yPaddle - padW && yBall <= yPaddle + padH {
        ySpeed := if yBall < yPaddle + padH / 2.0 then -Abs(ySpeed) else Abs(ySpeed);
        xSpeed := -xSpeed;
        if isSpeed {
          ySpeed := ySpeed * 1.25;
          xSpeed := xSpeed * 1.25;
        }
      } else if beyondPaddle {
        if side == Right { scoreL := scoreL + 1; } else { scoreR := scoreR + 1; }
        ResetBallPositionAndSpeed();
      }
    }

    method ResetBallPositionAndSpeed()
      modifies this
      ensures Model() == Recentred(old(Model()))
    {
      var diam := CanvasWidth * 0.0125;
      xBall := CanvasWidth / 2.0 - diam / 2.0;
      yBall := CanvasHeight / 2.0;
      xSpeed := CanvasWidth * 0.005;
      ySpeed := CanvasHeight * 0.005;
      isSpeed := false;
    }
  }
}
