/** What the per-frame rules promise: the invariant one frame keeps, the
    paddle and ball bounds, the reflection and serve rules, and scoring. */
module Properties {
  import opened Rules

  /** The state invariant of the game: the fixed paddle and ball dimensions,
      a speed in (0, 12], and a speed that is the magnitude of the velocity. */
  ghost predicate Inv(w: World, fieldWidth: real, host: Host) {
    && host.Valid()
    && w.player == Paddle(PADDLE_MARGIN, w.player.y, PADDLE_WIDTH, PADDLE_HEIGHT, PLAYER_SPEED)
    && w.computer == Paddle(fieldWidth - PADDLE_MARGIN - PADDLE_WIDTH, w.computer.y,
                            PADDLE_WIDTH, PADDLE_HEIGHT, COMPUTER_SPEED)
    && w.ball.radius == BALL_RADIUS
    && 0.0 < w.ball.speed <= MAX_SPEED
    && host.hypot(w.ball.vx, w.ball.vy) == w.ball.speed
  }

  /** A field at least one paddle tall and wide enough that the two paddle
      tests of one frame never both act (the ball cannot touch both faces). */
  predicate Playable(fieldWidth: real, fieldHeight: real) {
    PADDLE_HEIGHT <= fieldHeight
    && 2.0 * (PADDLE_MARGIN + PADDLE_WIDTH + BALL_RADIUS) < fieldWidth
  }

  /** Both paddles inside the field and the ball between the walls. */
  predicate InBounds(w: World, fieldHeight: real) {
    && 0.0 <= w.player.y <= fieldHeight - w.player.height
    && 0.0 <= w.computer.y <= fieldHeight - w.computer.height
    && w.ball.radius <= w.ball.y <= fieldHeight - w.ball.radius
  }

  // ---------------------------------------------------------------- magnitudes

  lemma SquareRootUnique(a: real, b: real)
    requires 0.0 <= a && 0.0 <= b && a * a == b * b
    ensures a == b
  {
    var sum, diff := a + b, a - b;
    assert sum * diff == a * a - b * b;
    if sum != 0.0 {
      assert diff == (sum * diff) / sum;
    }
  }

  /** A velocity built from a speed and the cosine and sine of one angle, as
      resetBall and reflectBallFromPaddle build it, has that speed as its magnitude. */
  lemma PolarMagnitude(host: Host, s: real, a: real, vx: real, vy: real)
    requires host.Valid() && 0.0 <= s
    requires vx == s * host.cos(a) || vx == -(s * host.cos(a))
    requires vy == s * host.sin(a) || vy == -(s * host.sin(a))
    ensures host.hypot(vx, vy) == s
  {
    var c, n := host.cos(a), host.sin(a);
    var h := host.hypot(vx, vy);
    assert vx * vx == (s * s) * (c * c);
    assert vy * vy == (s * s) * (n * n);
    calc {
      h * h;
      vx * vx + vy * vy;
      (s * s) * (c * c + n * n);
      s * s;
    }
    SquareRootUnique(h, s);
  }

  /** A wall bounce negates vy and so leaves the magnitude unchanged. */
  lemma BounceKeepsMagnitude(host: Host, x: real, y: real)
    requires host.Valid()
    ensures host.hypot(x, -y) == host.hypot(x, y)
  {
    var h1, h2 := host.hypot(x, -y), host.hypot(x, y);
    assert h1 * h1 == h2 * h2;
    SquareRootUnique(h1, h2);
  }

  // ---------------------------------------------------------------- reflection

  /** A hit on a paddle: the angle stays within 75 degrees, the ball leaves
      away from the paddle, above-centre hits go up and below-centre hits go
      down, a centre hit leaves flat at full speed, and the new speed is the
      ratcheted speed and the new velocity's magnitude. */
  lemma ReflectRules(b: Ball, p: Paddle, side: Side, host: Host)
    requires host.Valid() && p.height > 0.0 && WithinSpan(b, p)
    ensures var r := Reflect(b, p, side, host);
      && -MAX_BOUNCE_ANGLE <= BounceAngle(NormalizedOffset(p, b.y)) <= MAX_BOUNCE_ANGLE
      && r.speed == HitSpeed(host.hypot(b.vx, b.vy))
      && SPEED_INCREASE <= r.speed <= MAX_SPEED
      && (side == Left <==> r.vx > 0.0)
      && (side == Right <==> r.vx < 0.0)
      && (b.y < p.y + p.height / 2.0 <==> r.vy < 0.0)
      && (b.y > p.y + p.height / 2.0 <==> r.vy > 0.0)
      && (b.y == p.y + p.height / 2.0 ==> r.vy == 0.0 && r.vx == Direction(side) * r.speed)
      && host.hypot(r.vx, r.vy) == r.speed
  {
    var r := Reflect(b, p, side, host);
    var angle := BounceAngle(NormalizedOffset(p, b.y));
    var c, n := host.cos(angle), host.sin(angle);
    var s := r.speed;
    assert 0.0 < c;
    assert 0.0 < s * c;
    assert r.vx == Direction(side) * (s * c);
    assert r.vy == -(s * n);
    if b.y < p.y + p.height / 2.0 {
      assert 0.0 < n;
      assert 0.0 < s * n;
    } else if b.y > p.y + p.height / 2.0 {
      assert n < 0.0;
      assert s * n < 0.0;
    } else {
      assert angle == 0.0;
    }
    PolarMagnitude(host, s, angle, r.vx, r.vy);
  }

  /** When the speed is the velocity's magnitude, a hit never slows the ball:
      it speeds up by 0.25 until it saturates at 12. */
  lemma HitNeverSlows(b: Ball, p: Paddle, side: Side, host: Host)
    requires host.Valid() && p.height > 0.0
    requires host.hypot(b.vx, b.vy) == b.speed <= MAX_SPEED
    ensures b.speed <= Reflect(b, p, side, host).speed
    ensures b.speed + SPEED_INCREASE <= MAX_SPEED ==>
            Reflect(b, p, side, host).speed == b.speed + SPEED_INCREASE
  {
  }

  // ---------------------------------------------------------------- serve

  /** resetBall: the ball is centred, a forced direction is used verbatim and
      any other is decided by the first draw; the speed lies in [5, 7), the
      angle in [-pi/8, pi/8), and the speed is the velocity's magnitude. */
  lemma ServeRules(w: World, direction: int, fieldWidth: real, fieldHeight: real, host: Host)
    requires host.Valid()
    ensures var r := Serve(w, direction, fieldWidth, fieldHeight, host);
      && r.ball.x == fieldWidth / 2.0 && r.ball.y == fieldHeight / 2.0
      && 5.0 <= r.ball.speed < 7.0
      && (Forced(direction) ==> Sign(r.ball.vx) == direction)
      && (!Forced(direction) ==> (r.ball.vx < 0.0 <==> host.random(w.draws) < 0.5))
      && r.ball.vx != 0.0
      && host.hypot(r.ball.vx, r.ball.vy) == r.ball.speed
  {
    var r := Serve(w, direction, fieldWidth, fieldHeight, host);
    var dir := ServeDirection(direction, host.random(w.draws));
    var k := if Forced(direction) then w.draws else w.draws + 1;
    var s := ServeSpeed(host.random(k));
    var angle := ServeAngle(host.random(k + 1));
    assert -PI / 2.0 < angle < PI / 2.0;
    var c := host.cos(angle);
    assert 0.0 < c;
    assert 0.0 < s * c;
    assert r.ball.vx == dir as real * (s * c);
    assert r.ball.vy == s * host.sin(angle);
    PolarMagnitude(host, s, angle, r.ball.vx, r.ball.vy);
  }

  // ---------------------------------------------------------------- one frame

  lemma AdvanceKeepsInv(w: World, fieldWidth: real, fieldHeight: real, host: Host)
    requires Inv(w, fieldWidth, host)
    ensures Inv(Advance(w, fieldHeight), fieldWidth, host)
  {
    BounceKeepsMagnitude(host, w.ball.vx, w.ball.vy);
  }

  lemma PlayerSideCheckKeepsInv(w: World, fieldWidth: real, fieldHeight: real, host: Host)
    requires Inv(w, fieldWidth, host)
    ensures Inv(PlayerSideCheck(w, fieldWidth, fieldHeight, host), fieldWidth, host)
  {
    var b, p := w.ball, w.player;
    if ReachesLeft(b, p) {
      if WithinSpan(b, p) {
        ReflectRules(b.(x := p.x + p.width + b.radius), p, Left, host);
      } else if PastLeftEdge(b) {
        ServeRules(w.(computerScore := w.computerScore + 1), 1, fieldWidth, fieldHeight, host);
      }
    }
  }

  lemma ComputerSideCheckKeepsInv(w: World, fieldWidth: real, fieldHeight: real, host: Host)
    requires Inv(w, fieldWidth, host)
    ensures Inv(ComputerSideCheck(w, fieldWidth, fieldHeight, host), fieldWidth, host)
  {
    var b, c := w.ball, w.computer;
    if ReachesRight(b, c) {
      if WithinSpan(b, c) {
        ReflectRules(b.(x := c.x - b.radius), c, Right, host);
      } else if PastRightEdge(b, fieldWidth) {
        ServeRules(w.(playerScore := w.playerScore + 1), -1, fieldWidth, fieldHeight, host);
      }
    }
  }

  /** update keeps the invariant: the speed never exceeds 12 and stays the
      velocity's magnitude, frame after frame. */
  lemma FrameKeepsInv(w: World, fieldWidth: real, fieldHeight: real, host: Host)
    requires Inv(w, fieldWidth, host)
    ensures Inv(Frame(w, fieldWidth, fieldHeight, host), fieldWidth, host)
    ensures Frame(w, fieldWidth, fieldHeight, host).ball.speed <= MAX_SPEED
  {
    var m := Advance(w, fieldHeight);
    AdvanceKeepsInv(w, fieldWidth, fieldHeight, host);
    var l := PlayerSideCheck(m, fieldWidth, fieldHeight, host);
    PlayerSideCheckKeepsInv(m, fieldWidth, fieldHeight, host);
    ComputerSideCheckKeepsInv(l, fieldWidth, fieldHeight, host);
  }

  /** After any frame in a field at least one paddle tall, both paddles are
      inside the field and the ball is between the walls, whatever came before. */
  lemma FrameInBounds(w: World, fieldWidth: real, fieldHeight: real, host: Host)
    requires Inv(w, fieldWidth, host) && PADDLE_HEIGHT <= fieldHeight
    ensures InBounds(Frame(w, fieldWidth, fieldHeight, host), fieldHeight)
  {
    var m := Advance(w, fieldHeight);
    assert InBounds(m, fieldHeight);
    var l := PlayerSideCheck(m, fieldWidth, fieldHeight, host);
    assert InBounds(l, fieldHeight);
  }

  /** update never lowers a score and raises each by at most one. */
  lemma ScoresNeverFall(w: World, fieldWidth: real, fieldHeight: real, host: Host)
    requires Shaped(w)
    ensures var r := Frame(w, fieldWidth, fieldHeight, host);
      && (r.playerScore == w.playerScore || r.playerScore == w.playerScore + 1)
      && (r.computerScore == w.computerScore || r.computerScore == w.computerScore + 1)
  {
  }

  /** In a playable field a ball that has reached the left paddle's face is
      too far from the right paddle's face for the right-hand test to act,
      and so is the ball the left-hand test leaves behind. */
  lemma OneSideActs(w: World, fieldWidth: real, fieldHeight: real, host: Host)
    requires Inv(w, fieldWidth, host) && Playable(fieldWidth, fieldHeight)
    requires ReachesLeft(w.ball, w.player)
    ensures !ReachesRight(w.ball, w.computer)
    ensures !ReachesRight(PlayerSideCheck(w, fieldWidth, fieldHeight, host).ball, w.computer)
  {
  }

  /** The computer scores in a frame exactly when the moved ball misses the
      player paddle past the left edge, and the player exactly when it misses
      the computer paddle past the right edge; never both. */
  lemma ScoreExactlyOnMiss(w: World, fieldWidth: real, fieldHeight: real, host: Host)
    requires Inv(w, fieldWidth, host) && Playable(fieldWidth, fieldHeight)
    ensures var m := Advance(w, fieldHeight);
      var r := Frame(w, fieldWidth, fieldHeight, host);
      && r.computerScore == w.computerScore + (if LeftMiss(m) then 1 else 0)
      && r.playerScore == w.playerScore + (if RightMiss(m, fieldWidth) then 1 else 0)
      && !(LeftMiss(m) && RightMiss(m, fieldWidth))
  {
    var m := Advance(w, fieldHeight);
    AdvanceKeepsInv(w, fieldWidth, fieldHeight, host);
    if ReachesLeft(m.ball, m.player) {
      OneSideActs(m, fieldWidth, fieldHeight, host);
    }
  }

  /** A left-side miss: the computer's score rises by one, the player's does
      not change, and the ball is served from the centre towards the right. */
  lemma LeftMissServesRight(w: World, fieldWidth: real, fieldHeight: real, host: Host)
    requires Inv(w, fieldWidth, host) && Playable(fieldWidth, fieldHeight)
    requires LeftMiss(Advance(w, fieldHeight))
    ensures var m := Advance(w, fieldHeight);
      var r := Frame(w, fieldWidth, fieldHeight, host);
      && r.computerScore == w.computerScore + 1 && r.playerScore == w.playerScore
      && r.ball.x == fieldWidth / 2.0 && r.ball.y == fieldHeight / 2.0
      && r.ball.vx > 0.0 && 5.0 <= r.ball.speed < 7.0
      && r.draws == w.draws + 2
      && r.player == m.player && r.computer == m.computer
  {
    var m := Advance(w, fieldHeight);
    AdvanceKeepsInv(w, fieldWidth, fieldHeight, host);
    OneSideActs(m, fieldWidth, fieldHeight, host);
    ServeRules(m.(computerScore := m.computerScore + 1), 1, fieldWidth, fieldHeight, host);
  }

  /** A right-side miss: the player's score rises by one, the computer's does
      not change, and the ball is served from the centre towards the left. */
  lemma RightMissServesLeft(w: World, fieldWidth: real, fieldHeight: real, host: Host)
    requires Inv(w, fieldWidth, host) && Playable(fieldWidth, fieldHeight)
    requires RightMiss(Advance(w, fieldHeight), fieldWidth)
    ensures var m := Advance(w, fieldHeight);
      var r := Frame(w, fieldWidth, fieldHeight, host);
      && r.playerScore == w.playerScore + 1 && r.computerScore == w.computerScore
      && r.ball.x == fieldWidth / 2.0 && r.ball.y == fieldHeight / 2.0
      && r.ball.vx < 0.0 && 5.0 <= r.ball.speed < 7.0
      && r.draws == w.draws + 2
      && r.player == m.player && r.computer == m.computer
  {
    var m := Advance(w, fieldHeight);
    AdvanceKeepsInv(w, fieldWidth, fieldHeight, host);
    assert !ReachesLeft(m.ball, m.player);
    ServeRules(m.(playerScore := m.playerScore + 1), -1, fieldWidth, fieldHeight, host);
  }

  /** A hit on the player paddle: no score changes, the ball is pushed just
      outside the paddle face and leaves rightwards, never slower than it came. */
  lemma LeftHitReturnsBall(w: World, fieldWidth: real, fieldHeight: real, host: Host)
    requires Inv(w, fieldWidth, host) && Playable(fieldWidth, fieldHeight)
    requires var m := Advance(w, fieldHeight);
      ReachesLeft(m.ball, m.player) && WithinSpan(m.ball, m.player)
    ensures var m := Advance(w, fieldHeight);
      var r := Frame(w, fieldWidth, fieldHeight, host);
      && r.playerScore == w.playerScore && r.computerScore == w.computerScore
      && r.ball.x == m.player.x + m.player.width + m.ball.radius
      && r.ball.vx > 0.0
      && r.ball.speed == HitSpeed(w.ball.speed) && w.ball.speed <= r.ball.speed
      && r.draws == w.draws
  {
    var m := Advance(w, fieldHeight);
    AdvanceKeepsInv(w, fieldWidth, fieldHeight, host);
    OneSideActs(m, fieldWidth, fieldHeight, host);
    ReflectRules(m.ball.(x := m.player.x + m.player.width + m.ball.radius), m.player, Left, host);
  }

  /** A hit on the computer paddle: no score changes, the ball is pushed just
      outside the paddle face and leaves leftwards, never slower than it came. */
  lemma RightHitReturnsBall(w: World, fieldWidth: real, fieldHeight: real, host: Host)
    requires Inv(w, fieldWidth, host) && Playable(fieldWidth, fieldHeight)
    requires var m := Advance(w, fieldHeight);
      ReachesRight(m.ball, m.computer) && WithinSpan(m.ball, m.computer)
    ensures var m := Advance(w, fieldHeight);
      var r := Frame(w, fieldWidth, fieldHeight, host);
      && r.playerScore == w.playerScore && r.computerScore == w.computerScore
      && r.ball.x == m.computer.x - m.ball.radius
      && r.ball.vx < 0.0
      && r.ball.speed == HitSpeed(w.ball.speed) && w.ball.speed <= r.ball.speed
      && r.draws == w.draws
  {
    var m := Advance(w, fieldHeight);
    AdvanceKeepsInv(w, fieldWidth, fieldHeight, host);
    assert !ReachesLeft(m.ball, m.player);
    ReflectRules(m.ball.(x := m.computer.x - m.ball.radius), m.computer, Right, host);
  }
}
