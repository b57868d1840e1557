/** The running game: the mutable paddles, ball, scores, run flag and held
    keys, with the functions of script.js that change them in place. */
module Session {
  import opened Rules
  import opened Properties
  import Controls

  class Game {
    const width: real
    const height: real
    const host: Host
    var player: Paddle
    var playerDy: real
    var computer: Paddle
    var ball: Ball
    var playerScore: nat
    var computerScore: nat
    var isRunning: bool
    var keys: map<string, bool>
    /** How many times Math.random has been called. */
    var draws: nat

    /** The part of the state that update reads and writes. */
    ghost function State(): World
      reads this
    {
      World(player, playerDy, computer, ball, playerScore, computerScore, draws)
    }

    ghost function Keyboard(): Controls.Keyboard
      reads this
    {
      Controls.Keyboard(keys, playerDy)
    }

    ghost predicate Valid()
      reads this
    {
      Inv(State(), width, host) && Controls.Consistent(Keyboard(), player.speed)
    }

    /** The start-up of script.js: the initial objects, an empty key
        dictionary, a serve in a random direction, and the game started. */
    constructor (canvasWidth: nat, canvasHeight: nat, host: Host)
      requires host.Valid()
      ensures Valid()
      ensures this.host == host && width == canvasWidth as real && height == canvasHeight as real
      ensures player.y == height / 2.0 - PADDLE_HEIGHT / 2.0 && computer.y == player.y
      ensures playerDy == 0.0 && keys == map[]
      ensures playerScore == 0 && computerScore == 0 && isRunning
      ensures ball.x == width / 2.0 && ball.y == height / 2.0 && draws == 3
      ensures ball.vx < 0.0 <==> host.random(0) < 0.5
    {
      var w, h := canvasWidth as real, canvasHeight as real;
      width, height, this.host := w, h, host;
      player := Paddle(PADDLE_MARGIN, h / 2.0 - PADDLE_HEIGHT / 2.0, PADDLE_WIDTH, PADDLE_HEIGHT, PLAYER_SPEED);
      playerDy := 0.0;
      computer := Paddle(w - PADDLE_MARGIN - PADDLE_WIDTH, h / 2.0 - PADDLE_HEIGHT / 2.0,
                         PADDLE_WIDTH, PADDLE_HEIGHT, COMPUTER_SPEED);
      ball := Ball(w / 2.0, h / 2.0, BALL_RADIUS, 6.0, 6.0, 2.0);
      playerScore, computerScore := 0, 0;
      isRunning := false;
      keys := map[];
      draws := 0;
      new;
      var coin := Random();
      var direction := if coin < 0.5 then -1 else 1;
      ghost var before := State();
      ResetBall(direction);
      ServeRules(before, direction, width, height, host);
      StartGame();
    }

    /** Math.random: the next value of the host's stream. */
    method Random() returns (r: real)
      modifies this`draws
      ensures r == host.random(old(draws)) && draws == old(draws) + 1
    {
      r := host.random(draws);
      draws := draws + 1;
    }

    /** resetBall(direction): centre the ball and serve it. */
    method ResetBall(direction: int)
      modifies this`ball, this`draws
      ensures State() == Serve(old(State()), direction, width, height, host)
    {
      ghost var w := State();
      ball := ball.(x := width / 2.0, y := height / 2.0);
      var dir := direction;
      if !(direction == -1 || direction == 1) {
        var coin := Random();
        dir := if coin < 0.5 then -1 else 1;
      }
      var r1 := Random();
      var speed := 5.0 + r1 * 2.0;
      var r2 := Random();
      var angle := r2 * PI / 4.0 - PI / 8.0;
      assert speed == ServeSpeed(r1) && angle == ServeAngle(r2);
      assert dir == ServeDirection(direction, host.random(w.draws));
      ball := ball.(speed := speed, vx := dir as real * speed * host.cos(angle),
                    vy := speed * host.sin(angle));
    }

    /** reflectBallFromPaddle(paddle): new velocity after a hit on the given side's paddle. */
    method ReflectBallFromPaddle(side: Side)
      requires player.height > 0.0 && computer.height > 0.0
      modifies this`ball
      ensures ball == Reflect(old(ball), if side == Left then player else computer, side, host)
    {
      var paddle := if side == Left then player else computer;
      var relativeIntersectY := (paddle.y + paddle.height / 2.0) - ball.y;
      var normalizedRelativeIntersectionY := relativeIntersectY / (paddle.height / 2.0);
      var maxBounceAngle := 5.0 * PI / 12.0;
      var bounceAngle := normalizedRelativeIntersectionY * maxBounceAngle;
      var direction := if side == Left then 1.0 else -1.0;
      var speedIncrease := 0.25;
      var incoming := host.hypot(ball.vx, ball.vy) + speedIncrease;
      ball := ball.(speed := if 12.0 < incoming then 12.0 else incoming);
      ball := ball.(vx := direction * ball.speed * host.cos(bounceAngle),
                    vy := -ball.speed * host.sin(bounceAngle));
    }

    /** update(dt): one frame; dt is not used. The invariant is kept, and in a
        field at least one paddle tall both paddles end inside the field. */
    method Update()
      requires Valid()
      modifies this
      ensures Valid()
      ensures State() == Frame(old(State()), width, height, host)
      ensures isRunning == old(isRunning) && keys == old(keys)
      ensures PADDLE_HEIGHT <= height ==> InBounds(State(), height)
    {
      ghost var start := State();
      MovePaddlesAndBall();
      CheckPlayerPaddle();
      CheckComputerPaddle();
      FrameKeepsInv(start, width, height, host);
      if PADDLE_HEIGHT <= height {
        FrameInBounds(start, width, height, host);
      }
    }

    /** The first half of update: keyboard move, computer pursuit, ball step and wall bounces. */
    method MovePaddlesAndBall()
      modifies this`player, this`computer, this`ball
      ensures State() == Advance(old(State()), height)
    {
      var ballY := ball.y;
      MovePlayerPaddle();
      MoveComputerPaddle(ballY);
      MoveBall();
    }

    /** player.y += player.dy, then clamp. */
    method MovePlayerPaddle()
      modifies this`player
      ensures player == MovePlayer(old(player), playerDy, height)
    {
      player := player.(y := player.y + playerDy);
      if player.y < 0.0 { player := player.(y := 0.0); }
      if player.y + player.height > height { player := player.(y := height - player.height); }
    }

    /** The computer's pursuit of the ball's centre, then clamp. */
    method MoveComputerPaddle(ballY: real)
      modifies this`computer
      ensures computer == ChaseBall(old(computer), ballY, height)
    {
      var targetY := ballY - computer.height / 2.0;
      var diff := targetY - computer.y;
      var maxMove := computer.speed;
      if Abs(diff) > maxMove {
        computer := computer.(y := computer.y + if diff > 0.0 then maxMove else -maxMove);
      } else {
        computer := computer.(y := targetY);
      }
      if computer.y < 0.0 { computer := computer.(y := 0.0); }
      if computer.y + computer.height > height { computer := computer.(y := height - computer.height); }
    }

    /** The ball moves by its velocity and bounces off the top and bottom walls. */
    method MoveBall()
      modifies this`ball
      ensures ball == StepBall(old(ball), height)
    {
      ball := ball.(x := ball.x + ball.vx, y := ball.y + ball.vy);
      if ball.y - ball.radius < 0.0 { ball := ball.(y := ball.radius, vy := -ball.vy); }
      if ball.y + ball.radius > height { ball := ball.(y := height - ball.radius, vy := -ball.vy); }
    }

    /** The player paddle test of update. */
    method CheckPlayerPaddle()
      requires Shaped(State())
      modifies this`ball, this`computerScore, this`draws
      ensures State() == PlayerSideCheck(old(State()), width, height, host)
    {
      if ball.x - ball.radius <= player.x + player.width {
        if ball.y >= player.y && ball.y <= player.y + player.height {
          ball := ball.(x := player.x + player.width + ball.radius);
          ReflectBallFromPaddle(Left);
        } else if ball.x - ball.radius < 0.0 {
          computerScore := computerScore + 1;
          ResetBall(1);
        }
      }
    }

    /** The computer paddle test of update. */
    method CheckComputerPaddle()
      requires Shaped(State())
      modifies this`ball, this`playerScore, this`draws
      ensures State() == ComputerSideCheck(old(State()), width, height, host)
    {
      if ball.x + ball.radius >= computer.x {
        if ball.y >= computer.y && ball.y <= computer.y + computer.height {
          ball := ball.(x := computer.x - ball.radius);
          ReflectBallFromPaddle(Right);
        } else if ball.x + ball.radius > width {
          playerScore := playerScore + 1;
          ResetBall(-1);
        }
      }
    }

    /** startGame: set the run flag; a no-op when already running. */
    method StartGame()
      modifies this`isRunning
      ensures isRunning
    {
      if !isRunning {
        isRunning := true;
      }
    }

    method ToggleRunning()
      modifies this`isRunning
      ensures isRunning == !old(isRunning)
    {
      isRunning := !isRunning;
    }

    /** resetGame: zero both scores, serve in a random direction, and run. */
    method ResetGame()
      requires Valid()
      modifies this
      ensures Valid()
      ensures playerScore == 0 && computerScore == 0 && isRunning
      ensures State() == Serve(old(State()).(playerScore := 0, computerScore := 0, draws := old(draws) + 1),
                               if host.random(old(draws)) < 0.5 then -1 else 1, width, height, host)
      ensures keys == old(keys)
    {
      playerScore := 0;
      computerScore := 0;
      var coin := Random();
      var direction := if coin < 0.5 then -1 else 1;
      ghost var before := State();
      ResetBall(direction);
      ServeRules(before, direction, width, height, host);
      StartGame();
    }

    /** The mousemove handler, given the pointer's y relative to the field. */
    method MouseMove(pointerY: real)
      requires Valid()
      modifies this`player
      ensures Valid()
      ensures player == PointAt(old(player), pointerY, height)
      ensures PADDLE_HEIGHT <= height ==> 0.0 <= player.y <= height - PADDLE_HEIGHT
    {
      player := player.(y := pointerY - player.height / 2.0);
      if player.y < 0.0 { player := player.(y := 0.0); }
      if player.y + player.height > height { player := player.(y := height - player.height); }
    }

    /** The keydown handler: arrows set dy and mark themselves held, space toggles the run flag. */
    method KeyDown(key: string)
      requires Valid()
      modifies this`keys, this`playerDy, this`isRunning
      ensures Valid()
      ensures Keyboard() == Controls.KeyDown(old(Keyboard()), key, player.speed)
      ensures isRunning == if key != Controls.ARROW_UP && key != Controls.ARROW_DOWN
                              && Controls.IsToggleKey(key) then !old(isRunning) else old(isRunning)
    {
      Controls.KeyDownKeepsConsistent(Keyboard(), key, player.speed);
      if key == Controls.ARROW_UP {
        playerDy := -player.speed;
        keys := keys[Controls.ARROW_UP := true];
      } else if key == Controls.ARROW_DOWN {
        playerDy := player.speed;
        keys := keys[Controls.ARROW_DOWN := true];
      } else if Controls.IsToggleKey(key) {
        ToggleRunning();
      }
    }

    /** The keyup handler: releasing an arrow falls back to the other held arrow or stops. */
    method KeyUp(key: string)
      requires Valid()
      modifies this`keys, this`playerDy
      ensures Valid()
      ensures Keyboard() == Controls.KeyUp(old(Keyboard()), key, player.speed)
    {
      Controls.KeyUpKeepsConsistent(Keyboard(), key, player.speed);
      if key == Controls.ARROW_UP {
        keys := keys[Controls.ARROW_UP := false];
        if !Controls.Held(keys, Controls.ARROW_DOWN) { playerDy := 0.0; } else { playerDy := player.speed; }
      } else if key == Controls.ARROW_DOWN {
        keys := keys[Controls.ARROW_DOWN := false];
        if !Controls.Held(keys, Controls.ARROW_UP) { playerDy := 0.0; } else { playerDy := -player.speed; }
      }
    }
  }
}
