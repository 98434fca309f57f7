/**
 * The match of the enhanced edition: scoring when the ball leaves the
 * screen, the win check, the choice of match length on the game-over
 * screen, and the restart.
 *
 * The key snapshot, the millisecond clock and every random draw are
 * parameters; sound and drawing are not modelled.
 */
module MatchEngine {
  import opened Geometry
  import opened Chance
  import EnhancedBall
  import EnhancedPaddle

  /** Match lengths on offer: best of 3, 5 or 7. */
  const MatchOptions: seq<int> := [3, 5, 7]
  /** The option selected at start-up: best of 5. */
  const DefaultOption := 1
  const PaddleWidth := 10
  const PaddleHeight := 100
  const BallSize := 7
  /** Pixels the player's paddle moves per tick while W or S is held. */
  const PlayerStep := 10

  datatype GameState = Playing | GameOver
  datatype Side = Player | Ai
  datatype Option<T> = None | Some(value: T)

  /** The keys held during one tick. */
  datatype Keys = Keys(w: bool, s: bool, r: bool, up: bool, down: bool, enter: bool)

  /** The two random draws of a serve (Ball.reset). */
  datatype Serve = Serve(vx: Pick, vy: Pick)

  /** What one update consumes: the clock, the draws of a serve, and the AI's jitter draws. */
  datatype Tick = Tick(now: int, serve: Serve, roll: real, jitter: Pick)

  datatype Engine = Engine(
    width: int, height: int,
    player: EnhancedPaddle.Paddle, ai: EnhancedPaddle.Paddle,
    ball: EnhancedBall.Ball,
    playerScore: int, aiScore: int,
    state: GameState, winner: Option<Side>,
    option: int, gamesToWin: int)

  /** Points needed to win a best-of-N match: a majority of N. */
  function GamesToWin(option: int): (g: int)
    requires 0 <= option < |MatchOptions|
    ensures 2 * g - 1 == MatchOptions[option]
  {
    (MatchOptions[option] + 1) / 2
  }

  /** Paddle top that centres a 100-pixel paddle vertically. */
  function StartY(height: int): int
  {
    height / 2 - 50
  }

  /** The engine as constructed on a width x height screen. */
  function Init(width: int, height: int, serve: Serve): (e: Engine)
    ensures e.width == width && e.height == height
    ensures e.state == Playing && e.winner == None
    ensures e.playerScore == 0 && e.aiScore == 0
    ensures e.option == DefaultOption && e.gamesToWin == 3
    ensures e.player == EnhancedPaddle.Paddle(10, StartY(height), PaddleWidth, PaddleHeight)
    ensures e.ai == EnhancedPaddle.Paddle(width - 20, StartY(height), PaddleWidth, PaddleHeight)
    ensures e.ball.x == (width / 2) as real && e.ball.y == (height / 2) as real
    ensures e.ball.height == BallSize && e.ball.screenHeight == height
    ensures e.ball.originalY == (height / 2) as real
  {
    Engine(width, height,
           EnhancedPaddle.Paddle(10, StartY(height), PaddleWidth, PaddleHeight),
           EnhancedPaddle.Paddle(width - 20, StartY(height), PaddleWidth, PaddleHeight),
           EnhancedBall.Create((width / 2) as real, (height / 2) as real, BallSize, BallSize,
                               width, height, serve.vx, serve.vy),
           0, 0, Playing, None, DefaultOption, GamesToWin(DefaultOption))
  }

  /** The win check after a point: the player is tested first. */
  function CheckGameOver(e: Engine): (r: Engine)
    ensures r == e.(state := r.state, winner := r.winner)
    ensures e.playerScore >= e.gamesToWin ==> r.state == GameOver && r.winner == Some(Player)
    ensures e.playerScore < e.gamesToWin <= e.aiScore ==> r.state == GameOver && r.winner == Some(Ai)
    ensures e.playerScore < e.gamesToWin && e.aiScore < e.gamesToWin ==> r == e
  {
    if e.playerScore >= e.gamesToWin then
      e.(state := GameOver, winner := Some(Player))
    else if e.aiScore >= e.gamesToWin then
      e.(state := GameOver, winner := Some(Ai))
    else
      e
  }

  /** A new match with the same length: scores cleared, ball served, paddles centred. */
  function Restart(e: Engine, serve: Serve): (r: Engine)
    ensures r.playerScore == 0 && r.aiScore == 0
    ensures r.state == Playing && r.winner == None
    ensures r.option == e.option && r.gamesToWin == e.gamesToWin
    ensures r.width == e.width && r.height == e.height
    ensures r.player == e.player.(y := StartY(e.height)) && r.ai == e.ai.(y := StartY(e.height))
    ensures r.ball == EnhancedBall.Reset(e.ball, serve.vx, serve.vy)
  {
    e.(playerScore := 0, aiScore := 0, state := Playing, winner := None,
       ball := EnhancedBall.Reset(e.ball, serve.vx, serve.vy),
       player := e.player.(y := StartY(e.height)),
       ai := e.ai.(y := StartY(e.height)))
  }

  /** Select match option i and recompute the points needed to win. */
  function Select(e: Engine, i: int): (r: Engine)
    requires 0 <= i < |MatchOptions|
    ensures r == e.(option := i, gamesToWin := r.gamesToWin)
    ensures 2 * r.gamesToWin - 1 == MatchOptions[i]
  {
    e.(option := i, gamesToWin := GamesToWin(i))
  }

  /**
   * One tick of input. While playing, W and S move the player's paddle
   * (both when both are held). On the game-over screen R restarts, UP and
   * DOWN step through the match lengths with wrap-around, and ENTER
   * restarts, in that order of precedence.
   */
  function HandleInput(e: Engine, keys: Keys, serve: Serve): (r: Engine)
    ensures e.state == Playing ==>
      r == e.(player := r.player) && r.player == e.player.(y := r.player.y)
    ensures e.state == Playing && !keys.w && !keys.s ==> r == e
    ensures e.state == Playing && keys.w && !keys.s ==>
      r.player == EnhancedPaddle.Move(e.player, -PlayerStep, e.height)
    ensures e.state == Playing && !keys.w && keys.s ==>
      r.player == EnhancedPaddle.Move(e.player, PlayerStep, e.height)
    ensures e.state == Playing && keys.w && keys.s ==>
      r.player == EnhancedPaddle.Move(EnhancedPaddle.Move(e.player, -PlayerStep, e.height), PlayerStep, e.height)
    ensures e.state == Playing && e.player.height <= e.height && (keys.w || keys.s) ==>
      EnhancedPaddle.OnScreen(r.player, e.height)
    ensures e.state == GameOver && (keys.r || (!keys.up && !keys.down && keys.enter)) ==>
      r == Restart(e, serve)
    ensures e.state == GameOver && !keys.r && (keys.up || keys.down) ==>
      && r == e.(option := r.option, gamesToWin := r.gamesToWin)
      && 0 <= r.option < |MatchOptions|
      && 2 * r.gamesToWin - 1 == MatchOptions[r.option]
    ensures e.state == GameOver && !keys.r && keys.up && 0 <= e.option < |MatchOptions| ==>
      r.option == if e.option == 0 then |MatchOptions| - 1 else e.option - 1
    ensures e.state == GameOver && !keys.r && !keys.up && keys.down && 0 <= e.option < |MatchOptions| ==>
      r.option == if e.option == |MatchOptions| - 1 then 0 else e.option + 1
    ensures e.state == GameOver && !keys.r && !keys.up && !keys.down && !keys.enter ==> r == e
  {
    match e.state
    case Playing =>
      var afterW := if keys.w then EnhancedPaddle.Move(e.player, -PlayerStep, e.height) else e.player;
      var afterS := if keys.s then EnhancedPaddle.Move(afterW, PlayerStep, e.height) else afterW;
      e.(player := afterS)
    case GameOver =>
      if keys.r then Restart(e, serve)
      else if keys.up then Select(e, (e.option - 1) % |MatchOptions|)
      else if keys.down then Select(e, (e.option + 1) % |MatchOptions|)
      else if keys.enter then Restart(e, serve)
      else e
  }

  /** The ball after this tick's flight and paddle check. */
  function Rally(e: Engine, now: int): EnhancedBall.Bounce
  {
    EnhancedBall.CheckCollision(EnhancedBall.Move(e.ball),
                                EnhancedPaddle.Box(e.player), EnhancedPaddle.Box(e.ai), now)
  }

  /** The ball left on the player's side: the AI scores. */
  predicate AiScores(b: EnhancedBall.Ball)
  {
    b.x <= 0.0
  }

  /** The ball left on the AI's side (and not on the player's): the player scores. */
  predicate PlayerScores(b: EnhancedBall.Ball, width: int)
  {
    !AiScores(b) && b.x >= width as real
  }

  /**
   * One tick of play: the ball flies and is checked against the paddles; a
   * ball off either side scores a point for the other side, is served again
   * and the win is checked; then the AI tracks the ball as it now stands.
   * Nothing happens unless a match is being played.
   */
  function Update(e: Engine, t: Tick): (r: Engine)
    ensures e.state != Playing ==> r == e
    ensures r.width == e.width && r.height == e.height && r.player == e.player
    ensures r.option == e.option && r.gamesToWin == e.gamesToWin
    ensures e.state == Playing ==>
      && e.playerScore <= r.playerScore && e.aiScore <= r.aiScore
      && r.playerScore + r.aiScore <= e.playerScore + e.aiScore + 1
    ensures e.state == Playing ==>
      (r.aiScore == e.aiScore + 1 <==> AiScores(Rally(e, t.now).ball))
    ensures e.state == Playing ==>
      (r.playerScore == e.playerScore + 1 <==> PlayerScores(Rally(e, t.now).ball, e.width))
    ensures e.state == Playing && !AiScores(Rally(e, t.now).ball) && !PlayerScores(Rally(e, t.now).ball, e.width) ==>
      r.ball == Rally(e, t.now).ball && r.state == e.state && r.winner == e.winner
    ensures e.state == Playing && (AiScores(Rally(e, t.now).ball) || PlayerScores(Rally(e, t.now).ball, e.width)) ==>
      r.ball == EnhancedBall.Reset(Rally(e, t.now).ball, t.serve.vx, t.serve.vy)
    ensures e.state == Playing ==>
      r.ai == EnhancedPaddle.AutoTrack(e.ai, r.ball, e.height, t.roll, t.jitter)
    ensures r.state == GameOver && e.state == Playing ==>
      r.playerScore >= r.gamesToWin || r.aiScore >= r.gamesToWin
  {
    if e.state != Playing then
      e
    else
      var b := Rally(e, t.now).ball;
      var scored :=
        if AiScores(b) then
          CheckGameOver(e.(ball := EnhancedBall.Reset(b, t.serve.vx, t.serve.vy), aiScore := e.aiScore + 1))
        else if PlayerScores(b, e.width) then
          CheckGameOver(e.(ball := EnhancedBall.Reset(b, t.serve.vx, t.serve.vy), playerScore := e.playerScore + 1))
        else
          e.(ball := b);
      scored.(ai := EnhancedPaddle.AutoTrack(e.ai, scored.ball, e.height, t.roll, t.jitter))
  }

  /** What the main loop feeds the engine each frame. */
  datatype Frame = Frame(keys: Keys, restartServe: Serve, tick: Tick)

  /**
   * One frame of the main loop: input first, then the update. Scores only
   * drop when R or ENTER restarts a finished match.
   */
  function Step(e: Engine, f: Frame): (r: Engine)
    ensures r.width == e.width && r.height == e.height
    ensures !(e.state == GameOver && (f.keys.r || f.keys.enter)) ==>
      e.playerScore <= r.playerScore && e.aiScore <= r.aiScore
    ensures e.state == GameOver && (f.keys.r || (!f.keys.up && !f.keys.down && f.keys.enter)) ==>
      r == Update(Restart(e, f.restartServe), f.tick)
  {
    Update(HandleInput(e, f.keys, f.restartServe), f.tick)
  }

  /** The engine after a run of frames; the screen never changes size. */
  function Play(e: Engine, frames: seq<Frame>): (r: Engine)
    ensures r.width == e.width && r.height == e.height
    decreases |frames|
  {
    if |frames| == 0 then e else Play(Step(e, frames[0]), frames[1..])
  }
}
