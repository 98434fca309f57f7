/**
 * What stays true of a match from construction on: the selected length and
 * the points needed to win agree, a match in play has no score at the
 * winning mark, the game is over exactly when a winner is recorded, and
 * paddles and ball stay on the screen.
 */
module MatchInvariant {
  import opened Chance
  import EnhancedBall
  import EnhancedPaddle
  import opened MatchEngine

  predicate Valid(e: Engine)
  {
    && 0 <= e.option < |MatchOptions|
    && e.gamesToWin == GamesToWin(e.option)
    && 0 <= e.playerScore && 0 <= e.aiScore
    && (e.state == Playing ==> e.playerScore < e.gamesToWin && e.aiScore < e.gamesToWin)
    && (e.state == GameOver <==> e.winner.Some?)
    && PaddleHeight <= e.height
    && e.player.height == PaddleHeight && e.ai.height == PaddleHeight
    && EnhancedPaddle.OnScreen(e.player, e.height)
    && EnhancedPaddle.OnScreen(e.ai, e.height)
    && e.ball.height == BallSize && e.ball.screenHeight == e.height
    && 0.0 <= e.ball.y <= EnhancedBall.MaxY(e.ball)
    && 0.0 <= e.ball.originalY <= EnhancedBall.MaxY(e.ball)
  }

  /** A freshly built engine on a screen at least a paddle tall is valid. */
  lemma InitIsValid(width: int, height: int, serve: Serve)
    requires PaddleHeight <= height
    ensures Valid(Init(width, height, serve))
  {
  }

  /** A restart brings back a valid match in play. */
  lemma RestartIsValid(e: Engine, serve: Serve)
    requires Valid(e)
    ensures Valid(Restart(e, serve)) && Restart(e, serve).state == Playing
  {
  }

  lemma HandleInputPreservesValid(e: Engine, keys: Keys, serve: Serve)
    requires Valid(e)
    ensures Valid(HandleInput(e, keys, serve))
  {
  }

  lemma UpdatePreservesValid(e: Engine, t: Tick)
    requires Valid(e)
    ensures Valid(Update(e, t))
  {
  }

  /**
   * The update that ends a match ends it for the right side: straight after
   * an update of a match in play, the game is over exactly when some score
   * has reached the winning mark, and the winner is the side whose score it
   * is, having just reached it.
   */
  lemma UpdateDecidesMatch(e: Engine, t: Tick)
    requires Valid(e) && e.state == Playing
    ensures var r := Update(e, t);
      && (r.state == GameOver <==> r.playerScore >= r.gamesToWin || r.aiScore >= r.gamesToWin)
      && (r.winner == Some(Player) <==> r.playerScore == r.gamesToWin)
      && (r.winner == Some(Ai) <==> r.aiScore == r.gamesToWin)
  {
  }

  /**
   * Best of N: while a match is in play fewer than N points have been
   * played, and the update that ends it has played at most N.
   */
  lemma BestOfN(e: Engine, t: Tick)
    requires Valid(e) && e.state == Playing
    ensures e.playerScore + e.aiScore < MatchOptions[e.option]
    ensures Update(e, t).playerScore + Update(e, t).aiScore <= MatchOptions[e.option]
  {
  }

  /** Every frame of the main loop keeps the engine valid. */
  lemma StepPreservesValid(e: Engine, f: Frame)
    requires Valid(e)
    ensures Valid(Step(e, f))
  {
  }

  /** However many frames are played, from construction on the engine stays valid. */
  lemma {:induction false} PlayPreservesValid(e: Engine, frames: seq<Frame>)
    requires Valid(e)
    ensures Valid(Play(e, frames))
    decreases |frames|
  {
    if |frames| > 0 {
      StepPreservesValid(e, frames[0]);
      PlayPreservesValid(Step(e, frames[0]), frames[1..]);
    }
  }

  /**
   * Scores never go down during a run of frames in which nobody restarts:
   * a score only drops when R or ENTER restarts the match.
   */
  predicate NoRestart(frames: seq<Frame>)
  {
    forall i :: 0 <= i < |frames| ==> !frames[i].keys.r && !frames[i].keys.enter
  }

  lemma {:induction false} ScoresOnlyGrowWithoutRestart(e: Engine, frames: seq<Frame>)
    requires NoRestart(frames)
    ensures e.playerScore <= Play(e, frames).playerScore
    ensures e.aiScore <= Play(e, frames).aiScore
    decreases |frames|
  {
    if |frames| > 0 {
      assert !frames[0].keys.r && !frames[0].keys.enter;
      var next := Step(e, frames[0]);
      assert e.playerScore <= next.playerScore && e.aiScore <= next.aiScore;
      assert NoRestart(frames[1..]) by {
        forall i | 0 <= i < |frames[1..]|
          ensures !frames[1..][i].keys.r && !frames[1..][i].keys.enter
        {
          assert frames[1..][i] == frames[i + 1];
        }
      }
      ScoresOnlyGrowWithoutRestart(next, frames[1..]);
    }
  }

  /** Playing two runs of frames one after the other is playing their concatenation. */
  lemma {:induction false} PlayConcatenates(e: Engine, first: seq<Frame>, second: seq<Frame>)
    ensures Play(e, first + second) == Play(Play(e, first), second)
    decreases |first|
  {
    if |first| == 0 {
      assert first + second == second;
    } else {
      var next := Step(e, first[0]);
      assert (first + second)[0] == first[0];
      assert (first + second)[1..] == first[1..] + second;
      calc {
        Play(e, first + second);
        Play(next, first[1..] + second);
        { PlayConcatenates(next, first[1..], second); }
        Play(Play(next, first[1..]), second);
        Play(Play(e, first), second);
      }
    }
  }

  /** Pressing UP then DOWN on the game-over screen returns to the same match length. */
  lemma UpThenDownRestoresOption(e: Engine, serve: Serve)
    requires Valid(e) && e.state == GameOver
    ensures var up := Keys(false, false, false, true, false, false);
            var down := Keys(false, false, false, false, true, false);
            HandleInput(HandleInput(e, up, serve), down, serve) == e
  {
  }

  /** Three presses of DOWN cycle through every match length and back. */
  lemma DownCyclesThroughOptions(e: Engine, serve: Serve)
    requires Valid(e) && e.state == GameOver
    ensures var down := Keys(false, false, false, false, true, false);
            var e1 := HandleInput(e, down, serve);
            var e2 := HandleInput(e1, down, serve);
            && {e.option, e1.option, e2.option} == {0, 1, 2}
            && HandleInput(e2, down, serve) == e
  {
  }

  /** Example: from best of 3, DOWN gives best of 5, 7, then 3 again: 2, 3, 4, 2 points to win. */
  lemma MatchLengthCycleExample(e: Engine, serve: Serve)
    requires Valid(e) && e.state == GameOver && e.option == 0
    ensures var down := Keys(false, false, false, false, true, false);
            var e1 := HandleInput(e, down, serve);
            var e2 := HandleInput(e1, down, serve);
            var e3 := HandleInput(e2, down, serve);
            e.gamesToWin == 2 && e1.gamesToWin == 3 && e2.gamesToWin == 4 && e3.gamesToWin == 2
  {
  }
}
