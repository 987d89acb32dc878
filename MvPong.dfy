/** The state object of the Pong client and the handlers the engine and the
    room channel call on it. Engine objects are reduced to the numbers the
    handlers read and write: the ball's position, each paddle's y and
    vertical velocity, and the two score labels. Starting the ball and
    sending a score over the channel are recorded in ghost fields. */
module MvPong {
  import opened Common
  import opened Input
  import opened Scoring
  import opened Labels
  import opened Session

  /** A `score` message as the host sends it. */
  datatype ScoreMessage = ScoreMessage(roomname: Option<string>, leftScore: int, rightScore: int)

  class PongState {
    var isStarted: bool
    var isHost: bool
    var playingAs: Option<Side>
    var ai: Pair<bool>
    var opponents: map<Side, string>
    var score: Pair<int>
    var labels: Pair<string>
    var paddleY: Pair<real>
    var velocity: Pair<int>
    var ballX: real
    var ballY: real
    /** The sanitiser applied to opponent names before they are shown. */
    const sanitize: string -> string
    /** Number of times the ball has been put back in the centre and served. */
    ghost var launches: nat
    /** Every `score` message this client has sent, oldest first. */
    ghost var sentScores: seq<ScoreMessage>

    /** The robot does not play the local player's own side. The constructor
        establishes this and `OnAIDown` preserves it; it is `OnAIDown`'s
        guarantee only, not an invariant of the class: `AcceptRoomInvite`
        can take a side whose robot flag is already set. */
    ghost predicate LocalSideHuman()
      reads this
    {
      playingAs.Some? ==> !ai.Get(playingAs.value)
    }

    function Positions(): Board
      reads this
    {
      Board(paddleY, ballX, ballY)
    }

    /** The labels `updateScore` would write for the current state. */
    function CurrentLabels(): Pair<string>
      reads this
    {
      ScoreLabels(score, playingAs, opponents, ai, sanitize)
    }

    /** A client that has not joined a room: no role, no side, no robot,
        scores 0, everything in its starting place. */
    constructor (sanitize: string -> string)
      ensures !isStarted && !isHost && playingAs == None
      ensures ai == Pair(false, false) && opponents == map[]
      ensures score == Zero && labels == Pair("", "")
      ensures paddleY == Pair(Height / 2.0, Height / 2.0) && velocity == Pair(0, 0)
      ensures ballX == Width / 2.0 && ballY == Height / 2.0
      ensures this.sanitize == sanitize
      ensures launches == 0 && sentScores == []
      ensures LocalSideHuman()
    {
      isStarted, isHost, playingAs := false, false, None;
      ai, opponents := Pair(false, false), map[];
      score, labels := Zero, Pair("", "");
      paddleY, velocity := Pair(Height / 2.0, Height / 2.0), Pair(0, 0);
      ballX, ballY := Width / 2.0, Height / 2.0;
      this.sanitize := sanitize;
      launches, sentScores := 0, [];
    }

    /** Puts the ball back in the centre of the board and serves it. */
    method LaunchBall()
      modifies this`ballX, this`ballY, this`launches
      ensures ballX == Width / 2.0 && ballY == Height / 2.0
      ensures launches == old(launches) + 1
    {
      ballX, ballY := Width / 2.0, Height / 2.0;
      launches := launches + 1;
    }

    /** Rewrites both score labels from the scores, the side, the opponent
        names and the robot flags. */
    method UpdateScore()
      modifies this`labels
      ensures labels == CurrentLabels()
    {
      labels := ScoreLabels(score, playingAs, opponents, ai, sanitize);
    }

    /** Takes the role, side and opponent names the room assigned. */
    method AcceptRoomInvite(side: Side, host: bool, opponents: map<Side, string>)
      modifies this`isHost, this`playingAs, this`opponents
      ensures isHost == host && playingAs == Some(side) && this.opponents == opponents
    {
      isHost := host;
      playingAs := Some(side);
      this.opponents := opponents;
    }

    /** The page's room code records a player who joined on `side`. The
        opponents object is shared with the page, which fills it in after
        the invite was accepted; this is the one update the state sees. */
    method OpponentJoined(side: Side, name: string)
      modifies this`opponents
      ensures opponents == old(opponents)[side := name]
    {
      opponents := opponents[side := name];
    }

    /** The host adds a robot opponent for the side across the net, relabels
        the scores and serves. The match is not marked as started. */
    method OnAIDown()
      modifies this`ai, this`labels, this`ballX, this`ballY, this`launches
      ensures ai == AiAfterClick(playingAs, old(ai))
      ensures labels == CurrentLabels()
      ensures ballX == Width / 2.0 && ballY == Height / 2.0
      ensures launches == old(launches) + 1
      ensures old(LocalSideHuman()) ==> LocalSideHuman()
    {
      if playingAs == Some(Left) {
        ai := ai.(right := true);
      } else if playingAs == Some(Right) {
        ai := ai.(left := true);
      }
      UpdateScore();
      LaunchBall();
    }

    /** Sets the left paddle's velocity from its keys when a human plays it. */
    method LeftPaddleHandler(upDown: bool, downDown: bool)
      modifies this`velocity
      ensures !ai.left ==> velocity == Pair(HumanVelocity(upDown, downDown), old(velocity).right)
      ensures ai.left ==> velocity == old(velocity)
    {
      if !ai.left {
        if upDown {
          velocity := velocity.(left := -PaddleSpeed);
        } else if downDown {
          velocity := velocity.(left := PaddleSpeed);
        } else {
          velocity := velocity.(left := 0);
        }
      }
    }

    /** Sets the right paddle's velocity from its keys when a human plays it. */
    method RightPaddleHandler(upDown: bool, downDown: bool)
      modifies this`velocity
      ensures !ai.right ==> velocity == Pair(old(velocity).left, HumanVelocity(upDown, downDown))
      ensures ai.right ==> velocity == old(velocity)
    {
      if !ai.right {
        if upDown {
          velocity := velocity.(right := -PaddleSpeed);
        } else if downDown {
          velocity := velocity.(right := PaddleSpeed);
        } else {
          velocity := velocity.(right := 0);
        }
      }
    }

    /** The guest mirrors a `position` message from the other client. */
    method OnPositionMessage(m: PositionMessage)
      modifies this`paddleY, this`ballX, this`ballY
      ensures Positions() == PositionAfter(playingAs, m, old(Positions()))
    {
      if IsEcho(playingAs, m.player) {
        return;
      }
      var named := if m.player.Some? then SideNamed(m.player.value) else None;
      if named.Some? {
        paddleY := paddleY.With(named.value, m.paddleY);
      }
      ballX, ballY := m.ballX, m.ballY;
    }

    /** Applies a `score` message, but only one sent for the current room. */
    method OnScoreMessage(m: ScoreMessage, currentRoom: Option<string>)
      modifies this`score, this`labels
      ensures m.roomname == currentRoom ==>
                score == Pair(m.leftScore, m.rightScore) && labels == CurrentLabels()
      ensures m.roomname != currentRoom ==> score == old(score) && labels == old(labels)
    {
      if m.roomname == currentRoom {
        score := Pair(m.leftScore, m.rightScore);
        UpdateScore();
      }
    }

    /** The host's part of a ball leaving the board: count the point for the
        side whose goal the ball did not cross, send the scores, relabel. */
    method TallyPoint(currentRoom: Option<string>)
      modifies this`score, this`labels, this`sentScores
      ensures score == Tally(isHost, ballX, old(score))
      ensures isHost ==> sentScores == old(sentScores) + [ScoreMessage(currentRoom, score.left, score.right)]
                         && labels == CurrentLabels()
      ensures !isHost ==> sentScores == old(sentScores) && labels == old(labels)
    {
      if isHost {
        if ballX <= 0.0 {
          score := score.(right := score.right + 1);
        }
        if ballX >= Width {
          score := score.(left := score.left + 1);
        }
        sentScores := sentScores + [ScoreMessage(currentRoom, score.left, score.right)];
        UpdateScore();
      }
    }

    /** The match-end check every client runs after a ball leaves the board:
        a side that reached the maximum wins and both scores go back to 0. */
    method SettleMatch()
      modifies this`score, this`labels
      ensures score == Settle(old(score))
      ensures score != old(score) ==> labels == CurrentLabels()
      ensures score == old(score) ==> labels == old(labels)
    {
      if score.left == MaxScore {
        score := Zero;
        UpdateScore();
      }
      if score.right == MaxScore {
        score := Zero;
        UpdateScore();
      }
    }

    /** The ball left the board. The host counts the point, sends the new
        scores and relabels; every client then resets the scores if either
        reached the maximum; the host serves again. */
    method BallOutside(currentRoom: Option<string>)
      modifies this`score, this`labels, this`ballX, this`ballY, this`launches, this`sentScores
      ensures score == ScoreAfterOut(isHost, old(ballX), old(score))
      ensures var t := Tally(isHost, old(ballX), old(score));
              sentScores == if isHost then old(sentScores) + [ScoreMessage(currentRoom, t.left, t.right)]
                            else old(sentScores)
      ensures isHost ==> launches == old(launches) + 1 && ballX == Width / 2.0 && ballY == Height / 2.0
      ensures !isHost ==> launches == old(launches) && ballX == old(ballX) && ballY == old(ballY)
      ensures isHost || score != old(score) ==> labels == CurrentLabels()
      ensures !isHost && score == old(score) ==> labels == old(labels)
    {
      TallyPoint(currentRoom);
      SettleMatch();
      if isHost {
        LaunchBall();
      }
    }

    /** The host starts the match, once, when the side across the net has an
        opponent: it relabels the scores and serves. */
    method CheckStart()
      modifies this`isStarted, this`labels, this`ballX, this`ballY, this`launches
      ensures isStarted == (old(isStarted) || ReadyToStart(isHost, old(isStarted), playingAs, opponents))
      ensures ReadyToStart(isHost, old(isStarted), playingAs, opponents) ==>
                labels == CurrentLabels() && launches == old(launches) + 1
                && ballX == Width / 2.0 && ballY == Height / 2.0
      ensures !ReadyToStart(isHost, old(isStarted), playingAs, opponents) ==>
                labels == old(labels) && launches == old(launches)
                && ballX == old(ballX) && ballY == old(ballY)
    {
      if ReadyToStart(isHost, isStarted, playingAs, opponents) {
        isStarted := true;
        UpdateScore();
        LaunchBall();
      }
    }
  }

  /** A host playing left with nobody across the net adds a robot: the ball is
      served from the centre, the right label is marked as the robot's, and
      a second start check does not start the match. */
  method HostAddsRobot(sanitize: string -> string)
  {
    var client := new PongState(sanitize);
    client.AcceptRoomInvite(Left, true, map[]);
    client.OnAIDown();
    assert client.ai == Pair(false, true);
    assert "Robot: " <= client.labels.right;
    assert "You: " <= client.labels.left;
    assert client.ballX == Width / 2.0 && client.ballY == Height / 2.0 && client.launches == 1;
    client.CheckStart();
    assert !client.isStarted && client.launches == 1;
  }

  /** A host playing left waits: checking for a start does nothing while the
      right side is empty; once a player joins there, the next check starts
      the match and serves, and later checks serve no more. */
  method HostWaitsForOpponent(sanitize: string -> string)
  {
    var client := new PongState(sanitize);
    client.AcceptRoomInvite(Left, true, map[]);
    client.CheckStart();
    assert !client.isStarted && client.launches == 0;
    client.OpponentJoined(Right, "bob");
    client.CheckStart();
    assert client.isStarted && client.launches == 1;
    assert client.ballX == Width / 2.0 && client.ballY == Height / 2.0;
    client.CheckStart();
    assert client.isStarted && client.launches == 1;
  }
}
