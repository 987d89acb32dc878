/** The room-level rules the client applies to its own flags and to messages
    from the other client: adding a robot opponent, deciding that the match
    can start, and mirroring the positions the other client broadcasts. */
module Session {
  import opened Common
  import opened Labels

  /** The AI flags after the host clicks "add a robot opponent": the robot
      takes the side across the net from the local player. */
  function AiAfterClick(playingAs: Option<Side>, ai: Pair<bool>): (r: Pair<bool>)
    ensures (ai.left ==> r.left) && (ai.right ==> r.right)
    ensures playingAs.Some? ==> r.Get(playingAs.value) == ai.Get(playingAs.value)
    ensures playingAs.Some? ==> r.Get(playingAs.value.Other())
    ensures playingAs.None? ==> r == ai
  {
    match playingAs
    case None => ai
    case Some(me) => ai.With(me.Other(), true)
  }

  /** The condition under which `checkStart` starts the match: this client is
      the host, the match has not started, and the side across the net has an
      opponent. */
  predicate ReadyToStart(isHost: bool, isStarted: bool, playingAs: Option<Side>,
                         opponents: map<Side, string>)
  {
    isHost && !isStarted && playingAs.Some? && HasOpponent(opponents, playingAs.value.Other())
  }

  /** A `position` message: the sender's side (`None` when the field is
      missing), the y of the sender's paddle and the ball's position. */
  datatype PositionMessage = PositionMessage(player: Option<string>, paddleY: real, ballX: real, ballY: real)

  /** The positions a client displays: both paddles' y and the ball. */
  datatype Board = Board(paddleY: Pair<real>, ballX: real, ballY: real)

  /** The message names the local side (JavaScript `===` on the two values,
      so two missing values are equal too). */
  predicate IsEcho(playingAs: Option<Side>, player: Option<string>) {
    match playingAs
    case None => player.None?
    case Some(me) => player == Some(me.Name())
  }

  /** The board after a `position` message: an echo of the local side is
      ignored; otherwise the named paddle takes the sender's y and the ball
      takes the sender's position. */
  function PositionAfter(playingAs: Option<Side>, m: PositionMessage, b: Board): (r: Board)
    ensures IsEcho(playingAs, m.player) ==> r == b
    ensures !IsEcho(playingAs, m.player) ==> r.ballX == m.ballX && r.ballY == m.ballY
    ensures playingAs.Some? ==> r.paddleY.Get(playingAs.value) == b.paddleY.Get(playingAs.value)
    ensures forall side :: r.paddleY.Get(side) != b.paddleY.Get(side) ==>
              m.player == Some(side.Name()) && r.paddleY.Get(side) == m.paddleY
    ensures forall side: Side :: !IsEcho(playingAs, m.player) && m.player == Some(side.Name()) ==>
              r.paddleY.Get(side) == m.paddleY
  {
    if IsEcho(playingAs, m.player) then b
    else
      var named := if m.player.Some? then SideNamed(m.player.value) else None;
      var paddles := if named.Some? then b.paddleY.With(named.value, m.paddleY) else b.paddleY;
      Board(paddles, m.ballX, m.ballY)
  }
}
