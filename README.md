# mvpong match bookkeeping, modelled in Dafny

mvpong is a two-player Pong client running in the browser on the Phaser
engine. Two clients join a room through a relay server. One of them is the
host, which owns the score. This project models the client's state object
(`mvpongState` in `scripts/mvpong.js`) and the handlers that change it:

- the host's score and round handler for a ball that leaves the board, with
  the match-end reset at 11 points;
- the one-way start of a match once the side across the net has an opponent;
- adding a robot opponent;
- the guest's handlers for `score` messages (filtered by room name) and
  `position` messages (echoes of the local side are ignored);
- the keyboard rule for a human paddle;
- the paddle segment hit by the ball and the outgoing angle it selects;
- the two score labels.

Layout:

- `Common.dfy`: sides, per-side records (`Pair`), `Option` for JavaScript's
  `undefined`, and the game options (`width` 800, `height` 600, `maxScore` 11).
- `NumberText.dfy`: the decimal text of a score, and a parser that reads it back.
- `Input.dfy`: the velocity a human paddle gets from its two keys.
- `Bounce.dfy`: the segment index, and the left and right bounce angles.
- `Scoring.dfy`: the host's tally, the match-end reset, and their composition.
- `Labels.dfy`: the score labels written by `updateScore`, and reading a score
  back from a label.
- `Session.dfy`: robot activation, the start condition, and position mirroring.
- `MvPong.dfy`: the class `PongState` with one method per handler. Each method
  ties the new state to the functions above.

The model abstracts these parts of the client:

- **Engine objects.** Sprites are reduced to the numbers the handlers read and
  write: the ball's x and y, each paddle's y and vertical velocity, and the two
  label texts. Positions are `real`s.
- **Serving and sending.** `launchBall` and the socket's `score` emit are
  recorded in ghost fields. `launches` counts serves and `sentScores` lists the
  score messages sent.
- **Page globals.** `window.currentRoom` is passed to the methods that read it.
- **The name sanitiser.** `filterXSS` is the uninterpreted function `sanitize`,
  fixed when the state object is built.
- **`undefined`.** A value that JavaScript may leave `undefined` is an `Option`:
  `playingAs`, a message's `player` and `roomname`, and the current room. That
  keeps `undefined === undefined` true, as it is in the source.
- **Truthiness.** `opponents[side]` is truthy when the side has a non-empty name
  (`Labels.HasOpponent`). An `opponents` object that was never set is the empty map.

Some of the code's behaviour is easy to misread; the model follows the code:

- `onAIDown` serves the ball but does not set `isStarted`. The match is not
  marked as started, and `checkStart` keeps checking for a human opponent.
  `MvPong.HostAddsRobot` walks through this case.
- Paddle sprites are anchored at their centre, so `ball.y - paddle.y` is
  measured from the paddle's middle. A ball inside the paddle hits segments
  -10 to 9 (`Bounce.Segment`), not 0 to 19. The right paddle's wrap-around
  branch is taken on every hit in the upper half (`Bounce.RightWraps`).
- The host sends the tallied score before the match-end reset. The last score
  message of a match therefore carries 11 points, and the host's own scores
  go back to 0 (`MvPong.PongState.BallOutside`). A guest resets its copy only
  when its own ball-outside handler runs.
- The `score` handler itself has no host check. It is registered in `create`
  when `isHost` is not yet true. Which clients get `score` messages depends on
  the relay server, which is not part of this model.

## Model

| member | source | states |
|---|---|---|
| `NumberText.ParseShow` | scripts/mvpong.js:387-388 | the text a score is rendered as reads back as exactly that score, for every integer |
| `Labels.LabelsShowScores` | scripts/mvpong.js:386-405 | whatever the opponent names, their sanitised form, the side and the robot flags, each label reads back (number after the last space) as that side's score |
| `Labels.LabelsUnassigned` | scripts/mvpong.js:387-404 | before a side is assigned, neither "You: " nor an opponent name appears: each label is its bare score, with "Robot: " in front of the left one when the left flag is set, else in front of the right one when the right flag is set |
| `Labels.LabelsExact` | scripts/mvpong.js:387-404 | once a side is assigned, each label is given whole: the local side is "You: " and its score; the other side is its score, preceded by the sanitised name and ": " when it has a name; "Robot: " is in front of the side the robot flags mark (left when its flag is set, else right) |
| `Input.HumanVelocity` | scripts/mvpong.js:247-253 | the velocity is -500, 0 or 500; it is negative exactly when up is held, positive exactly when only down is held, and 0 exactly when neither is held (up wins over down) |
| `Bounce.Segment` | scripts/mvpong.js:293-296 | the index k is the floor of the offset over 3 px: `paddleY + 3k <= ballY < paddleY + 3(k+1)`; a ball within the 60 px paddle around its centre gives -10 <= k < 10 |
| `Bounce.LeftAngle` | scripts/mvpong.js:298-300 | the left paddle's angle is the segment index in tenths of a radian |
| `Bounce.RightWraps` | scripts/mvpong.js:303-305 | the right paddle's test `pi - k/10 > pi` holds exactly when the index is negative |
| `Bounce.RightAngle` | scripts/mvpong.js:301-306 | the right paddle's angle mirrors the left one about the vertical: the two add up to pi, or to -pi after the wrap; for every index with -20 pi <= k < 20 pi it lies in (-pi, pi] |
| `Bounce.BounceAngle` | scripts/mvpong.js:291-307 | a paddle left of the centre line gets the left angle, any other the right angle; for a ball within the paddle the angle lies in (-pi, pi] |
| `Scoring.Tally` | scripts/mvpong.js:353-359 | scores never decrease; exactly one point is added on the host when the ball is at or past either edge, none otherwise and none on a guest; a right point needs x <= 0, a left point needs x >= width |
| `Scoring.Settle` | scripts/mvpong.js:368-379 | the scores either stay as they are or become 0-0, and they become 0-0 exactly when one of them equals 11 |
| `Scoring.ScoreAfterOut` | scripts/mvpong.js:352-384 | scores in [0, 11) stay in [0, 11); a guest's scores change only by the reset to 0-0, and not at all while both are below 11; on the host, for scores in [0, 11), x <= 0 adds one to the right score and x >= width one to the left score, with 0-0 instead when that point reaches 11; for scores in [0, 11), a ball strictly inside the board changes nothing (a score already at 11 is reset to 0-0 wherever the ball is) |
| `Session.AiAfterClick` | scripts/mvpong.js:118-123 | no flag is ever cleared; the local side's flag is unchanged; the flag of the side across the net is set; without a side nothing changes |
| `Session.PositionAfter` | scripts/mvpong.js:145-156 | an echo of the local side leaves the board unchanged; any other message moves the ball to the sent position; the local paddle is never moved; a paddle moves only when the message names its side, and then to the sent y |
| `MvPong.PongState.constructor` | scripts/mvpong.js:20-64 | the state object together with the set-up `create` does in `setUpGraphics` (mvpong.js:330-345), which places the sprites and creates the labels empty: a new client has not started, is not host, has no side, no robot and no opponents; scores are 0-0, labels empty, ball and paddles at their starting places, nothing served or sent |
| `MvPong.PongState.LaunchBall` | scripts/mvpong.js:207-208 | serving puts the ball in the centre of the board and counts one serve |
| `MvPong.PongState.UpdateScore` | scripts/mvpong.js:386-405 | both labels become the `Labels.ScoreLabels` of the current scores, side, names and flags |
| `MvPong.PongState.AcceptRoomInvite` | scripts/mvpong.js:93-99 | the client takes the role, the side and the opponent names it was given |
| `MvPong.PongState.OpponentJoined` | scripts/mvpong.js:99 | the opponents object the client keeps a reference to gains the player who joined on a side, and nothing else of the state changes |
| `MvPong.PongState.OnAIDown` | scripts/mvpong.js:118-128 | the flags become `AiAfterClick` of the old ones; the labels are rewritten; the ball is served once from the centre; a state whose robot was not on the local side keeps it off |
| `MvPong.PongState.LeftPaddleHandler` | scripts/mvpong.js:246-253 | a human left paddle gets `HumanVelocity` of its keys and the right paddle keeps its velocity |
| `MvPong.PongState.RightPaddleHandler` | scripts/mvpong.js:280-287 | a human right paddle gets `HumanVelocity` of its keys and the left paddle keeps its velocity |
| `MvPong.PongState.OnPositionMessage` | scripts/mvpong.js:144-157 | the paddles and the ball become `PositionAfter` of the message and the old board |
| `MvPong.PongState.OnScoreMessage` | scripts/mvpong.js:83-89 | a message for the current room sets both scores and rewrites the labels; a message for any other room changes neither the scores nor the labels |
| `MvPong.PongState.TallyPoint` | scripts/mvpong.js:353-366 | the scores become `Tally` of the old ones; the host sends the tallied scores once and rewrites the labels; a guest sends nothing and keeps its labels |
| `MvPong.PongState.SettleMatch` | scripts/mvpong.js:368-379 | the scores become `Settle` of the old ones; the labels are rewritten exactly when a reset happened |
| `MvPong.PongState.BallOutside` | scripts/mvpong.js:352-384 | the scores become `ScoreAfterOut`; the host sends one message with the scores before the match-end reset and serves once from the centre; a guest sends nothing, does not serve and keeps the ball where it is; labels are current whenever the host ran or the scores changed |
| `MvPong.PongState.CheckStart` | scripts/mvpong.js:408-422 | `isStarted` becomes true exactly when it was already true or this host has an opponent across the net; then the labels are rewritten and the ball is served once; otherwise nothing is served or relabelled, so a started match never serves again from here |

## Left out

- `MvPong.PongState.LeftPaddleHandler`: the robot ("dumb AI") branch is not modelled. With the left robot flag set, the model leaves the velocity unchanged. That branch relies on `setTimeout` callbacks that clear the page-wide `movingUp`/`movingDown` flags, so its behaviour depends on timer interleaving.
- `MvPong.PongState.RightPaddleHandler`: the same holds for the right paddle's robot branch.
- `MvPong.PongState.LaunchBall`: the random serve direction and the velocity vector it sets are not modelled. Only the reset to the centre and the serve count are.
- `Bounce.BounceAngle`: the velocity vector built from the angle, the hit sound and the screen-shake timer are not modelled. The angle is a real computed with a given `pi`, not a floating-point value.
- `MvPong.PongState.AcceptRoomInvite`: the room, waiting and robot-prompt texts and the `acceptedInvite` emit are not modelled. They are UI text and network output.
- `MvPong.PongState.OnAIDown` and `MvPong.PongState.CheckStart`: clearing the join prompt and the robot prompt is not modelled. It is UI text only.
- `MvPong.PongState.OpponentJoined`: the opponents object is shared by reference with the page's room code, which is not part of this model. The model copies it as a value at the invite, and `OpponentJoined` stands for each later update the page makes to it. Aliasing of that object, and any other change the page makes to it, is not captured.
- `MvPong.PongState.BallOutside`: the "left wins!" / "right wins!" alerts are not modelled.
- The per-tick `update` driver is not modelled: it calls the paddle handlers, the overlap check, `emitPosition`, and either `checkStart` or `updatePositions`. It also registers one more `position` listener on every guest tick. Each registered listener applies the same update.
- `emitPosition` is not modelled: it is network output with no effect on the state.
- `preload`, `setUpGraphics` (including the divider-line loop), `setUpPhysics` and `setUpKeys` are not modelled. They are engine set-up with no behaviour of their own.
- Type confusion in messages is not modelled. Message fields are assumed to be numbers and strings of the expected kinds, and opponent names to be strings.
- Scores are unbounded integers and positions are exact reals, with no floating-point rounding. Every reachable score is a small integer, and the comparisons involved are exact there.
