/** The host's score authority: what an out-of-bounds ball does to the
    `{left, right}` score record, and the match-end reset that every client
    applies when a score reaches the maximum. */
module Scoring {
  import opened Common

  type Score = Pair<int>

  const Zero: Score := Pair(0, 0)

  /** Both scores are those of a match still being played. */
  predicate InPlay(s: Score) {
    0 <= s.left < MaxScore && 0 <= s.right < MaxScore
  }

  /** The host's point for a ball that left the board at `ballX`: crossing the
      left edge scores for the right side, crossing the right edge for the
      left side. A guest never counts points. */
  function Tally(isHost: bool, ballX: real, s: Score): (r: Score)
    ensures r.left >= s.left && r.right >= s.right
    ensures (r.left - s.left) + (r.right - s.right) ==
              if isHost && (ballX <= 0.0 || ballX >= Width) then 1 else 0
    ensures r.right > s.right ==> ballX <= 0.0
    ensures r.left > s.left ==> ballX >= Width
  {
    var afterLeftEdge := if isHost && ballX <= 0.0 then s.With(Right, s.right + 1) else s;
    if isHost && ballX >= Width then afterLeftEdge.With(Left, afterLeftEdge.left + 1) else afterLeftEdge
  }

  /** The match-end check: once either score is the maximum, both go back to 0. */
  function Settle(s: Score): (r: Score)
    ensures r == s || r == Zero
    ensures (s.left == MaxScore || s.right == MaxScore) <==> (r == Zero && r != s)
  {
    var afterLeftWin := if s.left == MaxScore then Zero else s;
    if afterLeftWin.right == MaxScore then Zero else afterLeftWin
  }

  /** Scores after `ballOutsideHandler`: the host's tally, then the match-end check. */
  function ScoreAfterOut(isHost: bool, ballX: real, s: Score): (r: Score)
    ensures InPlay(s) ==> InPlay(r)
    ensures !isHost ==> r == s || r == Zero
    ensures !isHost && InPlay(s) ==> r == s
    ensures isHost && InPlay(s) && ballX <= 0.0 ==>
              r == if s.right + 1 == MaxScore then Zero else Pair(s.left, s.right + 1)
    ensures isHost && InPlay(s) && ballX >= Width ==>
              r == if s.left + 1 == MaxScore then Zero else Pair(s.left + 1, s.right)
    ensures 0.0 < ballX < Width && InPlay(s) ==> r == s
  {
    Settle(Tally(isHost, ballX, s))
  }
}
