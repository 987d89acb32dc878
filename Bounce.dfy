/** Collision response when the ball overlaps a paddle. The paddle is cut
    into 20 segments of 3 px; the segment the ball hits decides the outgoing
    angle, in tenths of a radian from the horizontal for the left paddle and
    mirrored about the vertical for the right one. Paddle and ball positions
    are the centres of their sprites. */
module Bounce {
  import opened Common

  /** Height of one paddle segment. */
  const SegmentHeight: real := PaddleHeight / PaddleParts as real

  /** Index of the segment, counted from the paddle's y, that holds the ball's y. */
  function Segment(ballY: real, paddleY: real): (k: int)
    ensures paddleY + 3.0 * k as real <= ballY < paddleY + 3.0 * (k + 1) as real
    ensures -PaddleHeight / 2.0 <= ballY - paddleY < PaddleHeight / 2.0 ==> -10 <= k < 10
  {
    ((ballY - paddleY) / SegmentHeight).Floor
  }

  /** Outgoing angle, in radians, after a hit on the left paddle in segment `k`. */
  function LeftAngle(k: int): (r: real)
    ensures 10.0 * r == k as real
  {
    k as real * 0.1
  }

  /** Whether the right paddle's angle `pi - k/10` exceeds `pi` and is wrapped. */
  predicate RightWraps(k: int, pi: real)
    ensures RightWraps(k, pi) <==> k < 0
  {
    pi - k as real * 0.1 > pi
  }

  /** Outgoing angle, in radians, after a hit on the right paddle in segment `k`. */
  function RightAngle(k: int, pi: real): (r: real)
    requires pi > 0.0
    ensures r + LeftAngle(k) == if k < 0 then -pi else pi
    ensures -20.0 * pi <= k as real < 20.0 * pi ==> -pi < r <= pi
  {
    var a := pi - k as real * 0.1;
    if a > pi then a - 2.0 * pi else a
  }

  /** The angle `paddleOverlapHandler` turns the ball to: which paddle was hit
      is told by its x being left of the centre line. `pi` is `Math.PI`. */
  function BounceAngle(paddleX: real, paddleY: real, ballY: real, pi: real): (r: real)
    requires 3.1415 < pi < 3.1416
    ensures paddleX < Width / 2.0 ==> r == LeftAngle(Segment(ballY, paddleY))
    ensures paddleX >= Width / 2.0 ==> r == RightAngle(Segment(ballY, paddleY), pi)
    ensures -PaddleHeight / 2.0 <= ballY - paddleY < PaddleHeight / 2.0 ==> -pi < r <= pi
  {
    var k := Segment(ballY, paddleY);
    if paddleX < Width / 2.0 then LeftAngle(k) else RightAngle(k, pi)
  }
}
