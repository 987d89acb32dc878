/** The input rule for a human-controlled paddle: the state of its two keys
    decides its vertical velocity for this tick. */
module Input {
  import opened Common

  /** Velocity of a human paddle whose up key is `up` and down key is `down`
      (screen y grows downwards, so moving up is negative). Up wins over down. */
  function HumanVelocity(up: bool, down: bool): (v: int)
    ensures v == -PaddleSpeed || v == 0 || v == PaddleSpeed
    ensures v < 0 <==> up
    ensures v > 0 <==> !up && down
    ensures v == 0 <==> !up && !down
  {
    if up then -PaddleSpeed else if down then PaddleSpeed else 0
  }
}
