/** Shared vocabulary of the Pong client: the two sides of the board, the
    per-side records the client keeps (`{left: …, right: …}` objects), an
    Option for JavaScript's `undefined`, and the game's fixed options. */
module Common {

  /** `Some(v)` for a defined value, `None` for JavaScript's `undefined`. */
  datatype Option<+T> = None | Some(value: T)

  /** The side a paddle, a score or a player belongs to. */
  datatype Side = Left | Right {
    /** The side across the net. */
    function Other(): (s: Side)
      ensures s != this
    {
      if this == Left then Right else Left
    }

    /** The property name the client uses for this side. */
    function Name(): (n: string)
      ensures n == "left" || n == "right"
      ensures (n == "left") == (this == Left)
    {
      if this == Left then "left" else "right"
    }
  }

  /** A `{left: …, right: …}` record with one value per side. */
  datatype Pair<T> = Pair(left: T, right: T) {
    function Get(s: Side): T {
      if s == Left then left else right
    }

    /** This record with the entry for side `s` replaced by `v`. */
    function With(s: Side, v: T): (p: Pair<T>)
      ensures p.Get(s) == v && p.Get(s.Other()) == Get(s.Other())
    {
      if s == Left then Pair(v, right) else Pair(left, v)
    }
  }

  /** The side whose property name is `name`, if it names one. */
  function SideNamed(name: string): (s: Option<Side>)
    ensures s.Some? ==> s.value.Name() == name
    ensures s.None? ==> name != "left" && name != "right"
  {
    if name == "left" then Some(Left)
    else if name == "right" then Some(Right)
    else None
  }

  // The game's options object.
  const Width: real := 800.0
  const Height: real := 600.0
  const MaxScore: int := 11
  /** Vertical speed of a moving paddle. */
  const PaddleSpeed: int := 500
  /** Height the bounce rule assumes for a paddle sprite. */
  const PaddleHeight: real := 60.0
  /** Number of equal segments the bounce rule cuts a paddle into. */
  const PaddleParts: int := 20
}
