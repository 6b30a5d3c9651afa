/** The three per-axis boundary rules of the background animations
    (app.js, BackgroundEffectsController). Each works on one coordinate;
    an entity applies it to x against the canvas width and to y against
    the canvas height. */
module Motion {

  /** Wrap with no margin (hero particles, sparkles): a coordinate below 0
      is moved to `dim`, then one above `dim` is moved to 0. */
  function WrapEdge(c: real, dim: real): (r: real)
    ensures dim >= 0.0 ==> 0.0 <= r <= dim
    ensures 0.0 <= c <= dim ==> r == c
    ensures c < 0.0 ==> r == dim
    ensures c > dim && dim >= 0.0 ==> r == 0.0
  {
    var c1 := if c < 0.0 then dim else c;
    if c1 > dim then 0.0 else c1
  }

  /** Wrap with a margin (books, code blocks, molecules, equations, trophies,
      medals): below `-m` the coordinate moves to `dim + m`, then above
      `dim + m` it moves to `-m`. */
  function WrapMargin(c: real, dim: real, m: real): (r: real)
    ensures -m <= dim + m ==> -m <= r <= dim + m
    ensures -m <= c <= dim + m ==> r == c
    ensures c < -m ==> r == dim + m
    ensures c > dim + m && -m <= dim + m ==> r == -m
  {
    var c1 := if c < -m then dim + m else c;
    if c1 > dim + m then -m else c1
  }

  /** Position and velocity along one axis. */
  datatype Axis = Axis(pos: real, vel: real)

  /** Bounce (experience and contact nodes): the velocity is added to the
      position, then negated when the new position is outside [0, dim].
      The position itself is never clamped. */
  function Bounce(a: Axis, dim: real): (r: Axis)
    ensures r.pos == a.pos + a.vel
    ensures 0.0 <= r.pos <= dim ==> r.vel == a.vel
    ensures !(0.0 <= r.pos <= dim) ==> r.vel == -a.vel
  {
    var p := a.pos + a.vel;
    Axis(p, if p < 0.0 || p > dim then -a.vel else a.vel)
  }

  function Abs(x: real): real { if x < 0.0 then -x else x }

  /** What a bounce step keeps true when the canvas does not change: either
      the node is inside, or it is outside and one step of its current
      velocity brings it straight back inside. */
  ghost predicate NearInside(a: Axis, dim: real)
  {
    || 0.0 <= a.pos <= dim
    || (a.pos < 0.0 && a.vel > 0.0 && 0.0 <= a.pos + a.vel <= dim)
    || (a.pos > dim && a.vel < 0.0 && 0.0 <= a.pos + a.vel <= dim)
  }

  /** One bounce step preserves NearInside, and a node in that state is at
      most one velocity step outside [0, dim]. */
  lemma BouncePreservesNearInside(a: Axis, dim: real)
    requires NearInside(a, dim)
    ensures NearInside(Bounce(a, dim), dim)
    ensures -Abs(a.vel) <= a.pos <= dim + Abs(a.vel)
  {
  }

  /** `n` consecutive bounce steps against a fixed dimension. */
  function BounceSteps(a: Axis, dim: real, n: nat): Axis
    decreases n
  {
    if n == 0 then a else BounceSteps(Bounce(a, dim), dim, n - 1)
  }

  /** A node that starts inside the canvas is, after any number of frames,
      never more than one step (|vel|, which bounces never change) outside
      it: the bounce rule does not keep nodes within [0, dim]. */
  lemma {:induction false} BounceStaysNear(a: Axis, dim: real, n: nat)
    requires NearInside(a, dim)
    ensures Abs(BounceSteps(a, dim, n).vel) == Abs(a.vel)
    ensures NearInside(BounceSteps(a, dim, n), dim)
    ensures -Abs(a.vel) <= BounceSteps(a, dim, n).pos <= dim + Abs(a.vel)
    decreases n
  {
    BouncePreservesNearInside(a, dim);
    if n > 0 {
      BounceStaysNear(Bounce(a, dim), dim, n - 1);
    }
  }

  /** A node left beyond the edge by a canvas that shrank, with a speed too
      small to reach back in one step, never comes back: every two frames
      it returns to the same outside position. */
  lemma {:induction false} StrandedNodeOscillates(a: Axis, dim: real, n: nat)
    requires a.pos > dim + Abs(a.vel)
    ensures BounceSteps(a, dim, 2 * n) == a
    ensures BounceSteps(a, dim, 2 * n + 1).pos > dim
    decreases n
  {
    if n > 0 {
      var b := Bounce(Bounce(a, dim), dim);
      assert b == a;
      assert BounceSteps(a, dim, 2 * n) == BounceSteps(b, dim, 2 * (n - 1));
      StrandedNodeOscillates(a, dim, n - 1);
    }
  }
}
