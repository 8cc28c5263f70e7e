/** A walk to a single waypoint, frame by frame: ten frames of ten pixels
    bring the enemy exactly onto the waypoint's centre, and the waypoint
    index only moves on the frame after, because arrival is judged on the
    distance left before that frame's move. */
module Scenarios {
  import opened Geometry
  import opened EnemyMotion

  /** A 40-pixel grid whose cell (2, 0) is centred on the pixel (100, 0). */
  const Grid := TileMap(0, -20, 40)
  const Route := [Point(2, 0)]
  const Goal := Vec2(100.0, 0.0)

  /** Heading right at 10 pixels per second, aiming at the first waypoint,
      from the point `x` pixels right of the origin. */
  function At(x: real): Motion
  {
    Motion(Vec2(x, 0.0), Vec2(10.0, 0.0), Vec2(1.0, 0.0), Goal, 0)
  }

  /** One frame of one second at a quarter tile per second. */
  const Tick := Frame(1.0, 0.25)

  /** `k` such frames. */
  function Ticks(k: nat): seq<Frame>
  {
    seq(k, _ => Tick)
  }

  /** The "approximately zero" test accepts vectors shorter than a pixel. */
  ghost predicate SubPixelTolerance(ops: VectorOps)
  {
    forall v: Vec2 :: ops.approxZero(v) == (Len2(v) < 1.0)
  }

  /** Ten pixels or more to go: not yet at the waypoint, and a full
      ten-pixel stride is taken. */
  lemma FarFromGoal(ops: VectorOps, x: real)
    requires RanksByLength(ops) && SubPixelTolerance(ops)
    requires x <= 90.0
    ensures !Arrived(At(x), ops)
    ensures Stride(ops, At(x).position, At(x).velocity, Goal, Tick.delta) == Vec2(10.0, 0.0)
  {
    var d := 100.0 - x;
    var left := Vec2(d, 0.0);
    var move := Vec2(10.0, 0.0);
    assert Goal.Minus(At(x).position) == left;
    assert At(x).velocity.Times(1.0) == move;
    SquareAtLeast(d);
    assert Len2(left) == d * d;
    assert Len2(move) == 100.0;
  }

  /** Squaring a number of at least ten multiplies it by at least ten. */
  lemma SquareAtLeast(d: real)
    requires d >= 10.0
    ensures d * d >= 10.0 * d
  {
  }

  /** Short of the last ten pixels, a frame moves the enemy ten pixels on. */
  lemma StepToward(ops: VectorOps, x: real)
    requires RanksByLength(ops) && SubPixelTolerance(ops)
    requires x <= 90.0
    ensures Advance(At(x), ops, Grid, Route, Tick.speed, Tick.delta) == At(x + 10.0)
  {
    FarFromGoal(ops, x);
    assert VelocityFor(At(x).direction, Tick.speed, Grid.tileSize) == At(x).velocity;
  }

  /** After `k` frames of the walk, `k` at most ten, the enemy has moved
      `10 * k` pixels and still aims at the first waypoint. */
  lemma {:induction false} WalkSoFar(ops: VectorOps, k: nat)
    requires RanksByLength(ops) && SubPixelTolerance(ops)
    requires k <= 10
    ensures Run(At(0.0), ops, Grid, Route, Ticks(k)) == At(10.0 * k as real)
  {
    if k > 0 {
      assert Ticks(k) == Ticks(k - 1) + [Tick];
      WalkSoFar(ops, k - 1);
      RunSnoc(At(0.0), ops, Grid, Route, Ticks(k - 1), Tick);
      StepToward(ops, 10.0 * (k - 1) as real);
    }
  }

  /** Ten frames put the enemy exactly on the waypoint's centre, without
      passing it, while the index still names that waypoint; the eleventh
      frame finds the distance approximately zero, keeps the enemy where it
      is and moves the index past the one-waypoint route, leaving the target
      where it was. */
  lemma ArrivalOnEleventhFrame(ops: VectorOps)
    requires RanksByLength(ops) && SubPixelTolerance(ops)
    ensures Goal == TileCenter(Grid, Route[0])
    ensures Run(At(0.0), ops, Grid, Route, Ticks(10)).position == Goal
    ensures Run(At(0.0), ops, Grid, Route, Ticks(10)).idxTarget == 0
    ensures Run(At(0.0), ops, Grid, Route, Ticks(11)).position == Goal
    ensures Run(At(0.0), ops, Grid, Route, Ticks(11)).idxTarget == 1
    ensures Run(At(0.0), ops, Grid, Route, Ticks(11)).target == Goal
  {
    WalkSoFar(ops, 10);
    assert Ticks(11) == Ticks(10) + [Tick];
    RunSnoc(At(0.0), ops, Grid, Route, Ticks(10), Tick);
    var m := At(100.0);
    assert Goal.Minus(m.position) == Origin;
    assert Arrived(m, ops);
    assert !Shorter(m.velocity.Times(1.0), Origin);
    assert Stride(ops, m.position, m.velocity, m.target, 1.0) == Origin;
  }
}
