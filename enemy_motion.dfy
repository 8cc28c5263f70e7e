/** The kinematic half of Enemy::on_update as pure functions: how one frame
    moves the enemy toward its waypoint, switches waypoints on arrival and
    rebuilds the velocity, and what a run of frames does. The class
    `Enemies.Enemy` is proved to follow `Advance` frame by frame. */
module EnemyMotion {
  import opened Geometry

  /** The three Vector2 operations whose definitions are not part of this
      model: the "approximately zero" test used for arrival, normalisation
      of the heading, and the `<` that compares two vectors. */
  datatype VectorOps = VectorOps(approxZero: Vec2 -> bool, normalize: Vec2 -> Vec2,
                                 shorter: (Vec2, Vec2) -> bool)

  /** The vector `<` ranks vectors by their length. */
  ghost predicate RanksByLength(ops: VectorOps)
  {
    forall a: Vec2, b: Vec2 :: ops.shorter(a, b) == Shorter(a, b)
  }

  /** The enemy's kinematic state: position, velocity, heading, the pixel
      target it walks to and the index of that waypoint in the route. */
  datatype Motion = Motion(position: Vec2, velocity: Vec2, direction: Vec2,
                           target: Vec2, idxTarget: nat)

  /** One frame's displacement: `velocity * delta` or the whole remaining
      distance to the target, whichever is shorter. */
  function Stride(ops: VectorOps, position: Vec2, velocity: Vec2, target: Vec2, delta: real): (d: Vec2)
    ensures ops.shorter(velocity.Times(delta), target.Minus(position)) ==> d == velocity.Times(delta)
    ensures !ops.shorter(velocity.Times(delta), target.Minus(position)) ==> d == target.Minus(position)
  {
    var moveDistance := velocity.Times(delta);
    var targetDistance := target.Minus(position);
    if ops.shorter(moveDistance, targetDistance) then moveDistance else targetDistance
  }

  /** The stride is one of the two candidates, and no longer than either:
      the enemy never passes its target and never outruns its velocity. */
  lemma StrideShortest(ops: VectorOps, position: Vec2, velocity: Vec2, target: Vec2, delta: real)
    requires RanksByLength(ops)
    ensures var d := Stride(ops, position, velocity, target, delta);
      && (d == velocity.Times(delta) || d == target.Minus(position))
      && Len2(d) <= Len2(target.Minus(position))
      && Len2(d) <= Len2(velocity.Times(delta))
  {
  }

  /** The pixel velocity for a heading and a speed in tiles per second. */
  function VelocityFor(direction: Vec2, speed: real, tileSize: TileSize): (v: Vec2)
    ensures v == direction.Times(speed * tileSize as real)
  {
    Vec2(direction.x * speed * tileSize as real, direction.y * speed * tileSize as real)
  }

  /** The waypoint is reached when the distance still to go, measured
      before this frame's move, is approximately zero. */
  predicate Arrived(m: Motion, ops: VectorOps)
  {
    ops.approxZero(m.target.Minus(m.position))
  }

  /** The pixel target after switching to waypoint `idx`: the centre of
      that cell when the route has it, the old target otherwise. */
  function RefreshedTarget(grid: TileMap, route: seq<Point>, idx: nat, old_target: Vec2): Vec2
  {
    if idx < |route| then TileCenter(grid, route[idx]) else old_target
  }

  /** One frame of movement at speed `speed` (tiles per second) over
      `delta` seconds. */
  function Advance(m: Motion, ops: VectorOps, grid: TileMap, route: seq<Point>,
                   speed: real, delta: real): (r: Motion)
    // the waypoint index advances by one exactly on arrival
    ensures r.idxTarget == if Arrived(m, ops) then m.idxTarget + 1 else m.idxTarget
    // target and heading change only on arrival
    ensures !Arrived(m, ops) ==> r.target == m.target && r.direction == m.direction
    ensures Arrived(m, ops) && r.idxTarget < |route| ==> r.target == TileCenter(grid, route[r.idxTarget])
    ensures Arrived(m, ops) && r.idxTarget >= |route| ==> r.target == m.target
    ensures Arrived(m, ops) ==> r.direction == ops.normalize(r.target.Minus(r.position))
    // the velocity is rebuilt from the heading every frame
    ensures r.velocity == VelocityFor(r.direction, speed, grid.tileSize)
  {
    var position := m.position.Plus(Stride(ops, m.position, m.velocity, m.target, delta));
    var arrived := Arrived(m, ops);
    var idx := if arrived then m.idxTarget + 1 else m.idxTarget;
    var target := if arrived then RefreshedTarget(grid, route, idx, m.target) else m.target;
    var direction := if arrived then ops.normalize(target.Minus(position)) else m.direction;
    Motion(position, VelocityFor(direction, speed, grid.tileSize), direction, target, idx)
  }

  /** One frame moves the enemy by one of the two candidates, and by no
      more than either: it stops on the target rather than passing it. */
  lemma AdvanceNoOvershoot(m: Motion, ops: VectorOps, grid: TileMap, route: seq<Point>,
                           speed: real, delta: real)
    requires RanksByLength(ops)
    ensures var r := Advance(m, ops, grid, route, speed, delta);
      && (r.position == m.position.Plus(m.velocity.Times(delta))
          || r.position == m.position.Plus(m.target.Minus(m.position)))
      && Len2(r.position.Minus(m.position)) <= Len2(m.target.Minus(m.position))
      && Len2(r.position.Minus(m.position)) <= Len2(m.velocity.Times(delta))
      && (Len2(m.target.Minus(m.position)) <= Len2(m.velocity.Times(delta)) ==> r.position == m.target)
  {
  }

  /** What one call of on_update is given: the frame time and the speed in
      force once the timers have run. */
  datatype Frame = Frame(delta: real, speed: real)

  /** The motion after the frames `frames`, in order. */
  function Run(m: Motion, ops: VectorOps, grid: TileMap, route: seq<Point>,
               frames: seq<Frame>): (r: Motion)
    ensures m.idxTarget <= r.idxTarget <= m.idxTarget + |frames|
    decreases |frames|
  {
    if frames == [] then m
    else
      var last := frames[|frames| - 1];
      Advance(Run(m, ops, grid, route, frames[..|frames| - 1]), ops, grid, route, last.speed, last.delta)
  }

  /** Running one more frame is one more `Advance`. */
  lemma RunSnoc(m: Motion, ops: VectorOps, grid: TileMap, route: seq<Point>,
                frames: seq<Frame>, f: Frame)
    ensures Run(m, ops, grid, route, frames + [f])
         == Advance(Run(m, ops, grid, route, frames), ops, grid, route, f.speed, f.delta)
  {
  }

  /** The pixel target is the centre of the waypoint the index names,
      as long as the index is inside the route. */
  ghost predicate TracksRoute(m: Motion, grid: TileMap, route: seq<Point>)
  {
    m.idxTarget < |route| ==> m.target == TileCenter(grid, route[m.idxTarget])
  }

  /** Every frame keeps the target on the waypoint the index names. */
  lemma {:induction false} RunTracksRoute(m: Motion, ops: VectorOps, grid: TileMap,
                                          route: seq<Point>, frames: seq<Frame>)
    requires TracksRoute(m, grid, route)
    ensures TracksRoute(Run(m, ops, grid, route, frames), grid, route)
    decreases |frames|
  {
    if frames != [] {
      RunTracksRoute(m, ops, grid, route, frames[..|frames| - 1]);
    }
  }

  /** Once the index has run past the route, the target is frozen: no
      later frame moves it, so the enemy stays on its last waypoint. */
  lemma {:induction false} RunFrozenPastRoute(m: Motion, ops: VectorOps, grid: TileMap,
                                              route: seq<Point>, frames: seq<Frame>)
    requires m.idxTarget >= |route|
    ensures Run(m, ops, grid, route, frames).target == m.target
    decreases |frames|
  {
    if frames != [] {
      RunFrozenPastRoute(m, ops, grid, route, frames[..|frames| - 1]);
    }
  }

  /** The index counts arrivals: it grows by one per frame whose pre-move
      distance was approximately zero, so it equals the start index plus the
      number of such frames. */
  function Arrivals(m: Motion, ops: VectorOps, grid: TileMap, route: seq<Point>,
                    frames: seq<Frame>): nat
    decreases |frames|
  {
    if frames == [] then 0
    else
      var before := Run(m, ops, grid, route, frames[..|frames| - 1]);
      Arrivals(m, ops, grid, route, frames[..|frames| - 1]) + (if Arrived(before, ops) then 1 else 0)
  }

  lemma {:induction false} RunCountsArrivals(m: Motion, ops: VectorOps, grid: TileMap,
                                             route: seq<Point>, frames: seq<Frame>)
    ensures Run(m, ops, grid, route, frames).idxTarget == m.idxTarget + Arrivals(m, ops, grid, route, frames)
    decreases |frames|
  {
    if frames != [] {
      RunCountsArrivals(m, ops, grid, route, frames[..|frames| - 1]);
    }
  }
}
