/** Plane geometry used by the enemy: the game's two-component vector of
    reals, integer screen points and rectangles, the C++ `(int)` cast, and the
    mapping from a tile-grid cell to the pixel centre of that tile. */
module Geometry {

  /** Vector2: a point or a displacement, in pixels. */
  datatype Vec2 = Vec2(x: real, y: real) {
    function Plus(v: Vec2): Vec2 { Vec2(x + v.x, y + v.y) }
    function Minus(v: Vec2): Vec2 { Vec2(x - v.x, y - v.y) }
    function Times(k: real): Vec2 { Vec2(x * k, y * k) }
  }

  /** What a default-constructed Vector2 holds. */
  const Origin := Vec2(0.0, 0.0)

  /** Squared Euclidean length; compares magnitudes without a square root. */
  function Len2(v: Vec2): (l: real)
    ensures l >= 0.0
  {
    v.x * v.x + v.y * v.y
  }

  /** `a < b` on Vector2: `a` ranks below `b` when its magnitude is smaller. */
  predicate Shorter(a: Vec2, b: Vec2)
  {
    Len2(a) < Len2(b)
  }

  /** `abs` on a double. */
  function Abs(r: real): (a: real)
    ensures a >= 0.0
    ensures a == r || a == -r
  {
    if r < 0.0 then -r else r
  }

  /** The C++ cast `(int)r`: truncation toward zero. */
  function Trunc(r: real): (n: int)
    ensures r >= 0.0 ==> 0 <= n && n as real <= r < n as real + 1.0
    ensures r < 0.0 ==> n <= 0 && n as real - 1.0 < r <= n as real
  {
    if r >= 0.0 then r.Floor else -((-r).Floor)
  }

  /** SDL_Point: a tile-grid cell in a route, or a pixel on the screen. */
  datatype Point = Point(x: int, y: int)

  /** SDL_Rect. */
  datatype Rect = Rect(x: int, y: int, w: int, h: int)

  /** The tile edge in pixels (SIZE_TILE), a positive constant of the game. */
  type TileSize = n: int | n > 0 witness 48

  /** Where the tile grid sits on the screen (the corner of rect_tile_map)
      and how large its tiles are. */
  datatype TileMap = TileMap(originX: int, originY: int, tileSize: TileSize)

  /** The pixel centre of the tile at grid cell `p`: the grid origin plus
      `p * SIZE_TILE` plus half a tile, computed in integers and then
      widened to double. */
  function TileCenter(grid: TileMap, p: Point): Vec2
  {
    var s := grid.tileSize;
    Vec2((grid.originX + p.x * s + s / 2) as real,
         (grid.originY + p.y * s + s / 2) as real)
  }

  /** The pixel `c` lies on the tile of cell `p` (left and top edges
      included, right and bottom edges excluded). */
  predicate InTile(grid: TileMap, p: Point, c: Vec2)
  {
    var s := grid.tileSize;
    && (grid.originX + p.x * s) as real <= c.x < (grid.originX + p.x * s + s) as real
    && (grid.originY + p.y * s) as real <= c.y < (grid.originY + p.y * s + s) as real
  }

  /** A cell's centre lies on that cell's tile. */
  lemma TileCenterInTile(grid: TileMap, p: Point)
    ensures InTile(grid, p, TileCenter(grid, p))
  {
  }

  /** Distinct cells have distinct tile centres, so a waypoint's pixel target
      identifies the waypoint. */
  lemma TileCenterInjective(grid: TileMap, p: Point, q: Point)
    requires TileCenter(grid, p) == TileCenter(grid, q)
    ensures p == q
  {
  }
}
