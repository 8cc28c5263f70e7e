/** The enemy's eight walking animations and the rule that picks the one
    to show from the sketch flag and the velocity. */
module EnemyAnimation {
  import opened Geometry

  /** Which way an animation faces. */
  datatype Facing = FaceUp | FaceDown | FaceLeft | FaceRight

  /** The eight Animation members of Enemy: four facings, each in the
      normal skin and in the "sketch" skin flashed after a hit. */
  datatype Anim =
    | Up | Down | Left | Right
    | UpSketch | DownSketch | LeftSketch | RightSketch
  {
    function Facing(): Facing
    {
      match this
      case Up | UpSketch => FaceUp
      case Down | DownSketch => FaceDown
      case Left | LeftSketch => FaceLeft
      case Right | RightSketch => FaceRight
    }

    predicate IsSketch()
    {
      UpSketch? || DownSketch? || LeftSketch? || RightSketch?
    }
  }

  /** The animation of facing `f` in the skin `sketch` selects. */
  function AnimFor(f: Facing, sketch: bool): (a: Anim)
    ensures a.Facing() == f && a.IsSketch() == sketch
  {
    match f
    case FaceUp => if sketch then UpSketch else Up
    case FaceDown => if sketch then DownSketch else Down
    case FaceLeft => if sketch then LeftSketch else Left
    case FaceRight => if sketch then RightSketch else Right
  }

  /** An animation is determined by its facing and its skin: `AnimFor` and
      the pair (`Facing`, `IsSketch`) are inverse to each other. */
  lemma AnimForRoundTrip(a: Anim)
    ensures AnimFor(a.Facing(), a.IsSketch()) == a
  {
  }

  /** The animation on_update makes current for velocity (vx, vy). The
      horizontal pair wins ties; a non-positive component selects left or
      up, so a standing enemy faces left. */
  function SelectAnim(sketch: bool, vx: real, vy: real): (a: Anim)
    ensures a.IsSketch() == sketch
    ensures a.Facing() == FaceRight <==> Abs(vx) >= Abs(vy) && vx > 0.0
    ensures a.Facing() == FaceLeft <==> Abs(vx) >= Abs(vy) && vx <= 0.0
    ensures a.Facing() == FaceDown <==> Abs(vx) < Abs(vy) && vy > 0.0
    ensures a.Facing() == FaceUp <==> Abs(vx) < Abs(vy) && vy <= 0.0
  {
    var isShowXAnim := Abs(vx) >= Abs(vy);
    if sketch then
      if isShowXAnim then (if vx > 0.0 then RightSketch else LeftSketch)
      else (if vy > 0.0 then DownSketch else UpSketch)
    else
      if isShowXAnim then (if vx > 0.0 then Right else Left)
      else (if vy > 0.0 then Down else Up)
  }

  /** A texture handle of the shared resource pool. */
  type TextureId = nat

  /** What set_loop, set_interval and set_frame_data configure on one
      Animation: looping, seconds per frame, the sprite sheet with its
      column and row counts, and the sheet cells played in order. */
  datatype AnimSetup = AnimSetup(loop: bool, interval: real, texture: TextureId,
                                 columns: int, rows: int, frames: seq<int>)
}
