/** The goblin priest: an Enemy configured from the priest's stat template,
    with its sprite sheets cut into four walking directions and its skill
    timer set to the template's recovery interval. */
module GoblinPriest {
  import opened EnemyAnimation

  /** The numbers a template record of the configuration holds for one
      kind of enemy. */
  datatype EnemyTemplate = EnemyTemplate(hp: real, speed: real, damage: real, rewardRatio: real,
                                         recoverInterval: real, recoverRange: real,
                                         recoverIntensity: real)

  /** The priest's sprite sheet: 5 columns by 4 rows, one row per direction. */
  const SheetColumns := 5
  const SheetRows := 4

  /** Seconds each walking frame is shown. */
  const FrameInterval := 0.15

  /** The sheet cells of each direction's walk cycle. */
  const IdxListUp: seq<int> := [5, 6, 7, 8, 9]
  const IdxListDown: seq<int> := [0, 1, 2, 3, 4]
  const IdxListLeft: seq<int> := [15, 16, 17, 18, 19]
  const IdxListRight: seq<int> := [10, 11, 12, 13, 14]

  /** The walk cycle of facing `f`: five cells, all on the sheet. */
  function IdxList(f: Facing): (l: seq<int>)
    ensures |l| == SheetColumns
    ensures forall i :: 0 <= i < |l| ==> 0 <= l[i] < SheetColumns * SheetRows
  {
    match f
    case FaceUp => IdxListUp
    case FaceDown => IdxListDown
    case FaceLeft => IdxListLeft
    case FaceRight => IdxListRight
  }

  /** The cells a direction uses, as a set. */
  function Cells(f: Facing): set<int>
  {
    set i | i in IdxList(f)
  }

  /** The cells of the sheet in reading order, 0 to 19. */
  function SheetCells(): seq<int>
  {
    seq(SheetColumns * SheetRows, k => k)
  }

  /** The four walk cycles cut the 20-cell sheet into its rows: read in
      row order they list every cell exactly once, so no cell is shared by
      two directions and together they use the whole sheet. */
  lemma {:induction false} IdxListsPartitionSheet()
    ensures IdxList(FaceDown) + IdxList(FaceUp) + IdxList(FaceRight) + IdxList(FaceLeft) == SheetCells()
    ensures forall f: Facing, g: Facing :: f != g ==> Cells(f) !! Cells(g)
    ensures Cells(FaceUp) + Cells(FaceDown) + Cells(FaceLeft) + Cells(FaceRight) == set k | k in SheetCells()
  {
    RowCells(FaceUp);
    RowCells(FaceDown);
    RowCells(FaceLeft);
    RowCells(FaceRight);
    forall f: Facing, g: Facing | f != g ensures Cells(f) !! Cells(g) {
      RowCells(f);
      RowCells(g);
    }
    forall k | k in SheetCells()
      ensures k in Cells(FaceUp) + Cells(FaceDown) + Cells(FaceLeft) + Cells(FaceRight)
    {
      var f := if k < 5 then FaceDown else if k < 10 then FaceUp else if k < 15 then FaceRight else FaceLeft;
      assert k in Cells(f);
    }
  }

  /** The sheet row a direction's cycle occupies. */
  function Row(f: Facing): int
  {
    match f
    case FaceDown => 0
    case FaceUp => 1
    case FaceRight => 2
    case FaceLeft => 3
  }

  /** A direction's cycle is its sheet row, cell by cell. */
  lemma RowCells(f: Facing)
    ensures IdxList(f) == seq(5, i => 5 * Row(f) + i)
    ensures forall k :: k in Cells(f) <==> 5 * Row(f) <= k < 5 * Row(f) + 5
  {
  }

  /** How the priest configures the animation `a`: a looping walk cycle of
      its direction's cells, on the normal or the sketch sheet. */
  function PriestAnimSetup(a: Anim, tex: TextureId, texSketch: TextureId): (s: AnimSetup)
    ensures s.loop && s.interval == 0.15
    ensures s.texture == if a.IsSketch() then texSketch else tex
    ensures s.columns == 5 && s.rows == 4
    ensures s.frames == IdxList(a.Facing())
  {
    AnimSetup(true, FrameInterval, if a.IsSketch() then texSketch else tex,
              SheetColumns, SheetRows, IdxList(a.Facing()))
  }

  /** The normal and the sketch animation of a direction play the same
      cells with the same timing; only the sheet differs. */
  lemma SketchTwinsShareCells(f: Facing, tex: TextureId, texSketch: TextureId)
    ensures PriestAnimSetup(AnimFor(f, true), tex, texSketch)
         == PriestAnimSetup(AnimFor(f, false), tex, texSketch).(texture := texSketch)
  {
  }

  /** The eight animations as the priest sets them up, one setter triple
      (loop, interval, frame data) per animation. */
  function PriestAnimations(tex: TextureId, texSketch: TextureId): map<Anim, AnimSetup>
  {
    map[
      Up := AnimSetup(true, FrameInterval, tex, SheetColumns, SheetRows, IdxListUp),
      Down := AnimSetup(true, FrameInterval, tex, SheetColumns, SheetRows, IdxListDown),
      Left := AnimSetup(true, FrameInterval, tex, SheetColumns, SheetRows, IdxListLeft),
      Right := AnimSetup(true, FrameInterval, tex, SheetColumns, SheetRows, IdxListRight),

      UpSketch := AnimSetup(true, FrameInterval, texSketch, SheetColumns, SheetRows, IdxListUp),
      DownSketch := AnimSetup(true, FrameInterval, texSketch, SheetColumns, SheetRows, IdxListDown),
      LeftSketch := AnimSetup(true, FrameInterval, texSketch, SheetColumns, SheetRows, IdxListLeft),
      RightSketch := AnimSetup(true, FrameInterval, texSketch, SheetColumns, SheetRows, IdxListRight)]
  }

  /** Every one of the eight animations is configured, each as
      `PriestAnimSetup` describes. */
  lemma PriestAnimationsComplete(tex: TextureId, texSketch: TextureId)
    ensures forall a: Anim :: a in PriestAnimations(tex, texSketch)
                           && PriestAnimations(tex, texSketch)[a] == PriestAnimSetup(a, tex, texSketch)
  {
    forall a: Anim
      ensures a in PriestAnimations(tex, texSketch)
           && PriestAnimations(tex, texSketch)[a] == PriestAnimSetup(a, tex, texSketch)
    {
      match a
      case Up =>
      case Down =>
      case Left =>
      case Right =>
      case UpSketch =>
      case DownSketch =>
      case LeftSketch =>
      case RightSketch =>
    }
  }

}
