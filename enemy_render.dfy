/** What Enemy::on_render draws, as values: the sprite's top-left corner
    and, for a wounded enemy, the two rectangles of its health bar. */
module EnemyRender {
  import opened Wrappers
  import opened Geometry
  import opened EnemyAnimation

  /** The health bar's fixed extent in pixels, and its gap above the sprite. */
  const HpBarSize := Vec2(40.0, 8.0)
  const HpBarOffsetY := 2

  /** The draw colours of the bar, as RGBA. */
  datatype Color = Color(r: int, g: int, b: int, a: int)
  const ColorBorder := Color(116, 185, 124, 255)
  const ColorContent := Color(226, 255, 194, 255)

  /** One draw call on the renderer. */
  datatype DrawCmd =
    | DrawSprite(anim: Anim, at: Point)
    | FillRect(rect: Rect, color: Color)
    | OutlineRect(rect: Rect, color: Color)

  /** The filled part of the bar and its outline. */
  datatype HpBarRects = HpBarRects(fill: Rect, border: Rect)

  /** The sprite is drawn with its centre on the enemy's position: its
      corner is the position less half the size, cut toward zero. */
  function SpriteOrigin(position: Vec2, size: Vec2): (p: Point)
    ensures var cx := position.x - size.x / 2.0;
      && (cx >= 0.0 ==> p.x as real <= cx < p.x as real + 1.0)
      && (cx < 0.0 ==> p.x as real - 1.0 < cx <= p.x as real)
    ensures var cy := position.y - size.y / 2.0;
      && (cy >= 0.0 ==> p.y as real <= cy < p.y as real + 1.0)
      && (cy < 0.0 ==> p.y as real - 1.0 < cy <= p.y as real)
  {
    Point(Trunc(position.x - size.x / 2.0), Trunc(position.y - size.y / 2.0))
  }

  /** The health bar: drawn exactly when the enemy is wounded, 40 by 8
      pixels, centred horizontally on the enemy and sitting two pixels above
      the sprite; its fill is `40 * hp / max_hp` cut to an integer. */
  function HpBar(position: Vec2, size: Vec2, hp: real, maxHp: real): (bar: Option<HpBarRects>)
    requires hp < maxHp ==> maxHp != 0.0
    ensures bar.Some? <==> hp < maxHp
    ensures bar.Some? ==>
      && bar.value.border == bar.value.fill.(w := 40)
      && bar.value.fill.h == 8
      && bar.value.fill.x == Trunc(position.x - 20.0)
      && bar.value.fill.y == Trunc(position.y - size.y / 2.0 - 10.0)
      && bar.value.fill.w == Trunc(40.0 * (hp / maxHp))
  {
    if hp < maxHp then
      var rect := Rect(Trunc(position.x - HpBarSize.x / 2.0),
                       Trunc(position.y - size.y / 2.0 - HpBarSize.y - HpBarOffsetY as real),
                       Trunc(HpBarSize.x * (hp / maxHp)),
                       Trunc(HpBarSize.y));
      Some(HpBarRects(rect, rect.(w := Trunc(HpBarSize.x))))
    else
      None
  }

  /** The fill is proportional to the health left: for non-negative health
      short of the maximum it is the whole number of pixels in
      `40 * hp / max_hp`, so it stays inside the border. */
  lemma HpBarFillProportional(position: Vec2, size: Vec2, hp: real, maxHp: real)
    requires 0.0 <= hp < maxHp
    ensures HpBar(position, size, hp, maxHp).Some?
    ensures var w := HpBar(position, size, hp, maxHp).value.fill.w;
      && 0 <= w < 40
      && w as real <= 40.0 * (hp / maxHp) < w as real + 1.0
  {
  }

  /** A bar at half health is half filled. */
  lemma HalfHealthHalfBar(position: Vec2, size: Vec2, maxHp: real)
    requires maxHp > 0.0
    ensures HpBar(position, size, maxHp / 2.0, maxHp).Some?
    ensures HpBar(position, size, maxHp / 2.0, maxHp).value.fill.w == 20
  {
    assert (maxHp / 2.0) / maxHp == 0.5;
  }

  /** Everything on_render draws, in order: the current animation's frame,
      then the bar's content and its border when the enemy is wounded. */
  function RenderCommands(anim: Anim, position: Vec2, size: Vec2, hp: real, maxHp: real): (cmds: seq<DrawCmd>)
    requires hp < maxHp ==> maxHp != 0.0
    ensures |cmds| == if hp < maxHp then 3 else 1
    ensures cmds[0] == DrawSprite(anim, SpriteOrigin(position, size))
    ensures hp < maxHp ==>
      && cmds[1] == FillRect(HpBar(position, size, hp, maxHp).value.fill, ColorContent)
      && cmds[2] == OutlineRect(HpBar(position, size, hp, maxHp).value.border, ColorBorder)
  {
    var sprite := [DrawSprite(anim, SpriteOrigin(position, size))];
    var bar := HpBar(position, size, hp, maxHp);
    if bar.Some? then
      sprite + [FillRect(bar.value.fill, ColorContent), OutlineRect(bar.value.border, ColorBorder)]
    else
      sprite
  }
}
