/** The Enemy entity of the tower-defense game: its stats, its kinematic
    state along a route of tile cells, its three timers and eight walking
    animations, updated in place once per frame and drawn without change. */
module Enemies {
  import opened Wrappers
  import opened Geometry
  import opened EnemyMotion
  import opened EnemyAnimation
  import opened EnemyRender
  import GP = GoblinPriest

  /** What a timer runs when it times out. */
  datatype TimeoutAction = ReleaseSkill | HideSketch | RestoreSpeed

  /** How a Timer is configured: one-shot or repeating, its wait time
      (`None` while it keeps the Timer's own default), and its callback. */
  datatype TimerSetup = TimerSetup(oneShot: bool, waitTime: Option<real>, onTimeout: TimeoutAction)

  /** The timer configurations the Enemy constructor wires up. */
  const SkillTimer := TimerSetup(false, None, ReleaseSkill)
  const SketchTimer := TimerSetup(true, Some(0.075), HideSketch)
  const RestoreSpeedTimer := TimerSetup(true, None, RestoreSpeed)

  /** Which timers time out while they are advanced by one frame's delta:
      the repeating skill timer may do so any number of times, the two
      one-shot timers at most once. */
  datatype Firings = Firings(skill: nat, sketch: bool, restoreSpeed: bool)

  class Enemy {
    // stats, set by a subtype from its template and changed by game events
    var size: Vec2
    var hp: real
    var maxHp: real
    var speed: real
    var maxSpeed: real
    var damage: real
    var rewardRatio: real
    var recoverInterval: real
    var recoverRange: real
    var recoverIntensity: real

    var timerSkill: TimerSetup
    /** Configuration of the eight Animation members; empty while they
        keep the defaults of a freshly constructed Animation. */
    var animSetup: map<Anim, AnimSetup>

    // kinematic state
    var position: Vec2
    var velocity: Vec2
    var direction: Vec2

    var isValid: bool

    var timerSketch: TimerSetup
    var isShowSketch: bool

    /** The animation shown this frame; `None` until the first update. */
    var animCurrent: Option<Anim>
    /** Every `delta` handed to an Animation's on_update, in order. */
    var animTicks: seq<(Anim, real)>

    /** Whether a skill callback is assigned; the callback member starts
        out empty. */
    var hasSkillCallback: bool
    /** How many times the skill callback has been invoked. */
    var skillReleases: nat

    var timerRestoreSpeed: TimerSetup

    /** The route's waypoint cells; `None` until a route is assigned. */
    var route: Option<seq<Point>>
    var idxTarget: nat
    var positionTarget: Vec2

    /** The tile map's screen origin and tile size. */
    const tileMap: TileMap

    /** The kinematic part of the state, as a value. */
    function CurrentMotion(): Motion
      reads this
    {
      Motion(position, velocity, direction, positionTarget, idxTarget)
    }

    /** The route's cells; the empty list while no route is assigned. */
    function Waypoints(): seq<Point>
      reads this
    {
      if route.Some? then route.value else []
    }

    /** A fresh enemy: zeroed stats and vectors, no route, no current
        animation, and its three timers wired to their callbacks. */
    constructor (tileMap: TileMap)
      ensures this.tileMap == tileMap
      ensures timerSkill == SkillTimer && timerSketch == SketchTimer
      ensures timerRestoreSpeed == RestoreSpeedTimer
      ensures size == Origin
      ensures hp == 0.0 && maxHp == 0.0 && speed == 0.0 && maxSpeed == 0.0
      ensures damage == 0.0 && rewardRatio == 0.0
      ensures recoverInterval == 0.0 && recoverRange == 0.0 && recoverIntensity == 0.0
      ensures animSetup == map[] && animCurrent == None && animTicks == []
      ensures position == Origin && velocity == Origin && direction == Origin
      ensures positionTarget == Origin && idxTarget == 0
      ensures isValid && !isShowSketch && skillReleases == 0 && route == None
      ensures !hasSkillCallback
    {
      this.tileMap := tileMap;
      size := Origin;
      hp, maxHp, speed, maxSpeed := 0.0, 0.0, 0.0, 0.0;
      damage, rewardRatio := 0.0, 0.0;
      recoverInterval, recoverRange, recoverIntensity := 0.0, 0.0, 0.0;
      animSetup := map[];
      position, velocity, direction := Origin, Origin, Origin;
      isValid := true;
      isShowSketch := false;
      animCurrent := None;
      animTicks := [];
      skillReleases := 0;
      hasSkillCallback := false;
      route := None;
      idxTarget := 0;
      positionTarget := Origin;

      timerSkill := SkillTimer;
      timerSketch := SketchTimer;
      timerRestoreSpeed := RestoreSpeedTimer;
    }

    constructor GoblinPriest(tileMap: TileMap, template: GP.EnemyTemplate, tex: TextureId, texSketch: TextureId)
      ensures this.tileMap == tileMap
      ensures animSetup == GP.PriestAnimations(tex, texSketch)
      ensures maxHp == template.hp && maxSpeed == template.speed
      ensures damage == template.damage && rewardRatio == template.rewardRatio
      ensures recoverInterval == template.recoverInterval
      ensures recoverRange == template.recoverRange
      ensures recoverIntensity == template.recoverIntensity
      ensures size == Vec2(48.0, 48.0)
      ensures hp == maxHp && speed == maxSpeed
      ensures timerSkill == TimerSetup(false, Some(template.recoverInterval), ReleaseSkill)
      ensures timerSketch == SketchTimer && timerRestoreSpeed == RestoreSpeedTimer
      ensures position == Origin && velocity == Origin && direction == Origin
      ensures positionTarget == Origin && idxTarget == 0
      ensures isValid && !isShowSketch && skillReleases == 0 && route == None
      ensures !hasSkillCallback
      ensures animCurrent == None && animTicks == []
    {
      this.tileMap := tileMap;
      position, velocity, direction := Origin, Origin, Origin;
      isValid := true;
      isShowSketch := false;
      animCurrent := None;
      animTicks := [];
      skillReleases := 0;
      hasSkillCallback := false;
      route := None;
      idxTarget := 0;
      positionTarget := Origin;
      timerSkill := SkillTimer;
      timerSketch := SketchTimer;
      timerRestoreSpeed := RestoreSpeedTimer;
      animSetup := GP.PriestAnimations(tex, texSketch);
      maxHp := template.hp;
      maxSpeed := template.speed;
      damage := template.damage;
      rewardRatio := template.rewardRatio;
      recoverInterval := template.recoverInterval;
      recoverRange := template.recoverRange;
      recoverIntensity := template.recoverIntensity;
      size := Vec2(48.0, 48.0);
      new;
      hp, speed := maxHp, maxSpeed;
      timerSkill := timerSkill.(waitTime := Some(recoverInterval));
    }

    /** The skill timer's callback: hands this enemy to the skill, which
        must have been assigned (an empty one throws). */
    method OnSkillReleased()
      requires hasSkillCallback
      modifies this`skillReleases
      ensures skillReleases == old(skillReleases) + 1
    {
      skillReleases := skillReleases + 1;
    }

    /** The sketch timer's callback: stop showing the sketch skin. */
    method OnSketchTimeout()
      modifies this`isShowSketch
      ensures !isShowSketch
    {
      isShowSketch := false;
    }

    /** The restore timer's callback: end a slow-down. */
    method OnRestoreSpeedTimeout()
      modifies this`speed
      ensures speed == maxSpeed
    {
      speed := maxSpeed;
    }

    /** Aim at the waypoint `idxTarget` names, if the route has one. */
    method RefreshPositionTarget()
      requires route.Some?
      modifies this`positionTarget
      ensures idxTarget < |route.value| ==> positionTarget == TileCenter(tileMap, route.value[idxTarget])
      ensures idxTarget >= |route.value| ==> positionTarget == old(positionTarget)
    {
      var idxList := route.value;
      if idxTarget < |idxList| {
        var point := idxList[idxTarget];
        var s: int := tileMap.tileSize;
        positionTarget := Vec2((tileMap.originX + point.x * s + s / 2) as real,
                               (tileMap.originY + point.y * s + s / 2) as real);
      }
    }

    /** One frame of `delta` seconds: run the timers that time out, step
        toward the waypoint, pick the animation to show and advance it.
        The route is read only on arrival, so only then must one be
        assigned; a skill timeout calls the skill callback, so one must be
        assigned whenever the skill timer fires. */
    method OnUpdate(delta: real, fired: Firings, ops: VectorOps)
      requires fired.skill > 0 ==> hasSkillCallback
      requires ops.approxZero(positionTarget.Minus(position)) ==> route.Some?
      modifies this`skillReleases, this`isShowSketch, this`speed
      modifies this`position, this`idxTarget, this`positionTarget, this`direction, this`velocity
      modifies this`animCurrent, this`animTicks
      // the timer callbacks
      ensures skillReleases == old(skillReleases) + fired.skill
      ensures isShowSketch == (old(isShowSketch) && !fired.sketch)
      ensures speed == if fired.restoreSpeed then maxSpeed else old(speed)
      // movement follows the specification one frame further
      ensures CurrentMotion() == Advance(old(CurrentMotion()), ops, tileMap, Waypoints(), speed, delta)
      // exactly the selected animation is advanced, by delta
      ensures animCurrent == Some(SelectAnim(isShowSketch, velocity.x, velocity.y))
      ensures animTicks == old(animTicks) + [(animCurrent.value, delta)]
    {
      // the timers: skill, sketch, restore speed, in this order; the skill
      // callback runs once per timeout
      var n := 0;
      while n < fired.skill
        modifies this`skillReleases
        invariant n <= fired.skill
        invariant skillReleases == old(skillReleases) + n
      {
        OnSkillReleased();
        n := n + 1;
      }
      if fired.sketch {
        OnSketchTimeout();
      }
      if fired.restoreSpeed {
        OnRestoreSpeedTimeout();
      }

      Move(delta, ops);

      animCurrent := Some(SelectAnim(isShowSketch, velocity.x, velocity.y));
      animTicks := animTicks + [(animCurrent.value, delta)];
    }

    /** The movement steps of a frame: move toward the waypoint without
        passing it, switch to the next waypoint when the distance measured
        before the move was approximately zero, then rebuild the velocity
        from the heading and the current speed. */
    method Move(delta: real, ops: VectorOps)
      requires ops.approxZero(positionTarget.Minus(position)) ==> route.Some?
      modifies this`position, this`idxTarget, this`positionTarget, this`direction, this`velocity
      ensures CurrentMotion() == Advance(old(CurrentMotion()), ops, tileMap, Waypoints(), speed, delta)
    {
      ghost var before := CurrentMotion();
      var moveDistance := velocity.Times(delta);
      var targetDistance := positionTarget.Minus(position);
      var stride := if ops.shorter(moveDistance, targetDistance) then moveDistance else targetDistance;
      position := position.Plus(stride);

      if ops.approxZero(targetDistance) {
        idxTarget := idxTarget + 1;
        RefreshPositionTarget();
        assert positionTarget == RefreshedTarget(tileMap, Waypoints(), idxTarget, before.target);
        direction := ops.normalize(positionTarget.Minus(position));
      }

      velocity := Vec2(direction.x * speed * tileMap.tileSize as real,
                       direction.y * speed * tileMap.tileSize as real);
      assert velocity == VelocityFor(direction, speed, tileMap.tileSize);
    }

    /** Draw the enemy: its current animation frame centred on its
        position and, when it is wounded, its health bar. Draws need a
        current animation, so only after the first update. */
    method OnRender() returns (cmds: seq<DrawCmd>)
      requires animCurrent.Some?
      requires hp < maxHp ==> maxHp != 0.0
      ensures cmds == RenderCommands(animCurrent.value, position, size, hp, maxHp)
    {
      var point := Point(Trunc(position.x - size.x / 2.0), Trunc(position.y - size.y / 2.0));
      assert point == SpriteOrigin(position, size);
      cmds := [DrawSprite(animCurrent.value, point)];
      ghost var bar := HpBar(position, size, hp, maxHp);
      if hp < maxHp {
        var rect := Rect(Trunc(position.x - HpBarSize.x / 2.0),
                         Trunc(position.y - size.y / 2.0 - HpBarSize.y - HpBarOffsetY as real),
                         Trunc(HpBarSize.x * (hp / maxHp)),
                         Trunc(HpBarSize.y));
        assert rect == bar.value.fill;
        cmds := cmds + [FillRect(rect, ColorContent)];
        rect := rect.(w := Trunc(HpBarSize.x));
        assert rect == bar.value.border;
        cmds := cmds + [OutlineRect(rect, ColorBorder)];
        assert cmds == [cmds[0]] + [FillRect(bar.value.fill, ColorContent), OutlineRect(bar.value.border, ColorBorder)];
      } else {
        assert bar.None?;
      }
    }
  }
}
