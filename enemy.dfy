/** Patrolling, jumping and shooting enemies and their projectiles
    (src/enemy.py). Each step of Enemy.update is a function on an EnemyState
    value; the class Enemy performs the same steps on its fields. */
module Enemies {
  import opened Constants
  import opened Geometry
  import opened Platforms
  import opened Players
  import opened Options

  datatype Kind = Basic | Jumper | Shooter

  /** The enemy_type string: anything but "jumper" or "shooter" behaves as a
      basic enemy. */
  function KindOf(name: string): (k: Kind)
    ensures k == Jumper <==> name == "jumper"
    ensures k == Shooter <==> name == "shooter"
  {
    if name == "jumper" then Jumper else if name == "shooter" then Shooter else Basic
  }

  const PROJECTILE_SPEED: int := 7
  const PROJECTILE_WIDTH: int := 10
  const PROJECTILE_HEIGHT: int := 6
  /** Frames between two jumps of a jumper, and between two shots of a shooter. */
  const JUMP_INTERVAL: int := 120
  const SHOOT_INTERVAL: int := 180
  /** A shooter fires only at a player less than this many pixels above or below it. */
  const SHOOT_RANGE: int := 100
  /** The slack used to tell a landing or a bump from a side collision. */
  const ENEMY_TOLERANCE: int := 10

  datatype Projectile = Projectile(rect: Rect, direction: int)

  /** Projectile.__init__: a 10 by 6 box whose top-left corner is at (x, y). */
  function Spawn(x: int, y: int, direction: int): Projectile
  {
    Projectile(Rect(x, y, PROJECTILE_WIDTH, PROJECTILE_HEIGHT), direction)
  }

  /** Projectile.update. */
  function Advance(p: Projectile): Projectile
  {
    p.(rect := p.rect.(x := p.rect.x + PROJECTILE_SPEED * p.direction))
  }

  /** The retirement test in Enemy.update. */
  predicate OffScreen(r: Rect)
  {
    r.Right() < 0 || r.Left() > SCREEN_WIDTH || r.Bottom() < 0 || r.Top() > SCREEN_HEIGHT
  }

  /** The projectile loop of Enemy.update: every projectile moves, and the
      ones that left the screen are removed; the others keep their order. */
  function AdvanceAll(ps: seq<Projectile>): seq<Projectile>
  {
    if ps == [] then []
    else
      var q := Advance(ps[|ps| - 1]);
      AdvanceAll(ps[..|ps| - 1]) + (if OffScreen(q.rect) then [] else [q])
  }

  /** The projectile loop works one projectile at a time, so it keeps the
      order of the list: a projectile ahead of another stays ahead of it. */
  lemma {:induction false} AdvanceAllAppend(a: seq<Projectile>, b: seq<Projectile>)
    ensures AdvanceAll(a + b) == AdvanceAll(a) + AdvanceAll(b)
  {
    if b != [] {
      var b0 := b[..|b| - 1];
      assert (a + b)[..|a + b| - 1] == a + b0;
      assert (a + b)[|a + b| - 1] == b[|b| - 1];
      AdvanceAllAppend(a, b0);
    } else {
      assert a + b == a;
    }
  }

  /** The survivors are exactly the moved projectiles still on the screen;
      AdvanceAllAppend says they keep their order. */
  lemma {:induction false} AdvanceAllSurvivors(ps: seq<Projectile>)
    ensures var r := AdvanceAll(ps);
            |r| <= |ps| &&
            (forall k :: 0 <= k < |r| ==> !OffScreen(r[k].rect)) &&
            (forall k :: 0 <= k < |r| ==> exists i :: 0 <= i < |ps| && r[k] == Advance(ps[i])) &&
            (forall i :: 0 <= i < |ps| && !OffScreen(Advance(ps[i]).rect) ==> Advance(ps[i]) in r)
  {
    if ps != [] {
      var init := ps[..|ps| - 1];
      AdvanceAllSurvivors(init);
      var r := AdvanceAll(ps);
      var q := Advance(ps[|ps| - 1]);
      assert r == AdvanceAll(init) + (if OffScreen(q.rect) then [] else [q]);
      forall k | 0 <= k < |r|
        ensures exists i :: 0 <= i < |ps| && r[k] == Advance(ps[i])
      {
        if k < |AdvanceAll(init)| {
          var i :| 0 <= i < |init| && AdvanceAll(init)[k] == Advance(init[i]);
          assert ps[i] == init[i];
        } else {
          assert r[k] == Advance(ps[|ps| - 1]);
        }
      }
      forall i | 0 <= i < |ps| && !OffScreen(Advance(ps[i]).rect)
        ensures Advance(ps[i]) in r
      {
        if i < |init| {
          assert ps[i] == init[i];
          assert Advance(init[i]) in AdvanceAll(init);
        }
      }
    }
  }

  /** A projectile is never moved vertically, and moves PROJECTILE_SPEED
      pixels a frame in its direction. */
  function AdvanceTimes(p: Projectile, n: nat): Projectile
  {
    if n == 0 then p else Advance(AdvanceTimes(p, n - 1))
  }

  lemma {:induction false} AdvanceTimesPosition(p: Projectile, n: nat)
    ensures AdvanceTimes(p, n).rect == p.rect.(x := p.rect.x + PROJECTILE_SPEED * p.direction * n)
    ensures AdvanceTimes(p, n).direction == p.direction
  {
    if n > 0 {
      AdvanceTimesPosition(p, n - 1);
    }
  }

  /** Every projectile fired inside the screen leaves it, and so is removed,
      after at most 117 frames: the screen is 800 pixels wide, the
      projectile 10 pixels wide and fast at 7 pixels a frame. */
  lemma ProjectileLeavesScreen(p: Projectile, n: nat)
    requires p.direction == 1 || p.direction == -1
    requires 0 <= p.rect.x <= SCREEN_WIDTH && p.rect.w == PROJECTILE_WIDTH
    requires n >= 117
    ensures OffScreen(AdvanceTimes(p, n).rect)
  {
    AdvanceTimesPosition(p, n);
  }

  datatype EnemyState = EnemyState(
    rect: Rect,
    vx: int,
    vy: real,
    direction: int,
    onGround: bool,
    jumpTimer: int,
    shootTimer: int,
    projectiles: seq<Projectile>,
    startX: int,
    patrolDistance: int,
    kind: Kind)

  /** Enemy.__init__: moving right at ENEMY_SPEED, airborne, no projectiles. */
  function InitialEnemy(x: int, y: int, patrolDistance: int, kind: Kind): EnemyState
  {
    EnemyState(Rect(x, y, ENEMY_WIDTH, ENEMY_HEIGHT), ENEMY_SPEED, 0.0, 1, false, 0, 0, [],
               x, patrolDistance, kind)
  }

  /** The relation Enemy.__init__ sets up and every step keeps: the enemy
      moves at ENEMY_SPEED in its direction, which is left or right. */
  predicate Heading(s: EnemyState)
  {
    (s.direction == 1 || s.direction == -1) && s.vx == ENEMY_SPEED * s.direction
  }

  /** Gravity while airborne, capped at MAX_FALL_SPEED. */
  function EnemyGravity(s: EnemyState): EnemyState
  {
    if s.onGround then s
    else s.(vy := if s.vy + GRAVITY > MAX_FALL_SPEED then MAX_FALL_SPEED else s.vy + GRAVITY)
  }

  function EnemyMove(s: EnemyState): EnemyState
  {
    s.(rect := s.rect.(x := s.rect.x + s.vx, y := RectCoord(s.rect.y as real + s.vy)))
  }

  /** Turning around after bumping into the side of a platform. */
  function TurnAround(s: EnemyState): EnemyState
  {
    s.(direction := -s.direction, vx := ENEMY_SPEED * -s.direction)
  }

  /** One platform of the collision loop of Enemy.update. Unlike the player,
      an enemy that neither lands nor bumps its head turns around. */
  function EnemyResolveOne(s: EnemyState, f: (Rect, bool)): EnemyState
  {
    var p := f.0;
    if !(f.1 && Collides(s.rect, p)) then s
    else if s.vy > 0.0 && (s.rect.Bottom() as real) - s.vy <= (p.Top() + ENEMY_TOLERANCE) as real then
      s.(rect := s.rect.WithBottom(p.Top()), vy := 0.0, onGround := true)
    else if s.vy < 0.0 && (s.rect.Top() as real) - s.vy >= (p.Bottom() - ENEMY_TOLERANCE) as real then
      s.(rect := s.rect.WithTop(p.Bottom()), vy := 0.0)
    else if s.vx > 0 then
      TurnAround(s.(rect := s.rect.WithRight(p.Left())))
    else if s.vx < 0 then
      TurnAround(s.(rect := s.rect.WithLeft(p.Right())))
    else s
  }

  /** A platform that is not solid or not overlapped is walked through. A
      landing puts the enemy on the platform's top, stops its fall and
      grounds it; a ceiling hit puts its top at the platform's bottom and
      stops it. Any other overlap is a side collision, with no tolerance:
      the enemy turns around and is kept outside the side it ran into. */
  lemma EnemyResolveOneCases(s: EnemyState, f: (Rect, bool))
    requires Heading(s)
    ensures var r := EnemyResolveOne(s, f);
            !(f.1 && Collides(s.rect, f.0)) ==> r == s
    ensures var r := EnemyResolveOne(s, f);
            var lands := s.vy > 0.0 && (s.rect.Bottom() as real) - s.vy <= (f.0.Top() + ENEMY_TOLERANCE) as real;
            f.1 && Collides(s.rect, f.0) && lands ==>
              r == s.(rect := s.rect.WithBottom(f.0.Top()), vy := 0.0, onGround := true)
    ensures var r := EnemyResolveOne(s, f);
            var lands := s.vy > 0.0 && (s.rect.Bottom() as real) - s.vy <= (f.0.Top() + ENEMY_TOLERANCE) as real;
            var bumps := s.vy < 0.0 && (s.rect.Top() as real) - s.vy >= (f.0.Bottom() - ENEMY_TOLERANCE) as real;
            f.1 && Collides(s.rect, f.0) && !lands && bumps ==>
              r == s.(rect := s.rect.WithTop(f.0.Bottom()), vy := 0.0)
    ensures var r := EnemyResolveOne(s, f);
            var lands := s.vy > 0.0 && (s.rect.Bottom() as real) - s.vy <= (f.0.Top() + ENEMY_TOLERANCE) as real;
            var bumps := s.vy < 0.0 && (s.rect.Top() as real) - s.vy >= (f.0.Bottom() - ENEMY_TOLERANCE) as real;
            f.1 && Collides(s.rect, f.0) && !lands && !bumps ==>
              r.direction == -s.direction && r.vy == s.vy && r.onGround == s.onGround &&
              (s.direction == 1 ==> r.rect == s.rect.WithRight(f.0.Left())) &&
              (s.direction == -1 ==> r.rect == s.rect.WithLeft(f.0.Right()))
    ensures var r := EnemyResolveOne(s, f);
            (!f.1 ==> r == s) &&
            Heading(r) &&
            (r.direction != s.direction ==>
               (s.direction == 1 ==> r.rect.Right() == f.0.Left()) &&
               (s.direction == -1 ==> r.rect.Left() == f.0.Right())) &&
            (r.onGround ==> s.onGround || r.rect.Bottom() == f.0.Top()) &&
            r.kind == s.kind && r.startX == s.startX && r.patrolDistance == s.patrolDistance &&
            r.projectiles == s.projectiles && r.jumpTimer == s.jumpTimer && r.shootTimer == s.shootTimer
  {
  }

  function EnemyResolveAll(s: EnemyState, fs: seq<(Rect, bool)>): EnemyState
  {
    if fs == [] then s else EnemyResolveOne(EnemyResolveAll(s, fs[..|fs| - 1]), fs[|fs| - 1])
  }

  /** The platforms an enemy can stand on, in order. */
  function SolidOnly(fs: seq<(Rect, bool)>): seq<(Rect, bool)>
  {
    if fs == [] then []
    else SolidOnly(fs[..|fs| - 1]) + (if fs[|fs| - 1].1 then [fs[|fs| - 1]] else [])
  }

  /** Only solid platforms matter to an enemy: the collision pass over every
      platform equals the pass over the solid ones, the list the player is
      given. */
  lemma {:induction false} EnemyIgnoresVanished(s: EnemyState, fs: seq<(Rect, bool)>)
    ensures EnemyResolveAll(s, fs) == EnemyResolveAll(s, SolidOnly(fs))
  {
    if fs != [] {
      var init := fs[..|fs| - 1];
      EnemyIgnoresVanished(s, init);
      var last := fs[|fs| - 1];
      if last.1 {
        var t := SolidOnly(init) + [last];
        assert t[..|t| - 1] == SolidOnly(init);
      } else {
        assert SolidOnly(fs) == SolidOnly(init);
      }
    }
  }

  /** The collision pass keeps the heading and leaves timers, projectiles
      and the patrol settings alone. */
  lemma {:induction false} EnemyResolveAllHeading(s: EnemyState, fs: seq<(Rect, bool)>)
    requires Heading(s)
    ensures var r := EnemyResolveAll(s, fs);
            Heading(r) &&
            r.kind == s.kind && r.startX == s.startX && r.patrolDistance == s.patrolDistance &&
            r.projectiles == s.projectiles && r.jumpTimer == s.jumpTimer && r.shootTimer == s.shootTimer
  {
    if fs != [] {
      EnemyResolveAllHeading(s, fs[..|fs| - 1]);
      EnemyResolveOneCases(EnemyResolveAll(s, fs[..|fs| - 1]), fs[|fs| - 1]);
    }
  }

  /** Enemy.update's collision step: on_ground is cleared first. */
  function EnemyCollisions(s: EnemyState, fs: seq<(Rect, bool)>): EnemyState
  {
    EnemyResolveAll(s.(onGround := false), fs)
  }

  /** The patrol limits around start_x. */
  function Patrol(s: EnemyState): EnemyState
  {
    if s.rect.x > s.startX + s.patrolDistance then s.(direction := -1, vx := -ENEMY_SPEED)
    else if s.rect.x < s.startX - s.patrolDistance then s.(direction := 1, vx := ENEMY_SPEED)
    else s
  }

  function Abs(v: int): int { if v < 0 then -v else v }

  /** Enemy.shoot: the projectile starts at the enemy's centre. */
  function Shot(s: EnemyState, direction: int): EnemyState
  {
    s.(projectiles := s.projectiles + [Spawn(s.rect.CenterX(), s.rect.CenterY(), direction)])
  }

  /** The enemy-specific part of Enemy.update; target is the player's box,
      or None when no player is given. A jumper only counts frames on the
      ground; a shooter that is due but out of range keeps counting and fires
      as soon as the player comes in range. */
  function Behave(s: EnemyState, target: Option<Rect>): EnemyState
  {
    if s.kind == Jumper && s.onGround then
      if s.jumpTimer + 1 >= JUMP_INTERVAL then s.(vy := -JUMP_POWER * 0.7, jumpTimer := 0)
      else s.(jumpTimer := s.jumpTimer + 1)
    else if s.kind == Shooter && target.Some? then
      if s.shootTimer + 1 >= SHOOT_INTERVAL && Abs(target.value.y - s.rect.y) < SHOOT_RANGE then
        Shot(s, if target.value.x > s.rect.x then 1 else -1).(shootTimer := 0)
      else s.(shootTimer := s.shootTimer + 1)
    else s
  }

  /** Enemy.update without the animation counter. */
  function EnemyTick(s: EnemyState, fs: seq<(Rect, bool)>, target: Option<Rect>): EnemyState
  {
    EnemyAct(EnemyLand(s, fs), target)
  }

  /** The first half of Enemy.update: gravity, motion, the platforms. */
  function EnemyLand(s: EnemyState, fs: seq<(Rect, bool)>): EnemyState
  {
    EnemyCollisions(EnemyMove(EnemyGravity(s)), fs)
  }

  /** The second half: the patrol bounds, the behaviour, the projectiles. */
  function EnemyAct(s: EnemyState, target: Option<Rect>): EnemyState
  {
    var s5 := Behave(Patrol(s), target);
    s5.(projectiles := AdvanceAll(s5.projectiles))
  }

  /** A jumper's timer stays below JUMP_INTERVAL; it jumps with 70 percent
      of the player's jump power exactly when the timer wraps. */
  lemma BehaveJumper(s: EnemyState, target: Option<Rect>)
    requires s.kind == Jumper && 0 <= s.jumpTimer < JUMP_INTERVAL
    ensures var r := Behave(s, target);
            0 <= r.jumpTimer < JUMP_INTERVAL &&
            (s.onGround && s.jumpTimer == JUMP_INTERVAL - 1 ==> r.vy == -10.5 && r.jumpTimer == 0) &&
            (s.onGround && s.jumpTimer < JUMP_INTERVAL - 1 ==> r == s.(jumpTimer := s.jumpTimer + 1)) &&
            (!s.onGround ==> r == s)
  {
  }

  /** A shooter with a target fires exactly when its timer is due and the
      target is within SHOOT_RANGE vertically; the shot heads towards the
      target and resets the timer; otherwise it only counts the frame. */
  lemma BehaveShooter(s: EnemyState, t: Rect)
    requires s.kind == Shooter
    ensures var r := Behave(s, Some(t));
            var fire := s.shootTimer + 1 >= SHOOT_INTERVAL && Abs(t.y - s.rect.y) < SHOOT_RANGE;
            (fire ==>
               r.shootTimer == 0 && |r.projectiles| == |s.projectiles| + 1 &&
               r.projectiles[..|s.projectiles|] == s.projectiles &&
               r.projectiles[|s.projectiles|].direction == (if t.x > s.rect.x then 1 else -1) &&
               r.projectiles[|s.projectiles|].rect ==
                 Rect(s.rect.CenterX(), s.rect.CenterY(), PROJECTILE_WIDTH, PROJECTILE_HEIGHT)) &&
            (!fire ==> r == s.(shootTimer := s.shootTimer + 1))
  {
    if s.shootTimer + 1 >= SHOOT_INTERVAL && Abs(t.y - s.rect.y) < SHOOT_RANGE {
      var r := Behave(s, Some(t));
      assert r.projectiles[..|s.projectiles|] == s.projectiles;
    }
  }

  /** The patrol step keeps the heading and turns an enemy past a limit back
      towards start_x; it changes nothing else. */
  lemma PatrolEffects(s: EnemyState)
    requires Heading(s)
    ensures var r := Patrol(s);
            Heading(r) && r.rect == s.rect &&
            (s.rect.x > s.startX + s.patrolDistance ==> r.direction == -1) &&
            (s.startX - s.patrolDistance > s.rect.x && s.rect.x <= s.startX + s.patrolDistance ==>
               r.direction == 1) &&
            r == s.(direction := r.direction, vx := r.vx)
  {
  }

  /** The enemy-specific step never moves or turns the enemy, and only a
      shooter adds projectiles. */
  lemma BehaveFrame(s: EnemyState, target: Option<Rect>)
    ensures var r := Behave(s, target);
            r.rect == s.rect && r.direction == s.direction && r.vx == s.vx &&
            r.kind == s.kind && r.startX == s.startX && r.patrolDistance == s.patrolDistance &&
            (s.kind != Shooter ==> r.projectiles == s.projectiles)
  {
  }

  /** One update keeps the heading; an enemy past a patrol limit ends the
      update heading back towards start_x; a basic enemy never shoots and a
      jumper's timer stays in range; every projectile left is on the screen. */
  lemma EnemyTickInvariants(s: EnemyState, fs: seq<(Rect, bool)>, target: Option<Rect>)
    requires Heading(s)
    ensures var r := EnemyTick(s, fs, target);
            Heading(r) &&
            (r.rect.x > s.startX + s.patrolDistance ==> r.direction == -1) &&
            (s.startX - s.patrolDistance > r.rect.x && r.rect.x <= s.startX + s.patrolDistance ==> r.direction == 1) &&
            (forall k :: 0 <= k < |r.projectiles| ==> !OffScreen(r.projectiles[k].rect)) &&
            r.kind == s.kind && r.startX == s.startX && r.patrolDistance == s.patrolDistance &&
            (s.kind == Jumper && 0 <= s.jumpTimer < JUMP_INTERVAL ==> 0 <= r.jumpTimer < JUMP_INTERVAL) &&
            (s.kind != Shooter ==> |r.projectiles| <= |s.projectiles|)
  {
    var s1 := EnemyMove(EnemyGravity(s));
    var s3 := EnemyCollisions(s1, fs);
    EnemyResolveAllHeading(s1.(onGround := false), fs);
    var s4 := Patrol(s3);
    PatrolEffects(s3);
    var s5 := Behave(s4, target);
    BehaveFrame(s4, target);
    if s.kind == Jumper && 0 <= s.jumpTimer < JUMP_INTERVAL {
      BehaveJumper(s4, target);
    }
    AdvanceAllSurvivors(s5.projectiles);
  }

  class Enemy {
    const kind: Kind
    const startX: int
    const patrolDistance: int
    var rect: Rect
    var velocityX: int
    var velocityY: real
    var direction: int
    var onGround: bool
    var jumpTimer: int
    var shootTimer: int
    var projectiles: seq<Projectile>

    function State(): EnemyState
      reads this
    {
      EnemyState(rect, velocityX, velocityY, direction, onGround, jumpTimer, shootTimer,
                 projectiles, startX, patrolDistance, kind)
    }

    ghost predicate Valid()
      reads this
    {
      Heading(State())
    }

    constructor (x: int, y: int, patrolDistance: int, enemyType: string)
      ensures State() == InitialEnemy(x, y, patrolDistance, KindOf(enemyType))
      ensures Valid()
    {
      kind := KindOf(enemyType);
      rect := Rect(x, y, ENEMY_WIDTH, ENEMY_HEIGHT);
      velocityX, velocityY := ENEMY_SPEED, 0.0;
      direction := 1;
      onGround := false;
      startX := x;
      this.patrolDistance := patrolDistance;
      jumpTimer, shootTimer := 0, 0;
      projectiles := [];
    }

    method ApplyGravity()
      modifies this
      ensures State() == EnemyGravity(old(State()))
    {
      if !onGround {
        velocityY := velocityY + GRAVITY;
        if velocityY > MAX_FALL_SPEED {
          velocityY := MAX_FALL_SPEED;
        }
      }
    }

    method MoveByVelocity()
      modifies this
      ensures State() == EnemyMove(old(State()))
    {
      rect := rect.(x := rect.x + velocityX);
      rect := rect.(y := RectCoord(rect.y as real + velocityY));
    }

    /** The body of the collision loop, for one platform. */
    method ResolveAgainst(p: Rect, solid: bool)
      modifies this
      ensures State() == EnemyResolveOne(old(State()), (p, solid))
    {
      if solid && Collides(rect, p) {
        if velocityY > 0.0 && (rect.Bottom() as real) - velocityY <= (p.Top() + ENEMY_TOLERANCE) as real {
          rect := rect.WithBottom(p.Top());
          velocityY := 0.0;
          onGround := true;
        } else if velocityY < 0.0 && (rect.Top() as real) - velocityY >= (p.Bottom() - ENEMY_TOLERANCE) as real {
          rect := rect.WithTop(p.Bottom());
          velocityY := 0.0;
        } else if velocityX > 0 {
          rect := rect.WithRight(p.Left());
          direction := -direction;
          velocityX := ENEMY_SPEED * direction;
        } else if velocityX < 0 {
          rect := rect.WithLeft(p.Right());
          direction := -direction;
          velocityX := ENEMY_SPEED * direction;
        }
      }
    }

    method CheckPlatforms(platforms: seq<Platform>)
      modifies this
      ensures State() == EnemyCollisions(old(State()), Footings(platforms))
    {
      ghost var fs := Footings(platforms);
      ghost var s0 := State().(onGround := false);
      onGround := false;
      var i := 0;
      while i < |platforms|
        invariant 0 <= i <= |platforms|
        invariant State() == EnemyResolveAll(s0, fs[..i])
      {
        assert fs[..i + 1][..i] == fs[..i];
        ResolveAgainst(platforms[i].rect, platforms[i].solid);
        i := i + 1;
      }
      assert fs[..|platforms|] == fs;
    }

    method PatrolLimits()
      modifies this
      ensures State() == Patrol(old(State()))
    {
      if rect.x > startX + patrolDistance {
        direction := -1;
        velocityX := ENEMY_SPEED * direction;
      } else if rect.x < startX - patrolDistance {
        direction := 1;
        velocityX := ENEMY_SPEED * direction;
      }
    }

    /** Enemy.shoot. */
    method Shoot(dir: int)
      modifies this
      ensures State() == Shot(old(State()), dir)
    {
      projectiles := projectiles + [Spawn(rect.CenterX(), rect.CenterY(), dir)];
    }

    method Behaviour(player: Player?)
      modifies this
      ensures State() == Behave(old(State()), if player == null then None else Some(player.rect))
    {
      if kind == Jumper && onGround {
        jumpTimer := jumpTimer + 1;
        if jumpTimer >= JUMP_INTERVAL {
          velocityY := -JUMP_POWER * 0.7;
          jumpTimer := 0;
        }
      } else if kind == Shooter && player != null {
        shootTimer := shootTimer + 1;
        if shootTimer >= SHOOT_INTERVAL {
          if Abs(player.rect.y - rect.y) < SHOOT_RANGE {
            var dir := if player.rect.x > rect.x then 1 else -1;
            Shoot(dir);
            shootTimer := 0;
          }
        }
      }
    }

    /** The projectile loop of update. */
    method UpdateProjectiles()
      modifies this
      ensures State() == old(State()).(projectiles := AdvanceAll(old(projectiles)))
    {
      var kept: seq<Projectile> := [];
      var i := 0;
      while i < |projectiles|
        invariant 0 <= i <= |projectiles|
        invariant kept == AdvanceAll(projectiles[..i])
      {
        var q := Advance(projectiles[i]);
        assert projectiles[..i + 1][..i] == projectiles[..i];
        if !OffScreen(q.rect) {
          kept := kept + [q];
        }
        i := i + 1;
      }
      assert projectiles[..|projectiles|] == projectiles;
      projectiles := kept;
    }

    /** Enemy.update. */
    method Update(platforms: seq<Platform>, player: Player?)
      modifies this
      ensures old(Valid()) ==> Valid()
      ensures State() == EnemyTick(old(State()), Footings(platforms),
                                   if player == null then None else Some(player.rect))
    {
      if Valid() {
        EnemyTickInvariants(State(), Footings(platforms), if player == null then None else Some(player.rect));
      }
      Land(platforms);
      Act(player);
    }

    /** Gravity, motion and the platforms. */
    method Land(platforms: seq<Platform>)
      modifies this
      ensures State() == EnemyLand(old(State()), Footings(platforms))
    {
      ApplyGravity();
      MoveByVelocity();
      CheckPlatforms(platforms);
    }

    /** The patrol bounds, the behaviour towards the player, the projectiles. */
    method Act(player: Player?)
      modifies this
      ensures State() == EnemyAct(old(State()), if player == null then None else Some(player.rect))
    {
      PatrolLimits();
      Behaviour(player);
      UpdateProjectiles();
    }

    /** projectile.kill() for the j-th projectile. */
    method RemoveProjectile(j: int)
      requires 0 <= j < |projectiles|
      modifies this
      ensures State() == old(State()).(projectiles := old(projectiles[..j] + projectiles[j + 1..]))
    {
      projectiles := projectiles[..j] + projectiles[j + 1..];
    }
  }
}
