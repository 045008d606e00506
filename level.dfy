/** One level (src/level.py): its platforms and enemies, the exit portal,
    respawning, the hazard and exit queries and the per-frame update order. */
module Levels {
  import opened Constants
  import opened Geometry
  import opened Events
  import opened Options
  import opened Platforms
  import opened Players
  import opened Enemies
  import opened Backgrounds

  /** An entry of LEVELS (src/level_data.py); lives is absent when the entry
      has no "lives" key. */
  datatype LevelData = LevelData(
    name: string,
    backgroundColor: (int, int, int),
    playerStart: (int, int),
    exitPos: (int, int),
    lives: Option<int>,
    platforms: seq<(int, int, int, int)>,
    enemies: seq<(int, int, int, string)>)

  // ---------------------------------------------------------------- level number

  /** Python's `sub in s` for strings. */
  predicate HasInfix(s: string, sub: string)
    decreases |s|
  {
    if |s| < |sub| then false
    else s[..|sub|] == sub || HasInfix(s[1..], sub)
  }

  predicate OccursAt(s: string, sub: string, i: int)
  {
    0 <= i <= |s| - |sub| && s[i..i + |sub|] == sub
  }

  /** HasInfix finds sub exactly when it occurs at some position of s. */
  lemma {:induction false} HasInfixExactly(s: string, sub: string)
    decreases |s|
    ensures HasInfix(s, sub) <==> exists i :: OccursAt(s, sub, i)
  {
    if |s| >= |sub| {
      if s[..|sub|] == sub {
        assert OccursAt(s, sub, 0);
      } else {
        HasInfixExactly(s[1..], sub);
        if HasInfix(s[1..], sub) {
          var i :| OccursAt(s[1..], sub, i);
          assert s[i + 1..i + 1 + |sub|] == s[1..][i..i + |sub|];
          assert OccursAt(s, sub, i + 1);
        }
        if exists i :: OccursAt(s, sub, i) {
          var i :| OccursAt(s, sub, i);
          assert i != 0;
          assert s[1..][i - 1..i - 1 + |sub|] == s[i..i + |sub|];
          assert OccursAt(s[1..], sub, i - 1);
        }
      }
    }
  }

  /** The level number Level.__init__ hands to the background. */
  function LevelNumber(name: string): int
  {
    if HasInfix(name, "Level 2") then 2
    else if HasInfix(name, "Level 3") then 3
    else 1
  }

  /** The level number is 2 when the name contains "Level 2", else 3 when it
      contains "Level 3", else 1; "Level 2" wins when both occur. */
  lemma LevelNumberCases(name: string)
    ensures var n := LevelNumber(name);
            var c2 := exists i :: OccursAt(name, "Level 2", i);
            var c3 := exists i :: OccursAt(name, "Level 3", i);
            (n == 2 <==> c2) && (n == 3 <==> !c2 && c3) && (n == 1 <==> !c2 && !c3)
  {
    HasInfixExactly(name, "Level 2");
    HasInfixExactly(name, "Level 3");
  }

  // ---------------------------------------------------------------- respawn

  /** reset_player_position on the player's state. */
  function Respawn(s: PlayerState, start: (int, int), now: real): PlayerState
  {
    MakeInvincible(s.(rect := s.rect.(x := start.0, y := start.1), vx := 0.0, vy := 0.0), now)
  }

  /** A respawned player stands still at the start, invincible from now on,
      and keeps its size, its jumps and every glitch-controlled field. */
  lemma RespawnEffects(s: PlayerState, start: (int, int), now: real)
    ensures var r := Respawn(s, start, now);
            r.rect == Rect(start.0, start.1, s.rect.w, s.rect.h) &&
            r.vx == 0.0 && r.vy == 0.0 && r.invincible && r.invincibleTimer == now &&
            r.jumpCount == s.jumpCount && r.onGround == s.onGround && r.wallSliding == s.wallSliding &&
            r.jumpHeld == s.jumpHeld && r.jumpTime == s.jumpTime &&
            r.gravity == s.gravity && r.speed == s.speed && r.ceilingEnabled == s.ceilingEnabled &&
            r.facingRight == s.facingRight &&
            (FitsScreen(s) && JumpBudget(s) ==> FitsScreen(r) && JumpBudget(r))
  {
  }

  // ---------------------------------------------------------------- hazards

  /** What check_enemy_collision finds first. */
  datatype Hazard = NoHazard | EnemyContact(enemy: nat) | ProjectileContact(enemy: nat, projectile: nat)

  /** A hazard found in the suffix starting at position k. */
  function HazardFrom(h: Hazard, k: nat): Hazard
  {
    match h
    case NoHazard => NoHazard
    case EnemyContact(i) => EnemyContact(i + k)
    case ProjectileContact(i, j) => ProjectileContact(i + k, j)
  }

  function ProjectileFrom(f: Option<nat>, k: nat): Option<nat>
  {
    match f
    case None => None
    case Some(j) => Some(j + k)
  }

  function FirstProjectile(r: Rect, ps: seq<Projectile>): (f: Option<nat>)
    ensures f.Some? ==> f.value < |ps|
  {
    if ps == [] then None
    else if Collides(r, ps[0].rect) then Some(0)
    else ProjectileFrom(FirstProjectile(r, ps[1..]), 1)
  }

  /** The first projectile the player touches, if any. */
  lemma {:induction false} FirstProjectileExactly(r: Rect, ps: seq<Projectile>)
    ensures var f := FirstProjectile(r, ps);
            (f == None <==> forall j :: 0 <= j < |ps| ==> !Collides(r, ps[j].rect)) &&
            (f.Some? ==> f.value < |ps| && Collides(r, ps[f.value].rect) &&
                         forall j :: 0 <= j < f.value ==> !Collides(r, ps[j].rect))
  {
    if ps != [] && !Collides(r, ps[0].rect) {
      FirstProjectileExactly(r, ps[1..]);
      assert forall j :: 1 <= j < |ps| ==> ps[j] == ps[1..][j - 1];
    }
  }

  /** The scan of check_enemy_collision over (enemy box, projectiles) pairs:
      enemies in order, each enemy's box before its projectiles. */
  function FirstHazard(r: Rect, zs: seq<(Rect, seq<Projectile>)>): (h: Hazard)
    ensures h != NoHazard ==> h.enemy < |zs|
    ensures h.ProjectileContact? ==> h.projectile < |zs[h.enemy].1|
  {
    if zs == [] then NoHazard
    else if Collides(r, zs[0].0) then EnemyContact(0)
    else match FirstProjectile(r, zs[0].1)
         case Some(j) => ProjectileContact(0, j)
         case None => HazardFrom(FirstHazard(r, zs[1..]), 1)
  }

  /** The player touches neither an enemy's box nor any of its projectiles. */
  predicate Untouched(r: Rect, z: (Rect, seq<Projectile>))
  {
    !Collides(r, z.0) && forall j :: 0 <= j < |z.1| ==> !Collides(r, z.1[j].rect)
  }

  /** Nothing is found exactly when the player touches no enemy and no
      projectile; what is found is touched, and nothing scanned before it is. */
  lemma {:induction false} FirstHazardExactly(r: Rect, zs: seq<(Rect, seq<Projectile>)>)
    ensures var h := FirstHazard(r, zs);
            (h == NoHazard <==> forall i :: 0 <= i < |zs| ==> Untouched(r, zs[i])) &&
            (h.EnemyContact? ==> h.enemy < |zs| && Collides(r, zs[h.enemy].0)) &&
            (h.ProjectileContact? ==>
               h.enemy < |zs| && h.projectile < |zs[h.enemy].1| && !Collides(r, zs[h.enemy].0) &&
               Collides(r, zs[h.enemy].1[h.projectile].rect) &&
               forall j :: 0 <= j < h.projectile ==> !Collides(r, zs[h.enemy].1[j].rect)) &&
            (h != NoHazard ==> h.enemy < |zs| && forall i :: 0 <= i < h.enemy ==> Untouched(r, zs[i]))
  {
    if zs != [] {
      FirstProjectileExactly(r, zs[0].1);
      if !Collides(r, zs[0].0) && FirstProjectile(r, zs[0].1) == None {
        assert Untouched(r, zs[0]);
        FirstHazardExactly(r, zs[1..]);
        assert forall i :: 1 <= i < |zs| ==> zs[i] == zs[1..][i - 1];
      }
    }
  }

  /** Each enemy's box and projectiles, in group order. */
  function Zones(es: seq<Enemy>): seq<(Rect, seq<Projectile>)>
    reads es
  {
    seq(|es|, i reads es requires 0 <= i < |es| => (es[i].rect, es[i].projectiles))
  }

  predicate DistinctEnemies(es: seq<Enemy>)
  {
    forall i, j :: 0 <= i < j < |es| ==> es[i] != es[j]
  }

  /** The LevelExit sprite's 50 by 80 box. */
  function ExitRect(pos: (int, int)): Rect
  {
    Rect(pos.0, pos.1, 50, 80)
  }

  // ---------------------------------------------------------------- loading

  /** load_platforms: one new platform per tuple, in data order. */
  method LoadPlatforms(data: seq<(int, int, int, int)>) returns (ps: seq<Platform>)
    ensures |ps| == |data| && Distinct(ps)
    ensures forall i :: 0 <= i < |ps| ==>
              fresh(ps[i]) && ps[i].rect == Rect(data[i].0, data[i].1, data[i].2, data[i].3) &&
              ps[i].Rec() == PlatformRec(255, false, true)
  {
    ps := [];
    var i := 0;
    while i < |data|
      invariant 0 <= i <= |data| && |ps| == i && Distinct(ps)
      invariant forall k :: 0 <= k < i ==>
                  fresh(ps[k]) && ps[k].rect == Rect(data[k].0, data[k].1, data[k].2, data[k].3) &&
                  ps[k].Rec() == PlatformRec(255, false, true)
    {
      var p := new Platform(data[i].0, data[i].1, data[i].2, data[i].3);
      ps := ps + [p];
      i := i + 1;
    }
  }

  /** load_enemies: one new enemy per tuple, in data order. */
  method LoadEnemies(data: seq<(int, int, int, string)>) returns (es: seq<Enemy>)
    ensures |es| == |data| && DistinctEnemies(es)
    ensures forall i :: 0 <= i < |es| ==>
              fresh(es[i]) && es[i].Valid() &&
              es[i].State() == InitialEnemy(data[i].0, data[i].1, data[i].2, KindOf(data[i].3))
  {
    es := [];
    var i := 0;
    while i < |data|
      invariant 0 <= i <= |data| && |es| == i && DistinctEnemies(es)
      invariant forall k :: 0 <= k < i ==>
                  fresh(es[k]) && es[k].Valid() &&
                  es[k].State() == InitialEnemy(data[k].0, data[k].1, data[k].2, KindOf(data[k].3))
    {
      var e := new Enemy(data[i].0, data[i].1, data[i].2, data[i].3);
      es := es + [e];
      i := i + 1;
    }
  }

  // ---------------------------------------------------------------- the level object

  class Level {
    const name: string
    const playerStart: (int, int)
    const exitRect: Rect
    const background: Background
    const platforms: seq<Platform>
    const enemies: seq<Enemy>

    /** The groups hold each sprite once. */
    ghost predicate Valid()
    {
      Distinct(platforms) && DistinctEnemies(enemies)
    }

    /** Level.__init__; lines and blocks are the background's random draws. */
    constructor (data: LevelData, lines: seq<LineDraw>, blocks: seq<BlockDraw>)
      requires DrawsOk(LevelNumber(data.name), lines, blocks)
      ensures name == data.name && playerStart == data.playerStart && exitRect == ExitRect(data.exitPos)
      ensures fresh(background) && background.levelNum == LevelNumber(data.name)
      ensures background.State() == BackgroundState(MakeLines(lines), MakeBlocks(blocks), 0)
      ensures |platforms| == |data.platforms| && |enemies| == |data.enemies| && Valid()
      ensures forall i :: 0 <= i < |platforms| ==>
                fresh(platforms[i]) &&
                platforms[i].rect == Rect(data.platforms[i].0, data.platforms[i].1,
                                          data.platforms[i].2, data.platforms[i].3) &&
                platforms[i].Rec() == PlatformRec(255, false, true)
      ensures forall i :: 0 <= i < |enemies| ==>
                fresh(enemies[i]) && enemies[i].Valid() &&
                enemies[i].State() == InitialEnemy(data.enemies[i].0, data.enemies[i].1,
                                                   data.enemies[i].2, KindOf(data.enemies[i].3))
    {
      name := data.name;
      playerStart := data.playerStart;
      exitRect := ExitRect(data.exitPos);
      background := new Background(LevelNumber(data.name), lines, blocks);
      var ps := LoadPlatforms(data.platforms);
      var es := LoadEnemies(data.enemies);
      platforms, enemies := ps, es;
    }

    /** reset_player_position; now is the time set_invincible reads. */
    method ResetPlayerPosition(player: Player, now: real)
      modifies player
      ensures player.State() == Respawn(old(player.State()), playerStart, now)
    {
      player.rect := player.rect.(x := playerStart.0);
      player.rect := player.rect.(y := playerStart.1);
      player.velocityX := 0.0;
      player.velocityY := 0.0;
      player.SetInvincible(now);
    }

    /** check_exit_collision: the player overlaps the 50 by 80 portal. */
    predicate CheckExitCollision(player: Player)
      reads player
    {
      Collides(player.rect, exitRect)
    }

    /** check_enemy_collision. */
    method CheckEnemyCollision(player: Player) returns (hit: bool)
      requires Valid()
      modifies enemies
      ensures player.invincible ==> !hit
      ensures var h := if player.invincible then NoHazard else FirstHazard(player.rect, old(Zones(enemies)));
              hit == (h != NoHazard) &&
              forall i :: 0 <= i < |enemies| ==>
                enemies[i].State() ==
                  if h.ProjectileContact? && h.enemy == i
                  then old(enemies[i].State()).(projectiles :=
                         old(enemies[i].projectiles[..h.projectile] + enemies[i].projectiles[h.projectile + 1..]))
                  else old(enemies[i].State())
    {
      if player.invincible {
        return false;
      }
      var h := FindHazard(player.rect);
      if h.ProjectileContact? {
        enemies[h.enemy].RemoveProjectile(h.projectile);
      }
      return h != NoHazard;
    }

    /** The loop of check_enemy_collision, up to its first hit. */
    method FindHazard(r: Rect) returns (h: Hazard)
      ensures h == FirstHazard(r, Zones(enemies))
    {
      ghost var zs := Zones(enemies);
      var i := 0;
      while i < |enemies|
        invariant 0 <= i <= |enemies|
        invariant FirstHazard(r, zs) == HazardFrom(FirstHazard(r, zs[i..]), i)
      {
        assert zs[i..][1..] == zs[i + 1..];
        var e := enemies[i];
        if Collides(r, e.rect) {
          return EnemyContact(i);
        }
        var f := ScanProjectiles(r, e.projectiles);
        if f.Some? {
          return ProjectileContact(i, f.value);
        }
        i := i + 1;
      }
      return NoHazard;
    }

    /** Level.update; roll, lines and blocks are the background's draws,
        keys and now what the player's update reads. */
    method Update(player: Player, keys: Keys, now: real, roll: real, lines: seq<LineDraw>, blocks: seq<BlockDraw>)
      requires Valid() && 0.0 <= roll < 1.0
      requires background.glitchTimer + 1 >= REGEN_PERIOD && roll < REGEN_CHANCE ==>
                 DrawsOk(background.levelNum, lines, blocks)
      modifies background, platforms, enemies, player
      ensures background.State() == BackgroundTick(old(background.State()), roll, lines, blocks)
      ensures unchanged(platforms)
      ensures forall i :: 0 <= i < |enemies| ==>
                enemies[i].State() == EnemyTick(old(enemies[i].State()), old(Footings(platforms)), Some(old(player.rect)))
      ensures player.State() == Tick(old(player.State()), keys, now, RectsOf(old(SolidOf(platforms))))
      ensures old(player.Valid()) ==> player.Valid()
    {
      UpdateScenery(player, roll, lines, blocks);
      var solid := SolidOf(platforms);
      player.Update(keys, now, solid);
    }

    /** The part of Level.update before the player moves: background,
        platforms, then every enemy. */
    method UpdateScenery(player: Player, roll: real, lines: seq<LineDraw>, blocks: seq<BlockDraw>)
      requires Valid() && 0.0 <= roll < 1.0
      requires background.glitchTimer + 1 >= REGEN_PERIOD && roll < REGEN_CHANCE ==>
                 DrawsOk(background.levelNum, lines, blocks)
      modifies background, platforms, enemies
      ensures background.State() == BackgroundTick(old(background.State()), roll, lines, blocks)
      ensures unchanged(platforms)
      ensures forall i :: 0 <= i < |enemies| ==>
                enemies[i].State() == EnemyTick(old(enemies[i].State()), old(Footings(platforms)), Some(player.rect))
    {
      background.Update(roll, lines, blocks);
      UpdatePlatforms();
      UpdateEnemies(player);
    }

    /** The platform loop of Level.update. */
    method UpdatePlatforms()
      modifies platforms
      ensures unchanged(platforms)
    {
      var k := 0;
      while k < |platforms|
        invariant 0 <= k <= |platforms| && unchanged(platforms)
      {
        platforms[k].Update();
        k := k + 1;
      }
    }

    /** The enemy loop of Level.update: each enemy against all platforms. */
    method UpdateEnemies(player: Player)
      requires Valid()
      modifies enemies
      ensures forall i :: 0 <= i < |enemies| ==>
                enemies[i].State() == EnemyTick(old(enemies[i].State()), Footings(platforms), Some(player.rect))
    {
      ghost var before := States(enemies);
      ghost var fs := Footings(platforms);
      ghost var target := Some(player.rect);
      ghost var after := seq(|before|, k requires 0 <= k < |before| => EnemyTick(before[k], fs, target));
      var i := 0;
      while i < |enemies|
        invariant 0 <= i <= |enemies| && Footings(platforms) == fs
        invariant Ticked(before, after, i)
      {
        UpdateEnemy(i, player, before, after);
        i := i + 1;
      }
    }

    /** The states of es, in order. */
    function States(es: seq<Enemy>): seq<EnemyState>
      reads es
    {
      seq(|es|, i reads es requires 0 <= i < |es| => es[i].State())
    }

    /** The first i enemies have gone from before to after, the rest have not moved. */
    ghost predicate Ticked(before: seq<EnemyState>, after: seq<EnemyState>, i: nat)
      reads this, enemies
    {
      |before| == |enemies| == |after| && i <= |enemies| &&
      (forall k :: 0 <= k < i ==> enemies[k].State() == after[k]) &&
      (forall k :: i <= k < |enemies| ==> enemies[k].State() == before[k])
    }

    /** One turn of the enemy loop. */
    method UpdateEnemy(i: nat, player: Player, ghost before: seq<EnemyState>, ghost after: seq<EnemyState>)
      requires Valid() && i < |enemies| && Ticked(before, after, i)
      requires after[i] == EnemyTick(before[i], Footings(platforms), Some(player.rect))
      modifies enemies[i]
      ensures Ticked(before, after, i + 1)
    {
      enemies[i].Update(platforms, player);
    }
  }

  /** The projectile loop of check_enemy_collision, up to the first hit. */
  method ScanProjectiles(r: Rect, ps: seq<Projectile>) returns (f: Option<nat>)
    ensures f == FirstProjectile(r, ps)
  {
    var j := 0;
    while j < |ps|
      invariant 0 <= j <= |ps|
      invariant FirstProjectile(r, ps) == ProjectileFrom(FirstProjectile(r, ps[j..]), j)
    {
      assert ps[j..][1..] == ps[j + 1..];
      if Collides(r, ps[j].rect) {
        return Some(j);
      }
      j := j + 1;
    }
    return None;
  }
}
