# Glitch Runner — a verified model of the simulation core

Glitch Runner is a pygame platformer. The player runs and jumps through a few levels. The
player has a double jump, a wall slide and wall jump, and a variable jump height. Patrolling,
jumping and shooting enemies are hazards. Every ten seconds a "glitch" corrupts the game for
five seconds. A glitch can reverse gravity, make the sprites flicker, lag the input, tint or
shake or pixelate the screen, make platforms fade away, or change the player's speed.

This project models the rules that drive one frame of the game, and proves what they
guarantee. One module stands for each source file:

- `Constants` (constants.dfy) holds the tuning values of `src/constants.py`.
- `Geometry`, `Events` and `Options` hold:
  - the int box standing for `pygame.Rect`, with its edges, edge setters, `inflate` and `colliderect`;
  - Python's truncating `int()`;
  - the keyboard events;
  - an `Option` type.
- `Players` (player.dfy) models the player's state machine, which is described further down.
- `Enemies` (enemy.dfy) models enemies and projectiles:
  - gravity;
  - landing on solid platforms only;
  - the side collision that reverses direction;
  - the patrol bounds around `start_x`;
  - the jumper and shooter timers;
  - projectile motion and retirement.
- `Platforms` (platform.dfy) models the platform record whose `alpha`, `solid` and
  `disappearing` fields the glitch engine changes.
- `Levels` (level.dfy) models:
  - loading;
  - the level number taken from the name;
  - respawn;
  - the exit and hazard checks, the hazard check removing the projectile that hit;
  - the order of `Level.update`.
- `Glitches` (glitch.dfy) models the glitch scheduler:
  - interval-triggered activation, and expiry with revert;
  - the eight effects, each switched on and off;
  - the input-lag buffer;
  - the flicker, shake and fade updates done every frame;
  - the notification text and the colour clamp of the overlay.
- `Games` (game.dfy) models the game's state machine:
  - the five states: menu, playing, game over, level complete, game completed;
  - lives, score and the time bonus;
  - the timed transitions;
  - the routing of input through the glitch engine.
- `Backgrounds` (background.dfy) models the background's glitch lines and blocks: how they
  are generated, how they age, and the regeneration timer of 60 frames.

The player's state machine in `Players` covers:
- key events and held keys;
- the ground, wall and double jump with a budget of two jumps;
- the variable jump height;
- gravity with its two terminal speeds;
- the wall-slide check;
- the platform collision resolver, with its 10-pixel tolerances;
- the screen-edge clamps;
- invincibility.

Objects that the source updates in place are classes with real fields: `Player`, `Enemy`,
`Platform`, `Level`, `GlitchEngine`, `Game` and `Background`.
- `State()` (or `Rec()`/`Snapshot()`) is a value snapshot of each class.
- Every state-changing method promises that the new snapshot is a pure function of the old
  one: `ensures State() == PressJump(old(State()))`, for example.
- The properties are lemmas about those functions.
  - The player lemmas prove that the jump budget is kept.
  - They prove the screen bounds, the landing rule and the invincibility window.
  - The enemy lemmas prove that the heading invariant is kept and that projectiles leave the screen.
  - The glitch lemmas prove that activation stays within its ranges and that each revert restores the baseline.
  - They also prove that the lag buffer stays in tick order, so it is first in, first out, and that the fade has a fixed schedule.
  - The game lemmas prove the transitions from each screen, and that the game stays inside its reachable states.

Modelling conventions:

- **Reals.** Velocities, gravity, speeds and the speed multiplier are Dafny `real`.
  - `GRAVITY = 0.8`, for example, is the exact rational 4/5, not an IEEE double.
  - Rounding of floating-point numbers is not modelled.
- **Rect conversion.** A pygame `Rect` keeps ints. Adding a fractional velocity to `rect.x`
  or `rect.y` goes through `RectCoord`, which truncates toward zero. This conversion happens
  inside pygame; it is an assumption of the model.
- **colliderect.** `colliderect` is taken as strict overlap: boxes that only share an edge do
  not collide. This is an assumption about pygame.
- **Time.** Every reading of `time.time()` in one call is one parameter `now: real`, and
  `pygame.time.get_ticks()` is a parameter `ticks: int`. That clock never goes back, so a
  call that buffers input requires `ticks` to be no earlier than any buffered event.
- **Randomness.** Every `random.*` draw is a parameter, with a precondition for the range the
  source draws from:
  - a `Draw` is the effect chosen together with its magnitudes;
  - the shake offsets, the background's roll and its line and block draws are separate parameters.
- **Sprite groups.** Groups are sequences iterated in insertion order. A level's platform and
  enemy lists never change after loading. Projectiles are values in a sequence owned by their
  enemy, so `kill()` is removal from that sequence.
- **Removal by equality.** `remove` on a list element that compares equal is modelled as
  filtering that keeps order. This applies to `active_glitches`, the input buffer and the
  background element lists. Equal entries are always removed together, so the result is the same.

In these places the model follows the code as written:

- An enemy's side collision has no tolerance, and it reverses direction instead of stopping
  (`src/enemy.py:74-81`).
- Reversed gravity sets gravity to `-GRAVITY`; it does not flip the current sign
  (`src/glitch_engine.py:100`).
- Within a frame, every enemy moves before the player (`src/level.py:115-125`).
- Nothing restores faded platforms when a level ends. Levels persist, so a platform replaced
  in the vanish list by a second vanish stays as it was (`src/glitch_engine.py:206`);
  `GlitchEngine.Update` states that such a platform is left untouched.
- The fall check of `Game.update` (`src/game.py:183`) never fires. The player's floor clamp
  (`src/player.py:339-341`) runs first, so the top of the player is never below the screen,
  and a frame costs at most one life.
- A respawn keeps the jump count, gravity, speed and ceiling (`src/level.py:75-80`).

## Model

| member | source | states |
|---|---|---|
| Geometry.Rect.WithLeft | src/player.py:297-298 | assigning `rect.left` puts the left edge at the value and keeps the size and the vertical position |
| Geometry.Rect.WithRight | src/player.py:294-295 | assigning `rect.right` puts the right edge at the value and keeps the size and the vertical position |
| Geometry.Rect.WithTop | src/player.py:289-290 | assigning `rect.top` puts the top edge at the value and keeps the size and the horizontal position |
| Geometry.Rect.WithBottom | src/player.py:278-279 | assigning `rect.bottom` puts the bottom edge at the value and keeps the size and the horizontal position |
| Geometry.Trunc | src/game.py:166 | Python's `int()` on a float: the result has the sign of the input, lies within one of it, and is not farther from zero |
| Geometry.RectCoord | src/player.py:319-320 | a fractional position lands on the integer toward zero, less than one pixel away |
| Platforms.Platform.constructor | src/platform.py:5-21 | a new platform has the box given by its arguments, alpha 255, is solid and not disappearing |
| Platforms.Platform.Update | src/platform.py:23-25 | the placeholder update changes nothing |
| Platforms.SolidOfExactly | src/level.py:122 | the solid list holds exactly the solid platforms of the level, and no more of them |
| Players.PressJumpCases | src/player.py:160-200 | the four outcomes of a jump press in source order: ground jump with count 1; wall jump away from the wall with the count kept; air jump that spends one jump; nothing when the budget is spent. A jump press keeps the 0..2 budget |
| Players.AirJumpsAreBounded | src/player.py:177-181 | in the air, n presses spend min(2, count + n) jumps, and presses past the budget change nothing |
| Players.KeyEventEffects | src/player.py:120-139 | LEFT/RIGHT presses set the speed and the facing; a LEFT release stops only leftward motion and a RIGHT release only rightward; SPACE release ends the held jump; other events change nothing |
| Players.KeyEventKeeps | src/player.py:120-139 | no key event moves the player or breaks the jump budget |
| Players.HeldKeysEffects | src/player.py:141-158 | the held arrows set vx; lift (vy - 0.5, jump time + 1) happens exactly while space and the jump are held, the window is open and the player rises, so jump time never passes 15 |
| Players.GravityEffects | src/player.py:202-212 | gravity changes only vy: not at all on the ground, half gravity capped at the slide speed on a wall, full gravity capped at MAX_FALL_SPEED otherwise |
| Players.ScanWallSlideFindsFirst | src/player.py:220-240 | wall sliding starts exactly when some platform is touched at the side, the first touched platform makes the player face away from it, and no touch stops the slide; nothing else changes |
| Players.WallSlideCheckEffects | src/player.py:214-216 | the wall-slide check does nothing on the ground or while not falling, and changes only the slide flag and the facing |
| Players.ResolveOneCases | src/player.py:275-299 | one overlapping platform: landing snaps the bottom to its top, zeroes vy, grounds the player and resets the count; else a ceiling hit snaps the top; else a side snaps one edge and zeroes vx; a platform not touched changes nothing |
| Players.ResolveAllGround | src/player.py:275-299 | across the platform loop, a player that lands keeps vy 0 and count 0; one that never lands keeps its count |
| Players.ResolveCollisionsGround | src/player.py:270-299 | after check_collisions the player is grounded only by a landing, with count 0 and vy 0; otherwise the count is unchanged, and the jump budget is kept |
| Players.InvincibilityWindow | src/player.py:306-309 | a player made invincible at t is still invincible at a check at `now` exactly when now - t <= 2 |
| Players.ClampLeftEffects | src/player.py:327-332 | the left clamp leaves the left edge at or right of 0 and alone when it already was; only the box, slide and facing change |
| Players.ClampRightEffects | src/player.py:333-338 | for a player narrower than the screen, the right clamp keeps both side edges on the screen and leaves an inside player alone |
| Players.ClampFloorEffects | src/player.py:339-343 | the floor clamp keeps the bottom on the screen; reaching the floor grounds the player with vy 0 and count 0 |
| Players.ClampCeilingEffects | src/player.py:345-347 | with the ceiling on the top stays at or below 0; with it off, things stay as they are |
| Players.ClampToScreenBounds | src/player.py:326-347 | for a player that fits, the clamps keep it inside the left, right and bottom edges, and inside the top edge when the ceiling is on; the floor lands it; a player already inside is left alone |
| Players.TickInvariants | src/player.py:301-347 | one update keeps the player on the screen and keeps the jump budget 0..2; ending grounded with platforms present means count 0 |
| Players.NoFallBelowScreen | src/player.py:339-341 | after the floor clamp of one update, the top of the player is never below the screen, so the fall check cannot fire |
| Players.Player.constructor | src/player.py:8-64 | the new player starts in the initial state: at rest at x = 100, 100 pixels above the floor, airborne, no jumps spent, with normal gravity and speed |
| Players.Player.HandleEvent | src/player.py:120-139 | the new state follows a key event as the event lemmas describe |
| Players.Player.HandleInput | src/player.py:141-158 | the new state is the held-key step whose lift is bounded by HeldKeysEffects |
| Players.Player.HandleJumpPress | src/player.py:160-183 | the new state is the jump press whose outcomes PressJumpCases lists |
| Players.Player.Jump | src/player.py:185-188 | the new state is jump(): vy = -jump_power, airborne and not sliding |
| Players.Player.WallJump | src/player.py:190-200 | the new state is the wall jump away from the facing wall |
| Players.Player.ApplyGravity | src/player.py:202-212 | the new state is the gravity step GravityEffects bounds |
| Players.Player.CheckWallSlide | src/player.py:214-240 | the loop with early return gives the wall-slide check over the platform boxes |
| Players.Player.ResolveAgainst | src/player.py:276-299 | the loop body equals the one-platform resolver ResolveOneCases describes |
| Players.Player.CheckCollisions | src/player.py:270-299 | the loop gives the resolver over the platform boxes in order, after clearing on_ground |
| Players.Player.MoveByVelocity | src/player.py:319-320 | the box moves by the velocities through the Rect conversion |
| Players.Player.ClampLeftEdge | src/player.py:327-332 | the new state is the left clamp |
| Players.Player.ClampRightEdge | src/player.py:333-338 | the new state is the right clamp |
| Players.Player.ClampBottomEdge | src/player.py:339-343 | the new state is the floor clamp |
| Players.Player.ClampTopEdge | src/player.py:345-347 | the new state is the ceiling clamp |
| Players.Player.ExpireInvincible | src/player.py:306-309 | invincibility ends only once more than 2 seconds passed |
| Players.Player.Update | src/player.py:301-347 | the new state is one tick, on which TickInvariants holds, and the class invariant is kept |
| Players.Player.SetInvincible | src/player.py:352-354 | the player becomes invincible from `now` |
| Enemies.KindOf | src/enemy.py:6-9 | the type string makes a jumper exactly for "jumper", a shooter exactly for "shooter", and a basic enemy otherwise |
| Enemies.AdvanceAllAppend | src/enemy.py:109-116 | the projectile loop works one projectile at a time, so the survivors keep the order of the list |
| Enemies.AdvanceAllSurvivors | src/enemy.py:109-116 | the projectiles kept are exactly the moved ones that are still on the screen |
| Enemies.AdvanceTimesPosition | src/enemy.py:171-173 | after n moves a projectile has moved 7·direction·n pixels horizontally and none vertically |
| Enemies.ProjectileLeavesScreen | src/enemy.py:112-116 | a projectile fired inside the screen is off it, and so retired, within 117 moves |
| Enemies.EnemyResolveOneCases | src/enemy.py:62-81 | a platform that is not solid or not overlapped changes nothing; a landing puts the bottom on the platform's top with vy 0 and on_ground set; a ceiling hit puts the top on its bottom with vy 0; every other overlap, with no tolerance, turns the enemy and puts it against the side it ran into; the heading invariant holds and the other fields are kept |
| Enemies.EnemyIgnoresVanished | src/enemy.py:63 | the collision pass over all platforms equals the pass over the solid ones |
| Enemies.EnemyResolveAllHeading | src/enemy.py:61-81 | the collision loop keeps direction ±1 with vx = ENEMY_SPEED·direction, and leaves timers, projectiles and patrol settings alone |
| Enemies.BehaveJumper | src/enemy.py:92-96 | a jumper counts only grounded frames, its timer stays in [0, 119], and it jumps with vy = -10.5 when the timer wraps |
| Enemies.BehaveShooter | src/enemy.py:98-106 | a shooter fires exactly when due and the target is within 100 pixels vertically: one projectile appended at its centre, aimed at the target's side, timer reset; otherwise it only counts |
| Enemies.PatrolEffects | src/enemy.py:84-89 | past the right bound the enemy heads left, past the left bound it heads right; only direction and vx change |
| Enemies.BehaveFrame | src/enemy.py:91-106 | the behaviour step never moves or turns the enemy, and only a shooter adds projectiles |
| Enemies.EnemyTickInvariants | src/enemy.py:49-121 | one update keeps the heading invariant and the patrol direction; all projectiles left are on the screen; a jumper's timer stays in range; only shooters gain projectiles |
| Enemies.Enemy.constructor | src/enemy.py:6-47 | a new enemy moves right at ENEMY_SPEED, airborne, with zero timers and no projectiles, and satisfies the heading invariant |
| Enemies.Enemy.ApplyGravity | src/enemy.py:51-54 | gravity capped at MAX_FALL_SPEED while airborne, nothing on the ground |
| Enemies.Enemy.MoveByVelocity | src/enemy.py:57-58 | the box moves by the velocities through the Rect conversion |
| Enemies.Enemy.ResolveAgainst | src/enemy.py:63-81 | the loop body equals the one-platform rule EnemyResolveOneCases describes |
| Enemies.Enemy.CheckPlatforms | src/enemy.py:61-81 | the loop gives the collision pass over the platforms in order, after clearing on_ground |
| Enemies.Enemy.PatrolLimits | src/enemy.py:84-89 | the new state is the patrol step |
| Enemies.Enemy.Shoot | src/enemy.py:123-129 | one projectile appended at the enemy's centre with the given direction |
| Enemies.Enemy.Behaviour | src/enemy.py:91-106 | the new state is the jumper or shooter step towards the player's box, or none without a player |
| Enemies.Enemy.UpdateProjectiles | src/enemy.py:109-116 | the projectile list becomes the survivors AdvanceAllSurvivors characterises; nothing else changes |
| Enemies.Enemy.Update | src/enemy.py:49-121 | the new state is one enemy tick, on which EnemyTickInvariants holds, and the invariant is kept |
| Enemies.Enemy.Land | src/enemy.py:50-81 | gravity, motion and the platform pass, in that order |
| Enemies.Enemy.Act | src/enemy.py:83-116 | the patrol bounds, the behaviour and the projectiles, in that order |
| Enemies.Enemy.RemoveProjectile | src/level.py:100 | `projectile.kill()` removes exactly that projectile and keeps the others in order |
| Levels.HasInfixExactly | src/level.py:53-55 | Python's `in` on strings holds exactly when the substring occurs at some position |
| Levels.LevelNumberCases | src/level.py:52-57 | the level number is 2 exactly when the name contains "Level 2", 3 when it contains "Level 3" but not "Level 2", and 1 otherwise |
| Levels.RespawnEffects | src/level.py:75-80 | a respawned player stands still at the start and is invincible from now; it keeps its size, jumps, ground and slide flags, gravity, speed and ceiling, and the screen and budget invariants |
| Levels.FirstProjectile | src/level.py:98-101 | the projectile found is an index of the list |
| Levels.FirstProjectileExactly | src/level.py:98-101 | nothing is found exactly when the player touches no projectile; otherwise the first touched one, with none before it touched |
| Levels.FirstHazard | src/level.py:93-103 | a hazard found names an existing enemy and, for a projectile, an existing projectile of that enemy |
| Levels.FirstHazardExactly | src/level.py:93-103 | nothing is found exactly when no enemy and no projectile is touched; an enemy found is touched; a projectile found is touched, follows an untouched enemy box and untouched earlier projectiles; all enemies scanned before are untouched |
| Levels.LoadPlatforms | src/level.py:63-67 | one new platform per tuple in data order, each with that box, alpha 255, solid and not disappearing |
| Levels.LoadEnemies | src/level.py:69-73 | one new enemy per tuple in data order, in its initial state with the kind its type string names |
| Levels.ScanProjectiles | src/level.py:98-101 | the projectile loop stops at the first projectile touched |
| Levels.Level.constructor | src/level.py:39-61 | the name, start and 50 by 80 exit portal come from the data; the background gets the derived level number and its first generation; platforms and enemies are loaded in order |
| Levels.Level.ResetPlayerPosition | src/level.py:75-80 | the player is respawned at the start as RespawnEffects describes |
| Levels.Level.CheckEnemyCollision | src/level.py:87-103 | an invincible player is never hit and nothing changes; otherwise the result is whether the first hazard exists, and only the projectile that hit, if any, is removed |
| Levels.Level.FindHazard | src/level.py:93-103 | the enemy loop finds the first hazard of the scan order |
| Levels.Level.Update | src/level.py:106-125 | the background ticks, platforms stay as they are, every enemy takes one tick against all platforms and the player's box, then the player takes one tick against exactly the solid platforms |
| Levels.Level.UpdateScenery | src/level.py:107-116 | the background ticks and every enemy takes one tick against all platforms |
| Levels.Level.UpdatePlatforms | src/level.py:111-112 | the platform loop changes nothing |
| Levels.Level.UpdateEnemies | src/level.py:115-116 | every enemy, and each only once, takes one tick against all platforms and the player's box |
| Levels.Level.UpdateEnemy | src/level.py:116 | one turn of the enemy loop ticks the next enemy and leaves the others |
| Glitches.BannerShape | src/glitch_engine.py:89 | the notification is "GLITCH: " followed by the name with spaces for underscores in capitals; it holds no underscore and no lower-case letter |
| Glitches.OverlayChannel | src/glitch_engine.py:251-253 | the overlay channel is 128 + shift clamped to [0, 255] |
| Glitches.EligibleExactly | src/glitch_engine.py:199-201 | the eligible platforms are exactly those above the bottom 100 pixels, and they stay distinct |
| Glitches.PickedDistinct | src/glitch_engine.py:205-206 | a sample of distinct positions gives distinct platforms of the eligible list |
| Glitches.ActivationRanges | src/glitch_engine.py:124-193 | switched-on values stay in range: lag 5..15 with an empty buffer, colours ±100, shake 5..15, pixel size in {2,3,4,6,8}, speed PLAYER_SPEED·m in [2.5, 10]; reversed gravity negates vy and turns on the ceiling; the box, jumps and ground flag are kept |
| Glitches.RevertRestoresBaseline | src/glitch_engine.py:103-193 | each revert restores the baseline of the engine and player constructors: flicker on, lag 0 and empty buffer, colour (0,0,0), shake 0 at offset (0,0), pixel size 1, speed PLAYER_SPEED with multiplier 1, gravity GRAVITY without ceiling |
| Glitches.RevertUndoesActivation | src/glitch_engine.py:109-193 | switching an engine effect on then off equals switching it off alone for the colour, shake, pixelation, speed and lag effects; for flicker it also resets the timer to 0 with the sprites shown; the other effects leave the engine's values unchanged |
| Glitches.ReversedGravityRoundTrip | src/glitch_engine.py:96-107 | reversed gravity on then off gives back the player's vy, with normal gravity and no ceiling |
| Glitches.ReversedGravityNotReentrant | src/glitch_engine.py:96-107 | with two reversals on, the first revert already restores normal gravity and no ceiling, leaving vy negated |
| Glitches.SpeedChangeRoundTrip | src/glitch_engine.py:185-193 | a speed change and its revert give the player PLAYER_SPEED back and change nothing else |
| Glitches.FlickerCycle | src/glitch_engine.py:117-122 | from an activation, the timer counts frames modulo 5 and the state is toggled in odd five-frame blocks |
| Glitches.FlickerBounded | src/glitch_engine.py:117-122 | the flicker timer stays in [0, 4] and the state toggles exactly when it wraps |
| Glitches.FadeSchedule | src/glitch_engine.py:223-237 | after n frames a fading platform has alpha max(0, 255 - 5n), is solid exactly while alpha > 0, and is gone after 51 frames |
| Glitches.PerTickOnlyThree | src/glitch_engine.py:64-70 | only flicker, shake and vanish do per-frame work, and it never touches the player |
| Glitches.SurvivorsAppend | src/glitch_engine.py:59-62 | filtering the active glitches works piece by piece, in order |
| Glitches.SurvivorsExactly | src/glitch_engine.py:59-62 | a glitch stays active exactly when it is not older than 5 seconds |
| Glitches.TickAllFrame | src/glitch_engine.py:59-70 | the expiry loop never raises shake or lag, keeps the flicker timer in range, never touches the player's box, jumps or ground flag, and never creates a vanish list |
| Glitches.TickOneFrame | src/glitch_engine.py:60-70 | one visit of the loop keeps the facts TickAllFrame states |
| Glitches.TickAllStep | src/glitch_engine.py:59-70 | the loop over one more glitch is one more visit |
| Glitches.SurvivorsStep | src/glitch_engine.py:59-62 | visiting a glitch removes it where the survivors end, or keeps it there |
| Glitches.GravityRevertWins | src/glitch_engine.py:104-107 | an expired reversal always leaves normal gravity without ceiling, even with another reversal active |
| Glitches.VanishRevertEmptiesList | src/glitch_engine.py:213-221 | a vanish revert restores the listed platforms and empties the list, so a later vanish revert or fade finds nothing |
| Glitches.LagSplit | src/glitch_engine.py:146-149 | every buffered entry is either released or kept, and the kept ones are exactly those not yet due |
| Glitches.AllWaited | src/glitch_engine.py:146-149 | when all entries are due, all are released in order and none kept |
| Glitches.LagIsFifo | src/glitch_engine.py:134-151 | for a buffer filled with a clock that never goes back, the release is a prefix of the buffer in order and the kept entries are the rest |
| Glitches.ChosenWithin | src/glitch_engine.py:199-206 | every platform a vanish picks is one of the level's |
| Glitches.ArmEach | src/glitch_engine.py:209-212 | every listed platform gets alpha 255 and starts disappearing, its solid flag kept |
| Glitches.RestoreEach | src/glitch_engine.py:215-220 | every listed platform is restored to solid, alpha 255 and not disappearing |
| Glitches.FadeEach | src/glitch_engine.py:225-237 | every listed platform takes one fade step |
| Glitches.GlitchEngine.constructor | src/glitch_engine.py:7-41 | the engine starts from the baseline values, no active glitches and an empty vanish list, counting from `now` |
| Glitches.GlitchEngine.ReversedGravity | src/glitch_engine.py:96-107 | the player's vy, gravity and ceiling are switched as the round-trip lemmas describe |
| Glitches.GlitchEngine.FlickeringSprites | src/glitch_engine.py:109-115 | switching on restarts the timer visible; switching off makes the sprites visible; nothing else changes |
| Glitches.GlitchEngine.UpdateFlickering | src/glitch_engine.py:117-122 | one flicker step, bounded by FlickerBounded |
| Glitches.GlitchEngine.InputLag | src/glitch_engine.py:124-132 | the lag is set to the draw in [5, 15], or to 0, and the buffer is emptied either way |
| Glitches.GlitchEngine.ProcessInput | src/glitch_engine.py:134-139 | under lag the event is buffered with its tick and withheld; without lag it passes unchanged and the buffer is untouched; the buffer stays in tick order |
| Glitches.GlitchEngine.GetLaggedInput | src/glitch_engine.py:141-151 | the due events in buffer order are returned, only those are removed, and the rest stay; they are the oldest entries, in order, and the buffer stays in tick order |
| Glitches.GlitchEngine.ColorDistortion | src/glitch_engine.py:153-163 | the colour shift is the drawn triple, or (0, 0, 0) |
| Glitches.GlitchEngine.ScreenShake | src/glitch_engine.py:165-170 | the shake is the draw in [5, 15], or 0 with the offset reset |
| Glitches.GlitchEngine.UpdateScreenShake | src/glitch_engine.py:172-177 | while shaking, the new offset is within ±shake; otherwise it stays |
| Glitches.GlitchEngine.Pixelation | src/glitch_engine.py:179-183 | the pixel size is the draw from {2,3,4,6,8}, or 1 |
| Glitches.GlitchEngine.SpeedChange | src/glitch_engine.py:185-193 | the multiplier and the player's speed are set together, or both reset |
| Glitches.GlitchEngine.ArmPlatforms | src/glitch_engine.py:195-212 | with some platform eligible, the sample becomes the list and is armed; with none eligible nothing changes, and the old list is kept |
| Glitches.GlitchEngine.RestorePlatforms | src/glitch_engine.py:213-221 | every listed platform is restored and the list emptied |
| Glitches.GlitchEngine.UpdateDisappearingPlatforms | src/glitch_engine.py:223-237 | every listed platform fades one step, on the schedule FadeSchedule proves |
| Glitches.GlitchEngine.Activate | src/glitch_engine.py:83 | effect(True) for the drawn effect, on the engine, the player and the vanish list |
| Glitches.GlitchEngine.EndGlitch | src/glitch_engine.py:92-94 | effect(False) for the glitch's effect, on the engine, the player and the vanish list |
| Glitches.GlitchEngine.TickEffect | src/glitch_engine.py:64-70 | the per-frame work of an unexpired glitch, which PerTickOnlyThree limits |
| Glitches.GlitchEngine.Visit | src/glitch_engine.py:60-70 | an expired glitch is reverted and removed from its place; any other does its frame's work and stays; the schedule is untouched |
| Glitches.GlitchEngine.TriggerRandomGlitch | src/glitch_engine.py:72-90 | exactly one glitch started at `now` is appended, its effect switched on, and the notification set to its banner at `now` |
| Glitches.GlitchEngine.UpdateActiveGlitches | src/glitch_engine.py:59-70 | the active list becomes the unexpired glitches in order, and the world follows the loop over the copy |
| Glitches.GlitchEngine.VisitNext | src/glitch_engine.py:59-70 | one turn of the loop over the copy keeps the live list equal to the survivors so far followed by the unvisited glitches |
| Glitches.GlitchEngine.Update | src/glitch_engine.py:46-70 | a glitch starts exactly when more than 10 s passed since the last, and then resets the clock; expired glitches are reverted and dropped in order; the player's box and jumps are never changed; a platform a new vanish drops from the list is left untouched |
| Glitches.GlitchEngine.UpdateWithGlitch | src/glitch_engine.py:50-70 | a frame in which a glitch starts: activation, the clock reset, then the expiry loop; a platform a new vanish drops from the list is left untouched |
| Glitches.GlitchEngine.UpdateWithoutGlitch | src/glitch_engine.py:58-70 | a frame without a new glitch: only the expiry loop, the clock kept |
| Glitches.GlitchEngine.OverlayColor | src/glitch_engine.py:248-254 | every channel of the overlay colour is within [0, 255] |
| Games.TimeBonusBounds | src/game.py:166 | the time bonus lies in [0, 600], is 600 within the first second and 0 from the sixtieth, and never grows with time |
| Games.EnterR | src/game.py:107-134 | ENTER outside play keeps the game reachable and always leaves the screen it was on |
| Games.EnterCases | src/game.py:107-134 | ENTER: the menu plays the level with fresh lives; game over continues with the lives left, or goes to the menu with score 0 and level 0; level complete goes to the next level or the end; the end goes to the menu |
| Games.TimersR | src/game.py:194-203 | the timers keep the game reachable |
| Games.PlayOutcomeSettles | src/game.py:150-203 | the checks keep a playing game reachable, and the timers never fire in the frame play ends |
| Games.DoubleLoss | src/game.py:171-192 | the checks as written add up: an enemy touch and a fall would cost two lives (no playing frame falls, see NoFallBelowScreen), and an enemy touched in the exit frame overrides level complete but keeps the exit's points |
| Games.OneLifePerFrame | src/game.py:171-181 | without a fall, a frame costs one life exactly when an enemy or projectile was touched, and then the game is over |
| Games.TimerCases | src/game.py:194-203 | game over resumes after more than 2 s only with lives left and waits otherwise; level complete moves on after more than 2 s; other states are untouched |
| Games.OnEvent | src/game.py:98-142 | one event keeps the game reachable |
| Games.OnEvents | src/game.py:98-142 | a frame's events keep the game reachable |
| Games.ApplyKeyEventsKeep | src/game.py:145-148 | delivered events never move the player nor break its jump budget |
| Games.EventRouting | src/game.py:98-142 | QUIT stops the loop; while playing an event is buffered under lag and reaches the player otherwise; outside play only ENTER changes anything |
| Games.LoadLevels | src/game.py:36-38 | one level per data entry, in order, with its name, start, exit and level number |
| Games.EngineStep | src/game.py:153 | the glitch engine's turn keeps its invariant and never moves the player or spends its jumps |
| Games.AdvanceWorld | src/game.py:151-156 | the engine, then the level: the player takes one tick against the solid platforms from where it stood, starting on the screen with its jump budget |
| Games.RouteInput | src/game.py:137-142 | under lag the event is buffered and the player unchanged; otherwise the player handles it and the engine is unchanged; the buffer stays in tick order |
| Games.Inspect | src/game.py:159-192 | the three checks: the exit overlap, the first hazard unless invincible, and a fall below the screen |
| Games.PlayFrame | src/game.py:151-192 | the world moves, then the checks: exit and fall judged on the new box, no hazard while invincible, and no fall |
| Games.Game.constructor | src/game.py:12-62 | the game starts at the menu with no lives or score, the first level current, a fresh player and engine, all levels loaded |
| Games.Game.ResetLevel | src/game.py:75-84 | the player respawns at the current level's start; lives are reset to the level's only when asked |
| Games.Game.NextLevel | src/game.py:86-95 | the index advances; play resumes at the next level with its lives, or the game is completed with the player left where it was |
| Games.Game.ReturnToMenu | src/game.py:121-134 | the menu with score 0, the first level current, its lives, and the player at its start |
| Games.Game.Enter | src/game.py:107-134 | ENTER from each screen as EnterCases lists, respawning the player exactly when reset_level runs |
| Games.Game.HandleEvent | src/game.py:98-142 | one event as OnEvent and EventRouting describe; the glitch schedule and the vanish list stay, and the buffer stays in tick order |
| Games.Game.HandleEvents | src/game.py:97-148 | all events in order, then the lagged ones that are due |
| Games.Game.DeliverLaggedInput | src/game.py:144-148 | while playing, the due lagged events reach the player in order and leave the buffer |
| Games.Game.DeliverEach | src/game.py:147-148 | the lagged events reach the player in order |
| Games.Game.Update | src/game.py:150-203 | while playing: engine, level, then exit, hazard and fall checks applied in order, the fall check never firing, the player one tick on from a state with its box and jumps; outside play only the timers, with the engine, the level's enemies, platforms and background and the vanish list unchanged; the timers in every state |
| Games.Game.Score | src/game.py:159-192 | the exit, enemy and fall outcomes applied in that order |
| Games.Game.FinishLevel | src/game.py:160-167 | level complete with 1000 points plus the time bonus, timed at `now` |
| Games.Game.LoseLife | src/game.py:172-174 | one life fewer and game over, timed at `now` |
| Games.Game.Timers | src/game.py:194-203 | the timed transitions at the end of update, changing nothing when neither is due |
| Backgrounds.MakeLinesShape | src/background.py:50-65 | one line per draw, each fresh (age 0, lifetime 30..120), 50 to 200 wide, 1 to 3 high, and ending on the screen |
| Backgrounds.MakeBlocksShape | src/background.py:68-84 | one block per draw, each fresh and 10 to 50 pixels on each side |
| Backgrounds.GenerationCounts | src/background.py:43-84 | a generation gives exactly 2·level_num lines and level_num blocks, all fresh and in range |
| Backgrounds.AgeAllAppend | src/background.py:97-106 | ageing works element by element and keeps the list order |
| Backgrounds.AgeAllSurvivors | src/background.py:97-106 | the elements kept are exactly those aged by one whose age is still below their lifetime |
| Backgrounds.FreshSurviveFirstFrame | src/background.py:97-106 | freshly generated elements all survive their first ageing, each aged by one |
| Backgrounds.BgColor | src/background.py:26-31 | the colour is (20, 20, 35) for level 1, (25, 10, 40) for level 2 and (40, 5, 20) otherwise |
| Backgrounds.BackgroundTickTimer | src/background.py:86-106 | the timer stays in [0, 59] and wraps only after 59; new elements appear only on the wrap with a roll below 0.2 and are then the generated ones aged once; otherwise the old elements age |
| Backgrounds.Background.constructor | src/background.py:10-41 | the background has its level number, the colour BgColor gives, a first generation and the timer at 0 |
| Backgrounds.Background.GenerateGlitchElements | src/background.py:43-84 | the lines and blocks are replaced by a fresh generation, with the counts GenerationCounts proves |
| Backgrounds.Background.Update | src/background.py:86-106 | the new state is the background tick that BackgroundTickTimer describes |

## Left out

- Rendering is not modelled: the `render_*` and `draw` methods, the surface work of
  `apply_screen_effects` apart from its colour clamp, `draw_procedural_background` and the
  pulse of `LevelExit.update`. These are pygame surface operations and floating-point trigonometry.
- Animation is not modelled. `update_animation` and the animation counters of the player and
  the enemies only choose images. `src/sprite_loader.py` is not part of this model.
- Sound is not modelled: `src/sound_manager.py`, `load_sounds`, and every `play_sound` and `play` call.
- The background image probe in `Background.__init__` is file I/O.
- `create_asset_directories`, `main.py` and the build scripts are operating-system plumbing.
- `src/level_data.py` is static data. Levels are given to the model as `LevelData` values.
- The F3 debug toggle (`src/game.py:103-105`) changes only a debug display flag. F3 is an event that changes nothing.
- IEEE floating point is not modelled: the model's reals are exact. The `RectCoord`
  truncation is an assumption about pygame. In `get_lagged_input` the threshold
  `input_lag_frames * (1000 / FPS)` is a double; for a lag of 15 it is just above 250, so
  an event exactly 250 ms old stays in the source, while `Waited` releases it.
- The source reads `time.time()` several times in one `update`. The model reads one `now`
  per call, so a timer set in a frame cannot fire in that same frame.
- Fields the core never reads are not modelled: `glitch_timer`, `rotation_angle`,
  the images, `original_gravity`, which always equals `GRAVITY`, and `jump_power`, which stays `JUMP_POWER`.
- `hasattr(self.game, 'current_level')` and `hasattr(platform, 'original_image')` always hold
  in the source, so they are not modelled.
- The engine's back-reference to the game is not modelled. Its methods take the player and the
  platforms as parameters.
- Games.Game.Update: while playing, it states the player's new state as one tick from a
  state `mid` that has the old box and jump count. It does not pin down the speed, gravity
  and ceiling that the glitch engine set in `mid`. The solid platforms of that tick are a ghost
  output; `PlayFrame` ties them to the level's solid platforms, but `Update` does not.
  While playing, it does not state the new state of the glitch engine, of the level's enemies
  or of its background; `Glitches.GlitchEngine.Update` and `Levels.Level.Update` state those.
- Games.EngineStep: states only that the engine keeps its invariant and that the player's box and jumps are kept, not the engine's new state. `Glitches.GlitchEngine.Update` states that.
- Games.AdvanceWorld: states the player's tick and the engine invariant. It states neither the engine's new state nor the enemies'; `Glitches.GlitchEngine.Update` and `Levels.Level.Update` state those.
- Games.PlayFrame: states `player.invincible ==> !hazard` but not the hazard's exact value. `Games.Inspect` states the exact value.
- Levels.Level.Update: does not restate that every enemy keeps its class invariant. Heading is preserved by `Enemies.EnemyTickInvariants`.
