/** The player's movement state machine (src/player.py): held and pressed keys,
    ground/wall/double jumps, gravity with two terminal speeds, wall-slide
    detection, the platform collision resolver, the screen clamps and the
    invincibility timer. Each step is a function on a PlayerState value; the
    class Player at the end performs the same steps on its fields. */
module Players {
  import opened Constants
  import opened Geometry
  import opened Events
  import opened Platforms

  const MAX_JUMPS: int := 2
  /** Frames of extra lift while the jump key stays held. */
  const MAX_JUMP_TIME: int := 15
  const INVINCIBLE_DURATION: real := 2.0
  const WALL_SLIDE_SPEED: real := 1.0
  const WALL_JUMP_POWER: real := 10.0
  /** Pixels of slack used to decide which side of a platform was hit. */
  const TOLERANCE: int := 10

  datatype PlayerState = PlayerState(
    rect: Rect,
    vx: real,
    vy: real,
    onGround: bool,
    facingRight: bool,
    jumpCount: int,
    jumpHeld: bool,
    jumpTime: int,
    wallSliding: bool,
    invincible: bool,
    invincibleTimer: real,
    gravity: real,
    ceilingEnabled: bool,
    speed: real)

  /** The state Player.__init__ builds. */
  function InitialPlayer(): PlayerState
  {
    PlayerState(Rect(100, SCREEN_HEIGHT - PLAYER_HEIGHT - 100, PLAYER_WIDTH, PLAYER_HEIGHT),
                0.0, 0.0, false, true, 0, false, 0, false, false, 0.0, GRAVITY, false, PLAYER_SPEED)
  }

  /** The jump budget the double jump relies on. */
  predicate JumpBudget(s: PlayerState)
  {
    0 <= s.jumpCount <= MAX_JUMPS
  }

  // ---------------------------------------------------------------- jumps

  /** Player.jump. */
  function Jumped(s: PlayerState): PlayerState
  {
    s.(vy := -JUMP_POWER, onGround := false, wallSliding := false)
  }

  /** Player.wall_jump: away from the wall the player is facing. */
  function WallJumped(s: PlayerState): PlayerState
  {
    s.(vx := if s.facingRight then -WALL_JUMP_POWER else WALL_JUMP_POWER,
       vy := -JUMP_POWER, wallSliding := false, onGround := false)
  }

  /** Player.handle_jump_press: ground jump, else wall jump, else air jump
      while the budget lasts, else nothing. */
  function PressJump(s: PlayerState): PlayerState
  {
    if s.onGround then
      Jumped(s).(jumpHeld := true, jumpTime := 0, jumpCount := 1)
    else if s.wallSliding then
      WallJumped(s).(jumpHeld := true, jumpTime := 0)
    else if s.jumpCount < MAX_JUMPS then
      Jumped(s).(jumpHeld := true, jumpTime := 0, jumpCount := s.jumpCount + 1)
    else
      s
  }

  /** The four outcomes of a jump press, in the order the source tries them. */
  lemma PressJumpCases(s: PlayerState)
    ensures var r := PressJump(s);
            (s.onGround ==>
               r.vy == -JUMP_POWER && r.jumpCount == 1 && r.vx == s.vx && !r.onGround) &&
            (!s.onGround && s.wallSliding ==>
               r.vx == (if s.facingRight then -WALL_JUMP_POWER else WALL_JUMP_POWER) &&
               r.vy == -JUMP_POWER && r.jumpCount == s.jumpCount && !r.wallSliding) &&
            (!s.onGround && !s.wallSliding && s.jumpCount < MAX_JUMPS ==>
               r.vy == -JUMP_POWER && r.jumpCount == s.jumpCount + 1 && r.vx == s.vx) &&
            (!s.onGround && !s.wallSliding && s.jumpCount >= MAX_JUMPS ==> r == s) &&
            (r != s ==> r.jumpHeld && r.jumpTime == 0 && !r.onGround && !r.wallSliding) &&
            (JumpBudget(s) ==> JumpBudget(r))
  {
  }

  /** n presses of the jump key with nothing else happening in between. */
  function PressJumpTimes(s: PlayerState, n: nat): PlayerState
  {
    if n == 0 then s else PressJump(PressJumpTimes(s, n - 1))
  }

  /** In the air and off the wall, repeated presses spend the budget one jump
      at a time and never beyond MAX_JUMPS; the presses beyond it change nothing. */
  lemma {:induction false} AirJumpsAreBounded(s: PlayerState, n: nat)
    requires !s.onGround && !s.wallSliding && JumpBudget(s)
    ensures PressJumpTimes(s, n).jumpCount == Min(MAX_JUMPS, s.jumpCount + n)
    ensures !PressJumpTimes(s, n).onGround && !PressJumpTimes(s, n).wallSliding
    ensures 0 < n <= MAX_JUMPS - s.jumpCount ==> PressJumpTimes(s, n).vy == -JUMP_POWER
    ensures s.jumpCount + n > MAX_JUMPS ==>
              PressJumpTimes(s, n) == PressJumpTimes(s, MAX_JUMPS - s.jumpCount)
  {
    if n > 0 {
      AirJumpsAreBounded(s, n - 1);
    }
  }

  // ---------------------------------------------------------------- input

  /** Player.handle_event. */
  function ApplyKeyEvent(s: PlayerState, e: Event): PlayerState
  {
    match e
    case KeyDown(k) =>
      if k == KLeft then s.(vx := -s.speed, facingRight := false)
      else if k == KRight then s.(vx := s.speed, facingRight := true)
      else if k == KSpace then PressJump(s)
      else s
    case KeyUp(k) =>
      if k == KLeft && s.vx < 0.0 then s.(vx := 0.0)
      else if k == KRight && s.vx > 0.0 then s.(vx := 0.0)
      else if k == KSpace then s.(jumpHeld := false)
      else s
    case Quit => s
    case OtherEvent => s
  }

  /** Releasing an arrow key stops the player only if it was moving that way;
      pressing one sets the speed and the facing; events that are not keys
      of the player change nothing. */
  lemma KeyEventEffects(s: PlayerState, e: Event)
    ensures var r := ApplyKeyEvent(s, e);
            (e == KeyDown(KLeft) ==> r.vx == -s.speed && !r.facingRight) &&
            (e == KeyDown(KRight) ==> r.vx == s.speed && r.facingRight) &&
            (e == KeyUp(KLeft) ==> r.vx == (if s.vx < 0.0 then 0.0 else s.vx)) &&
            (e == KeyUp(KRight) ==> r.vx == (if s.vx > 0.0 then 0.0 else s.vx)) &&
            (e == KeyUp(KSpace) ==> !r.jumpHeld && r.vx == s.vx && r.vy == s.vy) &&
            ((e.Quit? || e.OtherEvent? || e.key == KReturn || e.key == KF3 || e.key == KOther) ==> r == s)
  {
  }

  /** No event moves the player or breaks the jump budget. */
  lemma KeyEventKeeps(s: PlayerState, e: Event)
    ensures var r := ApplyKeyEvent(s, e);
            r.rect == s.rect && (JumpBudget(s) ==> JumpBudget(r))
  {
    if e == KeyDown(KSpace) {
      PressJumpCases(s);
    }
  }

  /** Player.handle_input: the held keys set the horizontal speed, and a held
      jump key gives extra lift for at most MAX_JUMP_TIME frames. */
  function ApplyHeldKeys(s: PlayerState, keys: Keys): PlayerState
  {
    var s1 := if keys.left then s.(vx := -s.speed, facingRight := false)
              else if keys.right then s.(vx := s.speed, facingRight := true)
              else s.(vx := 0.0);
    if keys.space && s1.jumpHeld && s1.jumpTime < MAX_JUMP_TIME && s1.vy < 0.0 then
      s1.(vy := s1.vy - 0.5, jumpTime := s1.jumpTime + 1)
    else
      s1
  }

  /** Lift is given only while space is held, the jump is held, the window is
      open and the player rises; so the jump time never passes MAX_JUMP_TIME. */
  lemma HeldKeysEffects(s: PlayerState, keys: Keys)
    ensures var r := ApplyHeldKeys(s, keys);
            var lift := keys.space && s.jumpHeld && s.jumpTime < MAX_JUMP_TIME && s.vy < 0.0;
            r.vx == (if keys.left then -s.speed else if keys.right then s.speed else 0.0) &&
            r.jumpTime == (if lift then s.jumpTime + 1 else s.jumpTime) &&
            r.vy == (if lift then s.vy - 0.5 else s.vy) &&
            (s.jumpTime <= MAX_JUMP_TIME ==> r.jumpTime <= MAX_JUMP_TIME) &&
            r.jumpCount == s.jumpCount && r.rect == s.rect && r.onGround == s.onGround
  {
  }

  // ---------------------------------------------------------------- gravity

  /** Player.apply_gravity: nothing on the ground; half gravity capped at the
      slide speed on a wall; full gravity capped at MAX_FALL_SPEED otherwise. */
  function StepGravity(s: PlayerState): PlayerState
  {
    if s.onGround then s
    else if s.wallSliding then
      var v := s.vy + s.gravity * 0.5;
      s.(vy := if v > WALL_SLIDE_SPEED then WALL_SLIDE_SPEED else v)
    else
      var v := s.vy + s.gravity;
      s.(vy := if v > MAX_FALL_SPEED then MAX_FALL_SPEED else v)
  }

  /** The two terminal speeds, and that gravity only ever changes vy. */
  lemma GravityEffects(s: PlayerState)
    ensures var r := StepGravity(s);
            (s.onGround ==> r == s) &&
            (!s.onGround && s.wallSliding ==>
               r.vy == (if s.vy + s.gravity * 0.5 > WALL_SLIDE_SPEED then WALL_SLIDE_SPEED
                        else s.vy + s.gravity * 0.5) && r.vy <= WALL_SLIDE_SPEED) &&
            (!s.onGround && !s.wallSliding ==>
               r.vy == (if s.vy + s.gravity > MAX_FALL_SPEED then MAX_FALL_SPEED
                        else s.vy + s.gravity) && r.vy <= MAX_FALL_SPEED) &&
            r == s.(vy := r.vy)
  {
  }

  // ---------------------------------------------------------------- wall slide

  /** The player's box widened by two pixels on each side. */
  function WallProbe(s: PlayerState): Rect
  {
    s.rect.Inflate(4, 0)
  }

  predicate VerticalOverlap(a: Rect, p: Rect)
  {
    a.Bottom() > p.Top() && a.Top() < p.Bottom()
  }

  /** Moving left against the right edge of platform p. */
  predicate TouchesWallOnLeft(s: PlayerState, p: Rect)
  {
    var w := WallProbe(s);
    s.vx < 0.0 && w.Left() <= p.Right() && w.Right() > p.Right() && VerticalOverlap(w, p)
  }

  /** Moving right against the left edge of platform p. */
  predicate TouchesWallOnRight(s: PlayerState, p: Rect)
  {
    var w := WallProbe(s);
    s.vx > 0.0 && w.Right() >= p.Left() && w.Left() < p.Left() && VerticalOverlap(w, p)
  }

  predicate TouchesWall(s: PlayerState, p: Rect)
  {
    TouchesWallOnLeft(s, p) || TouchesWallOnRight(s, p)
  }

  /** The loop of Player.check_wall_slide: the first platform touched decides
      the result; with none, wall sliding stops. */
  function ScanWallSlide(s: PlayerState, rs: seq<Rect>): PlayerState
  {
    if rs == [] then s.(wallSliding := false)
    else if TouchesWallOnLeft(s, rs[0]) then s.(wallSliding := true, facingRight := true)
    else if TouchesWallOnRight(s, rs[0]) then s.(wallSliding := true, facingRight := false)
    else ScanWallSlide(s, rs[1..])
  }

  /** Wall sliding starts exactly when some platform is touched at the side,
      and the first such platform decides which way the player faces: away
      from the wall. Nothing else changes. */
  lemma {:induction false} ScanWallSlideFindsFirst(s: PlayerState, rs: seq<Rect>)
    ensures var r := ScanWallSlide(s, rs);
            (r.wallSliding <==> exists i :: 0 <= i < |rs| && TouchesWall(s, rs[i])) &&
            (forall i :: (0 <= i < |rs| && TouchesWall(s, rs[i]) &&
                          (forall j :: 0 <= j < i ==> !TouchesWall(s, rs[j]))) ==>
               r.facingRight == TouchesWallOnLeft(s, rs[i])) &&
            (!r.wallSliding ==> r == s.(wallSliding := false)) &&
            r == s.(wallSliding := r.wallSliding, facingRight := r.facingRight)
  {
    if rs != [] && !TouchesWall(s, rs[0]) {
      ScanWallSlideFindsFirst(s, rs[1..]);
      assert forall i :: 1 <= i < |rs| ==> rs[i] == rs[1..][i - 1];
      var r := ScanWallSlide(s, rs);
      forall i | 0 <= i < |rs| && TouchesWall(s, rs[i]) &&
                 (forall j :: 0 <= j < i ==> !TouchesWall(s, rs[j]))
        ensures r.facingRight == TouchesWallOnLeft(s, rs[i])
      {
        assert rs[1..][i - 1] == rs[i];
      }
      if r.wallSliding {
        var i :| 0 <= i < |rs[1..]| && TouchesWall(s, rs[1..][i]);
        assert TouchesWall(s, rs[i + 1]);
      }
    }
  }

  /** Player.check_wall_slide: only while airborne and falling. */
  function WallSlideCheck(s: PlayerState, rs: seq<Rect>): PlayerState
  {
    if !s.onGround && s.vy > 0.0 then ScanWallSlide(s, rs) else s
  }

  lemma WallSlideCheckEffects(s: PlayerState, rs: seq<Rect>)
    ensures var r := WallSlideCheck(s, rs);
            ((s.onGround || s.vy <= 0.0) ==> r == s) &&
            r == s.(wallSliding := r.wallSliding, facingRight := r.facingRight)
  {
    if !s.onGround && s.vy > 0.0 {
      ScanWallSlideFindsFirst(s, rs);
    }
  }

  // ---------------------------------------------------------------- collisions

  /** The landing case: falling, and the previous bottom edge was no more than
      TOLERANCE pixels below the platform's top. */
  predicate Lands(s: PlayerState, p: Rect)
  {
    s.vy > 0.0 && (s.rect.Bottom() as real) - s.vy <= (p.Top() + TOLERANCE) as real
  }

  predicate HitsCeiling(s: PlayerState, p: Rect)
  {
    s.vy < 0.0 && (s.rect.Top() as real) - s.vy >= (p.Bottom() - TOLERANCE) as real
  }

  predicate HitsLeftEdge(s: PlayerState, p: Rect)
  {
    s.vx > 0.0 && (s.rect.Right() as real) - s.vx <= (p.Left() + TOLERANCE) as real
  }

  predicate HitsRightEdge(s: PlayerState, p: Rect)
  {
    s.vx < 0.0 && (s.rect.Left() as real) - s.vx >= (p.Right() - TOLERANCE) as real
  }

  /** The body of the loop in Player.check_collisions, for one platform:
      vertical cases are tried before the side cases. */
  function ResolveOne(s: PlayerState, p: Rect): PlayerState
  {
    if !Collides(s.rect, p) then s
    else if Lands(s, p) then
      s.(rect := s.rect.WithBottom(p.Top()), vy := 0.0, onGround := true, jumpCount := 0)
    else if HitsCeiling(s, p) then
      s.(rect := s.rect.WithTop(p.Bottom()), vy := 0.0)
    else if HitsLeftEdge(s, p) then
      s.(rect := s.rect.WithRight(p.Left()), vx := 0.0)
    else if HitsRightEdge(s, p) then
      s.(rect := s.rect.WithLeft(p.Right()), vx := 0.0)
    else s
  }

  /** Falling onto a platform ends with the player standing on it, whatever
      the fall speed; the other cases snap one edge and stop one axis. */
  lemma ResolveOneCases(s: PlayerState, p: Rect)
    ensures var r := ResolveOne(s, p);
            (!Collides(s.rect, p) ==> r == s) &&
            (Collides(s.rect, p) && Lands(s, p) ==>
               r.rect.Bottom() == p.Top() && r.rect.x == s.rect.x &&
               r.vy == 0.0 && r.vx == s.vx && r.onGround && r.jumpCount == 0) &&
            (Collides(s.rect, p) && !Lands(s, p) && HitsCeiling(s, p) ==>
               r.rect.Top() == p.Bottom() && r.rect.x == s.rect.x && r.vy == 0.0 && r.vx == s.vx) &&
            (Collides(s.rect, p) && !Lands(s, p) && !HitsCeiling(s, p) && HitsLeftEdge(s, p) ==>
               r.rect.Right() == p.Left() && r.rect.y == s.rect.y && r.vx == 0.0 && r.vy == s.vy) &&
            (Collides(s.rect, p) && !Lands(s, p) && !HitsCeiling(s, p) && !HitsLeftEdge(s, p) &&
             HitsRightEdge(s, p) ==>
               r.rect.Left() == p.Right() && r.rect.y == s.rect.y && r.vx == 0.0 && r.vy == s.vy) &&
            r.rect.w == s.rect.w && r.rect.h == s.rect.h &&
            r.onGround == (s.onGround || (Collides(s.rect, p) && Lands(s, p))) &&
            r.jumpCount == (if Collides(s.rect, p) && Lands(s, p) then 0 else s.jumpCount)
  {
  }

  /** The loop of Player.check_collisions: platforms in list order. */
  function ResolveAll(s: PlayerState, rs: seq<Rect>): PlayerState
  {
    if |rs| == 0 then s else ResolveOne(ResolveAll(s, rs[..|rs| - 1]), rs[|rs| - 1])
  }

  /** Player.check_collisions: on_ground is cleared first. */
  function ResolveCollisions(s: PlayerState, rs: seq<Rect>): PlayerState
  {
    ResolveAll(s.(onGround := false), rs)
  }

  /** Once landed in a pass of the resolver the player stays landed with vy 0
      and no jumps spent; a player that never lands keeps its jump count. */
  lemma {:induction false} ResolveAllGround(s: PlayerState, rs: seq<Rect>)
    ensures var r := ResolveAll(s, rs);
            (r.onGround && !s.onGround ==> r.jumpCount == 0 && r.vy == 0.0) &&
            (!r.onGround ==> !s.onGround && r.jumpCount == s.jumpCount) &&
            (r.jumpCount == s.jumpCount || r.jumpCount == 0) &&
            r.rect.w == s.rect.w && r.rect.h == s.rect.h
  {
    if |rs| > 0 {
      ResolveAllGround(s, rs[..|rs| - 1]);
      ResolveOneCases(ResolveAll(s, rs[..|rs| - 1]), rs[|rs| - 1]);
    }
  }

  /** After check_collisions the player is on the ground only if it landed,
      and then its jump count is 0; otherwise the count is unchanged. */
  lemma ResolveCollisionsGround(s: PlayerState, rs: seq<Rect>)
    ensures var r := ResolveCollisions(s, rs);
            (r.onGround ==> r.jumpCount == 0 && r.vy == 0.0) &&
            (!r.onGround ==> r.jumpCount == s.jumpCount) &&
            (JumpBudget(s) ==> JumpBudget(r)) &&
            r.rect.w == s.rect.w && r.rect.h == s.rect.h
  {
    ResolveAllGround(s.(onGround := false), rs);
  }

  // ---------------------------------------------------------------- tick

  /** Player.update's invincibility check. */
  function ExpireInvincibility(s: PlayerState, now: real): PlayerState
  {
    if s.invincible && now - s.invincibleTimer > INVINCIBLE_DURATION then s.(invincible := false) else s
  }

  /** Player.set_invincible. */
  function MakeInvincible(s: PlayerState, now: real): PlayerState
  {
    s.(invincible := true, invincibleTimer := now)
  }

  /** A player made invincible at time t stays so at every check up to
      t + INVINCIBLE_DURATION, and loses it at the first check after that. */
  lemma InvincibilityWindow(s: PlayerState, t: real, now: real)
    ensures ExpireInvincibility(MakeInvincible(s, t), now).invincible <==> now - t <= INVINCIBLE_DURATION
  {
  }

  /** rect.x += velocity_x; rect.y += velocity_y, through pygame's conversion. */
  function Move(s: PlayerState): PlayerState
  {
    s.(rect := s.rect.(x := RectCoord(s.rect.x as real + s.vx), y := RectCoord(s.rect.y as real + s.vy)))
  }

  /** Falling off the left edge: clamp, and slide on the screen edge. */
  function ClampLeft(s: PlayerState): PlayerState
  {
    if s.rect.Left() < 0 then
      var t := s.(rect := s.rect.WithLeft(0));
      if t.vy > 0.0 && !t.onGround then t.(wallSliding := true, facingRight := true) else t
    else s
  }

  function ClampRight(s: PlayerState): PlayerState
  {
    if s.rect.Right() > SCREEN_WIDTH then
      var t := s.(rect := s.rect.WithRight(SCREEN_WIDTH));
      if t.vy > 0.0 && !t.onGround then t.(wallSliding := true, facingRight := false) else t
    else s
  }

  /** The bottom edge of the screen is a floor. */
  function ClampFloor(s: PlayerState): PlayerState
  {
    if s.rect.Bottom() > SCREEN_HEIGHT then
      s.(rect := s.rect.WithBottom(SCREEN_HEIGHT), vy := 0.0, onGround := true, jumpCount := 0)
    else s
  }

  /** The top edge is a ceiling only while ceiling_enabled. */
  function ClampCeiling(s: PlayerState): PlayerState
  {
    if s.ceilingEnabled && s.rect.Top() < 0 then s.(rect := s.rect.WithTop(0), vy := 0.0) else s
  }

  /** The screen-edge clamps at the end of Player.update, in source order. */
  function ClampToScreen(s: PlayerState): PlayerState
  {
    ClampCeiling(ClampFloor(ClampRight(ClampLeft(s))))
  }

  /** A box that fits on the screen. Player.__init__ makes it 32 by 32. */
  predicate FitsScreen(s: PlayerState)
  {
    0 <= s.rect.w <= SCREEN_WIDTH && 0 <= s.rect.h <= SCREEN_HEIGHT
  }

  lemma ClampLeftEffects(s: PlayerState)
    ensures var r := ClampLeft(s);
            0 <= r.rect.Left() && r.rect.y == s.rect.y && r.rect.w == s.rect.w && r.rect.h == s.rect.h &&
            (s.rect.Left() >= 0 ==> r == s) &&
            r == s.(rect := r.rect, wallSliding := r.wallSliding, facingRight := r.facingRight)
  {
  }

  lemma ClampRightEffects(s: PlayerState)
    requires 0 <= s.rect.Left() && s.rect.w <= SCREEN_WIDTH
    ensures var r := ClampRight(s);
            0 <= r.rect.Left() && r.rect.Right() <= SCREEN_WIDTH &&
            r.rect.y == s.rect.y && r.rect.w == s.rect.w && r.rect.h == s.rect.h &&
            (s.rect.Right() <= SCREEN_WIDTH ==> r == s) &&
            r == s.(rect := r.rect, wallSliding := r.wallSliding, facingRight := r.facingRight)
  {
  }

  lemma ClampFloorEffects(s: PlayerState)
    ensures var r := ClampFloor(s);
            r.rect.Bottom() <= SCREEN_HEIGHT && r.rect.x == s.rect.x &&
            r.rect.w == s.rect.w && r.rect.h == s.rect.h &&
            (s.rect.Bottom() > SCREEN_HEIGHT ==> r.onGround && r.jumpCount == 0 && r.vy == 0.0) &&
            (s.rect.Bottom() <= SCREEN_HEIGHT ==> r == s) &&
            r.ceilingEnabled == s.ceilingEnabled
  {
  }

  lemma ClampCeilingEffects(s: PlayerState)
    requires s.rect.h <= SCREEN_HEIGHT && s.rect.Bottom() <= SCREEN_HEIGHT
    ensures var r := ClampCeiling(s);
            (r.ceilingEnabled ==> r.rect.Top() >= 0) && r.rect.Bottom() <= SCREEN_HEIGHT &&
            r.rect.x == s.rect.x && r.rect.w == s.rect.w && r.rect.h == s.rect.h &&
            r.onGround == s.onGround && r.jumpCount == s.jumpCount &&
            ((!s.ceilingEnabled || s.rect.Top() >= 0) ==> r == s)
  {
  }

  /** For a player that fits on the screen the clamps keep it inside the
      left, right and bottom edges, and inside the top edge when the ceiling
      is on; reaching the floor edge lands the player; a player already
      inside is left alone. */
  lemma ClampToScreenBounds(s: PlayerState)
    requires FitsScreen(s)
    ensures var r := ClampToScreen(s);
            0 <= r.rect.Left() && r.rect.Right() <= SCREEN_WIDTH && r.rect.Bottom() <= SCREEN_HEIGHT &&
            (r.ceilingEnabled ==> r.rect.Top() >= 0) &&
            (s.rect.Bottom() > SCREEN_HEIGHT ==> r.onGround && r.jumpCount == 0) &&
            (r.jumpCount == s.jumpCount || r.jumpCount == 0) &&
            r.onGround == (s.onGround || s.rect.Bottom() > SCREEN_HEIGHT) &&
            (r.onGround && !s.onGround ==> r.jumpCount == 0) &&
            r.rect.w == s.rect.w && r.rect.h == s.rect.h &&
            ((0 <= s.rect.Left() && s.rect.Right() <= SCREEN_WIDTH && s.rect.Bottom() <= SCREEN_HEIGHT &&
              (!s.ceilingEnabled || s.rect.Top() >= 0)) ==> r == s)
  {
    var s1 := ClampLeft(s);
    ClampLeftEffects(s);
    var s2 := ClampRight(s1);
    ClampRightEffects(s1);
    var s3 := ClampFloor(s2);
    ClampFloorEffects(s2);
    ClampCeilingEffects(s3);
  }

  /** Player.update without the animation: held keys, invincibility expiry,
      gravity, wall-slide check, move, collisions, screen clamps. An empty
      platform list skips the wall-slide check and the resolver, so on_ground
      is then left as it was. */
  function Tick(s: PlayerState, keys: Keys, now: real, rs: seq<Rect>): PlayerState
  {
    var s3 := StepGravity(ExpireInvincibility(ApplyHeldKeys(s, keys), now));
    var s5 := Move(if |rs| > 0 then WallSlideCheck(s3, rs) else s3);
    ClampToScreen(if |rs| > 0 then ResolveCollisions(s5, rs) else s5)
  }

  /** One tick keeps the player on the screen and keeps the jump budget; a
      player that ends the tick on the ground after standing on a platform
      or the floor has a fresh budget. */
  lemma TickInvariants(s: PlayerState, keys: Keys, now: real, rs: seq<Rect>)
    requires FitsScreen(s) && JumpBudget(s)
    ensures var r := Tick(s, keys, now, rs);
            FitsScreen(r) && JumpBudget(r) &&
            0 <= r.rect.Left() && r.rect.Right() <= SCREEN_WIDTH && r.rect.Bottom() <= SCREEN_HEIGHT &&
            (r.ceilingEnabled ==> r.rect.Top() >= 0) &&
            (|rs| > 0 && r.onGround ==> r.jumpCount == 0)
  {
    var s1 := ApplyHeldKeys(s, keys);
    HeldKeysEffects(s, keys);
    var s3 := StepGravity(ExpireInvincibility(s1, now));
    GravityEffects(ExpireInvincibility(s1, now));
    var s4 := if |rs| > 0 then WallSlideCheck(s3, rs) else s3;
    WallSlideCheckEffects(s3, rs);
    var s5 := Move(s4);
    var s6 := if |rs| > 0 then ResolveCollisions(s5, rs) else s5;
    ResolveCollisionsGround(s5, rs);
    assert FitsScreen(s6) && JumpBudget(s6);
    ClampToScreenBounds(s6);
  }

  /** The floor clamp of a tick runs before Game.update's fall check, so
      that check never finds the top of the player below the screen. */
  lemma NoFallBelowScreen(s: PlayerState, keys: Keys, now: real, rs: seq<Rect>)
    requires FitsScreen(s) && JumpBudget(s)
    ensures !(Tick(s, keys, now, rs).rect.Top() > SCREEN_HEIGHT)
  {
    TickInvariants(s, keys, now, rs);
  }

  // ---------------------------------------------------------------- the object

  class Player {
    var rect: Rect
    var velocityX: real
    var velocityY: real
    var onGround: bool
    var facingRight: bool
    var jumpCount: int
    var jumpHeld: bool
    var jumpTime: int
    var wallSliding: bool
    var invincible: bool
    var invincibleTimer: real
    var gravity: real
    var ceilingEnabled: bool
    var speed: real

    function State(): PlayerState
      reads this
    {
      PlayerState(rect, velocityX, velocityY, onGround, facingRight, jumpCount, jumpHeld, jumpTime,
                  wallSliding, invincible, invincibleTimer, gravity, ceilingEnabled, speed)
    }

    ghost predicate Valid()
      reads this
    {
      FitsScreen(State()) && JumpBudget(State())
    }

    constructor ()
      ensures State() == InitialPlayer() && Valid()
    {
      rect := Rect(100, SCREEN_HEIGHT - PLAYER_HEIGHT - 100, PLAYER_WIDTH, PLAYER_HEIGHT);
      velocityX, velocityY := 0.0, 0.0;
      onGround, facingRight := false, true;
      jumpCount, jumpHeld, jumpTime := 0, false, 0;
      wallSliding := false;
      invincible, invincibleTimer := false, 0.0;
      gravity, ceilingEnabled, speed := GRAVITY, false, PLAYER_SPEED;
    }

    method HandleEvent(e: Event)
      modifies this
      ensures State() == ApplyKeyEvent(old(State()), e)
    {
      if e.KeyDown? {
        if e.key == KLeft {
          velocityX := -speed;
          facingRight := false;
        }
        if e.key == KRight {
          velocityX := speed;
          facingRight := true;
        }
        if e.key == KSpace {
          HandleJumpPress();
        }
      }
      if e.KeyUp? {
        if e.key == KLeft && velocityX < 0.0 {
          velocityX := 0.0;
        }
        if e.key == KRight && velocityX > 0.0 {
          velocityX := 0.0;
        }
        if e.key == KSpace {
          jumpHeld := false;
        }
      }
    }

    method HandleInput(keys: Keys)
      modifies this
      ensures State() == ApplyHeldKeys(old(State()), keys)
    {
      if keys.left {
        velocityX := -speed;
        facingRight := false;
      } else if keys.right {
        velocityX := speed;
        facingRight := true;
      } else {
        velocityX := 0.0;
      }
      if keys.space && jumpHeld && jumpTime < MAX_JUMP_TIME && velocityY < 0.0 {
        velocityY := velocityY - 0.5;
        jumpTime := jumpTime + 1;
      }
    }

    method HandleJumpPress()
      modifies this
      ensures State() == PressJump(old(State()))
    {
      if onGround {
        Jump();
        jumpHeld := true;
        jumpTime := 0;
        jumpCount := 1;
      } else if wallSliding {
        WallJump();
        jumpHeld := true;
        jumpTime := 0;
      } else if jumpCount < MAX_JUMPS {
        Jump();
        jumpHeld := true;
        jumpTime := 0;
        jumpCount := jumpCount + 1;
      }
    }

    method Jump()
      modifies this
      ensures State() == Jumped(old(State()))
    {
      velocityY := -JUMP_POWER;
      onGround := false;
      wallSliding := false;
    }

    method WallJump()
      modifies this
      ensures State() == WallJumped(old(State()))
    {
      if facingRight {
        velocityX := -WALL_JUMP_POWER;
        velocityY := -JUMP_POWER;
      } else {
        velocityX := WALL_JUMP_POWER;
        velocityY := -JUMP_POWER;
      }
      wallSliding := false;
      onGround := false;
    }

    method ApplyGravity()
      modifies this
      ensures State() == StepGravity(old(State()))
    {
      if !onGround {
        if wallSliding {
          velocityY := velocityY + gravity * 0.5;
          if velocityY > WALL_SLIDE_SPEED {
            velocityY := WALL_SLIDE_SPEED;
          }
        } else {
          velocityY := velocityY + gravity;
          if velocityY > MAX_FALL_SPEED {
            velocityY := MAX_FALL_SPEED;
          }
        }
      }
    }

    method CheckWallSlide(platforms: seq<Platform>)
      modifies this
      ensures State() == WallSlideCheck(old(State()), RectsOf(platforms))
    {
      if !onGround && velocityY > 0.0 {
        ghost var s := State();
        ghost var rs := RectsOf(platforms);
        var probe := rect.Inflate(4, 0);
        var i := 0;
        while i < |platforms|
          invariant 0 <= i <= |platforms|
          invariant State() == s
          invariant ScanWallSlide(s, rs[i..]) == ScanWallSlide(s, rs)
        {
          var p := platforms[i].rect;
          if velocityX < 0.0 && probe.Left() <= p.Right() && probe.Right() > p.Right() {
            if probe.Bottom() > p.Top() && probe.Top() < p.Bottom() {
              wallSliding := true;
              facingRight := true;
              return;
            }
          }
          if velocityX > 0.0 && probe.Right() >= p.Left() && probe.Left() < p.Left() {
            if probe.Bottom() > p.Top() && probe.Top() < p.Bottom() {
              wallSliding := true;
              facingRight := false;
              return;
            }
          }
          assert rs[i..][1..] == rs[i + 1..];
          i := i + 1;
        }
        wallSliding := false;
      }
    }

    /** The body of the loop in check_collisions, for one platform. */
    method ResolveAgainst(p: Rect)
      modifies this
      ensures State() == ResolveOne(old(State()), p)
    {
      if Collides(rect, p) {
        if velocityY > 0.0 && (rect.Bottom() as real) - velocityY <= (p.Top() + TOLERANCE) as real {
          rect := rect.WithBottom(p.Top());
          velocityY := 0.0;
          onGround := true;
          jumpCount := 0;
        } else if velocityY < 0.0 && (rect.Top() as real) - velocityY >= (p.Bottom() - TOLERANCE) as real {
          rect := rect.WithTop(p.Bottom());
          velocityY := 0.0;
        } else if velocityX > 0.0 && (rect.Right() as real) - velocityX <= (p.Left() + TOLERANCE) as real {
          rect := rect.WithRight(p.Left());
          velocityX := 0.0;
        } else if velocityX < 0.0 && (rect.Left() as real) - velocityX >= (p.Right() - TOLERANCE) as real {
          rect := rect.WithLeft(p.Right());
          velocityX := 0.0;
        }
      }
    }

    method CheckCollisions(platforms: seq<Platform>)
      modifies this
      ensures State() == ResolveCollisions(old(State()), RectsOf(platforms))
    {
      ghost var rs := RectsOf(platforms);
      ghost var s0 := State().(onGround := false);
      onGround := false;
      var i := 0;
      while i < |platforms|
        invariant 0 <= i <= |platforms|
        invariant State() == ResolveAll(s0, rs[..i])
      {
        assert rs[..i + 1][..i] == rs[..i];
        ResolveAgainst(platforms[i].rect);
        i := i + 1;
      }
      assert rs[..|platforms|] == rs;
    }

    /** The move step of update, through pygame's float-to-int conversion. */
    method MoveByVelocity()
      modifies this
      ensures State() == Move(old(State()))
    {
      rect := rect.(x := RectCoord(rect.x as real + velocityX));
      rect := rect.(y := RectCoord(rect.y as real + velocityY));
    }

    method ClampLeftEdge()
      modifies this
      ensures State() == ClampLeft(old(State()))
    {
      if rect.Left() < 0 {
        rect := rect.WithLeft(0);
        if velocityY > 0.0 && !onGround {
          wallSliding := true;
          facingRight := true;
        }
      }
    }

    method ClampRightEdge()
      modifies this
      ensures State() == ClampRight(old(State()))
    {
      if rect.Right() > SCREEN_WIDTH {
        rect := rect.WithRight(SCREEN_WIDTH);
        if velocityY > 0.0 && !onGround {
          wallSliding := true;
          facingRight := false;
        }
      }
    }

    method ClampBottomEdge()
      modifies this
      ensures State() == ClampFloor(old(State()))
    {
      if rect.Bottom() > SCREEN_HEIGHT {
        rect := rect.WithBottom(SCREEN_HEIGHT);
        velocityY := 0.0;
        onGround := true;
        jumpCount := 0;
      }
    }

    method ClampTopEdge()
      modifies this
      ensures State() == ClampCeiling(old(State()))
    {
      if ceilingEnabled && rect.Top() < 0 {
        rect := rect.WithTop(0);
        velocityY := 0.0;
      }
    }

    /** The invincibility check of update. */
    method ExpireInvincible(now: real)
      modifies this
      ensures State() == ExpireInvincibility(old(State()), now)
    {
      if invincible {
        if now - invincibleTimer > INVINCIBLE_DURATION {
          invincible := false;
        }
      }
    }

    method Update(keys: Keys, now: real, platforms: seq<Platform>)
      modifies this
      ensures old(Valid()) ==> Valid()
      ensures State() == Tick(old(State()), keys, now, RectsOf(platforms))
    {
      if Valid() {
        TickInvariants(State(), keys, now, RectsOf(platforms));
      }
      HandleInput(keys);
      ExpireInvincible(now);
      ApplyGravity();
      if |platforms| > 0 {
        CheckWallSlide(platforms);
      }
      MoveByVelocity();
      if |platforms| > 0 {
        CheckCollisions(platforms);
      }
      ClampLeftEdge();
      ClampRightEdge();
      ClampBottomEdge();
      ClampTopEdge();
    }

    method SetInvincible(now: real)
      modifies this
      ensures State() == MakeInvincible(old(State()), now)
    {
      invincible := true;
      invincibleTimer := now;
    }
  }
}
