/** The glitch scheduler (src/glitch_engine.py): every GLITCH_INTERVAL
    seconds one of eight effects is switched on; each active effect is
    switched off again once it is older than GLITCH_DURATION, and three of
    them do work on every frame in between. The effects write the engine's
    own variables, the player's gravity, speed and ceiling, and the alpha
    and solid flags of platforms. */
module Glitches {
  import opened Constants
  import opened Geometry
  import opened Events
  import opened Platforms
  import opened Players
  import opened Options

  datatype Effect =
    | ReversedGravity
    | FlickeringSprites
    | InputLag
    | ColorDistortion
    | ScreenShake
    | PlatformDisappear
    | SpeedChange
    | Pixelation

  /** The effect list random.choice picks from, in source order. */
  const EFFECTS: seq<Effect> := [ReversedGravity, FlickeringSprites, InputLag, ColorDistortion,
                                 ScreenShake, PlatformDisappear, SpeedChange, Pixelation]

  /** The effect method's __name__. */
  function EffectName(e: Effect): string
  {
    match e
    case ReversedGravity => "reversed_gravity"
    case FlickeringSprites => "flickering_sprites"
    case InputLag => "input_lag"
    case ColorDistortion => "color_distortion"
    case ScreenShake => "screen_shake"
    case PlatformDisappear => "platform_disappear"
    case SpeedChange => "speed_change"
    case Pixelation => "pixelation"
  }

  function UpperChar(c: char): char
  {
    if 'a' <= c <= 'z' then (c as int - 32) as char else c
  }

  /** name.replace('_', ' ').upper(), for ASCII names. */
  function Displayed(name: string): string
  {
    seq(|name|, i requires 0 <= i < |name| => UpperChar(if name[i] == '_' then ' ' else name[i]))
  }

  /** The notification for a glitch with the given effect name. */
  function Banner(name: string): string
  {
    "GLITCH: " + Displayed(name)
  }

  function NotificationText(e: Effect): string
  {
    Banner(EffectName(e))
  }

  /** The notification is "GLITCH: " followed by the effect's name with
      spaces for underscores, all in capitals. */
  lemma BannerShape(name: string)
    ensures var t := Banner(name);
            |t| == 8 + |name| && t[..8] == "GLITCH: " &&
            (forall i :: 0 <= i < |name| ==> t[8 + i] == UpperChar(if name[i] == '_' then ' ' else name[i])) &&
            (forall i :: 8 <= i < |t| ==> t[i] != '_' && !('a' <= t[i] <= 'z'))
  {
    var t := Banner(name);
    assert forall i :: 0 <= i < |name| ==> t[8 + i] == Displayed(name)[i];
    forall i | 8 <= i < |t|
      ensures t[i] != '_' && !('a' <= t[i] <= 'z')
    {
      assert t[i] == Displayed(name)[i - 8];
    }
  }

  /** The overlay colour of apply_screen_effects: each channel is 128 plus
      the shift, clamped to [0, 255]. */
  function OverlayChannel(shift: int): (c: int)
    ensures 0 <= c <= 255
    ensures 0 <= 128 + shift <= 255 ==> c == 128 + shift
    ensures 128 + shift < 0 ==> c == 0
    ensures 128 + shift > 255 ==> c == 255
  {
    var v := 128 + shift;
    if v > 255 then 255 else if v < 0 then 0 else v
  }

  // ---------------------------------------------------------------- random draws

  /** The effect random.choice picked with the random values that effect
      draws when it is switched on. */
  datatype Draw =
    | GravityDraw
    | FlickerDraw
    | LagDraw(frames: int)
    | ColorDraw(red: int, green: int, blue: int)
    | ShakeDraw(amount: int)
    | VanishDraw(count: int, picks: seq<int>)
    | SpeedDraw(multiplier: real)
    | PixelDraw(size: int)

  function EffectOf(d: Draw): Effect
  {
    match d
    case GravityDraw => ReversedGravity
    case FlickerDraw => FlickeringSprites
    case LagDraw(_) => InputLag
    case ColorDraw(_, _, _) => ColorDistortion
    case ShakeDraw(_) => ScreenShake
    case VanishDraw(_, _) => PlatformDisappear
    case SpeedDraw(_) => SpeedChange
    case PixelDraw(_) => Pixelation
  }

  const PIXEL_SIZES: seq<int> := [2, 3, 4, 6, 8]

  predicate DistinctInts(s: seq<int>)
  {
    forall i, j :: 0 <= i < j < |s| ==> s[i] != s[j]
  }

  /** The ranges the effects draw from. A vanish draws k in [1, 3] and then
      random.sample picks min(#eligible, k) distinct eligible platforms,
      given here as positions in the eligible list; the sample is drawn only
      when some platform is eligible. */
  predicate DrawOk(d: Draw, eligible: nat)
  {
    match d
    case GravityDraw => true
    case FlickerDraw => true
    case LagDraw(n) => 5 <= n <= 15
    case ColorDraw(r, g, b) => -100 <= r <= 100 && -100 <= g <= 100 && -100 <= b <= 100
    case ShakeDraw(a) => 5 <= a <= 15
    case VanishDraw(k, picks) =>
      1 <= k <= 3 &&
      (eligible > 0 ==>
         |picks| == Min(eligible, k) && DistinctInts(picks) &&
         forall i :: 0 <= i < |picks| ==> 0 <= picks[i] < eligible)
    case SpeedDraw(m) => 0.5 <= m <= 2.0
    case PixelDraw(p) => p in PIXEL_SIZES
  }

  /** Platforms above the bottom 100 pixels: the ground is never removed. */
  function Eligible(ps: seq<Platform>): seq<Platform>
  {
    if ps == [] then []
    else Eligible(ps[..|ps| - 1]) + (if ps[|ps| - 1].rect.y < SCREEN_HEIGHT - 100 then [ps[|ps| - 1]] else [])
  }

  /** The eligible platforms are exactly those above the bottom 100 pixels,
      and they stay distinct. */
  lemma {:induction false} EligibleExactly(ps: seq<Platform>)
    ensures var e := Eligible(ps);
            |e| <= |ps| &&
            (forall i :: 0 <= i < |e| ==> e[i] in ps && e[i].rect.y < SCREEN_HEIGHT - 100) &&
            (forall i :: 0 <= i < |ps| && ps[i].rect.y < SCREEN_HEIGHT - 100 ==> ps[i] in e) &&
            (Distinct(ps) ==> Distinct(e))
  {
    if ps != [] {
      var init := ps[..|ps| - 1];
      EligibleExactly(init);
      assert forall i :: 0 <= i < |init| ==> init[i] == ps[i];
      var e := Eligible(ps);
      var last := ps[|ps| - 1];
      if Distinct(ps) {
        assert Distinct(init);
        assert last !in init;
      }
      forall i | 0 <= i < |ps| && ps[i].rect.y < SCREEN_HEIGHT - 100
        ensures ps[i] in e
      {
        if i < |init| {
          assert ps[i] in Eligible(init);
        }
      }
    }
  }

  /** random.sample's choice, as platforms. */
  function Picked(e: seq<Platform>, picks: seq<int>): seq<Platform>
    requires forall i :: 0 <= i < |picks| ==> 0 <= picks[i] < |e|
  {
    seq(|picks|, i requires 0 <= i < |picks| => e[picks[i]])
  }

  /** A sample of distinct positions in a list of distinct platforms is a
      list of distinct platforms taken from it. */
  lemma PickedDistinct(e: seq<Platform>, picks: seq<int>)
    requires forall i :: 0 <= i < |picks| ==> 0 <= picks[i] < |e|
    requires Distinct(e) && DistinctInts(picks)
    ensures Distinct(Picked(e, picks))
    ensures forall i :: 0 <= i < |picks| ==> Picked(e, picks)[i] in e
  {
    var p := Picked(e, picks);
    forall i, j | 0 <= i < j < |p|
      ensures p[i] != p[j]
    {
      assert picks[i] != picks[j];
    }
  }

  /** Whether a draw makes platforms vanish: a vanish with some eligible
      platform. */
  predicate HitsPlatforms(d: Draw, ps: seq<Platform>)
  {
    d.VanishDraw? && |Eligible(ps)| > 0
  }

  // ---------------------------------------------------------------- the engine's variables

  /** The engine variables the effects work on. */
  datatype Vals = Vals(
    inputBuffer: seq<(int, Event)>,
    inputLagFrames: int,
    flickerState: bool,
    flickerTimer: int,
    colorShift: (int, int, int),
    shakeAmount: int,
    screenOffset: (int, int),
    pixelSize: int,
    speedMultiplier: real)

  /** GlitchEngine.__init__'s values: the baseline every revert returns to. */
  function InitialVals(): Vals
  {
    Vals([], 0, true, 0, (0, 0, 0), 0, (0, 0), 1, 1.0)
  }

  /** effect(True) on the engine's variables. */
  function ActivateVals(v: Vals, d: Draw): Vals
  {
    match d
    case GravityDraw => v
    case FlickerDraw => v.(flickerTimer := 0, flickerState := true)
    case LagDraw(n) => v.(inputLagFrames := n, inputBuffer := [])
    case ColorDraw(r, g, b) => v.(colorShift := (r, g, b))
    case ShakeDraw(a) => v.(shakeAmount := a)
    case VanishDraw(_, _) => v
    case SpeedDraw(m) => v.(speedMultiplier := m)
    case PixelDraw(p) => v.(pixelSize := p)
  }

  /** effect(True) on the player. */
  function ActivatePlayer(s: PlayerState, d: Draw): PlayerState
  {
    match d
    case GravityDraw => s.(vy := -s.vy, gravity := -GRAVITY, ceilingEnabled := true)
    case SpeedDraw(m) => s.(speed := PLAYER_SPEED * m)
    case _ => s
  }

  /** effect(False) on the engine's variables. */
  function RevertVals(v: Vals, e: Effect): Vals
  {
    match e
    case ReversedGravity => v
    case FlickeringSprites => v.(flickerState := true)
    case InputLag => v.(inputLagFrames := 0, inputBuffer := [])
    case ColorDistortion => v.(colorShift := (0, 0, 0))
    case ScreenShake => v.(shakeAmount := 0, screenOffset := (0, 0))
    case PlatformDisappear => v
    case SpeedChange => v.(speedMultiplier := 1.0)
    case Pixelation => v.(pixelSize := 1)
  }

  /** effect(False) on the player. The gravity revert flips vy and restores
      gravity whether or not another reversal is still active. */
  function RevertPlayer(s: PlayerState, e: Effect): PlayerState
  {
    match e
    case ReversedGravity => s.(vy := -s.vy, gravity := GRAVITY, ceilingEnabled := false)
    case SpeedChange => s.(speed := PLAYER_SPEED)
    case _ => s
  }

  /** Every switched-on effect stays within the ranges it draws from; speed
      is PLAYER_SPEED times the multiplier, so between 2.5 and 10. */
  lemma ActivationRanges(v: Vals, s: PlayerState, d: Draw, eligible: nat)
    requires DrawOk(d, eligible)
    ensures var w := ActivateVals(v, d);
            var q := ActivatePlayer(s, d);
            (d.LagDraw? ==> 5 <= w.inputLagFrames <= 15 && w.inputBuffer == []) &&
            (d.ColorDraw? ==> -100 <= w.colorShift.0 <= 100 && -100 <= w.colorShift.1 <= 100 &&
                              -100 <= w.colorShift.2 <= 100) &&
            (d.ShakeDraw? ==> 5 <= w.shakeAmount <= 15) &&
            (d.PixelDraw? ==> w.pixelSize in {2, 3, 4, 6, 8}) &&
            (d.SpeedDraw? ==> q.speed == PLAYER_SPEED * w.speedMultiplier &&
                              0.5 <= w.speedMultiplier <= 2.0 && 2.5 <= q.speed <= 10.0) &&
            (d.GravityDraw? ==> q.gravity == -GRAVITY && q.ceilingEnabled && q.vy == -s.vy) &&
            q.rect == s.rect && q.jumpCount == s.jumpCount && q.onGround == s.onGround
  {
  }

  /** Each revert puts its variables back to the baseline of
      GlitchEngine.__init__ and of Player.__init__, whatever they were. */
  lemma RevertRestoresBaseline(v: Vals, s: PlayerState, e: Effect)
    ensures var w := RevertVals(v, e);
            var q := RevertPlayer(s, e);
            var b := InitialVals();
            (e == FlickeringSprites ==> w.flickerState == b.flickerState) &&
            (e == InputLag ==> w.inputLagFrames == 0 && w.inputBuffer == []) &&
            (e == ColorDistortion ==> w.colorShift == (0, 0, 0)) &&
            (e == ScreenShake ==> w.shakeAmount == 0 && w.screenOffset == (0, 0)) &&
            (e == Pixelation ==> w.pixelSize == 1) &&
            (e == SpeedChange ==> q.speed == PLAYER_SPEED && w.speedMultiplier == 1.0) &&
            (e == ReversedGravity ==> q.gravity == GRAVITY && !q.ceilingEnabled) &&
            q.rect == s.rect && q.jumpCount == s.jumpCount && q.onGround == s.onGround
  {
  }

  /** Switching an effect on and then off leaves the engine as switching it
      off alone would: nothing of the activation survives the revert. */
  lemma RevertUndoesActivation(v: Vals, d: Draw)
    ensures RevertVals(ActivateVals(v, d), EffectOf(d)) ==
            (if d.ColorDraw? || d.ShakeDraw? || d.PixelDraw? || d.SpeedDraw? || d.LagDraw?
             then RevertVals(v, EffectOf(d))
             else if d.FlickerDraw? then v.(flickerTimer := 0, flickerState := true)
             else v)
  {
  }

  /** Reversed gravity switched on and off with vy untouched in between
      gives the player back its vertical speed, with normal gravity and no
      ceiling. */
  lemma ReversedGravityRoundTrip(s: PlayerState)
    ensures RevertPlayer(ActivatePlayer(s, GravityDraw), ReversedGravity) ==
            s.(gravity := GRAVITY, ceilingEnabled := false)
  {
  }

  /** The revert is not re-entrant: with two reversals switched on, the
      first revert already restores normal gravity and removes the ceiling
      although the second reversal is still active, and the speed is then
      the negation of the original one. */
  lemma ReversedGravityNotReentrant(s: PlayerState)
    ensures var twice := ActivatePlayer(ActivatePlayer(s, GravityDraw), GravityDraw);
            var once := RevertPlayer(twice, ReversedGravity);
            twice.vy == s.vy && twice.gravity == -GRAVITY &&
            once.gravity == GRAVITY && !once.ceilingEnabled && once.vy == -s.vy &&
            RevertPlayer(once, ReversedGravity).vy == s.vy
  {
  }

  /** A speed change and its revert give the player PLAYER_SPEED back. */
  lemma SpeedChangeRoundTrip(s: PlayerState, m: real)
    ensures RevertPlayer(ActivatePlayer(s, SpeedDraw(m)), SpeedChange) == s.(speed := PLAYER_SPEED)
  {
  }

  // ---------------------------------------------------------------- per-frame work

  const FLICKER_PERIOD: int := 5
  const FADE_STEP: int := 5

  /** update_flickering: the state toggles every FLICKER_PERIOD frames. */
  function FlickerStep(v: Vals): Vals
  {
    if v.flickerTimer + 1 >= FLICKER_PERIOD then v.(flickerState := !v.flickerState, flickerTimer := 0)
    else v.(flickerTimer := v.flickerTimer + 1)
  }

  function FlickerSteps(v: Vals, n: nat): Vals
  {
    if n == 0 then v else FlickerStep(FlickerSteps(v, n - 1))
  }

  /** From a fresh activation the flicker timer counts the frames modulo 5,
      and the sprites are shown in the even five-frame blocks and hidden in
      the odd ones. */
  lemma {:induction false} FlickerCycle(v: Vals, n: nat)
    requires v.flickerTimer == 0
    ensures FlickerSteps(v, n).flickerTimer == n % FLICKER_PERIOD
    ensures FlickerSteps(v, n).flickerState == (if (n / FLICKER_PERIOD) % 2 == 0 then v.flickerState else !v.flickerState)
    ensures FlickerSteps(v, n) == v.(flickerTimer := n % FLICKER_PERIOD, flickerState := FlickerSteps(v, n).flickerState)
  {
    if n > 0 {
      FlickerCycle(v, n - 1);
      var m := n - 1;
      if m % FLICKER_PERIOD == FLICKER_PERIOD - 1 {
        assert n % FLICKER_PERIOD == 0;
        assert n / FLICKER_PERIOD == m / FLICKER_PERIOD + 1;
      } else {
        assert n % FLICKER_PERIOD == m % FLICKER_PERIOD + 1;
        assert n / FLICKER_PERIOD == m / FLICKER_PERIOD;
      }
    }
  }

  /** The flicker timer stays in [0, 4]. */
  lemma FlickerBounded(v: Vals)
    requires 0 <= v.flickerTimer < FLICKER_PERIOD
    ensures 0 <= FlickerStep(v).flickerTimer < FLICKER_PERIOD
    ensures FlickerStep(v).flickerState != v.flickerState <==> v.flickerTimer == FLICKER_PERIOD - 1
  {
  }

  /** update_screen_shake: a new offset, drawn in [-shake, shake], only
      while the amount is positive. */
  function ShakeStep(v: Vals, offset: (int, int)): Vals
  {
    if v.shakeAmount > 0 then v.(screenOffset := offset) else v
  }

  predicate InShake(offset: (int, int), amount: int)
  {
    -amount <= offset.0 <= amount && -amount <= offset.1 <= amount
  }

  /** A vanishing platform fades 5 alpha a frame and stops being solid once
      fully transparent; one that is not disappearing is left alone. */
  function Fade(r: PlatformRec): PlatformRec
  {
    if r.disappearing then
      var a := if r.alpha - FADE_STEP > 0 then r.alpha - FADE_STEP else 0;
      PlatformRec(a, true, a > 0)
    else r
  }

  function FadeTimes(r: PlatformRec, n: nat): PlatformRec
  {
    if n == 0 then r else Fade(FadeTimes(r, n - 1))
  }

  /** After n frames a platform that started fading at full alpha has alpha
      max(0, 255 - 5n), and it is solid exactly while its alpha is above 0:
      it disappears after 51 frames. */
  lemma {:induction false} FadeSchedule(r: PlatformRec, n: nat)
    requires r.disappearing && r.alpha == 255
    ensures FadeTimes(r, n).alpha == Max(0, 255 - FADE_STEP * n)
    ensures FadeTimes(r, n).disappearing
    ensures n > 0 ==> (FadeTimes(r, n).solid <==> FadeTimes(r, n).alpha > 0)
    ensures n >= 51 ==> !FadeTimes(r, n).solid
  {
    if n > 0 {
      FadeSchedule(r, n - 1);
    }
  }

  /** platform_disappear(True) on one chosen platform: solid is left as it
      was. */
  function Armed(r: PlatformRec): PlatformRec
  {
    r.(alpha := 255, disappearing := true)
  }

  /** platform_disappear(False) on one listed platform. */
  function Restored(r: PlatformRec): PlatformRec
  {
    PlatformRec(255, false, true)
  }

  function FadeAll(rs: seq<PlatformRec>): seq<PlatformRec>
  {
    seq(|rs|, i requires 0 <= i < |rs| => Fade(rs[i]))
  }

  function RestoreAll(rs: seq<PlatformRec>): seq<PlatformRec>
  {
    seq(|rs|, i requires 0 <= i < |rs| => Restored(rs[i]))
  }

  function ArmAll(rs: seq<PlatformRec>): seq<PlatformRec>
  {
    seq(|rs|, i requires 0 <= i < |rs| => Armed(rs[i]))
  }

  // ---------------------------------------------------------------- one frame of the scheduler

  /** What one frame of the scheduler works on: the engine's variables, the
      player, the records of the platforms in the vanish list as the frame
      found it, and whether that list is still in place (a vanish revert
      empties it). */
  datatype TickWorld = TickWorld(vals: Vals, player: PlayerState, recs: seq<PlatformRec>, listed: bool)

  /** end_glitch. */
  function RevertW(w: TickWorld, e: Effect): TickWorld
  {
    TickWorld(RevertVals(w.vals, e), RevertPlayer(w.player, e),
              if e == PlatformDisappear && w.listed then RestoreAll(w.recs) else w.recs,
              w.listed && e != PlatformDisappear)
  }

  /** The per-frame work of one glitch that has not expired. */
  function PerTickW(w: TickWorld, e: Effect, offset: (int, int)): TickWorld
  {
    match e
    case FlickeringSprites => w.(vals := FlickerStep(w.vals))
    case ScreenShake => w.(vals := ShakeStep(w.vals, offset))
    case PlatformDisappear => if w.listed then w.(recs := FadeAll(w.recs)) else w
    case _ => w
  }

  /** Only the flicker, shake and vanish effects do per-frame work, and no
      per-frame work touches the player. */
  lemma PerTickOnlyThree(w: TickWorld, e: Effect, offset: (int, int))
    ensures e != FlickeringSprites && e != ScreenShake && e != PlatformDisappear ==> PerTickW(w, e, offset) == w
    ensures PerTickW(w, e, offset).player == w.player && PerTickW(w, e, offset).listed == w.listed
  {
  }

  datatype Glitch = Glitch(effect: Effect, startTime: real)

  predicate Expired(g: Glitch, now: real)
  {
    now - g.startTime > GLITCH_DURATION
  }

  /** The loop body of GlitchEngine.update for one active glitch. */
  function TickOne(w: TickWorld, g: Glitch, now: real, offset: (int, int)): TickWorld
  {
    if Expired(g, now) then RevertW(w, g.effect) else PerTickW(w, g.effect, offset)
  }

  /** The loop of GlitchEngine.update over the active glitches; offsets[k]
      is the shake offset drawn while visiting the k-th. */
  function TickAll(w: TickWorld, gs: seq<Glitch>, now: real, offsets: seq<(int, int)>): TickWorld
    requires |offsets| >= |gs|
  {
    if gs == [] then w
    else TickOne(TickAll(w, gs[..|gs| - 1], now, offsets), gs[|gs| - 1], now, offsets[|gs| - 1])
  }

  /** The glitches left after the loop: the unexpired ones in order. */
  function Survivors(gs: seq<Glitch>, now: real): seq<Glitch>
  {
    if gs == [] then []
    else Survivors(gs[..|gs| - 1], now) + (if Expired(gs[|gs| - 1], now) then [] else [gs[|gs| - 1]])
  }

  /** Filtering a concatenation filters each part, in order. */
  lemma {:induction false} SurvivorsAppend(a: seq<Glitch>, b: seq<Glitch>, now: real)
    ensures Survivors(a + b, now) == Survivors(a, now) + Survivors(b, now)
  {
    if b != [] {
      var b0 := b[..|b| - 1];
      assert (a + b)[..|a + b| - 1] == a + b0;
      assert (a + b)[|a + b| - 1] == b[|b| - 1];
      SurvivorsAppend(a, b0, now);
    } else {
      assert a + b == a;
    }
  }

  /** A glitch stays exactly when it is not yet older than GLITCH_DURATION. */
  lemma {:induction false} SurvivorsExactly(a: seq<Glitch>, now: real)
    ensures forall g :: g in Survivors(a, now) <==> g in a && !Expired(g, now)
  {
    if a != [] {
      SurvivorsExactly(a[..|a| - 1], now);
      assert a == a[..|a| - 1] + [a[|a| - 1]];
    }
  }

  /** The loop never raises the shake amount: it keeps it or reverts it to
      0. Nor does it change the player's box or jumps. */
  lemma {:induction false} TickAllFrame(w: TickWorld, gs: seq<Glitch>, now: real, offsets: seq<(int, int)>)
    requires |offsets| >= |gs|
    ensures var r := TickAll(w, gs, now, offsets);
            (r.vals.shakeAmount == w.vals.shakeAmount || r.vals.shakeAmount == 0) &&
            (r.vals.inputLagFrames == w.vals.inputLagFrames || r.vals.inputLagFrames == 0) &&
            (0 <= w.vals.flickerTimer < FLICKER_PERIOD ==> 0 <= r.vals.flickerTimer < FLICKER_PERIOD) &&
            r.player.rect == w.player.rect && r.player.jumpCount == w.player.jumpCount &&
            r.player.onGround == w.player.onGround && |r.recs| == |w.recs| &&
            (r.listed ==> w.listed)
  {
    if gs != [] {
      TickAllFrame(w, gs[..|gs| - 1], now, offsets);
      TickOneFrame(TickAll(w, gs[..|gs| - 1], now, offsets), gs[|gs| - 1], now, offsets[|gs| - 1]);
    }
  }

  /** One visit: the facts TickAllFrame chains together. */
  lemma TickOneFrame(w: TickWorld, g: Glitch, now: real, offset: (int, int))
    ensures var r := TickOne(w, g, now, offset);
            (r.vals.shakeAmount == w.vals.shakeAmount || r.vals.shakeAmount == 0) &&
            (r.vals.inputLagFrames == w.vals.inputLagFrames || r.vals.inputLagFrames == 0) &&
            (0 <= w.vals.flickerTimer < FLICKER_PERIOD ==> 0 <= r.vals.flickerTimer < FLICKER_PERIOD) &&
            r.player.rect == w.player.rect && r.player.jumpCount == w.player.jumpCount &&
            r.player.onGround == w.player.onGround && |r.recs| == |w.recs| &&
            (r.listed ==> w.listed)
  {
  }

  /** TickAll over one more glitch is one more TickOne. */
  lemma TickAllStep(w: TickWorld, gs: seq<Glitch>, i: nat, now: real, offsets: seq<(int, int)>)
    requires i < |gs| <= |offsets|
    ensures TickAll(w, gs[..i + 1], now, offsets) == TickOne(TickAll(w, gs[..i], now, offsets), gs[i], now, offsets[i])
  {
    assert gs[..i + 1][..i] == gs[..i];
  }

  /** The survivors of a prefix followed by the glitches not yet visited:
      visiting the next one drops it where the survivors end, or keeps it. */
  lemma SurvivorsStep(gs: seq<Glitch>, i: nat, now: real)
    requires i < |gs|
    ensures var S := Survivors(gs[..i], now);
            var A := S + gs[i..];
            var S1 := Survivors(gs[..i + 1], now);
            |S| < |A| &&
            (Expired(gs[i], now) ==> A[..|S|] + A[|S| + 1..] == S1 + gs[i + 1..] && |S1| == |S|) &&
            (!Expired(gs[i], now) ==> A == S1 + gs[i + 1..] && |S1| == |S| + 1)
  {
    assert gs[..i + 1][..i] == gs[..i];
    var S := Survivors(gs[..i], now);
    var A := S + gs[i..];
    assert A[..|S|] == S;
    assert A[|S| + 1..] == gs[i + 1..];
    assert gs[i..] == [gs[i]] + gs[i + 1..];
  }

  /** An expired reversed-gravity glitch always leaves normal gravity and no
      ceiling behind, even while a later reversal is still active. */
  lemma GravityRevertWins(w: TickWorld, g: Glitch, now: real, offset: (int, int))
    requires g.effect == ReversedGravity && Expired(g, now)
    ensures TickOne(w, g, now, offset).player.gravity == GRAVITY
    ensures !TickOne(w, g, now, offset).player.ceilingEnabled
  {
  }

  /** A second vanish overwrites the list: after a revert the list is gone,
      so a later vanish revert restores nothing and a later fade fades
      nothing. */
  lemma VanishRevertEmptiesList(w: TickWorld, g: Glitch, h: Glitch, now: real, o1: (int, int), o2: (int, int))
    requires g.effect == PlatformDisappear && h.effect == PlatformDisappear && Expired(g, now)
    ensures var w1 := TickOne(w, g, now, o1);
            !w1.listed && TickOne(w1, h, now, o2).recs == w1.recs &&
            (w.listed ==> w1.recs == RestoreAll(w.recs))
  {
  }

  // ---------------------------------------------------------------- input lag

  /** An entry buffered at tick t is due once it has waited lag frames of
      1000 / FPS milliseconds, compared exactly. */
  predicate Waited(entry: (int, Event), ticks: int, lag: int)
  {
    (ticks - entry.0) * FPS >= lag * 1000
  }

  /** The events get_lagged_input returns, in buffer order. */
  function Released(buf: seq<(int, Event)>, ticks: int, lag: int): seq<Event>
  {
    if buf == [] then []
    else Released(buf[..|buf| - 1], ticks, lag) + (if Waited(buf[|buf| - 1], ticks, lag) then [buf[|buf| - 1].1] else [])
  }

  /** The entries get_lagged_input leaves in the buffer. */
  function Held(buf: seq<(int, Event)>, ticks: int, lag: int): seq<(int, Event)>
  {
    if buf == [] then []
    else Held(buf[..|buf| - 1], ticks, lag) + (if Waited(buf[|buf| - 1], ticks, lag) then [] else [buf[|buf| - 1]])
  }

  predicate SortedTicks(buf: seq<(int, Event)>)
  {
    forall i, j :: 0 <= i < j < |buf| ==> buf[i].0 <= buf[j].0
  }

  function EventsOf(buf: seq<(int, Event)>): seq<Event>
  {
    seq(|buf|, i requires 0 <= i < |buf| => buf[i].1)
  }

  /** Every entry is either returned or kept, and the kept ones are exactly
      those not yet due. */
  lemma {:induction false} LagSplit(buf: seq<(int, Event)>, ticks: int, lag: int)
    ensures |Released(buf, ticks, lag)| + |Held(buf, ticks, lag)| == |buf|
    ensures forall e :: e in Held(buf, ticks, lag) <==> e in buf && !Waited(e, ticks, lag)
  {
    if buf != [] {
      LagSplit(buf[..|buf| - 1], ticks, lag);
      assert buf == buf[..|buf| - 1] + [buf[|buf| - 1]];
    }
  }

  /** When every entry has waited long enough, all are released and none held. */
  lemma {:induction false} AllWaited(buf: seq<(int, Event)>, ticks: int, lag: int)
    requires forall i :: 0 <= i < |buf| ==> Waited(buf[i], ticks, lag)
    ensures Released(buf, ticks, lag) == EventsOf(buf) && Held(buf, ticks, lag) == []
  {
    if buf != [] {
      AllWaited(buf[..|buf| - 1], ticks, lag);
      assert EventsOf(buf) == EventsOf(buf[..|buf| - 1]) + [buf[|buf| - 1].1];
    }
  }

  /** process_input buffers with a clock that never goes back, so the buffer
      is sorted by tick; then the lag buffer is first in, first out: what
      get_lagged_input returns is a prefix of the buffer and what it keeps
      is the rest. */
  lemma {:induction false} LagIsFifo(buf: seq<(int, Event)>, ticks: int, lag: int)
    requires SortedTicks(buf)
    ensures var n := |Released(buf, ticks, lag)|;
            n <= |buf| && Released(buf, ticks, lag) == EventsOf(buf[..n]) &&
            Held(buf, ticks, lag) == buf[n..]
  {
    if buf != [] {
      var init := buf[..|buf| - 1];
      var last := buf[|buf| - 1];
      if Waited(last, ticks, lag) {
        // an earlier entry is at least as old, so it is due as well
        forall i | 0 <= i < |buf|
          ensures Waited(buf[i], ticks, lag)
        {
          assert buf[i].0 <= last.0;
        }
        AllWaited(buf, ticks, lag);
        assert buf[..|buf|] == buf;
      } else {
        assert SortedTicks(init);
        LagIsFifo(init, ticks, lag);
        var n := |Released(init, ticks, lag)|;
        assert buf[n..] == init[n..] + [last];
        assert buf[..n] == init[..n];
      }
    }
  }

  /** The platforms an activation chooses: none unless it is a vanish
      activation that finds eligible platforms. */
  function Chosen(d: Draw, ps: seq<Platform>): seq<Platform>
    requires DrawOk(d, |Eligible(ps)|)
  {
    if HitsPlatforms(d, ps) then Picked(Eligible(ps), d.picks) else []
  }

  /** Whatever a vanish draw picks comes from the level's own platforms. */
  lemma ChosenWithin(d: Draw, ps: seq<Platform>)
    requires DrawOk(d, |Eligible(ps)|)
    ensures forall i :: 0 <= i < |Chosen(d, ps)| ==> Chosen(d, ps)[i] in ps
  {
    EligibleExactly(ps);
  }

  /** The arming loop of platform_disappear(True). */
  method ArmEach(L: seq<Platform>)
    requires Distinct(L)
    modifies L
    ensures Recs(L) == ArmAll(old(Recs(L)))
  {
    var i := 0;
    while i < |L|
      invariant 0 <= i <= |L|
      invariant forall k :: 0 <= k < i ==> L[k].Rec() == Armed(old(L[k].Rec()))
      invariant forall k :: i <= k < |L| ==> L[k].Rec() == old(L[k].Rec())
    {
      L[i].alpha := 255;
      L[i].disappearing := true;
      i := i + 1;
    }
    assert Recs(L) == ArmAll(old(Recs(L))) by {
      forall k | 0 <= k < |L|
        ensures Recs(L)[k] == ArmAll(old(Recs(L)))[k]
      {
      }
    }
  }

  /** The restoring loop of platform_disappear(False); a platform listed
      twice is restored twice to the same record. */
  method RestoreEach(L: seq<Platform>)
    modifies L
    ensures Recs(L) == RestoreAll(old(Recs(L)))
  {
    var i := 0;
    while i < |L|
      invariant 0 <= i <= |L|
      invariant forall k :: 0 <= k < i ==> L[k].Rec() == PlatformRec(255, false, true)
    {
      L[i].disappearing := false;
      L[i].solid := true;
      L[i].alpha := 255;
      i := i + 1;
    }
    assert Recs(L) == RestoreAll(old(Recs(L))) by {
      forall k | 0 <= k < |L|
        ensures Recs(L)[k] == RestoreAll(old(Recs(L)))[k]
      {
      }
    }
  }

  /** The fading loop of update_disappearing_platforms. */
  method FadeEach(L: seq<Platform>)
    requires Distinct(L)
    modifies L
    ensures Recs(L) == FadeAll(old(Recs(L)))
  {
    var i := 0;
    while i < |L|
      invariant 0 <= i <= |L|
      invariant forall k :: 0 <= k < i ==> L[k].Rec() == Fade(old(L[k].Rec()))
      invariant forall k :: i <= k < |L| ==> L[k].Rec() == old(L[k].Rec())
    {
      var q := L[i];
      if q.disappearing {
        q.alpha := if q.alpha - FADE_STEP > 0 then q.alpha - FADE_STEP else 0;
        if q.alpha <= 0 {
          q.solid := false;
        } else {
          q.solid := true;
        }
      }
      i := i + 1;
    }
    assert Recs(L) == FadeAll(old(Recs(L))) by {
      forall k | 0 <= k < |L|
        ensures Recs(L)[k] == FadeAll(old(Recs(L)))[k]
      {
      }
    }
  }

  // ---------------------------------------------------------------- the engine object

  /** The bookkeeping of the scheduler, apart from the effects' variables. */
  datatype Schedule = Schedule(active: seq<Glitch>, lastGlitchTime: real,
                               notificationText: string, notificationTime: real)

  /** GlitchEngine.update starts a glitch once more than GLITCH_INTERVAL
      seconds passed since the last one. */
  predicate GlitchDue(lastGlitchTime: real, now: real)
  {
    now - lastGlitchTime > GLITCH_INTERVAL
  }

  /** trigger_random_glitch's effect(True) on one frame's world; hit says
      whether the activation chose platforms, which then become the list. */
  function TriggerW(w: TickWorld, d: Draw, hit: bool): TickWorld
  {
    TickWorld(ActivateVals(w.vals, d), ActivatePlayer(w.player, d),
              if hit then ArmAll(w.recs) else w.recs, hit || w.listed)
  }

  class GlitchEngine {
    var activeGlitches: seq<Glitch>
    var lastGlitchTime: real
    var notificationText: string
    var notificationTime: real
    var inputBuffer: seq<(int, Event)>
    var inputLagFrames: int
    var flickerState: bool
    var flickerTimer: int
    var colorShift: (int, int, int)
    var shakeAmount: int
    var screenOffset: (int, int)
    var pixelSize: int
    var speedMultiplier: real
    var disappearingPlatforms: seq<Platform>

    function EffectVars(): Vals
      reads this
    {
      Vals(inputBuffer, inputLagFrames, flickerState, flickerTimer, colorShift, shakeAmount,
           screenOffset, pixelSize, speedMultiplier)
    }

    function Scheduling(): Schedule
      reads this
    {
      Schedule(activeGlitches, lastGlitchTime, notificationText, notificationTime)
    }

    /** random.sample never picks a platform twice, the lag is off or
        positive, the flicker timer stays below its period, and the lag
        buffer is in the order of its ticks. */
    ghost predicate Valid()
      reads this
    {
      Distinct(disappearingPlatforms) && inputLagFrames >= 0 && 0 <= flickerTimer < FLICKER_PERIOD &&
      SortedTicks(inputBuffer)
    }

    /** No buffered event is later than ticks: pygame's clock never goes back. */
    predicate NotBefore(ticks: int)
      reads this
    {
      forall k :: 0 <= k < |inputBuffer| ==> inputBuffer[k].0 <= ticks
    }

    /** The world a frame of the scheduler sees, with L the vanish list the
        frame started from. */
    function World(L: seq<Platform>, player: Player): TickWorld
      reads this, player, L
    {
      TickWorld(EffectVars(), player.State(), Recs(L), disappearingPlatforms != [])
    }

    /** GlitchEngine.__init__; now is the time.time() it reads. */
    constructor (now: real)
      ensures EffectVars() == InitialVals() && Scheduling() == Schedule([], now, "", 0.0)
      ensures disappearingPlatforms == [] && Valid()
    {
      activeGlitches := [];
      lastGlitchTime := now;
      notificationText, notificationTime := "", 0.0;
      inputBuffer, inputLagFrames := [], 0;
      flickerState, flickerTimer := true, 0;
      colorShift := (0, 0, 0);
      shakeAmount, screenOffset := 0, (0, 0);
      pixelSize, speedMultiplier := 1, 1.0;
      disappearingPlatforms := [];
    }

    method ReversedGravity(activate: bool, player: Player)
      modifies player
      ensures player.State() == if activate then ActivatePlayer(old(player.State()), GravityDraw)
                                else RevertPlayer(old(player.State()), Effect.ReversedGravity)
    {
      if activate {
        player.velocityY := -player.velocityY;
        player.gravity := -GRAVITY;
        player.ceilingEnabled := true;
      } else {
        player.velocityY := -player.velocityY;
        player.gravity := GRAVITY;
        player.ceilingEnabled := false;
      }
    }

    method FlickeringSprites(activate: bool)
      modifies this
      ensures EffectVars() == if activate then ActivateVals(old(EffectVars()), FlickerDraw)
                        else RevertVals(old(EffectVars()), Effect.FlickeringSprites)
      ensures Scheduling() == old(Scheduling()) && disappearingPlatforms == old(disappearingPlatforms)
    {
      if activate {
        flickerTimer := 0;
        flickerState := true;
      } else {
        flickerState := true;
      }
    }

    method UpdateFlickering()
      modifies this
      ensures EffectVars() == FlickerStep(old(EffectVars()))
      ensures Scheduling() == old(Scheduling()) && disappearingPlatforms == old(disappearingPlatforms)
    {
      flickerTimer := flickerTimer + 1;
      if flickerTimer >= FLICKER_PERIOD {
        flickerState := !flickerState;
        flickerTimer := 0;
      }
    }

    method InputLag(activate: bool, frames: int)
      requires activate ==> 5 <= frames <= 15
      modifies this
      ensures EffectVars() == if activate then ActivateVals(old(EffectVars()), LagDraw(frames))
                        else RevertVals(old(EffectVars()), Effect.InputLag)
      ensures Scheduling() == old(Scheduling()) && disappearingPlatforms == old(disappearingPlatforms)
    {
      if activate {
        inputLagFrames := frames;
        inputBuffer := [];
      } else {
        inputLagFrames := 0;
        inputBuffer := [];
      }
    }

    /** process_input; ticks is pygame.time.get_ticks(). While the lag is on
        the event is buffered and withheld; otherwise it passes unchanged. */
    method ProcessInput(e: Event, ticks: int) returns (r: Option<Event>)
      requires Valid() && NotBefore(ticks)
      modifies this
      ensures Valid() && NotBefore(ticks)
      ensures old(inputLagFrames) > 0 ==>
                r == None && EffectVars() == old(EffectVars()).(inputBuffer := old(inputBuffer) + [(ticks, e)])
      ensures old(inputLagFrames) <= 0 ==> r == Some(e) && EffectVars() == old(EffectVars())
      ensures Scheduling() == old(Scheduling()) && disappearingPlatforms == old(disappearingPlatforms)
    {
      if inputLagFrames > 0 {
        inputBuffer := inputBuffer + [(ticks, e)];
        return None;
      }
      return Some(e);
    }

    /** get_lagged_input: the due events in buffer order; the rest stay. As
        the buffer is in tick order, the due events are its oldest entries. */
    method GetLaggedInput(ticks: int) returns (result: seq<Event>)
      requires Valid()
      modifies this
      ensures Valid()
      ensures |result| <= |old(inputBuffer)| && result == EventsOf(old(inputBuffer)[..|result|])
      ensures inputBuffer == old(inputBuffer)[|result|..]
      ensures result == Released(old(inputBuffer), ticks, inputLagFrames)
      ensures EffectVars() == old(EffectVars()).(inputBuffer := Held(old(inputBuffer), ticks, inputLagFrames))
      ensures Scheduling() == old(Scheduling()) && disappearingPlatforms == old(disappearingPlatforms)
    {
      var buf := inputBuffer;
      var kept: seq<(int, Event)> := [];
      result := [];
      var i := 0;
      while i < |buf|
        invariant 0 <= i <= |buf|
        invariant result == Released(buf[..i], ticks, inputLagFrames)
        invariant kept == Held(buf[..i], ticks, inputLagFrames)
        invariant EffectVars() == old(EffectVars()) && Scheduling() == old(Scheduling())
        invariant disappearingPlatforms == old(disappearingPlatforms)
      {
        assert buf[..i + 1][..i] == buf[..i];
        if (ticks - buf[i].0) * FPS >= inputLagFrames * 1000 {
          result := result + [buf[i].1];
        } else {
          kept := kept + [buf[i]];
        }
        i := i + 1;
      }
      assert buf[..|buf|] == buf;
      LagIsFifo(buf, ticks, inputLagFrames);
      inputBuffer := kept;
    }

    method ColorDistortion(activate: bool, red: int, green: int, blue: int)
      requires activate ==> -100 <= red <= 100 && -100 <= green <= 100 && -100 <= blue <= 100
      modifies this
      ensures EffectVars() == if activate then ActivateVals(old(EffectVars()), ColorDraw(red, green, blue))
                        else RevertVals(old(EffectVars()), Effect.ColorDistortion)
      ensures Scheduling() == old(Scheduling()) && disappearingPlatforms == old(disappearingPlatforms)
    {
      if activate {
        colorShift := (red, green, blue);
      } else {
        colorShift := (0, 0, 0);
      }
    }

    method ScreenShake(activate: bool, amount: int)
      requires activate ==> 5 <= amount <= 15
      modifies this
      ensures EffectVars() == if activate then ActivateVals(old(EffectVars()), ShakeDraw(amount))
                        else RevertVals(old(EffectVars()), Effect.ScreenShake)
      ensures Scheduling() == old(Scheduling()) && disappearingPlatforms == old(disappearingPlatforms)
    {
      if activate {
        shakeAmount := amount;
      } else {
        shakeAmount := 0;
        screenOffset := (0, 0);
      }
    }

    /** update_screen_shake; offset is the pair of random.randint draws. */
    method UpdateScreenShake(offset: (int, int))
      requires shakeAmount > 0 ==> InShake(offset, shakeAmount)
      modifies this
      ensures EffectVars() == ShakeStep(old(EffectVars()), offset)
      ensures InShake(screenOffset, shakeAmount) || screenOffset == old(screenOffset)
      ensures Scheduling() == old(Scheduling()) && disappearingPlatforms == old(disappearingPlatforms)
    {
      if shakeAmount > 0 {
        screenOffset := offset;
      }
    }

    method Pixelation(activate: bool, size: int)
      requires activate ==> size in PIXEL_SIZES
      modifies this
      ensures EffectVars() == if activate then ActivateVals(old(EffectVars()), PixelDraw(size))
                        else RevertVals(old(EffectVars()), Effect.Pixelation)
      ensures Scheduling() == old(Scheduling()) && disappearingPlatforms == old(disappearingPlatforms)
    {
      if activate {
        pixelSize := size;
      } else {
        pixelSize := 1;
      }
    }

    method SpeedChange(activate: bool, multiplier: real, player: Player)
      requires activate ==> 0.5 <= multiplier <= 2.0
      modifies this, player
      ensures EffectVars() == if activate then ActivateVals(old(EffectVars()), SpeedDraw(multiplier))
                        else RevertVals(old(EffectVars()), Effect.SpeedChange)
      ensures player.State() == if activate then ActivatePlayer(old(player.State()), SpeedDraw(multiplier))
                                else RevertPlayer(old(player.State()), Effect.SpeedChange)
      ensures Scheduling() == old(Scheduling()) && disappearingPlatforms == old(disappearingPlatforms)
    {
      if activate {
        speedMultiplier := multiplier;
        player.speed := PLAYER_SPEED * speedMultiplier;
      } else {
        player.speed := PLAYER_SPEED;
        speedMultiplier := 1.0;
      }
    }

    /** platform_disappear(True): a second activation replaces the list, so
        the platforms of the first are left as they are. */
    method ArmPlatforms(count: int, picks: seq<int>, platforms: seq<Platform>)
      requires Valid() && Distinct(platforms) && DrawOk(VanishDraw(count, picks), |Eligible(platforms)|)
      modifies this, Chosen(VanishDraw(count, picks), platforms)
      ensures Valid() && EffectVars() == old(EffectVars()) && Scheduling() == old(Scheduling())
      ensures var L := if HitsPlatforms(VanishDraw(count, picks), platforms)
                       then Chosen(VanishDraw(count, picks), platforms) else old(disappearingPlatforms);
              disappearingPlatforms == L &&
              (HitsPlatforms(VanishDraw(count, picks), platforms) ==> Recs(L) == ArmAll(old(Recs(L))))
    {
      var potential := Eligible(platforms);
      if |potential| > 0 {
        EligibleExactly(platforms);
        PickedDistinct(potential, picks);
        disappearingPlatforms := Picked(potential, picks);
        ArmEach(disappearingPlatforms);
      }
    }

    /** platform_disappear(False): every listed platform is restored and the
        list is emptied. */
    method RestorePlatforms()
      modifies this, disappearingPlatforms
      ensures EffectVars() == old(EffectVars()) && Scheduling() == old(Scheduling())
      ensures disappearingPlatforms == []
      ensures Recs(old(disappearingPlatforms)) == RestoreAll(old(Recs(disappearingPlatforms)))
    {
      RestoreEach(disappearingPlatforms);
      disappearingPlatforms := [];
    }

    /** update_disappearing_platforms. */
    method UpdateDisappearingPlatforms()
      requires Valid()
      modifies disappearingPlatforms
      ensures Recs(disappearingPlatforms) == FadeAll(old(Recs(disappearingPlatforms)))
    {
      FadeEach(disappearingPlatforms);
    }

    /** effect(True), for the effect of the draw. */
    method Activate(d: Draw, player: Player, platforms: seq<Platform>)
      requires Valid() && Distinct(platforms) && DrawOk(d, |Eligible(platforms)|)
      modifies this, player, Chosen(d, platforms)
      ensures Valid() && Scheduling() == old(Scheduling())
      ensures var L := if HitsPlatforms(d, platforms) then Chosen(d, platforms) else old(disappearingPlatforms);
              disappearingPlatforms == L &&
              World(L, player) == TriggerW(old(World(L, player)), d, HitsPlatforms(d, platforms))
    {
      match d
      case GravityDraw => ReversedGravity(true, player);
      case FlickerDraw => FlickeringSprites(true);
      case LagDraw(n) => InputLag(true, n);
      case ColorDraw(r, g, b) => ColorDistortion(true, r, g, b);
      case ShakeDraw(a) => ScreenShake(true, a);
      case VanishDraw(k, picks) => ArmPlatforms(k, picks, platforms);
      case SpeedDraw(m) => SpeedChange(true, m, player);
      case PixelDraw(p) => Pixelation(true, p);
    }

    /** end_glitch; L is the vanish list the frame started from. */
    method EndGlitch(g: Glitch, player: Player, ghost L: seq<Platform>)
      requires Valid() && (disappearingPlatforms == L || disappearingPlatforms == [])
      modifies this, player, disappearingPlatforms
      ensures Valid() && Scheduling() == old(Scheduling())
      ensures disappearingPlatforms == L || disappearingPlatforms == []
      ensures World(L, player) == RevertW(old(World(L, player)), g.effect)
    {
      match g.effect
      case ReversedGravity => ReversedGravity(false, player);
      case FlickeringSprites => FlickeringSprites(false);
      case InputLag => InputLag(false, 0);
      case ColorDistortion => ColorDistortion(false, 0, 0, 0);
      case ScreenShake => ScreenShake(false, 0);
      case PlatformDisappear => RestorePlatforms();
      case SpeedChange => SpeedChange(false, 0.0, player);
      case Pixelation => Pixelation(false, 0);
    }

    /** The per-frame work of an unexpired glitch. */
    method TickEffect(e: Effect, offset: (int, int), player: Player, ghost L: seq<Platform>)
      requires Valid() && (disappearingPlatforms == L || disappearingPlatforms == [])
      requires e == Effect.ScreenShake && shakeAmount > 0 ==> InShake(offset, shakeAmount)
      modifies this, disappearingPlatforms
      ensures Valid() && Scheduling() == old(Scheduling()) && disappearingPlatforms == old(disappearingPlatforms)
      ensures World(L, player) == PerTickW(old(World(L, player)), e, offset)
    {
      if e == Effect.FlickeringSprites {
        UpdateFlickering();
      } else if e == Effect.ScreenShake {
        UpdateScreenShake(offset);
      } else if e == Effect.PlatformDisappear {
        UpdateDisappearingPlatforms();
      }
    }

    /** One visit of the loop of GlitchEngine.update: an expired glitch is
        ended and removed from position j of the active list, any other does
        its per-frame work. */
    method Visit(g: Glitch, j: nat, now: real, offset: (int, int), player: Player, ghost L: seq<Platform>)
      returns (kept: bool)
      requires Valid() && (disappearingPlatforms == L || disappearingPlatforms == [])
      requires j < |activeGlitches|
      requires g.effect == Effect.ScreenShake && shakeAmount > 0 ==> InShake(offset, shakeAmount)
      modifies this, player, disappearingPlatforms
      ensures kept == !Expired(g, now)
      ensures Valid() && (disappearingPlatforms == L || disappearingPlatforms == [])
      ensures activeGlitches == if kept then old(activeGlitches) else old(activeGlitches[..j] + activeGlitches[j + 1..])
      ensures lastGlitchTime == old(lastGlitchTime)
      ensures notificationText == old(notificationText) && notificationTime == old(notificationTime)
      ensures shakeAmount == old(shakeAmount) || shakeAmount == 0
      ensures World(L, player) == TickOne(old(World(L, player)), g, now, offset)
    {
      if now - g.startTime > GLITCH_DURATION {
        activeGlitches := activeGlitches[..j] + activeGlitches[j + 1..];
        EndGlitch(g, player, L);
        kept := false;
      } else {
        TickEffect(g.effect, offset, player, L);
        kept := true;
      }
    }

    /** trigger_random_glitch; now stands for its time.time() readings. */
    method TriggerRandomGlitch(now: real, d: Draw, player: Player, platforms: seq<Platform>)
      requires Valid() && Distinct(platforms) && DrawOk(d, |Eligible(platforms)|)
      modifies this, player, Chosen(d, platforms)
      ensures Valid()
      ensures activeGlitches == old(activeGlitches) + [Glitch(EffectOf(d), now)]
      ensures lastGlitchTime == old(lastGlitchTime)
      ensures notificationText == NotificationText(EffectOf(d)) && notificationTime == now
      ensures var L := if HitsPlatforms(d, platforms) then Chosen(d, platforms) else old(disappearingPlatforms);
              disappearingPlatforms == L &&
              World(L, player) == TriggerW(old(World(L, player)), d, HitsPlatforms(d, platforms))
    {
      Activate(d, player, platforms);
      activeGlitches := activeGlitches + [Glitch(EffectOf(d), now)];
      notificationText := NotificationText(EffectOf(d));
      notificationTime := now;
    }

    /** The loop of GlitchEngine.update over a copy of the active glitches;
        offsets[k] is the shake offset drawn while visiting the k-th. */
    method UpdateActiveGlitches(now: real, offsets: seq<(int, int)>, player: Player)
      requires Valid() && |offsets| >= |activeGlitches|
      requires forall k :: 0 <= k < |offsets| ==> InShake(offsets[k], shakeAmount)
      modifies this, player, disappearingPlatforms
      ensures Valid()
      ensures activeGlitches == Survivors(old(activeGlitches), now)
      ensures lastGlitchTime == old(lastGlitchTime)
      ensures notificationText == old(notificationText) && notificationTime == old(notificationTime)
      ensures disappearingPlatforms == old(disappearingPlatforms) || disappearingPlatforms == []
      ensures World(old(disappearingPlatforms), player) ==
              TickAll(old(World(disappearingPlatforms, player)), old(activeGlitches), now, offsets)
    {
      ghost var L := disappearingPlatforms;
      ghost var w0 := World(L, player);
      ghost var amount := shakeAmount;
      var gs := activeGlitches;
      var i := 0;
      var j := 0;
      while i < |gs|
        invariant 0 <= i <= |gs| && Valid()
        invariant disappearingPlatforms == L || disappearingPlatforms == []
        invariant World(L, player) == TickAll(w0, gs[..i], now, offsets)
        invariant activeGlitches == Survivors(gs[..i], now) + gs[i..]
        invariant j == |Survivors(gs[..i], now)|
        invariant lastGlitchTime == old(lastGlitchTime)
        invariant notificationText == old(notificationText) && notificationTime == old(notificationTime)
        invariant shakeAmount == amount || shakeAmount == 0
      {
        j := VisitNext(gs, i, j, now, offsets, player, L, w0, amount);
        i := i + 1;
      }
      assert gs[..|gs|] == gs;
    }

    /** One turn of the loop of UpdateActiveGlitches: the i-th glitch of the
        copy gs is visited, and j is where it stands in the live list. */
    method VisitNext(gs: seq<Glitch>, i: nat, j: nat, now: real, offsets: seq<(int, int)>, player: Player,
                     ghost L: seq<Platform>, ghost w0: TickWorld, ghost amount: int) returns (j': nat)
      requires i < |gs| <= |offsets| && Valid()
      requires disappearingPlatforms == L || disappearingPlatforms == []
      requires forall k :: 0 <= k < |offsets| ==> InShake(offsets[k], amount)
      requires shakeAmount == amount || shakeAmount == 0
      requires World(L, player) == TickAll(w0, gs[..i], now, offsets)
      requires activeGlitches == Survivors(gs[..i], now) + gs[i..]
      requires j == |Survivors(gs[..i], now)|
      modifies this, player, disappearingPlatforms
      ensures Valid() && (disappearingPlatforms == L || disappearingPlatforms == [])
      ensures shakeAmount == amount || shakeAmount == 0
      ensures World(L, player) == TickAll(w0, gs[..i + 1], now, offsets)
      ensures activeGlitches == Survivors(gs[..i + 1], now) + gs[i + 1..]
      ensures j' == |Survivors(gs[..i + 1], now)|
      ensures lastGlitchTime == old(lastGlitchTime)
      ensures notificationText == old(notificationText) && notificationTime == old(notificationTime)
    {
      TickAllStep(w0, gs, i, now, offsets);
      SurvivorsStep(gs, i, now);
      var kept := Visit(gs[i], j, now, offsets[i], player, L);
      j' := if kept then j + 1 else j;
    }

    /** GlitchEngine.update; now stands for time.time(), d for the random
        choice and draws of a glitch that starts, and offsets for the shake
        draws of the frame. */
    method Update(now: real, d: Draw, offsets: seq<(int, int)>, player: Player, platforms: seq<Platform>)
      requires Valid() && Distinct(platforms)
      requires GlitchDue(lastGlitchTime, now) ==> DrawOk(d, |Eligible(platforms)|)
      requires |offsets| >= |activeGlitches| + 1
      requires forall k :: 0 <= k < |offsets| ==>
                 InShake(offsets[k], if GlitchDue(lastGlitchTime, now) && d.ShakeDraw? then d.amount else shakeAmount)
      modifies this, player, disappearingPlatforms,
               if GlitchDue(lastGlitchTime, now) then Chosen(d, platforms) else []
      ensures Valid()
      ensures var due := GlitchDue(old(lastGlitchTime), now);
              var hit := due && HitsPlatforms(d, platforms);
              var L := if hit then Chosen(d, platforms) else old(disappearingPlatforms);
              var gs := old(activeGlitches) + (if due then [Glitch(EffectOf(d), now)] else []);
              activeGlitches == Survivors(gs, now) &&
              lastGlitchTime == (if due then now else old(lastGlitchTime)) &&
              (due ==> notificationText == NotificationText(EffectOf(d)) && notificationTime == now) &&
              (!due ==> notificationText == old(notificationText) && notificationTime == old(notificationTime)) &&
              (disappearingPlatforms == L || disappearingPlatforms == []) &&
              World(L, player) == TickAll(if due then TriggerW(old(World(L, player)), d, hit)
                                          else old(World(L, player)), gs, now, offsets)
      ensures player.rect == old(player.rect) && player.jumpCount == old(player.jumpCount)
      ensures GlitchDue(old(lastGlitchTime), now) && HitsPlatforms(d, platforms) ==>
                forall q :: q in old(disappearingPlatforms) && q !in Chosen(d, platforms) ==> q.Rec() == old(q.Rec())
    {
      if now - lastGlitchTime > GLITCH_INTERVAL {
        UpdateWithGlitch(now, d, offsets, player, platforms);
      } else {
        assert activeGlitches + [] == activeGlitches;
        UpdateWithoutGlitch(now, offsets, player);
      }
    }

    /** A frame of GlitchEngine.update in which a new glitch starts. */
    method UpdateWithGlitch(now: real, d: Draw, offsets: seq<(int, int)>, player: Player, platforms: seq<Platform>)
      requires Valid() && Distinct(platforms) && GlitchDue(lastGlitchTime, now)
      requires DrawOk(d, |Eligible(platforms)|) && |offsets| >= |activeGlitches| + 1
      requires forall k :: 0 <= k < |offsets| ==> InShake(offsets[k], if d.ShakeDraw? then d.amount else shakeAmount)
      modifies this, player, disappearingPlatforms, Chosen(d, platforms)
      ensures Valid()
      ensures var hit := HitsPlatforms(d, platforms);
              var L := if hit then Chosen(d, platforms) else old(disappearingPlatforms);
              var gs := old(activeGlitches) + [Glitch(EffectOf(d), now)];
              activeGlitches == Survivors(gs, now) && lastGlitchTime == now &&
              notificationText == NotificationText(EffectOf(d)) && notificationTime == now &&
              (disappearingPlatforms == L || disappearingPlatforms == []) &&
              World(L, player) == TickAll(TriggerW(old(World(L, player)), d, hit), gs, now, offsets)
      ensures player.rect == old(player.rect) && player.jumpCount == old(player.jumpCount)
      ensures HitsPlatforms(d, platforms) ==>
                forall q :: q in old(disappearingPlatforms) && q !in Chosen(d, platforms) ==> q.Rec() == old(q.Rec())
    {
      ghost var L := if HitsPlatforms(d, platforms) then Chosen(d, platforms) else disappearingPlatforms;
      ghost var w0 := World(L, player);
      TriggerRandomGlitch(now, d, player, platforms);
      lastGlitchTime := now;
      ghost var w1 := World(L, player);
      assert w1 == TriggerW(w0, d, HitsPlatforms(d, platforms));
      ActivationRanges(w0.vals, w0.player, d, |Eligible(platforms)|);
      ghost var gs := activeGlitches;
      UpdateActiveGlitches(now, offsets, player);
      TickAllFrame(w1, gs, now, offsets);
    }

    /** A frame of GlitchEngine.update in which no glitch starts. */
    method UpdateWithoutGlitch(now: real, offsets: seq<(int, int)>, player: Player)
      requires Valid() && !GlitchDue(lastGlitchTime, now) && |offsets| >= |activeGlitches| + 1
      requires forall k :: 0 <= k < |offsets| ==> InShake(offsets[k], shakeAmount)
      modifies this, player, disappearingPlatforms
      ensures Valid()
      ensures activeGlitches == Survivors(old(activeGlitches), now) && lastGlitchTime == old(lastGlitchTime)
      ensures notificationText == old(notificationText) && notificationTime == old(notificationTime)
      ensures disappearingPlatforms == old(disappearingPlatforms) || disappearingPlatforms == []
      ensures World(old(disappearingPlatforms), player) ==
                TickAll(old(World(disappearingPlatforms, player)), old(activeGlitches), now, offsets)
      ensures player.rect == old(player.rect) && player.jumpCount == old(player.jumpCount)
    {
      ghost var w0 := World(disappearingPlatforms, player);
      ghost var gs := activeGlitches;
      UpdateActiveGlitches(now, offsets, player);
      TickAllFrame(w0, gs, now, offsets);
    }

    /** The colour of the distortion overlay. */
    function OverlayColor(): (c: (int, int, int))
      reads this
      ensures 0 <= c.0 <= 255 && 0 <= c.1 <= 255 && 0 <= c.2 <= 255
    {
      (OverlayChannel(colorShift.0), OverlayChannel(colorShift.1), OverlayChannel(colorShift.2))
    }
  }
}
