/** The game loop (src/game.py): its five states, lives and score, the
    routing of input through the glitch engine, and the order in which one
    frame updates the glitch engine, the level and the player and then
    judges the exit, the enemies and a fall. Rendering, sound and the
    window are not modelled. */
module Games {
  import opened Constants
  import opened Geometry
  import opened Events
  import opened Options
  import opened Platforms
  import opened Players
  import opened Backgrounds
  import opened Glitches
  import opened Levels

  datatype GameState = Menu | Playing | GameOver | LevelComplete | GameCompleted

  /** Lives a level grants when its data does not say. */
  const DEFAULT_LIVES: int := 3
  /** Points for reaching the exit, before the time bonus. */
  const EXIT_SCORE: int := 1000
  /** Seconds a game-over or level-complete screen stays before the game moves on. */
  const STATE_DELAY: real := 2.0
  /** The time bonus counts down from this many seconds, ten points each. */
  const PAR_SECONDS: int := 60
  const BONUS_PER_SECOND: int := 10

  /** The game's own variables; `index` is current_level_index. */
  datatype GameRec = GameRec(running: bool, state: GameState, index: int, lives: int, maxLives: int,
                             score: int, levelStartTime: real, gameOverTimer: real,
                             levelCompleteTimer: real)

  function LivesOf(d: LevelData): int
  {
    match d.lives
    case None => DEFAULT_LIVES
    case Some(n) => n
  }

  /** The bonus for finishing a level `elapsed` seconds after it started. */
  function TimeBonus(elapsed: real): int
  {
    Max(0, PAR_SECONDS - Trunc(elapsed)) * BONUS_PER_SECOND
  }

  /** The bonus lies between 0 and 600, is the full 600 within the first
      second, nothing from the sixtieth on, and never grows with time. */
  lemma TimeBonusBounds(e: real, e2: real)
    requires 0.0 <= e <= e2
    ensures 0 <= TimeBonus(e) <= PAR_SECONDS * BONUS_PER_SECOND
    ensures e < 1.0 ==> TimeBonus(e) == PAR_SECONDS * BONUS_PER_SECOND
    ensures e >= PAR_SECONDS as real ==> TimeBonus(e) == 0
    ensures TimeBonus(e2) <= TimeBonus(e)
  {
    assert Trunc(e) <= Trunc(e2);
  }

  /** The states the game can be in: a level index in range, past the last
      level exactly when the game is completed, and never more lives than
      the level granted. */
  predicate Reachable(g: GameRec, n: int)
  {
    n > 0 && 0 <= g.index <= n && (g.index == n <==> g.state == GameCompleted) && g.lives <= g.maxLives
  }

  /** The level the game shows: index, or the last level once completed. */
  function CurIx(i: int, n: int): int
  {
    if i < n then i else n - 1
  }

  /** The start position of the level the game shows. */
  function StartOf(data: seq<LevelData>, i: int): (int, int)
    requires |data| > 0 && 0 <= i
  {
    data[CurIx(i, |data|)].playerStart
  }

  // ------------------------------------------------------------- transitions

  /** reset_level: restarts the level clock and, when asked, the level's lives. */
  function ResetLevelR(g: GameRec, resetLives: bool, now: real, data: seq<LevelData>): GameRec
    requires resetLives ==> 0 <= g.index < |data|
  {
    var g1 := g.(levelStartTime := now);
    if resetLives then g1.(maxLives := LivesOf(data[g.index]), lives := LivesOf(data[g.index])) else g1
  }

  /** next_level. */
  function NextLevelR(g: GameRec, now: real, data: seq<LevelData>): GameRec
    requires 0 <= g.index
  {
    if g.index + 1 < |data| then ResetLevelR(g.(index := g.index + 1), true, now, data).(state := Playing)
    else g.(index := g.index + 1, state := GameCompleted)
  }

  /** Back to the menu with the score cleared and the first level loaded. */
  function ToMenuR(g: GameRec, now: real, data: seq<LevelData>): GameRec
    requires |data| > 0
  {
    ResetLevelR(g.(state := Menu, score := 0, index := 0), true, now, data)
  }

  /** The answer to ENTER outside play. */
  function EnterR(g: GameRec, now: real, data: seq<LevelData>): (r: GameRec)
    requires Reachable(g, |data|)
    ensures Reachable(r, |data|)
    ensures r.state != g.state || g.state == Playing
  {
    match g.state
    case Menu => ResetLevelR(g.(state := Playing), true, now, data)
    case GameOver =>
      if g.lives > 0 then ResetLevelR(g.(state := Playing), false, now, data) else ToMenuR(g, now, data)
    case LevelComplete => NextLevelR(g, now, data)
    case GameCompleted => ToMenuR(g, now, data)
    case Playing => g
  }

  /** Whether ENTER in this state calls reset_level, moving the player. */
  predicate EnterRespawns(g: GameRec, n: int)
  {
    g.state != Playing && (g.state == LevelComplete ==> g.index + 1 < n)
  }

  /** ENTER from each screen: the menu starts the current level with fresh
      lives; after a death the game continues with the lives left, or
      returns to the menu with none; a completed level leads to the next
      one or to the end; the end returns to the menu. */
  lemma EnterCases(g: GameRec, now: real, data: seq<LevelData>)
    requires Reachable(g, |data|)
    ensures var r := EnterR(g, now, data);
            (g.state == Menu ==> r.state == Playing && r.index == g.index &&
                                 r.lives == r.maxLives == LivesOf(data[g.index]) && r.levelStartTime == now) &&
            (g.state == GameOver && g.lives > 0 ==>
               r.state == Playing && r.index == g.index && r.lives == g.lives && r.score == g.score) &&
            (g.state == GameOver && g.lives <= 0 ==>
               r.state == Menu && r.index == 0 && r.score == 0 && r.lives == LivesOf(data[0])) &&
            (g.state == LevelComplete && g.index + 1 < |data| ==>
               r.state == Playing && r.index == g.index + 1 && r.lives == LivesOf(data[g.index + 1]) &&
               r.score == g.score) &&
            (g.state == LevelComplete && g.index + 1 >= |data| ==>
               r.state == GameCompleted && r.index == |data| && r.lives == g.lives && r.score == g.score) &&
            (g.state == GameCompleted ==> r.state == Menu && r.index == 0 && r.score == 0)
  {
  }

  // ------------------------------------------------------------------- play

  /** Losing a life to an enemy or a fall. */
  function Die(g: GameRec, now: real): GameRec
  {
    g.(lives := g.lives - 1, state := GameOver, gameOverTimer := now)
  }

  /** Reaching the exit: the points and the time bonus. */
  function Finish(g: GameRec, now: real): GameRec
  {
    g.(state := LevelComplete, levelCompleteTimer := now,
       score := g.score + EXIT_SCORE + TimeBonus(now - g.levelStartTime))
  }

  /** The checks of update while playing, in their order: the exit, then an
      enemy or projectile, then a fall below the screen. */
  function PlayOutcome(g: GameRec, exit: bool, hazard: bool, fell: bool, now: real): GameRec
  {
    var g1 := if exit then Finish(g, now) else g;
    var g2 := if hazard then Die(g1, now) else g1;
    if fell then Die(g2, now) else g2
  }

  predicate ResumesAfterDeath(g: GameRec, now: real)
  {
    g.state == GameOver && now - g.gameOverTimer > STATE_DELAY && g.lives > 0
  }

  predicate AdvancesAfterExit(g: GameRec, now: real)
  {
    g.state == LevelComplete && now - g.levelCompleteTimer > STATE_DELAY
  }

  /** The timers at the end of update. */
  function TimersR(g: GameRec, now: real, data: seq<LevelData>): (r: GameRec)
    requires Reachable(g, |data|)
    ensures Reachable(r, |data|)
  {
    var g1 := if ResumesAfterDeath(g, now) then ResetLevelR(g.(state := Playing), false, now, data) else g;
    if AdvancesAfterExit(g1, now) then NextLevelR(g1, now, data) else g1
  }

  /** Where the timers put the player: back at the start after a death, at
      the next level's start after an exit, or nowhere new. */
  function TimersPlayer(g: GameRec, p: PlayerState, now: real, data: seq<LevelData>): PlayerState
    requires Reachable(g, |data|)
  {
    if ResumesAfterDeath(g, now) then Respawn(p, StartOf(data, g.index), now)
    else if AdvancesAfterExit(g, now) && g.index + 1 < |data| then Respawn(p, data[g.index + 1].playerStart, now)
    else p
  }

  /** The checks keep a playing game in its states, and a frame in which
      play ends never also moves on: its timers start at the same moment. */
  lemma PlayOutcomeSettles(g: GameRec, exit: bool, hazard: bool, fell: bool, now: real, data: seq<LevelData>,
                           p: PlayerState)
    requires Reachable(g, |data|) && g.state == Playing
    ensures var r := PlayOutcome(g, exit, hazard, fell, now);
            Reachable(r, |data|) && !ResumesAfterDeath(r, now) && !AdvancesAfterExit(r, now) &&
            TimersR(r, now, data) == r && TimersPlayer(r, p, now, data) == p
  {
  }

  /** As written the checks add up: a frame with an enemy touch and a fall
      would cost two lives, though no playing frame falls (NoFallBelowScreen),
      and a touch in the same frame as the exit still ends in game over
      with the exit's points kept. */
  lemma DoubleLoss(g: GameRec, exit: bool, now: real)
    ensures var r := PlayOutcome(g, exit, true, true, now);
            r.lives == g.lives - 2 && r.state == GameOver && r.gameOverTimer == now
    ensures var r := PlayOutcome(g, true, true, false, now);
            r.lives == g.lives - 1 && r.state == GameOver &&
            r.score == g.score + EXIT_SCORE + TimeBonus(now - g.levelStartTime)
  {
  }

  /** Since no playing frame falls, a frame costs a life exactly when an
      enemy or a projectile was touched, and never more than one. */
  lemma OneLifePerFrame(g: GameRec, exit: bool, hazard: bool, now: real)
    ensures var r := PlayOutcome(g, exit, hazard, false, now);
            r.lives == (if hazard then g.lives - 1 else g.lives) &&
            (hazard ==> r.state == GameOver && r.gameOverTimer == now)
  {
  }

  /** A game over waits two seconds and resumes with the lives left; with
      none left it stays until ENTER. A completed level waits two seconds. */
  lemma TimerCases(g: GameRec, now: real, data: seq<LevelData>)
    requires Reachable(g, |data|)
    ensures var r := TimersR(g, now, data);
            (g.state == GameOver && g.lives <= 0 ==> r == g) &&
            (ResumesAfterDeath(g, now) ==> r.state == Playing && r.lives == g.lives && r.index == g.index &&
                                            r.levelStartTime == now) &&
            (g.state == GameOver && now - g.gameOverTimer <= STATE_DELAY ==> r == g) &&
            (AdvancesAfterExit(g, now) ==> r == NextLevelR(g, now, data)) &&
            (g.state == LevelComplete && now - g.levelCompleteTimer <= STATE_DELAY ==> r == g) &&
            (g.state in {Menu, Playing, GameCompleted} ==> r == g)
  {
  }

  // ------------------------------------------------------------------ input

  /** What the events of one frame act on. */
  datatype Session = Session(game: GameRec, player: PlayerState, vals: Vals)

  /** One event of handle_events: QUIT stops the loop; while playing the
      event goes through the glitch engine, which holds it back under input
      lag; outside play only ENTER does anything. */
  function OnEvent(s: Session, e: Event, ticks: int, now: real, data: seq<LevelData>): (r: Session)
    requires Reachable(s.game, |data|)
    ensures Reachable(r.game, |data|)
  {
    var g := s.game.(running := s.game.running && !e.Quit?);
    if g.state == Playing then
      if s.vals.inputLagFrames > 0 then
        Session(g, s.player, s.vals.(inputBuffer := s.vals.inputBuffer + [(ticks, e)]))
      else Session(g, ApplyKeyEvent(s.player, e), s.vals)
    else if e == KeyDown(KReturn) then
      var g1 := EnterR(g, now, data);
      Session(g1, if EnterRespawns(g, |data|) then Respawn(s.player, StartOf(data, g1.index), now) else s.player,
              s.vals)
    else Session(g, s.player, s.vals)
  }

  /** The events of a frame, in order. */
  function OnEvents(s: Session, es: seq<Event>, ticks: int, now: real, data: seq<LevelData>): (r: Session)
    requires Reachable(s.game, |data|)
    ensures Reachable(r.game, |data|)
    decreases |es|
  {
    if es == [] then s
    else OnEvent(OnEvents(s, es[..|es| - 1], ticks, now, data), es[|es| - 1], ticks, now, data)
  }

  /** The player handling a list of events. */
  function ApplyKeyEvents(p: PlayerState, es: seq<Event>): PlayerState
    decreases |es|
  {
    if es == [] then p else ApplyKeyEvent(ApplyKeyEvents(p, es[..|es| - 1]), es[|es| - 1])
  }

  /** Events never move the player nor spend more jumps than it has. */
  lemma {:induction false} ApplyKeyEventsKeep(p: PlayerState, es: seq<Event>)
    ensures ApplyKeyEvents(p, es).rect == p.rect
    ensures JumpBudget(p) ==> JumpBudget(ApplyKeyEvents(p, es))
    decreases |es|
  {
    if es != [] {
      ApplyKeyEventsKeep(p, es[..|es| - 1]);
      KeyEventKeeps(ApplyKeyEvents(p, es[..|es| - 1]), es[|es| - 1]);
    }
  }

  /** The end of handle_events: while playing, the held events that have
      waited long enough reach the player. */
  function DeliverLagged(s: Session, ticks: int): Session
  {
    if s.game.state == Playing then
      Session(s.game, ApplyKeyEvents(s.player, Released(s.vals.inputBuffer, ticks, s.vals.inputLagFrames)),
              s.vals.(inputBuffer := Held(s.vals.inputBuffer, ticks, s.vals.inputLagFrames)))
    else s
  }

  /** Under input lag a playing game's events go to the buffer and not to the
      player; without lag they reach the player at once. Outside play only
      ENTER changes the game, and QUIT always ends the loop. */
  lemma EventRouting(s: Session, e: Event, ticks: int, now: real, data: seq<LevelData>)
    requires Reachable(s.game, |data|)
    ensures var r := OnEvent(s, e, ticks, now, data);
            (s.game.state == Playing && s.vals.inputLagFrames > 0 ==>
               r.player == s.player && r.vals.inputBuffer == s.vals.inputBuffer + [(ticks, e)]) &&
            (s.game.state == Playing && s.vals.inputLagFrames <= 0 ==>
               r.player == ApplyKeyEvent(s.player, e) && r.vals == s.vals) &&
            (s.game.state != Playing && e != KeyDown(KReturn) ==>
               r.player == s.player && r.vals == s.vals && r.game.state == s.game.state) &&
            (e.Quit? ==> !r.game.running) && (!e.Quit? ==> r.game.running == s.game.running)
  {
  }

  // ------------------------------------------------------------------- game

  /** The levels of the game, each built from its data and its background draws. */
  method LoadLevels(data: seq<LevelData>, draws: seq<(seq<LineDraw>, seq<BlockDraw>)>) returns (ls: seq<Level>)
    requires |draws| == |data|
    requires forall i :: 0 <= i < |data| ==> DrawsOk(LevelNumber(data[i].name), draws[i].0, draws[i].1)
    ensures |ls| == |data|
    ensures forall i :: 0 <= i < |ls| ==>
              fresh(ls[i]) && ls[i].Valid() && ls[i].name == data[i].name &&
              ls[i].playerStart == data[i].playerStart && ls[i].exitRect == ExitRect(data[i].exitPos) &&
              ls[i].background.levelNum == LevelNumber(data[i].name)
  {
    ls := [];
    var i := 0;
    while i < |data|
      invariant 0 <= i <= |data| && |ls| == i
      invariant forall k :: 0 <= k < i ==>
                  fresh(ls[k]) && ls[k].Valid() && ls[k].name == data[k].name &&
                  ls[k].playerStart == data[k].playerStart && ls[k].exitRect == ExitRect(data[k].exitPos) &&
                  ls[k].background.levelNum == LevelNumber(data[k].name)
    {
      var l := new Level(data[i], draws[i].0, draws[i].1);
      ls := ls + [l];
      i := i + 1;
    }
  }

  /** The random draws of a playing frame fit what the glitch engine
      expects of them. */
  predicate EngineDrawsFit(engine: GlitchEngine, platforms: seq<Platform>, now: real, d: Draw,
                           offsets: seq<(int, int)>)
    reads engine
  {
    var due := GlitchDue(engine.lastGlitchTime, now);
    (due ==> DrawOk(d, |Eligible(platforms)|)) &&
    |offsets| >= |engine.activeGlitches| + 1 &&
    (forall k :: 0 <= k < |offsets| ==>
       InShake(offsets[k], if due && d.ShakeDraw? then d.amount else engine.shakeAmount))
  }

  /** The random draws of a playing frame fit what the glitch engine and
      the level's background expect of them. */
  predicate DrawsFit(engine: GlitchEngine, level: Level, now: real, d: Draw, offsets: seq<(int, int)>,
                     roll: real, lines: seq<LineDraw>, blocks: seq<BlockDraw>)
    reads engine, level.background
  {
    EngineDrawsFit(engine, level.platforms, now, d, offsets) &&
    0.0 <= roll < 1.0 &&
    (level.background.glitchTimer + 1 >= REGEN_PERIOD && roll < REGEN_CHANCE ==>
       DrawsOk(level.background.levelNum, lines, blocks))
  }

  /** The glitch engine's turn in a playing frame: it may recolour, hide
      or restore platforms and change the player's physics, but it never
      moves the player. */
  method EngineStep(engine: GlitchEngine, platforms: seq<Platform>, player: Player, now: real, d: Draw,
                    offsets: seq<(int, int)>)
    requires engine.Valid() && Distinct(platforms) && player.Valid()
    requires EngineDrawsFit(engine, platforms, now, d, offsets)
    modifies player, engine, engine.disappearingPlatforms, platforms
    ensures engine.Valid() && player.Valid()
    ensures player.rect == old(player.rect) && player.jumpCount == old(player.jumpCount)
  {
    if GlitchDue(engine.lastGlitchTime, now) {
      ChosenWithin(d, platforms);
    }
    engine.Update(now, d, offsets, player, platforms);
    assert FitsScreen(player.State()) && JumpBudget(player.State());
  }

  /** The first half of a playing frame: the glitch engine, then the level
      with the player in it. mid is the player between the two. */
  method AdvanceWorld(engine: GlitchEngine, level: Level, player: Player, now: real, d: Draw,
                      offsets: seq<(int, int)>, keys: Keys, roll: real,
                      lines: seq<LineDraw>, blocks: seq<BlockDraw>) returns (ghost mid: PlayerState)
    requires engine.Valid() && level.Valid() && player.Valid()
    requires DrawsFit(engine, level, now, d, offsets, roll, lines, blocks)
    modifies player, engine, engine.disappearingPlatforms, level.platforms, level.enemies, level.background
    ensures engine.Valid() && player.Valid()
    ensures mid.rect == old(player.rect) && mid.jumpCount == old(player.jumpCount)
    ensures FitsScreen(mid) && JumpBudget(mid)
    ensures player.State() == Tick(mid, keys, now, RectsOf(SolidOf(level.platforms)))
  {
    EngineStep(engine, level.platforms, player, now, d, offsets);
    mid := player.State();
    level.Update(player, keys, now, roll, lines, blocks);
  }

  /** An event while playing: buffered while the input lag lasts, handed
      to the player otherwise. */
  method RouteInput(engine: GlitchEngine, player: Player, e: Event, ticks: int)
    requires engine.Valid() && engine.NotBefore(ticks) && player.Valid()
    modifies engine, player
    ensures engine.Valid() && engine.NotBefore(ticks) && player.Valid()
    ensures old(engine.inputLagFrames) > 0 ==>
              player.State() == old(player.State()) &&
              engine.EffectVars() == old(engine.EffectVars()).(inputBuffer := old(engine.inputBuffer) + [(ticks, e)])
    ensures old(engine.inputLagFrames) <= 0 ==>
              player.State() == ApplyKeyEvent(old(player.State()), e) && engine.EffectVars() == old(engine.EffectVars())
    ensures engine.Scheduling() == old(engine.Scheduling())
    ensures engine.disappearingPlatforms == old(engine.disappearingPlatforms)
  {
    var p := engine.ProcessInput(e, ticks);
    if p.Some? {
      KeyEventKeeps(player.State(), p.value);
      player.HandleEvent(p.value);
    }
  }

  /** The three checks of a playing frame: the exit portal, the enemies and
      their projectiles (a touched projectile is removed), a fall below the
      screen. */
  method Inspect(level: Level, player: Player) returns (exit: bool, hazard: bool, fell: bool)
    requires level.Valid()
    modifies level.enemies
    ensures exit == Collides(player.rect, level.exitRect)
    ensures hazard == (!player.invincible && FirstHazard(player.rect, old(Zones(level.enemies))) != NoHazard)
    ensures fell == (player.rect.Top() > SCREEN_HEIGHT)
    ensures unchanged(level.platforms)
  {
    exit := level.CheckExitCollision(player);
    hazard := level.CheckEnemyCollision(player);
    fell := player.rect.Top() > SCREEN_HEIGHT;
  }

  /** A playing frame up to the scoring: the world moves, then the checks. */
  method PlayFrame(engine: GlitchEngine, level: Level, player: Player, now: real, d: Draw,
                   offsets: seq<(int, int)>, keys: Keys, roll: real,
                   lines: seq<LineDraw>, blocks: seq<BlockDraw>)
      returns (exit: bool, hazard: bool, fell: bool, ghost mid: PlayerState, ghost solid: seq<Rect>)
    requires engine.Valid() && level.Valid() && player.Valid()
    requires DrawsFit(engine, level, now, d, offsets, roll, lines, blocks)
    modifies player, engine, engine.disappearingPlatforms, level.platforms, level.enemies, level.background
    ensures engine.Valid() && player.Valid()
    ensures exit == Collides(player.rect, level.exitRect)
    ensures fell == (player.rect.Top() > SCREEN_HEIGHT) && !fell
    ensures player.invincible ==> !hazard
    ensures mid.rect == old(player.rect) && mid.jumpCount == old(player.jumpCount)
    ensures solid == RectsOf(SolidOf(level.platforms))
    ensures player.State() == Tick(mid, keys, now, solid)
  {
    mid := AdvanceWorld(engine, level, player, now, d, offsets, keys, roll, lines, blocks);
    NoFallBelowScreen(mid, keys, now, RectsOf(SolidOf(level.platforms)));
    exit, hazard, fell := Inspect(level, player);
    solid := RectsOf(SolidOf(level.platforms));
  }

  class Game {
    const data: seq<LevelData>
    const levels: seq<Level>
    const player: Player
    const glitchEngine: GlitchEngine
    var running: bool
    var state: GameState
    var levelIndex: int
    var lives: int
    var maxLives: int
    var score: int
    var levelStartTime: real
    var gameOverTimer: real
    var levelCompleteTimer: real
    var currentLevel: Level

    function Rec(): GameRec
      reads this
    {
      GameRec(running, state, levelIndex, lives, maxLives, score, levelStartTime, gameOverTimer, levelCompleteTimer)
    }

    function Snapshot(): Session
      reads this, player, glitchEngine
    {
      Session(Rec(), player.State(), glitchEngine.EffectVars())
    }

    /** The game is in a reachable state, shows the level its index names,
        and every level, the player and the engine keep their invariants. */
    ghost predicate Valid()
      reads this, player, glitchEngine
    {
      |levels| == |data| && Reachable(Rec(), |data|) &&
      currentLevel == levels[CurIx(levelIndex, |levels|)] &&
      (forall i :: 0 <= i < |levels| ==>
         levels[i].Valid() && levels[i].playerStart == data[i].playerStart &&
         levels[i].exitRect == ExitRect(data[i].exitPos)) &&
      player.Valid() && glitchEngine.Valid()
    }

    /** Game.__init__; draws holds each level's background draws and now is
        the moment the glitch engine starts counting. */
    constructor (data: seq<LevelData>, draws: seq<(seq<LineDraw>, seq<BlockDraw>)>, now: real)
      requires |data| > 0 && |draws| == |data|
      requires forall i :: 0 <= i < |data| ==> DrawsOk(LevelNumber(data[i].name), draws[i].0, draws[i].1)
      ensures Rec() == GameRec(true, Menu, 0, 0, 0, 0, 0.0, 0.0, 0.0)
      ensures this.data == data && |levels| == |data| && currentLevel == levels[0]
      ensures fresh(player) && player.State() == InitialPlayer()
      ensures fresh(glitchEngine) && glitchEngine.EffectVars() == InitialVals() &&
              glitchEngine.Scheduling() == Schedule([], now, "", 0.0) && glitchEngine.disappearingPlatforms == []
      ensures Valid()
    {
      this.data := data;
      running, state, levelIndex := true, Menu, 0;
      lives, maxLives, score := 0, 0, 0;
      levelStartTime, gameOverTimer, levelCompleteTimer := 0.0, 0.0, 0.0;
      player := new Player();
      var ls := LoadLevels(data, draws);
      levels := ls;
      currentLevel := ls[0];
      glitchEngine := new GlitchEngine(now);
    }

    /** reset_level: the player back at the current level's start. */
    method ResetLevel(resetLives: bool, now: real)
      requires resetLives ==> 0 <= levelIndex < |data|
      modifies this, player
      ensures Rec() == ResetLevelR(old(Rec()), resetLives, now, data)
      ensures currentLevel == old(currentLevel)
      ensures player.State() == Respawn(old(player.State()), currentLevel.playerStart, now)
    {
      currentLevel.ResetPlayerPosition(player, now);
      levelStartTime := now;
      if resetLives {
        maxLives := LivesOf(data[levelIndex]);
        lives := maxLives;
      }
    }

    /** next_level. */
    method NextLevel(now: real)
      requires Valid() && state == LevelComplete
      modifies this, player
      ensures Valid()
      ensures Rec() == NextLevelR(old(Rec()), now, data)
      ensures player.State() == if old(levelIndex) + 1 < |data|
                                then Respawn(old(player.State()), data[old(levelIndex) + 1].playerStart, now)
                                else old(player.State())
    {
      levelIndex := levelIndex + 1;
      if levelIndex < |levels| {
        RespawnEffects(player.State(), data[levelIndex].playerStart, now);
        currentLevel := levels[levelIndex];
        ResetLevel(true, now);
        state := Playing;
      } else {
        state := GameCompleted;
      }
    }

    /** The menu again, from game over with no lives or from the end. */
    method ReturnToMenu(now: real)
      requires Valid() && state in {GameOver, GameCompleted}
      modifies this, player
      ensures Valid()
      ensures Rec() == ToMenuR(old(Rec()), now, data)
      ensures player.State() == Respawn(old(player.State()), data[0].playerStart, now)
    {
      RespawnEffects(player.State(), data[0].playerStart, now);
      state := Menu;
      score := 0;
      levelIndex := 0;
      currentLevel := levels[0];
      ResetLevel(true, now);
    }

    /** ENTER outside play. */
    method Enter(now: real)
      requires Valid() && state != Playing
      modifies this, player
      ensures Valid()
      ensures Rec() == EnterR(old(Rec()), now, data)
      ensures player.State() == if EnterRespawns(old(Rec()), |data|)
                                then Respawn(old(player.State()), StartOf(data, levelIndex), now)
                                else old(player.State())
    {
      if state == Menu {
        RespawnEffects(player.State(), data[levelIndex].playerStart, now);
        state := Playing;
        ResetLevel(true, now);
      } else if state == GameOver {
        if lives > 0 {
          RespawnEffects(player.State(), data[levelIndex].playerStart, now);
          state := Playing;
          ResetLevel(false, now);
        } else {
          ReturnToMenu(now);
        }
      } else if state == LevelComplete {
        NextLevel(now);
      } else {
        ReturnToMenu(now);
      }
    }

    /** One event of handle_events. */
    method HandleEvent(e: Event, ticks: int, now: real)
      requires Valid() && glitchEngine.NotBefore(ticks)
      modifies this, player, glitchEngine
      ensures Valid() && glitchEngine.NotBefore(ticks)
      ensures Snapshot() == OnEvent(old(Snapshot()), e, ticks, now, data)
      ensures glitchEngine.Scheduling() == old(glitchEngine.Scheduling())
      ensures glitchEngine.disappearingPlatforms == old(glitchEngine.disappearingPlatforms)
    {
      if e.Quit? {
        running := false;
      }
      if state == Playing {
        RouteInput(glitchEngine, player, e, ticks);
      } else if e == KeyDown(KReturn) {
        Enter(now);
      }
    }

    /** handle_events: every event of the frame, then the lagged ones. */
    method HandleEvents(events: seq<Event>, ticks: int, now: real)
      requires Valid() && glitchEngine.NotBefore(ticks)
      modifies this, player, glitchEngine
      ensures Valid()
      ensures Snapshot() == DeliverLagged(OnEvents(old(Snapshot()), events, ticks, now, data), ticks)
      ensures glitchEngine.Scheduling() == old(glitchEngine.Scheduling())
      ensures glitchEngine.disappearingPlatforms == old(glitchEngine.disappearingPlatforms)
    {
      ghost var s0 := Snapshot();
      var i := 0;
      while i < |events|
        invariant 0 <= i <= |events| && Valid() && glitchEngine.NotBefore(ticks)
        invariant Snapshot() == OnEvents(s0, events[..i], ticks, now, data)
        invariant glitchEngine.Scheduling() == old(glitchEngine.Scheduling())
        invariant glitchEngine.disappearingPlatforms == old(glitchEngine.disappearingPlatforms)
      {
        assert events[..i + 1][..i] == events[..i];
        HandleEvent(events[i], ticks, now);
        i := i + 1;
      }
      assert events[..|events|] == events;
      DeliverLaggedInput(ticks);
    }

    /** The end of handle_events: while playing, the lagged events that are due. */
    method DeliverLaggedInput(ticks: int)
      requires Valid()
      modifies player, glitchEngine
      ensures Valid()
      ensures Snapshot() == DeliverLagged(old(Snapshot()), ticks)
      ensures glitchEngine.Scheduling() == old(glitchEngine.Scheduling())
      ensures glitchEngine.disappearingPlatforms == old(glitchEngine.disappearingPlatforms)
    {
      if state == Playing {
        var lagged := glitchEngine.GetLaggedInput(ticks);
        DeliverEach(lagged);
      }
    }

    /** The lagged events reaching the player. */
    method DeliverEach(es: seq<Event>)
      requires player.Valid()
      modifies player
      ensures player.Valid()
      ensures player.State() == ApplyKeyEvents(old(player.State()), es)
    {
      ghost var p0 := player.State();
      var i := 0;
      while i < |es|
        invariant 0 <= i <= |es| && player.Valid()
        invariant player.State() == ApplyKeyEvents(p0, es[..i])
      {
        assert es[..i + 1][..i] == es[..i];
        KeyEventKeeps(player.State(), es[i]);
        player.HandleEvent(es[i]);
        i := i + 1;
      }
      assert es[..|es|] == es;
    }
    /** Game.update: while playing, the glitch engine, the level and the
        checks; then, in every state, the timers. */
    method Update(now: real, d: Draw, offsets: seq<(int, int)>, keys: Keys, roll: real,
                  lines: seq<LineDraw>, blocks: seq<BlockDraw>)
        returns (exit: bool, hazard: bool, fell: bool, ghost mid: PlayerState, ghost solid: seq<Rect>)
      requires Valid()
      requires state == Playing ==> DrawsFit(glitchEngine, currentLevel, now, d, offsets, roll, lines, blocks)
      modifies this, player, glitchEngine, glitchEngine.disappearingPlatforms,
               currentLevel.platforms, currentLevel.enemies, currentLevel.background
      ensures Valid()
      ensures old(state) == Playing ==>
                Rec() == PlayOutcome(old(Rec()), exit, hazard, fell, now) &&
                currentLevel == old(currentLevel) &&
                exit == Collides(player.rect, currentLevel.exitRect) &&
                fell == (player.rect.Top() > SCREEN_HEIGHT) && !fell &&
                (player.invincible ==> !hazard) &&
                mid.rect == old(player.rect) && mid.jumpCount == old(player.jumpCount) &&
                player.State() == Tick(mid, keys, now, solid)
      ensures old(state) != Playing ==>
                !exit && !hazard && !fell && unchanged(glitchEngine) &&
                unchanged(old(currentLevel).enemies) && unchanged(old(currentLevel).platforms) &&
                unchanged(old(currentLevel).background) && unchanged(old(glitchEngine.disappearingPlatforms)) &&
                player.State() == TimersPlayer(old(Rec()), old(player.State()), now, data)
      ensures Rec() == TimersR(PlayOutcome(old(Rec()), exit, hazard, fell, now), now, data)
    {
      exit, hazard, fell, mid, solid := false, false, false, player.State(), [];
      if state == Playing {
        exit, hazard, fell, mid, solid := PlayFrame(glitchEngine, currentLevel, player, now, d, offsets, keys, roll,
                                             lines, blocks);
        Score(exit, hazard, fell, now);
        PlayOutcomeSettles(old(Rec()), exit, hazard, fell, now, data, player.State());
        Timers(now);
      } else {
        Timers(now);
      }
    }

    /** The consequences of the checks, in their order: the exit, then an
        enemy, then a fall. */
    method Score(exit: bool, hazard: bool, fell: bool, now: real)
      requires state == Playing && Reachable(Rec(), |data|)
      modifies this
      ensures Reachable(Rec(), |data|) && currentLevel == old(currentLevel) && levelIndex == old(levelIndex)
      ensures Rec() == PlayOutcome(old(Rec()), exit, hazard, fell, now)
    {
      if exit {
        FinishLevel(now);
      }
      if hazard {
        LoseLife(now);
      }
      if fell {
        LoseLife(now);
      }
      PlayOutcomeSettles(old(Rec()), exit, hazard, fell, now, data, player.State());
    }

    /** The exit reached: level complete, with the points and the bonus. */
    method FinishLevel(now: real)
      modifies this
      ensures Rec() == Finish(old(Rec()), now) && currentLevel == old(currentLevel)
    {
      state, levelCompleteTimer := LevelComplete, now;
      score := score + EXIT_SCORE + TimeBonus(now - levelStartTime);
    }

    /** A life lost to an enemy or a fall. */
    method LoseLife(now: real)
      modifies this
      ensures Rec() == Die(old(Rec()), now) && currentLevel == old(currentLevel)
    {
      lives, state, gameOverTimer := lives - 1, GameOver, now;
    }

    /** The timers at the end of update. */
    method Timers(now: real)
      requires Valid()
      modifies this, player
      ensures Valid()
      ensures Rec() == TimersR(old(Rec()), now, data)
      ensures player.State() == TimersPlayer(old(Rec()), old(player.State()), now, data)
      ensures !ResumesAfterDeath(old(Rec()), now) && !AdvancesAfterExit(old(Rec()), now) ==>
                unchanged(this) && unchanged(player)
    {
      if state == GameOver && now - gameOverTimer > STATE_DELAY {
        if lives > 0 {
          RespawnEffects(player.State(), data[levelIndex].playerStart, now);
          state := Playing;
          ResetLevel(false, now);
        }
      }
      if state == LevelComplete && now - levelCompleteTimer > STATE_DELAY {
        NextLevel(now);
      }
    }
  }
}
