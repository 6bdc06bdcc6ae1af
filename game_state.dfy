/**
 * The session controller (`GameState` in `game_state.py`): which screen
 * is showing, and the bookkeeping of one attempt in each of the three play
 * modes (free play, a level, evolution mode).
 *
 * The snake and the food are not part of this model: every frame of
 * play is given as its outcome, whether the head reached the food, whether
 * the snake is dead, whether it left the screen or hit an obstacle. The
 * clock reading `now`, the end-of-game date text and the mouse position
 * are parameters. Drawing and sound are not modelled.
 */
module Game {
  import opened Wrappers
  import opened Geometry
  import opened ScoreManage
  import opened TimeManage
  import opened LevelManage
  import Evolution
  import LevelSelection

  /** `GameState.MAIN_MENU` to `GameState.EVOLUTION_MODE`. */
  datatype State =
    | MainMenu | Playing | GameOver | Ranking | Paused | Analysis | LevelSelect | PlayLevel | EvolutionMode

  /** The bookkeeping of one attempt: the score and the two flags. */
  datatype Attempt = Attempt(scores: int, isdead: bool, scoreSaved: bool)

  /**
   * The snake's operations a frame calls: none, `move` then `grow`, `move`
   * then `remove_tail`, or `move` alone.
   */
  datatype Move = Frozen | Grew | Slid | Stepped

  // ----- free play and evolution mode -----

  /**
   * The bookkeeping of one frame of free play: a live snake scores one
   * point, fifty more when it reaches the food; the death flag is then
   * read afresh, and a death marks the score as saved.
   */
  function FreeTick(a: Attempt, ateFood: bool, dead: bool): Attempt {
    var scores := if a.isdead then a.scores else a.scores + 1 + (if ateFood then 50 else 0);
    Attempt(scores, dead, a.scoreSaved || dead)
  }

  /** Whether the frame writes a score line: the snake is dead and nothing was saved yet. */
  predicate SavesScore(a: Attempt, dead: bool) {
    dead && !a.scoreSaved
  }

  /** A frame scores nothing once the snake is dead, one point alive, and fifty-one when it eats. */
  lemma FreeTickScore(a: Attempt, ateFood: bool, dead: bool)
    ensures var d := FreeTick(a, ateFood, dead).scores - a.scores;
      (d == 0 <==> a.isdead) && (d == 1 <==> !a.isdead && !ateFood) && (d == 51 <==> !a.isdead && ateFood)
    ensures FreeTick(a, ateFood, dead).isdead == dead
  {
  }

  /** One frame's outcome: whether the head reached the food, and whether the snake is dead afterwards. */
  datatype Tick = Tick(ateFood: bool, dead: bool)

  /** A run of free-play frames. */
  function FreeRun(a: Attempt, ticks: seq<Tick>): Attempt
    decreases |ticks|
  {
    if ticks == [] then a else FreeRun(FreeTick(a, ticks[0].ateFood, ticks[0].dead), ticks[1..])
  }

  /** How many frames of the run write a score line. */
  function SaveCount(a: Attempt, ticks: seq<Tick>): nat
    decreases |ticks|
  {
    if ticks == [] then 0
    else (if SavesScore(a, ticks[0].dead) then 1 else 0) +
         SaveCount(FreeTick(a, ticks[0].ateFood, ticks[0].dead), ticks[1..])
  }

  /**
   * Between two resets the score is saved at most once, and not at all
   * once it has been: only a reset clears `score_saved`.
   */
  lemma {:induction false} SavedAtMostOnce(a: Attempt, ticks: seq<Tick>)
    ensures SaveCount(a, ticks) <= (if a.scoreSaved then 0 else 1)
    ensures SaveCount(a, ticks) == 1 || a.scoreSaved ==> FreeRun(a, ticks).scoreSaved
    decreases |ticks|
  {
    if ticks != [] {
      SavedAtMostOnce(FreeTick(a, ticks[0].ateFood, ticks[0].dead), ticks[1..]);
    }
  }

  /** The score never falls during play. */
  lemma {:induction false} ScoresNeverFall(a: Attempt, ticks: seq<Tick>)
    ensures FreeRun(a, ticks).scores >= a.scores
    decreases |ticks|
  {
    if ticks != [] {
      ScoresNeverFall(FreeTick(a, ticks[0].ateFood, ticks[0].dead), ticks[1..]);
    }
  }

  // ----- level mode -----

  /** One frame's outcome in a level: left the screen, reached the food, hit an obstacle. */
  datatype LevelTick = LevelTick(offScreen: bool, ateFood: bool, hitObstacle: bool)

  /** A level frame moves the snake only while it lives, is below the target and has time left. */
  predicate LevelLive(a: Attempt, target: int, limit: int, timeUsed: int) {
    !a.isdead && a.scores < target && timeUsed < limit
  }

  /**
   * The bookkeeping of one level frame, and whether it records the level
   * as passed. A snake that leaves the screen dies at once and the frame
   * ends there; otherwise it eats or not, dies on an obstacle, and then the
   * pass check (target reached) and the fail check (dead or out of time)
   * each run once per attempt.
   */
  function LevelFrame(a: Attempt, target: int, limit: int, timeUsed: int, t: LevelTick): (Attempt, bool) {
    var live := LevelLive(a, target, limit, timeUsed);
    if live && t.offScreen then (Attempt(a.scores + 1, true, a.scoreSaved), false)
    else
      var moved := if live then Attempt(a.scores + 1 + (if t.ateFood then 50 else 0), t.hitObstacle, a.scoreSaved) else a;
      LevelSettle(moved, target, limit, timeUsed)
  }

  /** The pass check and then the fail check at the end of a level frame. */
  function LevelSettle(a: Attempt, target: int, limit: int, timeUsed: int): (Attempt, bool) {
    var pass := a.scores >= target && !a.scoreSaved;
    var failed := (a.isdead || timeUsed >= limit) && !(a.scoreSaved || pass);
    (a.(scoreSaved := a.scoreSaved || pass || failed), pass)
  }

  /**
   * A level frame: nothing moves unless the game is live; death comes only
   * from leaving the screen or hitting an obstacle, never from the snake's
   * own body; the level is recorded only on reaching the target and only
   * once; a failure only marks the attempt as settled.
   */
  lemma LevelFrameMeaning(a: Attempt, target: int, limit: int, timeUsed: int, t: LevelTick)
    ensures var (r, pass) := LevelFrame(a, target, limit, timeUsed, t);
      (!LevelLive(a, target, limit, timeUsed) ==> r.scores == a.scores && r.isdead == a.isdead) &&
      (!a.isdead && r.isdead ==> t.offScreen || t.hitObstacle) &&
      (pass <==> !a.scoreSaved && r.scores >= target && !(LevelLive(a, target, limit, timeUsed) && t.offScreen)) &&
      (pass ==> r.scoreSaved) &&
      (r.scoreSaved && !a.scoreSaved && !pass ==> r.isdead || timeUsed >= limit) &&
      (a.scoreSaved ==> r.scoreSaved)
  {
  }

  /**
   * Leaving the screen on the frame that reaches the target still passes
   * the level: the frame ends before the pass check, and the next frame,
   * in which the dead snake no longer moves, records the score.
   */
  lemma WallOnWinningFrame(target: int, limit: int, timeUsed: int, next: LevelTick)
    requires timeUsed < limit
    ensures var (r1, pass1) := LevelFrame(Attempt(target - 1, false, false), target, limit, timeUsed, LevelTick(true, false, false));
      r1.isdead && !pass1 && LevelFrame(r1, target, limit, timeUsed, next).1
  {
  }

  /** A run of level frames, each with its own clock reading. */
  function LevelRun(a: Attempt, target: int, limit: int, frames: seq<(int, LevelTick)>): Attempt
    decreases |frames|
  {
    if frames == [] then a else LevelRun(LevelFrame(a, target, limit, frames[0].0, frames[0].1).0, target, limit, frames[1..])
  }

  /** How many frames of the run record the level as passed. */
  function PassCount(a: Attempt, target: int, limit: int, frames: seq<(int, LevelTick)>): nat
    decreases |frames|
  {
    if frames == [] then 0
    else
      var (r, pass) := LevelFrame(a, target, limit, frames[0].0, frames[0].1);
      (if pass then 1 else 0) + PassCount(r, target, limit, frames[1..])
  }

  /** `save_level_score` is called at most once per attempt. */
  lemma {:induction false} LevelSavedAtMostOnce(a: Attempt, target: int, limit: int, frames: seq<(int, LevelTick)>)
    ensures PassCount(a, target, limit, frames) <= (if a.scoreSaved then 0 else 1)
    decreases |frames|
  {
    if frames != [] {
      LevelFrameMeaning(a, target, limit, frames[0].0, frames[0].1);
      var r := LevelFrame(a, target, limit, frames[0].0, frames[0].1).0;
      LevelSavedAtMostOnce(r, target, limit, frames[1..]);
    }
  }

  // ----- screens -----

  /** The screen `enter_pause` will resume: free play from free play, the level screen from anything else. */
  function ResumeTarget(s: State): (r: State)
    ensures r == Playing || r == PlayLevel
    ensures r == Playing <==> s == Playing
  {
    if s == Playing then Playing else PlayLevel
  }

  /** The buttons of the main menu, two columns of four. */
  datatype MenuItem = StartItem | LevelItem | EvolutionItem | ExitItem | ThemeItem | RankItem | AnalysisItem | AchievementItem

  /** The rectangle of a main-menu button: 180 by 45, rows 55 apart from a third of the way down. */
  function MenuRect(screenWidth: int, screenHeight: int, item: MenuItem): Rect {
    var y := screenHeight / 3;
    var left := screenWidth / 2 - 180 - 20;
    var right := screenWidth / 2 + 20;
    match item
    case StartItem => Rect(left, y, 180, 45)
    case LevelItem => Rect(left, y + 55, 180, 45)
    case EvolutionItem => Rect(left, y + 110, 180, 45)
    case ExitItem => Rect(left, y + 165, 180, 45)
    case ThemeItem => Rect(right, y, 180, 45)
    case RankItem => Rect(right, y + 55, 180, 45)
    case AnalysisItem => Rect(right, y + 110, 180, 45)
    case AchievementItem => Rect(right, y + 165, 180, 45)
  }

  /** No point lies on two menu buttons, so a click presses at most one. */
  lemma MenuDisjoint(screenWidth: int, screenHeight: int, a: MenuItem, b: MenuItem, mx: int, my: int)
    requires ContainsPoint(MenuRect(screenWidth, screenHeight, a), mx, my)
    requires ContainsPoint(MenuRect(screenWidth, screenHeight, b), mx, my)
    ensures a == b
  {
  }

  /** Whether a ladder at `stage` with `food` eaten moves up on its next food. */
  predicate EvolvesOnNext(stage: nat, food: int) {
    stage < Evolution.LAST_STAGE && food + 1 >= Evolution.STAGES[stage + 1].foodRequired
  }

  /** The effects an evolution frame adds: the ability of the stage reached, twice over. */
  function Gained(stage: nat, evolved: bool): seq<Evolution.Effect>
    requires stage <= Evolution.LAST_STAGE
  {
    var once := if evolved then Evolution.AbilityEffects(Evolution.STAGES[stage].ability) else [];
    once + once
  }

  /** The events the play screens tell apart. */
  datatype GameKey = SpaceKey | PKey | EscapeKey | OtherKey
  datatype Input = QuitInput | KeyDown(key: GameKey) | MouseDown | OtherInput

  class GameState {
    const screenWidth: int
    const screenHeight: int
    const bgmButton: Rect
    const pauseButton: Rect
    const backButton: Rect
    const levelManager: LevelManager
    const scoreFile: ScoreFile
    const timeManager: TimeManager
    var state: State
    var prevState: State
    var scores: int
    var isdead: bool
    var scoreSaved: bool
    var currentLevel: Option<Level>
    var levelTimeUsed: int
    var gameSpeed: int
    /** Created by the first frame of evolution mode. */
    var evolution: Evolution.EvolutionMode?

    /** The object invariant: an evolution ladder, once there, stays on its stages. */
    ghost predicate Valid()
      reads this, evolution
    {
      evolution != null ==> evolution.Valid()
    }

    function Current(): Attempt
      reads this
    {
      Attempt(scores, isdead, scoreSaved)
    }

    /** `GameState(screen)`, with the level catalogue, the score file and the clock given. */
    constructor(screenWidth: int, screenHeight: int, levelManager: LevelManager, scoreFile: ScoreFile, timeManager: TimeManager)
      ensures Valid() && evolution == null
      ensures this.screenWidth == screenWidth && this.screenHeight == screenHeight
      ensures this.levelManager == levelManager && this.scoreFile == scoreFile && this.timeManager == timeManager
      ensures bgmButton == Rect(screenWidth - 90, 10, 40, 40) && pauseButton == Rect(screenWidth - 40, 10, 40, 40)
      ensures backButton == Rect(10, 10, 40, 40)
      ensures state == MainMenu && prevState == MainMenu && Current() == Attempt(0, false, false)
      ensures currentLevel.None? && levelTimeUsed == 0
    {
      this.screenWidth := screenWidth;
      this.screenHeight := screenHeight;
      this.levelManager := levelManager;
      this.scoreFile := scoreFile;
      this.timeManager := timeManager;
      bgmButton := Rect(screenWidth - 90, 10, 40, 40);
      pauseButton := Rect(screenWidth - 40, 10, 40, 40);
      backButton := Rect(10, 10, 40, 40);
      state := MainMenu;
      prevState := MainMenu;
      scores := 0;
      isdead := false;
      scoreSaved := false;
      currentLevel := None;
      levelTimeUsed := 0;
      gameSpeed := 10;
      evolution := null;
    }

    /** `reset_game()`: a fresh attempt and a restarted clock; the screen is unchanged. */
    method ResetGame(now: real)
      modifies this, timeManager
      ensures Current() == Attempt(0, false, false)
      ensures state == old(state) && prevState == old(prevState) && currentLevel == old(currentLevel)
      ensures evolution == old(evolution) && levelTimeUsed == old(levelTimeUsed)
      ensures !timeManager.paused && timeManager.Reading(now) == 0.0
    {
      scores := 0;
      isdead := false;
      scoreSaved := false;
      timeManager.Start(now);
    }

    /** `enter_pause()`: shows the pause screen and stops the clock. */
    method EnterPause(now: real)
      modifies this, timeManager
      ensures state == Paused && prevState == ResumeTarget(old(state))
      ensures Current() == old(Current()) && currentLevel == old(currentLevel) && evolution == old(evolution)
      ensures levelTimeUsed == old(levelTimeUsed)
      ensures timeManager.paused && timeManager.Reading(now) == old(timeManager.Reading(now))
    {
      prevState := ResumeTarget(state);
      state := Paused;
      timeManager.Pause(now);
    }

    /** `exit_pause()`: goes back to the screen the pause remembered and restarts the clock. */
    method ExitPause(now: real)
      modifies this, timeManager
      ensures state == old(prevState) && prevState == old(prevState)
      ensures Current() == old(Current()) && currentLevel == old(currentLevel) && evolution == old(evolution)
      ensures levelTimeUsed == old(levelTimeUsed)
      ensures timeManager.Reading(now) == old(timeManager.Reading(now)) && !timeManager.paused
    {
      state := prevState;
      timeManager.Resume(now);
    }

    /**
     * `reset_evolution_game()`: a fresh attempt and clock, and, when the
     * ladder already exists, back to its first stage with no food and no
     * effects.
     */
    method ResetEvolutionGame(now: real)
      requires Valid()
      modifies this, timeManager, evolution
      ensures Valid() && evolution == old(evolution)
      ensures Current() == Attempt(0, false, false)
      ensures state == old(state) && prevState == old(prevState) && currentLevel == old(currentLevel)
      ensures levelTimeUsed == old(levelTimeUsed)
      ensures !timeManager.paused && timeManager.Reading(now) == 0.0
      ensures evolution != null ==>
        evolution.currentStage == 0 && evolution.foodEaten == 0 && evolution.activeEffects == []
    {
      scores := 0;
      isdead := false;
      scoreSaved := false;
      timeManager.Start(now);
      if evolution != null {
        evolution.currentStage := 0;
        evolution.foodEaten := 0;
        evolution.activeEffects := [];
      }
    }

    /**
     * `load_level(level_id)`: looks the level up; an unknown id goes back
     * to level selection and changes nothing else, a known one starts a
     * fresh attempt at that level's speed.
     */
    method LoadLevel(levelId: string, now: real)
      modifies this, timeManager
      ensures currentLevel == FirstWithId(AllLevels(levelManager.levelFile), levelId)
      ensures evolution == old(evolution) && prevState == old(prevState)
      ensures currentLevel.None? ==>
        state == LevelSelect && Current() == old(Current()) && levelTimeUsed == old(levelTimeUsed) &&
        unchanged(timeManager)
      ensures currentLevel.Some? ==>
        state == old(state) && Current() == Attempt(0, false, false) && levelTimeUsed == 0 &&
        gameSpeed == currentLevel.value.speed && !timeManager.paused && timeManager.Reading(now) == 0.0
    {
      currentLevel := levelManager.GetLevelById(levelId);
      if currentLevel.None? {
        state := LevelSelect;
        return;
      }
      StartAttempt(currentLevel.value.speed, now);
    }

    /** The second half of `load_level`: a fresh attempt, the clock restarted, the level's speed. */
    method StartAttempt(speed: int, now: real)
      modifies this, timeManager
      ensures Current() == Attempt(0, false, false) && levelTimeUsed == 0 && gameSpeed == speed
      ensures !timeManager.paused && timeManager.Reading(now) == 0.0
      ensures state == old(state) && prevState == old(prevState) && evolution == old(evolution)
      ensures currentLevel == old(currentLevel)
    {
      scores := 0;
      isdead := false;
      scoreSaved := false;
      timeManager.Start(now);
      levelTimeUsed := 0;
      gameSpeed := speed;
    }

    /**
     * `handle_level_select()`, given what the selection screen returned:
     * the main menu, a level to play, or the selection screen again.
     */
    method HandleLevelSelect(choice: LevelSelection.Selection, now: real)
      requires choice.MainMenu? || choice.LevelSelectAgain? || choice.PlayLevel?
      modifies this, timeManager
      ensures choice.MainMenu? ==> state == MainMenu && Current() == old(Current()) && currentLevel == old(currentLevel)
      ensures choice.LevelSelectAgain? || (choice.PlayLevel? && choice.levelId == "") ==> unchanged(this)
      ensures choice.PlayLevel? && choice.levelId != "" ==>
        currentLevel == FirstWithId(AllLevels(levelManager.levelFile), choice.levelId) &&
        (currentLevel.None? ==> state == LevelSelect) &&
        (currentLevel.Some? ==> state == PlayLevel && Current() == Attempt(0, false, false))
    {
      match choice {
        case MainMenu =>
          state := MainMenu;
        case PlayLevel(levelId) =>
          if levelId != "" {
            state := PlayLevel;
            LoadLevel(levelId, now);
          }
        case _ =>
      }
    }

    /**
     * A press on the main menu, at the mouse position read for the frame.
     * Start, level, evolution, ranking and analysis each switch screen and
     * remember the menu; start and evolution also begin a fresh attempt.
     * The exit button quits.
     */
    method MainMenuClick(mx: int, my: int, now: real) returns (quit: bool)
      requires Valid()
      modifies this, timeManager, evolution
      ensures Valid() && evolution == old(evolution) && currentLevel == old(currentLevel)
      ensures ContainsPoint(MenuRect(screenWidth, screenHeight, StartItem), mx, my) ==>
        state == Playing && prevState == MainMenu && Current() == Attempt(0, false, false) && !quit &&
        !timeManager.paused && timeManager.Reading(now) == 0.0
      ensures ContainsPoint(MenuRect(screenWidth, screenHeight, LevelItem), mx, my) ==>
        state == LevelSelect && prevState == MainMenu && Current() == old(Current()) && !quit
      ensures ContainsPoint(MenuRect(screenWidth, screenHeight, EvolutionItem), mx, my) ==>
        state == EvolutionMode && prevState == MainMenu && Current() == Attempt(0, false, false) && !quit &&
        !timeManager.paused && timeManager.Reading(now) == 0.0 &&
        (evolution != null ==>
          evolution.currentStage == 0 && evolution.foodEaten == 0 && evolution.activeEffects == [])
      ensures ContainsPoint(MenuRect(screenWidth, screenHeight, RankItem), mx, my) ==>
        state == Ranking && prevState == MainMenu && Current() == old(Current()) && !quit
      ensures ContainsPoint(MenuRect(screenWidth, screenHeight, AnalysisItem), mx, my) ==>
        state == Analysis && prevState == MainMenu && Current() == old(Current()) && !quit
      ensures ContainsPoint(MenuRect(screenWidth, screenHeight, ExitItem), mx, my) ==>
        quit && Current() == old(Current()) && state == old(state)
      ensures !quit ==> !ContainsPoint(MenuRect(screenWidth, screenHeight, ExitItem), mx, my)
      ensures (forall item :: !ContainsPoint(MenuRect(screenWidth, screenHeight, item), mx, my)) ==>
        !quit && unchanged(this) && unchanged(timeManager) && (evolution != null ==> unchanged(evolution))
    {
      quit := false;
      if ContainsPoint(MenuRect(screenWidth, screenHeight, StartItem), mx, my) {
        state := Playing;
        prevState := MainMenu;
        ResetGame(now);
        timeManager.Start(now);
      }
      if ContainsPoint(MenuRect(screenWidth, screenHeight, LevelItem), mx, my) {
        state := LevelSelect;
        prevState := MainMenu;
      }
      if ContainsPoint(MenuRect(screenWidth, screenHeight, EvolutionItem), mx, my) {
        state := EvolutionMode;
        prevState := MainMenu;
        ResetEvolutionGame(now);
      }
      if ContainsPoint(MenuRect(screenWidth, screenHeight, RankItem), mx, my) {
        prevState := MainMenu;
        state := Ranking;
      }
      if ContainsPoint(MenuRect(screenWidth, screenHeight, AnalysisItem), mx, my) {
        prevState := MainMenu;
        state := Analysis;
      }
      if ContainsPoint(MenuRect(screenWidth, screenHeight, ExitItem), mx, my) {
        quit := true;
      }
    }

    /**
     * The buttons shared by the three play screens: the pause button
     * pauses, and the back button leaves for `target`, remembering
     * `from` and stopping the clock.
     */
    method PlayButtons(mx: int, my: int, now: real, from: State, target: State)
      modifies this, timeManager
      ensures Current() == old(Current()) && currentLevel == old(currentLevel) && evolution == old(evolution)
      ensures levelTimeUsed == old(levelTimeUsed)
      ensures ContainsPoint(backButton, mx, my) ==> state == target && prevState == from && timeManager.paused
      ensures !ContainsPoint(backButton, mx, my) && ContainsPoint(pauseButton, mx, my) ==>
        state == Paused && prevState == ResumeTarget(old(state)) && timeManager.paused
      ensures !ContainsPoint(backButton, mx, my) && !ContainsPoint(pauseButton, mx, my) ==>
        unchanged(this) && unchanged(timeManager)
      ensures timeManager.Reading(now) == old(timeManager.Reading(now))
    {
      if ContainsPoint(pauseButton, mx, my) {
        EnterPause(now);
      }
      if ContainsPoint(backButton, mx, my) {
        prevState := from;
        state := target;
        timeManager.Pause(now);
      }
    }

    /** The P key on a play screen: pauses that screen, or resumes when already paused. */
    method PauseKey(screen: State, now: real)
      modifies this, timeManager
      ensures Current() == old(Current()) && currentLevel == old(currentLevel) && evolution == old(evolution)
      ensures levelTimeUsed == old(levelTimeUsed)
      ensures old(state) == screen && screen != Paused ==> state == Paused && prevState == ResumeTarget(screen)
      ensures old(state) == Paused && screen != Paused ==> state == old(prevState)
      ensures old(state) != screen && old(state) != Paused ==> unchanged(this) && unchanged(timeManager)
    {
      if state == screen {
        EnterPause(now);
      } else if state == Paused {
        ExitPause(now);
      }
    }

    /** One event of `handle_playing`: Space restarts a finished game, P pauses, the buttons act. */
    method PlayingEvent(e: Input, mx: int, my: int, now: real) returns (quit: bool)
      modifies this, timeManager
      ensures quit <==> e.QuitInput?
      ensures e.QuitInput? || e.OtherInput? || e == KeyDown(EscapeKey) || e == KeyDown(OtherKey) ==>
        unchanged(this) && unchanged(timeManager)
      ensures e == KeyDown(SpaceKey) ==>
        state == old(state) && (if old(isdead) then Current() == Attempt(0, false, false) else unchanged(this))
      ensures e == KeyDown(PKey) ==>
        Current() == old(Current()) &&
        (old(state) == Playing ==> state == Paused && prevState == Playing) &&
        (old(state) == Paused ==> state == old(prevState))
      ensures e.MouseDown? ==>
        Current() == old(Current()) && timeManager.Reading(now) == old(timeManager.Reading(now)) &&
        (ContainsPoint(backButton, mx, my) ==> state == MainMenu && prevState == Playing && timeManager.paused) &&
        (!ContainsPoint(backButton, mx, my) && ContainsPoint(pauseButton, mx, my) ==>
          state == Paused && prevState == ResumeTarget(old(state)) && timeManager.paused) &&
        (!ContainsPoint(backButton, mx, my) && !ContainsPoint(pauseButton, mx, my) ==>
          unchanged(this) && unchanged(timeManager))
    {
      match e {
        case QuitInput =>
          return true;
        case KeyDown(key) =>
          if key == SpaceKey && isdead {
            ResetGame(now);
          }
          if key == PKey {
            PauseKey(Playing, now);
          }
        case MouseDown =>
          PlayButtons(mx, my, now, Playing, MainMenu);
        case OtherInput =>
      }
      return false;
    }

    /**
     * One event of `handle_paused`: P, Escape or the resume button resume
     * and restart the clock; the menu button leaves with the clock still
     * paused.
     */
    method PausedEvent(e: Input, mx: int, my: int, now: real) returns (quit: bool)
      modifies this, timeManager
      ensures quit <==> e.QuitInput?
      ensures Current() == old(Current()) && prevState == old(prevState)
      ensures e == KeyDown(PKey) || e == KeyDown(EscapeKey) ==> state == old(prevState)
      ensures e.MouseDown? ==>
        var panelY := (screenHeight - 200) / 2;
        var resume := Rect((screenWidth - 150) / 2, panelY + 110, 150, 40);
        var menu := Rect((screenWidth - 150) / 2, panelY + 170, 150, 40);
        (ContainsPoint(menu, mx, my) ==> state == MainMenu) &&
        (ContainsPoint(resume, mx, my) && !ContainsPoint(menu, mx, my) ==> state == old(prevState)) &&
        (ContainsPoint(resume, mx, my) ==> !timeManager.paused) &&
        (!ContainsPoint(resume, mx, my) ==> unchanged(timeManager)) &&
        (!ContainsPoint(resume, mx, my) && !ContainsPoint(menu, mx, my) ==> unchanged(this))
      ensures e == KeyDown(PKey) || e == KeyDown(EscapeKey) ==> !timeManager.paused
      ensures timeManager.Reading(now) == old(timeManager.Reading(now))
      ensures e.QuitInput? || e.OtherInput? || (e.KeyDown? && e.key != PKey && e.key != EscapeKey) ==>
        unchanged(this) && unchanged(timeManager)
    {
      match e {
        case QuitInput =>
          return true;
        case KeyDown(key) =>
          if key == PKey || key == EscapeKey {
            ExitPause(now);
          }
        case MouseDown =>
          var panelY := (screenHeight - 200) / 2;
          if ContainsPoint(Rect((screenWidth - 150) / 2, panelY + 110, 150, 40), mx, my) {
            ExitPause(now);
          }
          if ContainsPoint(Rect((screenWidth - 150) / 2, panelY + 170, 150, 40), mx, my) {
            state := MainMenu;
          }
        case OtherInput =>
      }
      return false;
    }

    /**
     * The play part of a `handle_playing` frame: the score, the snake's
     * move, the death flag read afresh, and the score line written on the
     * first dead frame. The second save block of the frame can never run.
     */
    method PlayingTick(ateFood: bool, dead: bool, now: real, endTime: string) returns (move: Move)
      modifies this, scoreFile
      ensures Current() == FreeTick(old(Current()), ateFood, dead)
      ensures move == (if old(isdead) then Frozen else if ateFood then Grew else Slid)
      ensures scoreFile.lines == old(scoreFile.lines) +
        (if SavesScore(old(Current()), dead) then [FormatRecord(scores, timeManager.GetElapsed(now), endTime)] else [])
      ensures state == old(state) && prevState == old(prevState) && currentLevel == old(currentLevel)
      ensures evolution == old(evolution) && levelTimeUsed == old(levelTimeUsed)
    {
      move := Frozen;
      if !isdead {
        scores := scores + 1;
        if ateFood {
          scores := scores + 50;
          move := Grew;
        } else {
          move := Slid;
        }
      }
      isdead := dead;
      if isdead && !scoreSaved {
        scoreFile.SaveScore(FormatRecord(scores, timeManager.GetElapsed(now), endTime));
        scoreSaved := true;
      }
      assert !(isdead && !scoreSaved);
    }

    /** One event of `handle_play_level`: Space replays a finished level, P pauses, the buttons act. */
    method PlayLevelEvent(e: Input, mx: int, my: int, now: real) returns (quit: bool)
      requires currentLevel.Some?
      modifies this, timeManager
      ensures quit <==> e.QuitInput?
      ensures e.QuitInput? || e.OtherInput? || e == KeyDown(EscapeKey) || e == KeyDown(OtherKey) ==>
        unchanged(this) && unchanged(timeManager)
      ensures e == KeyDown(SpaceKey) ==>
        var level := old(currentLevel).value;
        (old(isdead) || old(scores) >= level.scoreTarget ==>
          currentLevel == FirstWithId(AllLevels(levelManager.levelFile), level.levelId) &&
          (currentLevel.Some? ==> Current() == Attempt(0, false, false) && levelTimeUsed == 0)) &&
        (!old(isdead) && old(scores) < level.scoreTarget ==> unchanged(this))
      ensures e == KeyDown(PKey) ==>
        Current() == old(Current()) &&
        (old(state) == PlayLevel ==> state == Paused && prevState == PlayLevel) &&
        (old(state) == Paused ==> state == old(prevState))
      ensures e.MouseDown? ==>
        Current() == old(Current()) && timeManager.Reading(now) == old(timeManager.Reading(now)) &&
        (ContainsPoint(backButton, mx, my) ==> state == LevelSelect && prevState == PlayLevel && timeManager.paused) &&
        (!ContainsPoint(backButton, mx, my) && ContainsPoint(pauseButton, mx, my) ==>
          state == Paused && prevState == ResumeTarget(old(state)) && timeManager.paused) &&
        (!ContainsPoint(backButton, mx, my) && !ContainsPoint(pauseButton, mx, my) ==>
          unchanged(this) && unchanged(timeManager))
    {
      var level := currentLevel.value;
      match e {
        case QuitInput =>
          return true;
        case KeyDown(key) =>
          if key == SpaceKey && (isdead || scores >= level.scoreTarget) {
            LoadLevel(level.levelId, now);
          }
          if key == PKey {
            PauseKey(PlayLevel, now);
          }
        case MouseDown =>
          PlayButtons(mx, my, now, PlayLevel, LevelSelect);
        case OtherInput =>
      }
      return false;
    }

    /**
     * The play part of a `handle_play_level` frame. Without a level the
     * screen goes back to level selection. Otherwise the time used is read
     * from the clock, the snake moves while the game is live, and the pass
     * check records the level's best score in the catalogue.
     */
    method PlayLevelTick(t: LevelTick, now: real) returns (move: Move)
      modifies this, levelManager
      ensures currentLevel == old(currentLevel) && prevState == old(prevState) && evolution == old(evolution)
      ensures levelManager.levelFile == old(levelManager.levelFile)
      ensures old(currentLevel).None? ==>
        state == LevelSelect && Current() == old(Current()) && move == Frozen && unchanged(levelManager)
      ensures old(currentLevel).Some? ==>
        var level := old(currentLevel).value;
        var (r, pass) := LevelFrame(old(Current()), level.scoreTarget, level.timeLimit, timeManager.GetElapsed(now), t);
        state == old(state) && Current() == r && levelTimeUsed == timeManager.GetElapsed(now) &&
        move == (if !LevelLive(old(Current()), level.scoreTarget, level.timeLimit, levelTimeUsed) then Frozen
                 else if t.offScreen then Stepped else if t.ateFood then Grew else Slid) &&
        levelManager.scoreFile ==
          (if pass then ScoresJson(Recorded(Stored(old(levelManager.scoreFile)), level.levelId, r.scores, levelTimeUsed))
           else old(levelManager.scoreFile))
    {
      move := Frozen;
      if currentLevel.None? {
        state := LevelSelect;
        return;
      }
      var level := currentLevel.value;
      levelTimeUsed := timeManager.GetElapsed(now);
      if !isdead && scores < level.scoreTarget && levelTimeUsed < level.timeLimit {
        scores := scores + 1;
        if t.offScreen {
          isdead := true;
          return Stepped;
        }
        if t.ateFood {
          scores := scores + 50;
          move := Grew;
        } else {
          move := Slid;
        }
        if t.hitObstacle {
          isdead := true;
        }
      }
      SettleLevel(level);
    }

    /** The pass check, which records the best score, and the fail check of a level frame. */
    method SettleLevel(level: Level)
      modifies this, levelManager
      ensures var (r, pass) := LevelSettle(old(Current()), level.scoreTarget, level.timeLimit, levelTimeUsed);
        Current() == r &&
        levelManager.scoreFile ==
          (if pass then ScoresJson(Recorded(Stored(old(levelManager.scoreFile)), level.levelId, r.scores, levelTimeUsed))
           else old(levelManager.scoreFile))
      ensures levelManager.levelFile == old(levelManager.levelFile)
      ensures state == old(state) && prevState == old(prevState) && currentLevel == old(currentLevel)
      ensures evolution == old(evolution) && levelTimeUsed == old(levelTimeUsed)
    {
      if scores >= level.scoreTarget && !scoreSaved {
        levelManager.SaveLevelScore(level.levelId, scores, levelTimeUsed);
        scoreSaved := true;
      }
      if (isdead || levelTimeUsed >= level.timeLimit) && !scoreSaved {
        scoreSaved := true;
      }
    }

    /** One event of `handle_evolution_mode`: Space restarts a finished game, P pauses, the buttons act. */
    method EvolutionEvent(e: Input, mx: int, my: int, now: real) returns (quit: bool)
      requires Valid()
      modifies this, timeManager, evolution
      ensures Valid() && evolution == old(evolution)
      ensures quit <==> e.QuitInput?
      ensures e.QuitInput? || e.OtherInput? || e == KeyDown(EscapeKey) || e == KeyDown(OtherKey) ==>
        unchanged(this) && unchanged(timeManager) && (evolution != null ==> unchanged(evolution))
      ensures e == KeyDown(SpaceKey) ==>
        state == old(state) &&
        (old(isdead) ==>
          Current() == Attempt(0, false, false) && !timeManager.paused && timeManager.Reading(now) == 0.0 &&
          (evolution != null ==>
            evolution.currentStage == 0 && evolution.foodEaten == 0 && evolution.activeEffects == [])) &&
        (!old(isdead) ==> unchanged(this) && unchanged(timeManager) && (evolution != null ==> unchanged(evolution)))
      ensures e == KeyDown(PKey) ==>
        Current() == old(Current()) &&
        (old(state) == EvolutionMode ==> state == Paused && prevState == PlayLevel) &&
        (old(state) == Paused ==> state == old(prevState))
      ensures e.MouseDown? ==>
        Current() == old(Current()) && timeManager.Reading(now) == old(timeManager.Reading(now)) &&
        (ContainsPoint(backButton, mx, my) ==> state == MainMenu && prevState == EvolutionMode && timeManager.paused) &&
        (!ContainsPoint(backButton, mx, my) && ContainsPoint(pauseButton, mx, my) ==>
          state == Paused && prevState == ResumeTarget(old(state)) && timeManager.paused) &&
        (!ContainsPoint(backButton, mx, my) && !ContainsPoint(pauseButton, mx, my) ==>
          unchanged(this) && unchanged(timeManager))
    {
      match e {
        case QuitInput =>
          return true;
        case KeyDown(key) =>
          if key == SpaceKey && isdead {
            ResetEvolutionGame(now);
          }
          if key == PKey {
            PauseKey(EvolutionMode, now);
          }
        case MouseDown =>
          PlayButtons(mx, my, now, EvolutionMode, MainMenu);
        case OtherInput =>
      }
      return false;
    }

    /** The first lines of `handle_evolution_mode`: the ladder is created on first use. */
    method EnsureEvolution()
      requires Valid()
      modifies this
      ensures Valid() && evolution != null
      ensures old(evolution) != null ==> evolution == old(evolution)
      ensures old(evolution) == null ==>
        fresh(evolution) && evolution.currentStage == 0 && evolution.foodEaten == 0 && evolution.activeEffects == []
      ensures Current() == old(Current()) && state == old(state) && prevState == old(prevState)
    {
      if evolution == null {
        evolution := new Evolution.EvolutionMode();
      }
    }

    /**
     * The food branch of an evolution frame: one more food on the ladder,
     * and on evolving the new stage's ability applied a second time.
     */
    method EatOnLadder() returns (evolved: bool)
      requires Valid() && evolution != null
      modifies evolution
      ensures Valid()
      ensures evolved <==> EvolvesOnNext(old(evolution.currentStage), old(evolution.foodEaten))
      ensures evolution.currentStage == old(evolution.currentStage) + (if evolved then 1 else 0)
      ensures evolution.foodEaten == if evolved then 0 else old(evolution.foodEaten) + 1
      ensures evolution.activeEffects == old(evolution.activeEffects) + Gained(evolution.currentStage, evolved)
    {
      evolution.foodEaten := evolution.foodEaten + 1;
      evolved := evolution.CheckEvolution();
      if evolved {
        evolution.ApplySpecialAbility();
      }
    }

    /**
     * The play part of a `handle_evolution_mode` frame. Eating counts one
     * food on the ladder, and a successful evolution applies the new
     * stage's ability twice: once inside `check_evolution` and once more
     * here. While an invincibility effect is active the death flag is not
     * read afresh. The effects then count down.
     */
    method EvolutionTick(ateFood: bool, dead: bool, now: real, endTime: string) returns (evolved: bool)
      requires Valid() && evolution != null
      modifies this, scoreFile, evolution
      ensures Valid() && evolution == old(evolution)
      ensures evolved <==> !old(isdead) && ateFood && EvolvesOnNext(old(evolution.currentStage), old(evolution.foodEaten))
      ensures evolution.currentStage == old(evolution.currentStage) + (if evolved then 1 else 0)
      ensures evolution.foodEaten ==
        if evolved then 0 else old(evolution.foodEaten) + (if !old(isdead) && ateFood then 1 else 0)
      ensures var held := old(evolution.activeEffects) + Gained(evolution.currentStage, evolved);
        evolution.activeEffects == Evolution.Decay(held) &&
        Current() == FreeTick(old(Current()), ateFood,
                              if Evolution.AnyOfKind(held, Evolution.Invincible) then old(isdead) else dead)
      ensures scoreFile.lines == old(scoreFile.lines) +
        (if SavesScore(old(Current()), isdead) then [FormatRecord(scores, timeManager.GetElapsed(now), endTime)] else [])
      ensures state == old(state) && prevState == old(prevState) && currentLevel == old(currentLevel)
    {
      var ladder := evolution;
      evolved := false;
      if !isdead {
        scores := scores + 1;
        if ateFood {
          scores := scores + 50;
          evolved := EatOnLadder();
        }
      }
      ghost var held := ladder.activeEffects;
      assert held == old(ladder.activeEffects) + Gained(ladder.currentStage, evolved) by {
        if !evolved {
          assert Gained(ladder.currentStage, evolved) == [];
        }
      }
      EvolutionSettle(dead, now, endTime);
    }

    /**
     * The end of an evolution frame: the death flag is read afresh unless
     * an invincibility effect is active, the first dead frame writes the
     * score line, and the effects count down.
     */
    method EvolutionSettle(dead: bool, now: real, endTime: string)
      requires Valid() && evolution != null
      modifies this, scoreFile, evolution
      ensures Valid() && evolution == old(evolution)
      ensures isdead == if Evolution.AnyOfKind(old(evolution.activeEffects), Evolution.Invincible) then old(isdead) else dead
      ensures scores == old(scores) && scoreSaved == (old(scoreSaved) || isdead)
      ensures scoreFile.lines == old(scoreFile.lines) +
        (if SavesScore(old(Current()), isdead) then [FormatRecord(scores, timeManager.GetElapsed(now), endTime)] else [])
      ensures evolution.activeEffects == Evolution.Decay(old(evolution.activeEffects))
      ensures evolution.currentStage == old(evolution.currentStage) && evolution.foodEaten == old(evolution.foodEaten)
      ensures state == old(state) && prevState == old(prevState) && currentLevel == old(currentLevel)
    {
      if !evolution.HasEffect(Evolution.Invincible) {
        isdead := dead;
      }
      if isdead && !scoreSaved {
        scoreFile.SaveScore(FormatRecord(scores, timeManager.GetElapsed(now), endTime));
        scoreSaved := true;
      }
      evolution.UpdateEffects();
    }
  }
}
