/** The state of the chase game and how one frame of the main loop changes it:
    the events of the frame (start, restart, quit), then one simulation step
    while the game runs. */
module Chase {
  import opened Rules

  /** Where reset_game puts the balls: 50 units above and below the centre of the field. */
  const PLAYER_START := Vec(400.0, 250.0)
  const AI_START := Vec(400.0, 350.0)
  /** pygame's key code for R. */
  const K_R := 114

  /** The module-level state of main.py that the loop updates. */
  datatype Game = Game(
    player: Vec,
    ai: Vec,
    aiVelocity: Vec,
    aiAngle: real,
    angularVelocity: real,
    playerLead: bool,
    lastSwitchTime: int,
    gameStartTime: int,
    gameStarted: bool,
    points: real,
    nextSwitchDelay: int,
    gameOver: bool,
    gameOverMessage: string)

  datatype Phase = NotStarted | Running | Over

  function PhaseOf(g: Game): Phase {
    if !g.gameStarted then NotStarted else if g.gameOver then Over else Running
  }

  /** What every reachable state satisfies. */
  predicate Inv(g: Game) {
    && (g.gameOver ==> g.gameStarted)
    && (g.gameOver <==> g.gameOverMessage != "")
    && (g.gameOver ==> g.gameOverMessage == TOUCHED_MESSAGE || g.gameOverMessage == TOO_FAR_MESSAGE)
    && g.gameStartTime <= g.lastSwitchTime
    && FAST_SWITCH_MIN <= g.nextSwitchDelay <= SLOW_SWITCH_MAX
    && -MAX_ANGULAR_VELOCITY <= g.angularVelocity <= MAX_ANGULAR_VELOCITY
    && 0.0 <= g.points
  }

  /** Under the invariant the started and game-over flags describe exactly one
      of the three phases. */
  lemma PhaseOfFlags(g: Game)
    requires Inv(g)
    ensures PhaseOf(g) == NotStarted <==> !g.gameStarted && !g.gameOver
    ensures PhaseOf(g) == Running <==> g.gameStarted && !g.gameOver
    ensures PhaseOf(g) == Over <==> g.gameStarted && g.gameOver
  {}

  // ---------------------------------------------------------------------------
  // Reset

  /** The random draws of reset_game: the heading, uniform in [0, 2 pi], the
      angular velocity, uniform in [-1, 1], and the first switch delay. */
  datatype ResetDraws = ResetDraws(angle: real, angularVelocity: real, delay: DelayDraw)

  predicate IsResetDraws(d: ResetDraws) {
    0.0 <= d.angle <= 2.0 * PI && -1.0 <= d.angularVelocity <= 1.0 && IsDelayDraw(d.delay)
  }

  /** reset_game, together with the clearing of the game-over flag and message
      that follows each call of it. `now` is the tick count it reads. */
  function ResetGame(d: ResetDraws, now: int, trig: Trig): (g: Game)
    ensures g.player == PLAYER_START && g.ai == AI_START
    ensures g.playerLead && !g.gameStarted && !g.gameOver && g.gameOverMessage == ""
    ensures g.points == 0.0
    ensures g.lastSwitchTime == now && g.gameStartTime == now
    ensures g.aiAngle == d.angle && g.angularVelocity == d.angularVelocity
    ensures g.aiVelocity == Heading(trig, d.angle)
    ensures g.nextSwitchDelay == d.delay.pick
    ensures IsResetDraws(d) ==> Inv(g) && PhaseOf(g) == NotStarted
  {
    Game(PLAYER_START, AI_START, Heading(trig, d.angle), d.angle, d.angularVelocity,
         true, now, now, false, 0.0, d.delay.pick, false, "")
  }

  /** The first delay of a fresh state lies in the range its coin selects. */
  lemma ResetDrawsDelay(d: ResetDraws, now: int, trig: Trig)
    requires IsResetDraws(d)
    ensures var g := ResetGame(d, now, trig);
      && (d.delay.coin < FAST_SWITCH_CHANCE ==> FAST_SWITCH_MIN <= g.nextSwitchDelay <= FAST_SWITCH_MAX)
      && (FAST_SWITCH_CHANCE <= d.delay.coin ==> SLOW_SWITCH_MIN <= g.nextSwitchDelay <= SLOW_SWITCH_MAX)
  {
    DelayDrawBounds(d.delay);
  }

  // ---------------------------------------------------------------------------
  // Events

  datatype Event = Quit | MouseMotion | KeyDown(key: int)

  /** One event of the frame. A restart reads the clock at `now` and uses `draws`. */
  function OnEvent(g: Game, e: Event, now: int, draws: ResetDraws, trig: Trig): Game {
    match e
    case Quit => g
    case MouseMotion => if !g.gameStarted then g.(gameStarted := true) else g
    case KeyDown(key) => if key == K_R && g.gameOver then ResetGame(draws, now, trig) else g
  }

  /** The events of one frame, in order. */
  function OnEvents(g: Game, events: seq<Event>, now: int, draws: ResetDraws, trig: Trig): Game
    decreases |events|
  {
    if events == [] then g
    else OnEvent(OnEvents(g, events[..|events| - 1], now, draws, trig), events[|events| - 1], now, draws, trig)
  }

  lemma {:induction false} OnEventsAppend(g: Game, a: seq<Event>, b: seq<Event>, now: int, draws: ResetDraws, trig: Trig)
    ensures OnEvents(g, a + b, now, draws, trig) == OnEvents(OnEvents(g, a, now, draws, trig), b, now, draws, trig)
    decreases |b|
  {
    if b == [] {
      assert a + b == a;
    } else {
      var b' := b[..|b| - 1];
      assert (a + b)[..|a + b| - 1] == a + b';
      assert (a + b)[|a + b| - 1] == b[|b| - 1];
      OnEventsAppend(g, a, b', now, draws, trig);
    }
  }

  /** R restarts only a lost game: otherwise the events change at most the
      started flag, which any mouse motion sets. */
  lemma {:induction false} EventsWhileNotOver(g: Game, events: seq<Event>, now: int, draws: ResetDraws, trig: Trig)
    requires !g.gameOver
    ensures OnEvents(g, events, now, draws, trig) == g.(gameStarted := g.gameStarted || MouseMotion in events)
    decreases |events|
  {
    if events != [] {
      var init := events[..|events| - 1];
      EventsWhileNotOver(g, init, now, draws, trig);
      assert events == init + [events[|events| - 1]];
      assert MouseMotion in events <==> MouseMotion in init || events[|events| - 1] == MouseMotion;
    }
  }

  /** While the game is lost, events other than R change nothing. */
  lemma {:induction false} EventsWhileOverWithoutR(g: Game, events: seq<Event>, now: int, draws: ResetDraws, trig: Trig)
    requires Inv(g) && g.gameOver && KeyDown(K_R) !in events
    ensures OnEvents(g, events, now, draws, trig) == g
    decreases |events|
  {
    if events != [] {
      var init := events[..|events| - 1];
      assert events == init + [events[|events| - 1]];
      EventsWhileOverWithoutR(g, init, now, draws, trig);
    }
  }

  /** While the game is lost, the first R restarts it; the frame's later events
      can then only start the new game by a mouse motion. */
  lemma EventsRestartOnR(g: Game, events: seq<Event>, i: nat, now: int, draws: ResetDraws, trig: Trig)
    requires Inv(g) && g.gameOver
    requires i < |events| && events[i] == KeyDown(K_R) && KeyDown(K_R) !in events[..i]
    ensures OnEvents(g, events, now, draws, trig)
         == ResetGame(draws, now, trig).(gameStarted := MouseMotion in events[i + 1..])
  {
    var restarted := ResetGame(draws, now, trig);
    assert events == events[..i] + [events[i]] + events[i + 1..];
    OnEventsAppend(g, events[..i] + [events[i]], events[i + 1..], now, draws, trig);
    OnEventsAppend(g, events[..i], [events[i]], now, draws, trig);
    EventsWhileOverWithoutR(g, events[..i], now, draws, trig);
    assert OnEvents(g, [], now, draws, trig) == g;
    assert OnEvents(g, [events[i]], now, draws, trig) == OnEvent(g, events[i], now, draws, trig);
    EventsWhileNotOver(restarted, events[i + 1..], now, draws, trig);
  }

  lemma {:induction false} EventsPreserveInv(g: Game, events: seq<Event>, now: int, draws: ResetDraws, trig: Trig)
    requires Inv(g) && IsResetDraws(draws)
    ensures Inv(OnEvents(g, events, now, draws, trig))
    decreases |events|
  {
    if events != [] {
      EventsPreserveInv(g, events[..|events| - 1], now, draws, trig);
    }
  }

  // ---------------------------------------------------------------------------
  // One step of the simulation

  /** The inputs of one frame: dt in seconds, the pointer, the tick count, the
      delay drawn should the lead flip, the angular perturbation and `dist`,
      the length of the vector from the AI to the pointer. */
  datatype Tick = Tick(dt: real, pointer: Vec, now: int, delay: DelayDraw, jitter: real, dist: real)

  /** `dist` is the length of the vector from the AI to the pointer. Step is
      defined for any `dist`; what is proved about pursuit assumes this. */
  predicate Measured(g: Game, t: Tick) {
    0.0 <= t.dist && t.dist * t.dist == DistSq(g.ai, t.pointer)
  }

  /** What the driver and the random generator can supply: a non-negative frame
      time, a clock that does not run backwards and draws in their ranges. */
  predicate TickFits(g: Game, t: Tick) {
    && Measured(g, t)
    && 0.0 <= t.dt
    && g.lastSwitchTime <= t.now
    && IsDelayDraw(t.delay)
    && -0.5 <= t.jitter <= 0.5
  }

  /** main.py:148-155: the lead flips once the drawn delay has passed. */
  function SwitchPhase(g: Game, now: int, delay: DelayDraw): Game {
    var sw := LeadSwitch(Switch(g.playerLead, g.lastSwitchTime, g.nextSwitchDelay), now, delay);
    g.(playerLead := sw.lead, lastSwitchTime := sw.lastSwitchTime, nextSwitchDelay := sw.nextSwitchDelay)
  }

  /** main.py:163-173: the AI pursues the player while the player leads, and
      wanders otherwise. */
  function MovePhase(g: Game, speed: real, t: Tick, trig: Trig): Game {
    if g.playerLead then g.(ai := Pursue(g.ai, g.player, speed, t.dist))
    else
      var w := MoveAiSmooth(g.ai, speed, g.aiAngle, g.angularVelocity, t.dt, t.jitter, trig);
      g.(ai := w.pos, aiVelocity := w.velocity, aiAngle := w.angle, angularVelocity := w.angularVelocity)
  }

  /** main.py:181: the game-over test on the moved balls. */
  function JudgePhase(g: Game, maxDistance: real): Game {
    var verdict := CheckGameOver(g.player, g.ai, maxDistance);
    g.(gameOver := verdict.over, gameOverMessage := verdict.message)
  }

  /** The part of a frame after the events: nothing moves before the game has
      started or once it is over; otherwise the lead switch, the player jump to
      the pointer, the AI move, the score and the game-over test. */
  function Step(g: Game, t: Tick, trig: Trig): Game
  {
    if !g.gameStarted || g.gameOver then g
    else
      var elapsed := ElapsedSeconds(t.now, g.gameStartTime);
      var multiplier := SpeedMultiplier(elapsed);
      var switched := SwitchPhase(g, t.now, t.delay).(player := t.pointer);
      var moved := MovePhase(switched, BASE_AI_SPEED * multiplier, t, trig);
      JudgePhase(moved.(points := Accrue(moved.points, multiplier, t.dt)), MaxDistance(elapsed))
  }

  /** Before the first mouse motion, and after a loss, a step changes nothing. */
  lemma StepFrozenUnlessRunning(g: Game, t: Tick, trig: Trig)
    requires PhaseOf(g) != Running
    ensures Step(g, t, trig) == g
  {}

  /** A running step keeps the run clock and the started flag, and puts the
      player where the pointer is. */
  lemma StepRunning(g: Game, t: Tick, trig: Trig)
    requires PhaseOf(g) == Running
    ensures var g' := Step(g, t, trig);
      g'.gameStarted && g'.gameStartTime == g.gameStartTime && g'.player == t.pointer
  {}

  /** The lead flips exactly when the drawn delay has been exceeded; a flip
      restarts the timer at `now` with the new draw, and otherwise the timer stays. */
  lemma StepLeadSwitch(g: Game, t: Tick, trig: Trig)
    ensures var g' := Step(g, t, trig);
      var due := PhaseOf(g) == Running && t.now - g.lastSwitchTime > g.nextSwitchDelay;
      && (g'.playerLead != g.playerLead <==> due)
      && (due ==> g'.lastSwitchTime == t.now && g'.nextSwitchDelay == t.delay.pick)
      && (!due ==> g'.lastSwitchTime == g.lastSwitchTime && g'.nextSwitchDelay == g.nextSwitchDelay)
  {}

  /** The score never drops, and it grows while the game runs and time passes. */
  lemma StepPointsNonDecreasing(g: Game, t: Tick, trig: Trig)
    requires Inv(g) && TickFits(g, t)
    ensures g.points <= Step(g, t, trig).points
    ensures PhaseOf(g) == Running && 0.0 < t.dt ==> g.points < Step(g, t, trig).points
  {}

  /** While the player leads after the switch, the AI takes the pursuit step
      toward the pointer at the frame's AI speed and keeps its heading. */
  lemma StepPursuitMoves(g: Game, t: Tick, trig: Trig)
    requires PhaseOf(g) == Running && SwitchPhase(g, t.now, t.delay).playerLead
    ensures var g' := Step(g, t, trig);
      && g'.ai == Pursue(g.ai, t.pointer, AiSpeed(ElapsedSeconds(t.now, g.gameStartTime)), t.dist)
      && g'.aiVelocity == g.aiVelocity && g'.aiAngle == g.aiAngle && g'.angularVelocity == g.angularVelocity
  {}

  /** In pursuit the AI closes the gap by the frame's AI speed without passing
      the player; at zero distance it stays where it is. */
  lemma StepPursuit(g: Game, t: Tick, trig: Trig)
    requires Measured(g, t) && g.gameStartTime <= t.now && PhaseOf(g) == Running
    requires SwitchPhase(g, t.now, t.delay).playerLead
    ensures var g' := Step(g, t, trig);
      var speed := AiSpeed(ElapsedSeconds(t.now, g.gameStartTime));
      && (t.dist == 0.0 ==> g'.ai == g.ai)
      && (0.0 < t.dist ==> DistSq(g'.ai, g'.player) == Max(0.0, t.dist - speed) * Max(0.0, t.dist - speed))
  {
    var speed := AiSpeed(ElapsedSeconds(t.now, g.gameStartTime));
    StepPursuitMoves(g, t, trig);
    StepRunning(g, t, trig);
    PursueDistances(g.ai, t.pointer, speed, t.dist);
  }

  /** Out of pursuit the AI takes the wander step. */
  lemma StepWander(g: Game, t: Tick, trig: Trig)
    requires PhaseOf(g) == Running
    requires !SwitchPhase(g, t.now, t.delay).playerLead
    ensures var g' := Step(g, t, trig);
      var w := MoveAiSmooth(g.ai, AiSpeed(ElapsedSeconds(t.now, g.gameStartTime)),
                            g.aiAngle, g.angularVelocity, t.dt, t.jitter, trig);
      g'.ai == w.pos && g'.aiVelocity == w.velocity && g'.aiAngle == w.angle && g'.angularVelocity == w.angularVelocity
  {}

  /** The game-over flag and message of a running step are the verdict of
      check_game_over on the moved balls and the current threshold. */
  lemma StepJudges(g: Game, t: Tick, trig: Trig)
    requires PhaseOf(g) == Running
    ensures var g' := Step(g, t, trig);
      Verdict(g'.gameOver, g'.gameOverMessage)
        == CheckGameOver(g'.player, g'.ai, MaxDistance(ElapsedSeconds(t.now, g.gameStartTime)))
  {}

  /** A running step ends the game exactly when the moved balls touch or are
      farther apart than the current threshold, "touched" taking priority;
      `d` is their distance. */
  lemma StepGameOver(g: Game, t: Tick, trig: Trig, d: real)
    requires PhaseOf(g) == Running
    requires 0.0 <= d && d * d == DistSq(Step(g, t, trig).player, Step(g, t, trig).ai)
    ensures var g' := Step(g, t, trig);
      var maxDistance := MaxDistance(ElapsedSeconds(t.now, g.gameStartTime));
      && (g'.gameOver && g'.gameOverMessage == TOUCHED_MESSAGE <==> d < MIN_DISTANCE)
      && (g'.gameOver && g'.gameOverMessage == TOO_FAR_MESSAGE <==> MIN_DISTANCE <= d && d > maxDistance)
      && (!g'.gameOver <==> MIN_DISTANCE <= d <= maxDistance)
  {
    var g' := Step(g, t, trig);
    var maxDistance := MaxDistance(ElapsedSeconds(t.now, g.gameStartTime));
    StepJudges(g, t, trig);
    CheckGameOverByDistance(g'.player, g'.ai, maxDistance, d);
  }

  lemma StepPreservesInv(g: Game, t: Tick, trig: Trig)
    requires Inv(g) && TickFits(g, t)
    ensures Inv(Step(g, t, trig))
  {}

  /** A frame of a started game at the reset tick itself (elapsed 0), with
      the pointer at the left edge, 400 units from the AI: no switch is due,
      and the AI moves 2 units, the base speed, toward the pointer. */
  lemma FirstFrameMovesBaseSpeed(d: ResetDraws, now: int, trig: Trig, jitter: real, dt: real)
    requires IsResetDraws(d)
    ensures var g := ResetGame(d, now, trig).(gameStarted := true);
      var g' := Step(g, Tick(dt, Vec(0.0, 350.0), now, d.delay, jitter, 400.0), trig);
      g'.playerLead && g'.ai == Vec(398.0, 350.0) && g'.player == Vec(0.0, 350.0)
  {
    var g := ResetGame(d, now, trig).(gameStarted := true);
    var t := Tick(dt, Vec(0.0, 350.0), now, d.delay, jitter, 400.0);
    DelayDrawBounds(d.delay);
    StepLeadSwitch(g, t, trig);
    assert AiSpeed(ElapsedSeconds(now, now)) == 2.0;
    StepPursuitMoves(g, t, trig);
    StepRunning(g, t, trig);
    PursueFromStart();
  }

  lemma PursueFromStart()
    ensures Pursue(AI_START, Vec(0.0, 350.0), 2.0, 400.0) == Vec(398.0, 350.0)
  {
    assert ScaleToLength(Vec(-400.0, 0.0), 2.0, 400.0) == Vec(-2.0, 0.0);
  }

  /** The run clock and the switch timer start at the reset, not at the first
      mouse motion: a game started 9 s after its reset flips the lead in its
      first frame, at a speed multiplier of 1.45. */
  lemma WaitBeforeStartCounts(d: ResetDraws, now: int, trig: Trig, t: Tick)
    requires IsResetDraws(d) && t.now == now + 9000
    ensures var g := ResetGame(d, now, trig).(gameStarted := true);
      && !Step(g, t, trig).playerLead
      && SpeedMultiplier(ElapsedSeconds(t.now, g.gameStartTime)) == 1.45
  {
    var g := ResetGame(d, now, trig).(gameStarted := true);
    DelayDrawBounds(d.delay);
    StepLeadSwitch(g, t, trig);
  }

  /** An AI within two radii of the new pointer, with the player leading and
      no switch due: the step ends the game with "touched". */
  lemma TouchingEndsGame(g: Game, t: Tick, trig: Trig)
    requires Measured(g, t) && g.gameStartTime <= t.now && PhaseOf(g) == Running
    requires g.playerLead && !SwitchDue(Switch(g.playerLead, g.lastSwitchTime, g.nextSwitchDelay), t.now)
    requires t.dist < MIN_DISTANCE
    ensures Step(g, t, trig).gameOver && Step(g, t, trig).gameOverMessage == TOUCHED_MESSAGE
  {
    var elapsed := ElapsedSeconds(t.now, g.gameStartTime);
    var r := Pursue(g.ai, t.pointer, AiSpeed(elapsed), t.dist);
    StepLeadSwitch(g, t, trig);
    StepPursuitMoves(g, t, trig);
    StepRunning(g, t, trig);
    StepJudges(g, t, trig);
    PursueStaysWithin(g.ai, t.pointer, AiSpeed(elapsed), t.dist, MIN_DISTANCE);
    CheckGameOverTouching(t.pointer, r, MaxDistance(elapsed));
  }

  // ---------------------------------------------------------------------------
  // The state as the main loop holds it

  class GameState {
    var player: Vec
    var ai: Vec
    var aiVelocity: Vec
    var aiAngle: real
    var angularVelocity: real
    var playerLead: bool
    var lastSwitchTime: int
    var gameStartTime: int
    var gameStarted: bool
    var points: real
    var nextSwitchDelay: int
    var gameOver: bool
    var gameOverMessage: string

    function Snapshot(): Game
      reads this
    {
      Game(player, ai, aiVelocity, aiAngle, angularVelocity, playerLead, lastSwitchTime,
           gameStartTime, gameStarted, points, nextSwitchDelay, gameOver, gameOverMessage)
    }

    ghost predicate Valid()
      reads this
    {
      Inv(Snapshot())
    }

    /** The state before the loop starts: a reset and a cleared game-over flag. */
    constructor (now: int, draws: ResetDraws, trig: Trig)
      requires IsResetDraws(draws)
      ensures Snapshot() == ResetGame(draws, now, trig)
      ensures Valid()
    {
      var g := ResetGame(draws, now, trig);
      player, ai, aiVelocity, aiAngle, angularVelocity := g.player, g.ai, g.aiVelocity, g.aiAngle, g.angularVelocity;
      playerLead, lastSwitchTime, gameStartTime, gameStarted := g.playerLead, g.lastSwitchTime, g.gameStartTime, g.gameStarted;
      points, nextSwitchDelay, gameOver, gameOverMessage := g.points, g.nextSwitchDelay, g.gameOver, g.gameOverMessage;
    }

    /** Replace the whole state by a fresh one from reset_game and clear the game-over flag. */
    method Restart(now: int, draws: ResetDraws, trig: Trig)
      modifies this
      ensures Snapshot() == ResetGame(draws, now, trig)
    {
      var g := ResetGame(draws, now, trig);
      player, ai, aiVelocity, aiAngle, angularVelocity := g.player, g.ai, g.aiVelocity, g.aiAngle, g.angularVelocity;
      playerLead, lastSwitchTime, gameStartTime, gameStarted := g.playerLead, g.lastSwitchTime, g.gameStartTime, g.gameStarted;
      points, nextSwitchDelay := g.points, g.nextSwitchDelay;
      gameOver := false;
      gameOverMessage := "";
    }

    /** The event loop of one frame; `quit` tells whether a Quit event came. */
    method HandleEvents(events: seq<Event>, now: int, draws: ResetDraws, trig: Trig) returns (quit: bool)
      modifies this
      ensures Snapshot() == OnEvents(old(Snapshot()), events, now, draws, trig)
      ensures quit <==> Quit in events
      ensures old(Valid()) && IsResetDraws(draws) ==> Valid()
    {
      quit := false;
      for i := 0 to |events|
        invariant Snapshot() == OnEvents(old(Snapshot()), events[..i], now, draws, trig)
        invariant quit <==> Quit in events[..i]
      {
        var event := events[i];
        if event == Quit {
          quit := true;
        }
        if event == MouseMotion && !gameStarted {
          gameStarted := true;
        }
        if event.KeyDown? && event.key == K_R && gameOver {
          Restart(now, draws, trig);
        }
        assert events[..i + 1][..i] == events[..i];
        assert events[..i + 1] == events[..i] + [event];
      }
      assert events[..|events|] == events;
      if old(Valid()) && IsResetDraws(draws) {
        EventsPreserveInv(old(Snapshot()), events, now, draws, trig);
      }
    }

    /** main.py:148-155: flip the lead once the drawn delay has passed, and draw the next delay. */
    method SwitchLead(currentTime: int, delay: DelayDraw)
      modifies this
      ensures Snapshot() == SwitchPhase(old(Snapshot()), currentTime, delay)
    {
      if currentTime - lastSwitchTime > nextSwitchDelay {
        playerLead := !playerLead;
        lastSwitchTime := currentTime;
        nextSwitchDelay := delay.pick;
      }
    }

    /** main.py:163-173: the AI pursues the player while the player leads, and
        wanders otherwise. */
    method MoveAi(aiSpeed: real, tick: Tick, trig: Trig)
      modifies this
      ensures Snapshot() == MovePhase(old(Snapshot()), aiSpeed, tick, trig)
    {
      if playerLead {
        var direction := player.Minus(ai);
        var dist := tick.dist;
        if dist > 0.0 {
          direction := ScaleToLength(direction, Min(aiSpeed, dist), dist);
          ai := ai.Plus(direction);
        }
      } else {
        var w := MoveAiSmooth(ai, aiSpeed, aiAngle, angularVelocity, tick.dt, tick.jitter, trig);
        ai, aiVelocity, aiAngle, angularVelocity := w.pos, w.velocity, w.angle, w.angularVelocity;
      }
    }

    /** main.py:175: points accrue with the speed multiplier and the frame time. */
    method Score(speedMultiplier: real, dt: real)
      modifies this
      ensures Snapshot() == old(Snapshot()).(points := Accrue(old(points), speedMultiplier, dt))
    {
      points := points + speedMultiplier * dt * POINTS_PER_SECOND;
    }

    /** main.py:181: end the game when the balls touch or drift too far apart. */
    method Judge(maxDistance: real)
      modifies this
      ensures Snapshot() == JudgePhase(old(Snapshot()), maxDistance)
    {
      var verdict := CheckGameOver(player, ai, maxDistance);
      gameOver, gameOverMessage := verdict.over, verdict.message;
    }

    /** The rest of the frame: nothing before the start, nothing after a loss,
        otherwise one simulation step. */
    method Advance(tick: Tick, trig: Trig)
      modifies this
      ensures Snapshot() == Step(old(Snapshot()), tick, trig)
      ensures old(Valid()) && TickFits(old(Snapshot()), tick) ==> Valid()
    {
      ghost var before := Snapshot();
      if !gameStarted {
        return;
      }
      if !gameOver {
        RunStep(tick, trig);
      }
      if old(Valid()) && TickFits(before, tick) {
        StepPreservesInv(before, tick, trig);
      }
    }

    /** main.py:140-181: one step of a running game. */
    method RunStep(tick: Tick, trig: Trig)
      requires gameStarted && !gameOver
      modifies this
      ensures Snapshot() == Step(old(Snapshot()), tick, trig)
    {
      var currentTime := tick.now;
      var elapsedSeconds := ElapsedSeconds(currentTime, gameStartTime);
      var maxDistance := MaxDistance(elapsedSeconds);

      SwitchLead(currentTime, tick.delay);

      var speedMultiplier := SpeedMultiplier(elapsedSeconds);
      var aiSpeed := BASE_AI_SPEED * speedMultiplier;

      player := tick.pointer;

      MoveAi(aiSpeed, tick, trig);

      Score(speedMultiplier, tick.dt);

      Judge(maxDistance);
    }

    /** One pass of the main loop: the events, then the step. `running` is false
        once a Quit event has come. */
    method Frame(events: seq<Event>, resetNow: int, draws: ResetDraws, tick: Tick, trig: Trig) returns (running: bool)
      modifies this
      ensures Snapshot() == Step(OnEvents(old(Snapshot()), events, resetNow, draws, trig), tick, trig)
      ensures running <==> Quit !in events
      ensures (old(Valid()) && IsResetDraws(draws)
               && TickFits(OnEvents(old(Snapshot()), events, resetNow, draws, trig), tick)) ==> Valid()
    {
      var quit := HandleEvents(events, resetNow, draws, trig);
      running := !quit;
      ghost var afterEvents := Snapshot();
      Advance(tick, trig);
      if old(Valid()) && IsResetDraws(draws) && TickFits(afterEvents, tick) {
        StepPreservesInv(afterEvents, tick, trig);
      }
    }
  }
}
