/** The per-frame rules of the chase game: the difficulty ramps, the lead-switch
    timer, the pursuit and wander steps of the AI ball and the game-over test.
    Positions and times are exact reals; square roots, cosine and sine are
    supplied by the caller. */
module Rules {

  // Field and rule constants of main.py.
  const WIDTH := 800.0
  const HEIGHT := 600.0
  const BALL_RADIUS := 20.0
  const INITIAL_MAX_DISTANCE := 300.0
  const MIN_MAX_DISTANCE := 150.0
  const MIN_DISTANCE := BALL_RADIUS * 2.0
  const BASE_AI_SPEED := 2.0
  const MAX_SPEED_MULTIPLIER := 5.0
  const DISTANCE_SHRINK_DURATION := 120.0
  const MAX_ANGULAR_VELOCITY := 1.5
  const POINTS_PER_SECOND := 10.0
  /** math.pi's printed value. */
  const PI := 3.141592653589793

  // The two ranges of the lead-switch delay, in milliseconds, and the chance of the fast one.
  const FAST_SWITCH_CHANCE := 0.4
  const FAST_SWITCH_MIN := 1000
  const FAST_SWITCH_MAX := 3000
  const SLOW_SWITCH_MIN := 3000
  const SLOW_SWITCH_MAX := 8000

  const TOUCHED_MESSAGE := "Balls touched! Game Over."
  const TOO_FAR_MESSAGE := "Balls too far apart! Game Over."

  function Min(a: real, b: real): real { if a <= b then a else b }
  function Max(a: real, b: real): real { if a >= b then a else b }

  /** A point or a displacement of the field. */
  datatype Vec = Vec(x: real, y: real) {
    function Plus(v: Vec): Vec { Vec(x + v.x, y + v.y) }
    function Minus(v: Vec): Vec { Vec(x - v.x, y - v.y) }
    function Scale(k: real): Vec { Vec(k * x, k * y) }
    function LengthSq(): real { x * x + y * y }
  }

  /** The square of the Euclidean distance from a to b. */
  function DistSq(a: Vec, b: Vec): real { b.Minus(a).LengthSq() }

  lemma DistSqSymmetric(a: Vec, b: Vec)
    ensures DistSq(a, b) == DistSq(b, a)
  {
    var dx, dy := b.x - a.x, b.y - a.y;
    assert (-dx) * (-dx) == dx * dx && (-dy) * (-dy) == dy * dy;
  }

  /** Cosine and sine, which the model takes as given functions. */
  datatype Trig = Trig(cos: real -> real, sin: real -> real)

  /** The unit heading vector of an angle. */
  function Heading(trig: Trig, angle: real): Vec { Vec(trig.cos(angle), trig.sin(angle)) }

  // ---------------------------------------------------------------------------
  // Difficulty ramps

  /** Seconds since the start of the run, from two millisecond tick counts. */
  function ElapsedSeconds(now: int, start: int): (r: real)
    ensures start <= now ==> 0.0 <= r
  {
    (now - start) as real / 1000.0
  }

  /** The largest separation allowed before the game is lost: it shrinks
      linearly from 300 to 150 over the first 120 seconds and then holds. */
  function MaxDistance(elapsed: real): (r: real)
    ensures DISTANCE_SHRINK_DURATION <= elapsed ==> r == MIN_MAX_DISTANCE
    ensures 0.0 <= elapsed ==> MIN_MAX_DISTANCE <= r <= INITIAL_MAX_DISTANCE
    ensures MIN_MAX_DISTANCE <= r
  {
    if elapsed < DISTANCE_SHRINK_DURATION then
      INITIAL_MAX_DISTANCE - ((INITIAL_MAX_DISTANCE - MIN_MAX_DISTANCE) * (elapsed / DISTANCE_SHRINK_DURATION))
    else
      MIN_MAX_DISTANCE
  }

  lemma MaxDistanceAtStart()
    ensures MaxDistance(0.0) == INITIAL_MAX_DISTANCE
  {}

  lemma MaxDistanceAtMidpoint()
    ensures MaxDistance(60.0) == 225.0
  {}

  lemma MaxDistanceAfterRamp()
    ensures MaxDistance(130.0) == MIN_MAX_DISTANCE
  {}

  /** Within the ramp the threshold loses 1.25 units per second. */
  lemma MaxDistanceLinear(e1: real, e2: real)
    requires 0.0 <= e1 <= DISTANCE_SHRINK_DURATION && 0.0 <= e2 <= DISTANCE_SHRINK_DURATION
    ensures MaxDistance(e1) - MaxDistance(e2) == 1.25 * (e2 - e1)
  {}

  lemma MaxDistanceNonIncreasing(e1: real, e2: real)
    requires e1 <= e2
    ensures MaxDistance(e2) <= MaxDistance(e1)
  {}

  /** The speed multiplier min(1 + t/20, 5). */
  function SpeedMultiplier(elapsed: real): (r: real)
    ensures r <= MAX_SPEED_MULTIPLIER
    ensures 0.0 <= elapsed ==> 1.0 <= r
    ensures 80.0 <= elapsed ==> r == MAX_SPEED_MULTIPLIER
    ensures elapsed <= 80.0 ==> r == 1.0 + elapsed / 20.0
  {
    Min(1.0 + elapsed / 20.0, MAX_SPEED_MULTIPLIER)
  }

  lemma SpeedMultiplierNonDecreasing(e1: real, e2: real)
    requires e1 <= e2
    ensures SpeedMultiplier(e1) <= SpeedMultiplier(e2)
  {}

  /** How far the AI may move in one frame. */
  function AiSpeed(elapsed: real): (r: real)
    ensures 0.0 <= elapsed ==> 2.0 <= r <= 10.0
  {
    BASE_AI_SPEED * SpeedMultiplier(elapsed)
  }

  lemma AiSpeedNonDecreasing(e1: real, e2: real)
    requires e1 <= e2
    ensures AiSpeed(e1) <= AiSpeed(e2)
  {}

  // ---------------------------------------------------------------------------
  // Lead-switch timer

  /** One draw of the next switch delay: `coin` stands for random.random() and
      `pick` for what random.randint returns in the range the coin selects. */
  datatype DelayDraw = DelayDraw(coin: real, pick: int)

  /** The inclusive randint bounds that the coin selects. */
  function DelayRange(coin: real): (r: (int, int))
    ensures r == (FAST_SWITCH_MIN, FAST_SWITCH_MAX) <==> coin < FAST_SWITCH_CHANCE
    ensures r == (SLOW_SWITCH_MIN, SLOW_SWITCH_MAX) <==> FAST_SWITCH_CHANCE <= coin
  {
    if coin < FAST_SWITCH_CHANCE then (FAST_SWITCH_MIN, FAST_SWITCH_MAX) else (SLOW_SWITCH_MIN, SLOW_SWITCH_MAX)
  }

  /** What the random generator can produce. */
  predicate IsDelayDraw(d: DelayDraw) {
    0.0 <= d.coin < 1.0 && DelayRange(d.coin).0 <= d.pick <= DelayRange(d.coin).1
  }

  lemma DelayDrawBounds(d: DelayDraw)
    requires IsDelayDraw(d)
    ensures FAST_SWITCH_MIN <= d.pick <= SLOW_SWITCH_MAX
    ensures d.coin < FAST_SWITCH_CHANCE ==> FAST_SWITCH_MIN <= d.pick <= FAST_SWITCH_MAX
    ensures FAST_SWITCH_CHANCE <= d.coin ==> SLOW_SWITCH_MIN <= d.pick <= SLOW_SWITCH_MAX
  {}

  /** The lead flag with the time of its last flip and the delay before the next one. */
  datatype Switch = Switch(lead: bool, lastSwitchTime: int, nextSwitchDelay: int)

  predicate SwitchDue(s: Switch, now: int) {
    now - s.lastSwitchTime > s.nextSwitchDelay
  }

  /** The lead-switch rule of one frame at tick `now`. */
  function LeadSwitch(s: Switch, now: int, draw: DelayDraw): (r: Switch)
    ensures r.lead != s.lead <==> SwitchDue(s, now)
    ensures SwitchDue(s, now) ==> r.lastSwitchTime == now && r.nextSwitchDelay == draw.pick
    ensures !SwitchDue(s, now) ==> r == s
  {
    if SwitchDue(s, now) then Switch(!s.lead, now, draw.pick) else s
  }

  /** After a flip with a delay the generator can draw, the next flip needs more
      than a second to pass: in particular no two flips share a tick. */
  lemma FlipsAreSpaced(s: Switch, now: int, draw: DelayDraw, later: int)
    requires IsDelayDraw(draw) && SwitchDue(s, now)
    requires SwitchDue(LeadSwitch(s, now, draw), later)
    ensures later - now > FAST_SWITCH_MIN
  {}

  // ---------------------------------------------------------------------------
  // Pursuit step

  /** pygame's scale_to_length: v rescaled to the given length, where `norm`
      is the (nonzero) length of v. */
  function ScaleToLength(v: Vec, length: real, norm: real): Vec
    requires 0.0 < norm
  {
    v.Scale(length / norm)
  }

  /** Rescaled to the given length, a vector of length `norm` has exactly that length. */
  lemma ScaleToLengthHasLength(v: Vec, length: real, norm: real)
    requires 0.0 < norm && norm * norm == v.LengthSq()
    ensures ScaleToLength(v, length, norm).LengthSq() == length * length
  {
    var k := length / norm;
    assert k * norm == length;
    calc {
      ScaleToLength(v, length, norm).LengthSq();
      (k * v.x) * (k * v.x) + (k * v.y) * (k * v.y);
      k * k * v.LengthSq();
      (k * norm) * (k * norm);
    }
  }

  /** The AI moves toward the player by min(speed, dist), where dist is the
      length of the AI-to-player vector. */
  function Pursue(ai: Vec, player: Vec, speed: real, dist: real): Vec
  {
    if dist > 0.0 then ai.Plus(ScaleToLength(player.Minus(ai), Min(speed, dist), dist)) else ai
  }

  /** At positive distance the pursuit step covers min(speed, dist) and leaves
      max(0, dist - speed) to go; at distance zero the AI stays put. */
  lemma PursueDistances(ai: Vec, player: Vec, speed: real, dist: real)
    requires 0.0 <= dist && dist * dist == DistSq(ai, player)
    ensures dist == 0.0 ==> Pursue(ai, player, speed, dist) == ai
    ensures 0.0 < dist && 0.0 <= speed ==>
      && DistSq(ai, Pursue(ai, player, speed, dist)) == Min(speed, dist) * Min(speed, dist)
      && DistSq(Pursue(ai, player, speed, dist), player) == Max(0.0, dist - speed) * Max(0.0, dist - speed)
  {
    if dist > 0.0 {
      PursueMoving(ai, player, speed, dist);
    }
  }

  lemma PursueMoving(ai: Vec, player: Vec, speed: real, dist: real)
    requires 0.0 < dist && dist * dist == DistSq(ai, player)
    ensures DistSq(ai, Pursue(ai, player, speed, dist)) == Min(speed, dist) * Min(speed, dist)
    ensures DistSq(Pursue(ai, player, speed, dist), player) == (dist - Min(speed, dist)) * (dist - Min(speed, dist))
    ensures 0.0 <= speed ==> Max(0.0, dist - speed) == dist - Min(speed, dist)
  {
    var step := Min(speed, dist);
    var k := step / dist;
    assert Pursue(ai, player, speed, dist) == ai.Plus(player.Minus(ai).Scale(k));
    AlongSegment(ai, player, k);
    SquaredRatio(step, dist);
  }

  /** Moving a fraction k along the segment from a to b. */
  lemma AlongSegment(a: Vec, b: Vec, k: real)
    ensures DistSq(a, a.Plus(b.Minus(a).Scale(k))) == k * k * DistSq(a, b)
    ensures DistSq(a.Plus(b.Minus(a).Scale(k)), b) == (1.0 - k) * (1.0 - k) * DistSq(a, b)
  {
    var dx, dy := b.x - a.x, b.y - a.y;
    var p := a.Plus(b.Minus(a).Scale(k));
    assert p.x - a.x == k * dx && p.y - a.y == k * dy;
    assert b.x - p.x == (1.0 - k) * dx && b.y - p.y == (1.0 - k) * dy;
    assert (k * dx) * (k * dx) + (k * dy) * (k * dy) == k * k * (dx * dx + dy * dy);
    assert ((1.0 - k) * dx) * ((1.0 - k) * dx) + ((1.0 - k) * dy) * ((1.0 - k) * dy)
        == (1.0 - k) * (1.0 - k) * (dx * dx + dy * dy);
  }

  lemma SquaredRatio(s: real, d: real)
    requires d > 0.0
    ensures (s / d) * (s / d) * (d * d) == s * s
    ensures (1.0 - s / d) * (1.0 - s / d) * (d * d) == (d - s) * (d - s)
  {
    var k := s / d;
    assert k * d == s;
    calc {
      k * k * (d * d);
      (k * d) * (k * d);
      s * s;
    }
    calc {
      (1.0 - k) * (1.0 - k) * (d * d);
      ((1.0 - k) * d) * ((1.0 - k) * d);
      (d - k * d) * (d - k * d);
      (d - s) * (d - s);
    }
  }

  /** The pursuit step never overshoots: the two legs it leaves add up to the
      distance it started from, and it covers at most `speed`. */
  lemma PursueNeverOvershoots(ai: Vec, player: Vec, speed: real, dist: real, moved: real, left: real)
    requires 0.0 <= dist && dist * dist == DistSq(ai, player) && 0.0 <= speed
    requires 0.0 <= moved && moved * moved == DistSq(ai, Pursue(ai, player, speed, dist))
    requires 0.0 <= left && left * left == DistSq(Pursue(ai, player, speed, dist), player)
    ensures moved <= speed && moved <= dist
    ensures moved + left == dist
    ensures left == Max(0.0, dist - speed)
  {
    var step := Min(speed, dist);
    SquareRootUnique(moved, step);
    SquareRootUnique(left, Max(0.0, dist - speed));
  }

  /** Once within touching range, the pursuit step stays within it. */
  lemma PursueStaysWithin(ai: Vec, player: Vec, speed: real, dist: real, range: real)
    requires 0.0 <= dist && dist * dist == DistSq(ai, player) && 0.0 <= speed
    requires dist < range
    ensures DistSq(player, Pursue(ai, player, speed, dist)) < range * range
  {
    PursueDistances(ai, player, speed, dist);
    DistSqSymmetric(player, Pursue(ai, player, speed, dist));
    if 0.0 < dist {
      SquareStrictlyMonotone(Max(0.0, dist - speed), range);
    } else {
      SquareStrictlyMonotone(dist, range);
    }
  }

  lemma SquareRootUnique(a: real, b: real)
    requires 0.0 <= a && 0.0 <= b && a * a == b * b
    ensures a == b
  {
    if a < b {
      SquareStrictlyMonotone(a, b);
    } else if b < a {
      SquareStrictlyMonotone(b, a);
    }
  }

  lemma SquareStrictlyMonotone(a: real, b: real)
    requires 0.0 <= a < b
    ensures a * a < b * b
  {
    assert b * b - a * a == (b - a) * (b + a);
    assert 0.0 < b - a && 0.0 < b + a;
  }

  // ---------------------------------------------------------------------------
  // Wander step

  /** What move_ai_smooth returns. */
  datatype Wander = Wander(pos: Vec, velocity: Vec, angle: real, angularVelocity: real)

  function Clamp(v: real, lo: real, hi: real): real { Max(Min(v, hi), lo) }

  lemma ClampIsNearest(v: real, lo: real, hi: real)
    requires lo <= hi
    ensures lo <= Clamp(v, lo, hi) <= hi
    ensures lo <= v <= hi ==> Clamp(v, lo, hi) == v
    ensures v < lo ==> Clamp(v, lo, hi) == lo
    ensures hi < v ==> Clamp(v, lo, hi) == hi
  {}

  /** The ball's centre is off the field across a left or right edge. */
  predicate OffFieldX(x: real) { x < BALL_RADIUS || x > WIDTH - BALL_RADIUS }

  /** The ball's centre is off the field across a top or bottom edge. */
  predicate OffFieldY(y: real) { y < BALL_RADIUS || y > HEIGHT - BALL_RADIUS }

  /** One wander step: turn by the angular velocity, perturb and clamp the angular
      velocity by `jitter` (the uniform draw in [-0.5, 0.5]), move by the new
      heading, then reflect the heading on the edges the prospective position
      crosses. */
  function MoveAiSmooth(pos: Vec, speed: real, angle: real, angularVelocity: real,
                        dt: real, jitter: real, trig: Trig): (r: Wander)
    ensures -MAX_ANGULAR_VELOCITY <= r.angularVelocity <= MAX_ANGULAR_VELOCITY
    ensures r.pos == pos.Plus(r.velocity)
  {
    var turned := angle + angularVelocity * dt;
    var w := Clamp(angularVelocity + jitter * dt, -MAX_ANGULAR_VELOCITY, MAX_ANGULAR_VELOCITY);
    var velocity := Heading(trig, turned).Scale(speed);
    var newPos := pos.Plus(velocity);
    var (a1, w1) := if OffFieldX(newPos.x) then (PI - turned, -w) else (turned, w);
    var (a2, w2) := if OffFieldY(newPos.y) then (-a1, -w1) else (a1, w1);
    Wander(newPos, velocity, a2, w2)
  }

  /** The wander step moves along the turned heading (the position may leave the
      field); on each edge the prospective position crosses it reflects the
      heading (pi - a across a left or right edge, -a across a top or bottom
      edge, in that order) and negates the clamped angular velocity. */
  lemma MoveAiSmoothReflects(pos: Vec, speed: real, angle: real, angularVelocity: real,
                             dt: real, jitter: real, trig: Trig)
    ensures var r := MoveAiSmooth(pos, speed, angle, angularVelocity, dt, jitter, trig);
      var turned := angle + angularVelocity * dt;
      var w := Clamp(angularVelocity + jitter * dt, -MAX_ANGULAR_VELOCITY, MAX_ANGULAR_VELOCITY);
      var hitX, hitY := OffFieldX(r.pos.x), OffFieldY(r.pos.y);
      && r.velocity == Heading(trig, turned).Scale(speed)
      && r.pos == pos.Plus(Heading(trig, turned).Scale(speed))
      && (!hitX && !hitY ==> r.angle == turned && r.angularVelocity == w)
      && (hitX && !hitY ==> r.angle == PI - turned && r.angularVelocity == -w)
      && (!hitX && hitY ==> r.angle == -turned && r.angularVelocity == -w)
      && (hitX && hitY ==> r.angle == turned - PI && r.angularVelocity == w)
  {}

  /** The wander step does not keep the ball on the field: from (790, 300),
      heading along +x at speed 10, it returns (800, 300), past the right edge,
      and only the heading turns back. */
  lemma WanderLeavesField(trig: Trig, angle: real)
    requires trig.cos(angle) == 1.0 && trig.sin(angle) == 0.0
    ensures var r := MoveAiSmooth(Vec(790.0, 300.0), 10.0, angle, 0.0, 0.0, 0.0, trig);
      r.pos == Vec(800.0, 300.0) && OffFieldX(r.pos.x) && r.angle == PI - angle && r.angularVelocity == 0.0
  {
    assert Heading(trig, angle + 0.0 * 0.0).Scale(10.0) == Vec(10.0, 0.0);
  }

  // ---------------------------------------------------------------------------
  // Game-over test

  datatype Verdict = Verdict(over: bool, message: string)

  /** "Too far" on squared distances: exact for every threshold, negative ones included. */
  predicate TooFar(distSq: real, maxDistance: real) {
    maxDistance < 0.0 || distSq > maxDistance * maxDistance
  }

  /** The game-over test on squared distances, "touched" checked first. */
  function CheckGameOver(p1: Vec, p2: Vec, maxDistance: real): (r: Verdict)
    ensures r.over <==> r.message != ""
    ensures r.message == "" || r.message == TOUCHED_MESSAGE || r.message == TOO_FAR_MESSAGE
  {
    var d2 := DistSq(p1, p2);
    if d2 < MIN_DISTANCE * MIN_DISTANCE then Verdict(true, TOUCHED_MESSAGE)
    else if TooFar(d2, maxDistance) then Verdict(true, TOO_FAR_MESSAGE)
    else Verdict(false, "")
  }

  lemma CheckGameOverTouching(p1: Vec, p2: Vec, maxDistance: real)
    requires DistSq(p1, p2) < MIN_DISTANCE * MIN_DISTANCE
    ensures CheckGameOver(p1, p2, maxDistance) == Verdict(true, TOUCHED_MESSAGE)
  {}

  /** The squared test agrees with the Euclidean one, for the distance d. */
  lemma CheckGameOverByDistance(p1: Vec, p2: Vec, maxDistance: real, d: real)
    requires 0.0 <= d && d * d == DistSq(p1, p2)
    ensures CheckGameOver(p1, p2, maxDistance) ==
      if d < MIN_DISTANCE then Verdict(true, TOUCHED_MESSAGE)
      else if d > maxDistance then Verdict(true, TOO_FAR_MESSAGE)
      else Verdict(false, "")
  {
    if d < MIN_DISTANCE {
      SquareStrictlyMonotone(d, MIN_DISTANCE);
    } else {
      if MIN_DISTANCE < d { SquareStrictlyMonotone(MIN_DISTANCE, d); }
      if 0.0 <= maxDistance {
        if maxDistance < d { SquareStrictlyMonotone(maxDistance, d); }
        if d < maxDistance { SquareStrictlyMonotone(d, maxDistance); }
      }
    }
  }

  // ---------------------------------------------------------------------------
  // Score

  /** The score after one frame of dt seconds at the given multiplier. */
  function Accrue(points: real, multiplier: real, dt: real): (r: real)
    ensures 0.0 <= multiplier && 0.0 <= dt ==> points <= r
    ensures 0.0 < multiplier && 0.0 < dt ==> points < r
  {
    points + multiplier * dt * POINTS_PER_SECOND
  }
}
