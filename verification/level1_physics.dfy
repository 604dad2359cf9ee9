// The racer's per-frame rules: the fixed particle pool, the speed and steer
// clamps, the road walls, traffic spawning, the collision test and the
// switch into the outro once the distance is covered.

module Level1Physics {
  import opened Common
  import opened Level1Utils

  const LANE_COUNT: int := 5
  const LANE_WIDTH: real := 80.0
  const ROAD_WIDTH: real := 400.0
  const PLAYER_WIDTH: real := 40.0
  const PLAYER_HEIGHT: real := 70.0
  const TRAFFIC_WIDTH: real := 40.0
  const TRAFFIC_HEIGHT: real := 70.0
  const INITIAL_SPEED: real := 8.0
  const MIN_SPEED: real := 4.0
  const MAX_SPEED: real := 14.0
  const ACCELERATION: real := 0.08
  const BRAKING: real := 0.15
  const HIGH_SPEED_BRAKING_MULT: real := 2.5
  const FRICTION: real := 0.06
  const MIN_SPAWN_GAP: real := 220.0
  const MIN_TRAFFIC_COUNT: int := 5
  const MAX_TRAFFIC_COUNT: int := 12
  const WIN_DISTANCE: real := 5000.0

  /** The particle pool holds 200 slots. */
  const POOL_SIZE: int := 200

  const STANDARD_OUTRO_SPEED: real := 10.0
  const SPEED_SMOOTHING: real := 0.05
  /**
   * The game loop caps timeScale at this before updateGame, so the outro's
   * easing share SPEED_SMOOTHING * timeScale never exceeds 0.2.
   */
  const MAX_TIME_SCALE: real := 4.0
  const OUTRO_EXIT_SPEED: real := 5.0
  const STEER_ACCEL: real := 0.35
  const MAX_STEER_SPEED: real := 4.8
  const WALL_BUMP_COOLDOWN: real := 60.0
  const SPAWN_Y: real := -250.0
  const SPAWN_LEVEL_BAND: real := 100.0
  const SAME_LANE_TOLERANCE: real := 10.0
  const HITBOX_PADDING: real := 1.0

  const WALL_BUMP_PHRASES: seq<string> := ["Ай!", "Бампер!", "Аккуратнее!", "Больно!", "Моя машина!", "Эй!"]

  datatype Particle = Particle(active: bool, x: real, y: real, vx: real, vy: real, size: real, life: real)

  datatype Car = Car(x: real, y: real, width: real, height: real, speed: real)

  /** The racer's mutable refs: the player, the traffic and the per-frame counters. */
  class RacerState {
    var x: real
    var y: real
    var playerVelocityX: real
    var turnDuration: real
    var playerSpeed: real
    var brakingDuration: real
    var baseTrafficSpeed: real
    var isOutro: bool
    var distance: real
    var score: real
    var outroExitOffset: real
    var wallBumpCooldown: real
    var wallBumpHistory: PhraseHistory
    var floatingMessages: MessageBoard
    var trafficSpawnDelay: real
    var spawnTimer: real
    var traffic: seq<Car>
    var lastSpawnedLane: int
    var particles: array<Particle>

    /** The refs as the racer creates them. */
    constructor ()
      ensures x == ROAD_WIDTH / 2.0 - PLAYER_WIDTH / 2.0 && y == 0.0
      ensures playerVelocityX == 0.0 && playerSpeed == INITIAL_SPEED && baseTrafficSpeed == 5.0
      ensures !isOutro && distance == 0.0 && score == 0.0 && outroExitOffset == 0.0
      ensures traffic == [] && spawnTimer == 0.0 && trafficSpawnDelay == 0.0 && lastSpawnedLane == -1
      ensures fresh(particles) && particles.Length == POOL_SIZE
      ensures forall i :: 0 <= i < particles.Length ==> !particles[i].active
      ensures fresh(wallBumpHistory) && wallBumpHistory.recent == []
      ensures fresh(floatingMessages) && floatingMessages.messages == []
    {
      x := ROAD_WIDTH / 2.0 - PLAYER_WIDTH / 2.0;
      y := 0.0;
      playerVelocityX := 0.0;
      turnDuration := 0.0;
      playerSpeed := INITIAL_SPEED;
      brakingDuration := 0.0;
      baseTrafficSpeed := 5.0;
      isOutro := false;
      distance := 0.0;
      score := 0.0;
      outroExitOffset := 0.0;
      wallBumpCooldown := 0.0;
      wallBumpHistory := new PhraseHistory();
      floatingMessages := new MessageBoard();
      trafficSpawnDelay := 0.0;
      spawnTimer := 0.0;
      traffic := [];
      lastSpawnedLane := -1;
      particles := new Particle[POOL_SIZE](_ => Particle(false, 0.0, 0.0, 0.0, 0.0, 0.0, 0.0));
    }
  }

  // ------------------------------------------------------------- particles

  /** The lowest inactive slot, or -1 when every slot is in use. */
  function FirstInactive(ps: seq<Particle>): (i: int)
    ensures -1 <= i < |ps|
    ensures i == -1 ==> forall j :: 0 <= j < |ps| ==> ps[j].active
    ensures i >= 0 ==> !ps[i].active && forall j :: 0 <= j < i ==> ps[j].active
  {
    if ps == [] then -1
    else if !ps[0].active then 0
    else
      var k := FirstInactive(ps[1..]);
      if k == -1 then -1 else k + 1
  }

  /**
   * spawnParticle: the lowest inactive slot is reused with the given fields;
   * no other slot changes, and nothing happens when the pool is full.
   */
  method SpawnParticle(pool: array<Particle>, x: real, y: real, vx: real, vy: real, size: real, life: real)
    modifies pool
    ensures FirstInactive(old(pool[..])) == -1 ==> pool[..] == old(pool[..])
    ensures FirstInactive(old(pool[..])) >= 0 ==>
      pool[..] == old(pool[..])[FirstInactive(old(pool[..])) := Particle(true, x, y, vx, vy, size, life)]
  {
    for i := 0 to pool.Length
      invariant pool[..] == old(pool[..])
      invariant forall j :: 0 <= j < i ==> pool[j].active
    {
      if !pool[i].active {
        FirstInactiveIs(pool[..], i);
        pool[i] := Particle(true, x, y, vx, vy, size, life);
        return;
      }
    }
    FirstInactiveIs(pool[..], -1);
  }

  /** The scan's answer is FirstInactive's: the lowest free slot, or none. */
  lemma {:induction false} FirstInactiveIs(ps: seq<Particle>, i: int)
    requires -1 <= i < |ps|
    requires i == -1 ==> forall j :: 0 <= j < |ps| ==> ps[j].active
    requires i >= 0 ==> !ps[i].active && forall j :: 0 <= j < i ==> ps[j].active
    ensures FirstInactive(ps) == i
  {
    if ps != [] && ps[0].active {
      FirstInactiveIs(ps[1..], if i == -1 then -1 else i - 1);
    }
  }

  /**
   * One frame of a particle: an inactive slot is left alone; an active one
   * drifts, grows, fades and is released once its life is used up.
   */
  function StepParticle(p: Particle, timeScale: real, speed: real): (q: Particle)
    ensures !p.active ==> q == p
    ensures p.active ==> q.life == p.life - 0.04 * timeScale && (q.active <==> q.life > 0.0)
    ensures p.active ==> q.x == p.x + p.vx * timeScale && q.size == p.size + 0.3 * timeScale
  {
    if !p.active then p
    else
      var life := p.life - 0.04 * timeScale;
      Particle(life > 0.0, p.x + p.vx * timeScale, p.y + p.vy * timeScale + speed * 0.9 * timeScale,
               p.vx, p.vy, p.size + 0.3 * timeScale, life)
  }

  /** The particle loop of updateGame, slot by slot in place. */
  method UpdateParticles(pool: array<Particle>, timeScale: real, speed: real)
    modifies pool
    ensures forall i :: 0 <= i < pool.Length ==> pool[i] == StepParticle(old(pool[i]), timeScale, speed)
  {
    for i := 0 to pool.Length
      invariant forall j :: 0 <= j < i ==> pool[j] == StepParticle(old(pool[j]), timeScale, speed)
      invariant forall j :: i <= j < pool.Length ==> pool[j] == old(pool[j])
    {
      if !pool[i].active {
        continue;
      }
      pool[i] := StepParticle(pool[i], timeScale, speed);
    }
  }

  /** A live particle whose life runs out this frame is switched off, freeing its slot. */
  lemma SpentParticleDeactivates(p: Particle, timeScale: real, speed: real)
    requires timeScale > 0.0 && p.active && p.life <= 0.04 * timeScale
    ensures !StepParticle(p, timeScale, speed).active
  {
  }

  // ------------------------------------------------------------- speed

  /** A share k in [0, 1] of d: it lies between 0 and d. */
  function Share(d: real, k: real): (m: real)
    requires 0.0 <= k <= 1.0
    ensures d >= 0.0 ==> 0.0 <= m <= d
    ensures d <= 0.0 ==> d <= m <= 0.0
  {
    ProductSign(d, k);
    ProductSign(d, 1.0 - k);
    assert d * k == d - d * (1.0 - k);
    d * k
  }

  /** x times a non-negative y has the sign of x. */
  lemma ProductSign(x: real, y: real)
    requires y >= 0.0
    ensures x >= 0.0 ==> x * y >= 0.0
    ensures x <= 0.0 ==> x * y <= 0.0
  {
  }

  /** v moved a share k in [0, 1] of the way to target: it lands between the two. */
  function EaseToward(v: real, target: real, k: real): (r: real)
    requires 0.0 <= k <= 1.0
    ensures v <= target ==> v <= r <= target
    ensures v >= target ==> target <= r <= v
  {
    v + Share(target - v, k)
  }

  /**
   * The outro eases the speed toward the standard outro speed, 5% per frame.
   * The share must not exceed 1, which the caller's MAX_TIME_SCALE cap ensures.
   */
  function OutroEased(speed: real, timeScale: real): (r: real)
    requires timeScale > 0.0 && SPEED_SMOOTHING * timeScale <= 1.0
    ensures speed <= STANDARD_OUTRO_SPEED ==> speed <= r <= STANDARD_OUTRO_SPEED
    ensures speed >= STANDARD_OUTRO_SPEED ==> STANDARD_OUTRO_SPEED <= r <= speed
  {
    EaseToward(speed, STANDARD_OUTRO_SPEED, SPEED_SMOOTHING * timeScale)
  }

  /**
   * The speed after the throttle, brake or friction of one frame. Input is
   * ignored in the outro; braking is 2.5 times as strong above the initial
   * speed; without input the speed drifts back toward the initial speed.
   */
  function SpeedAfter(speed: real, up: bool, down: bool, outro: bool, timeScale: real): (r: real)
    requires timeScale > 0.0
    ensures !outro && up ==> r <= MAX_SPEED && (speed <= MAX_SPEED ==> speed <= r)
    ensures !outro && !up && down ==> r >= MIN_SPEED && (speed >= MIN_SPEED ==> r <= speed)
    ensures !outro && !up && !down && speed > INITIAL_SPEED ==> INITIAL_SPEED <= r < speed
    ensures !outro && !up && !down && speed < INITIAL_SPEED ==> speed < r <= INITIAL_SPEED
    ensures outro || (!up && !down && speed == INITIAL_SPEED) ==> r == speed
  {
    var accelerating := !outro && up;
    var braking := !outro && down;
    if accelerating then Min(MAX_SPEED, speed + ACCELERATION * timeScale)
    else if braking then
      var force := if speed > INITIAL_SPEED then BRAKING * HIGH_SPEED_BRAKING_MULT else BRAKING;
      Max(MIN_SPEED, speed - force * timeScale)
    else if !outro then
      (if speed > INITIAL_SPEED then Max(INITIAL_SPEED, speed - FRICTION * timeScale)
       else if speed < INITIAL_SPEED then Min(INITIAL_SPEED, speed + FRICTION * timeScale)
       else speed)
    else speed
  }

  /** Outside the outro the speed stays within [MIN_SPEED, MAX_SPEED] once it is there. */
  lemma SpeedStaysInRange(speed: real, up: bool, down: bool, timeScale: real)
    requires timeScale > 0.0 && MIN_SPEED <= speed <= MAX_SPEED
    ensures MIN_SPEED <= SpeedAfter(speed, up, down, false, timeScale) <= MAX_SPEED
  {
  }

  /**
   * The speed section of updateGame: the outro easing, then throttle, brake
   * or friction, and the braking-duration counter. Burnout smoke and skid
   * marks are cosmetic and not modelled. The requires on timeScale holds
   * for any timeScale up to MAX_TIME_SCALE, the game loop's cap.
   */
  method UpdateSpeed(s: RacerState, up: bool, down: bool, timeScale: real)
    requires timeScale > 0.0 && SPEED_SMOOTHING * timeScale <= 1.0
    modifies s`playerSpeed, s`brakingDuration
    ensures s.playerSpeed == SpeedAfter(if s.isOutro then OutroEased(old(s.playerSpeed), timeScale) else old(s.playerSpeed),
                                        up, down, s.isOutro, timeScale)
    ensures !s.isOutro && up ==> s.brakingDuration == 0.0
    ensures !s.isOutro && !up && down ==> s.brakingDuration == old(s.brakingDuration) + timeScale
    ensures !s.isOutro && !up && !down ==> s.brakingDuration == 0.0
    ensures s.isOutro ==> s.brakingDuration == old(s.brakingDuration)
  {
    if s.isOutro {
      s.playerSpeed := OutroEased(s.playerSpeed, timeScale);
    }
    var isBraking := !s.isOutro && down;
    var isAccelerating := !s.isOutro && up;
    if isAccelerating {
      s.brakingDuration := 0.0;
    } else if isBraking {
      s.brakingDuration := s.brakingDuration + timeScale;
    } else if !s.isOutro {
      s.brakingDuration := 0.0;
    }
    s.playerSpeed := SpeedAfter(s.playerSpeed, up, down, s.isOutro, timeScale);
  }

  // ------------------------------------------------------------- steering and walls

  /** Math.max(-max, Math.min(max, v)) */
  function Clamp(v: real, bound: real): (r: real)
    requires bound >= 0.0
    ensures -bound <= r <= bound
    ensures -bound <= v <= bound ==> r == v
    ensures v > bound ==> r == bound
    ensures v < -bound ==> r == -bound
  {
    Max(-bound, Min(bound, v))
  }

  /**
   * The lateral velocity after one frame: steering pushes it by 0.35 per
   * frame per key held (none in the outro), releasing both keys lets the
   * per-frame friction factor slow it, and the result is clamped to 4.8.
   */
  function SteerVelocity(vx: real, left: bool, right: bool, outro: bool, timeScale: real, friction: real): (r: real)
    ensures -MAX_STEER_SPEED <= r <= MAX_STEER_SPEED
    ensures (outro || (!left && !right)) && -MAX_STEER_SPEED <= vx * friction <= MAX_STEER_SPEED ==> r == vx * friction
  {
    var turningLeft := !outro && left;
    var turningRight := !outro && right;
    var accel := STEER_ACCEL * timeScale;
    var raw :=
      if turningLeft || turningRight then
        (if turningLeft then vx - accel else vx) + (if turningRight then accel else 0.0)
      else vx * friction;
    Clamp(raw, MAX_STEER_SPEED)
  }

  /**
   * The steering section of updateGame. `friction` is Math.pow(0.9,
   * timeScale), which the model takes as given.
   */
  method Steer(s: RacerState, left: bool, right: bool, timeScale: real, friction: real)
    modifies s`playerVelocityX, s`turnDuration, s`x
    ensures s.playerVelocityX == SteerVelocity(old(s.playerVelocityX), left, right, s.isOutro, timeScale, friction)
    ensures s.x == old(s.x) + s.playerVelocityX * timeScale
    ensures (!s.isOutro && (left || right)) ==> s.turnDuration == old(s.turnDuration) + timeScale
    ensures !(!s.isOutro && (left || right)) ==> s.turnDuration == 0.0
  {
    var isTurningLeft := !s.isOutro && left;
    var isTurningRight := !s.isOutro && right;
    if isTurningLeft || isTurningRight {
      s.turnDuration := s.turnDuration + timeScale;
    } else {
      s.turnDuration := 0.0;
    }
    s.playerVelocityX := SteerVelocity(s.playerVelocityX, left, right, s.isOutro, timeScale, friction);
    Drift(s, timeScale);
  }

  /** The player's horizontal position follows the lateral velocity. */
  method Drift(s: RacerState, timeScale: real)
    modifies s`x
    ensures s.x == old(s.x) + s.playerVelocityX * timeScale
  {
    s.x := s.x + s.playerVelocityX * timeScale;
  }

  /** The right wall for the player's left edge. */
  const RIGHT_LIMIT: real := ROAD_WIDTH - PLAYER_WIDTH

  predicate TouchesWall(x: real)
  {
    x <= 0.0 || x >= RIGHT_LIMIT
  }

  /**
   * The wall section of updateGame: the bump cooldown runs down; touching a
   * wall fast enough while the cooldown is over says a wall-bump phrase and
   * restarts the cooldown; a player past a wall is put back on it with the
   * lateral velocity reversed and halved.
   */
  method HandleWalls(s: RacerState, timeScale: real, roll: real)
    requires 0.0 <= roll < 1.0
    modifies s`x, s`playerVelocityX, s`wallBumpCooldown, s.wallBumpHistory, s.floatingMessages
    ensures 0.0 <= s.x <= RIGHT_LIMIT
    ensures 0.0 <= old(s.x) <= RIGHT_LIMIT ==> s.x == old(s.x) && s.playerVelocityX == old(s.playerVelocityX)
    ensures old(s.x) < 0.0 ==> s.x == 0.0 && s.playerVelocityX == old(s.playerVelocityX) * -0.5
    ensures old(s.x) > RIGHT_LIMIT ==> s.x == RIGHT_LIMIT && s.playerVelocityX == old(s.playerVelocityX) * -0.5
    ensures |s.floatingMessages.messages| == |old(s.floatingMessages.messages)| + 1 <==>
      TouchesWall(old(s.x)) && (if old(s.wallBumpCooldown) > 0.0 then old(s.wallBumpCooldown) - timeScale else old(s.wallBumpCooldown)) <= 0.0 &&
      Abs(old(s.playerVelocityX)) > 1.0
    ensures |s.floatingMessages.messages| >= |old(s.floatingMessages.messages)|
    ensures s.wallBumpCooldown == WALL_BUMP_COOLDOWN || s.floatingMessages.messages == old(s.floatingMessages.messages)
  {
    if s.wallBumpCooldown > 0.0 {
      s.wallBumpCooldown := s.wallBumpCooldown - timeScale;
    }
    if s.x <= 0.0 || s.x >= RIGHT_LIMIT {
      if s.wallBumpCooldown <= 0.0 && Abs(s.playerVelocityX) > 1.0 {
        var phrase := GetNextPhrase(WALL_BUMP_PHRASES, s.wallBumpHistory, roll);
        AddFloatingMessage(s.floatingMessages, phrase, s.x, s.y);
        s.wallBumpCooldown := WALL_BUMP_COOLDOWN;
      }
      if s.x < 0.0 {
        s.x := 0.0;
        s.playerVelocityX := s.playerVelocityX * -0.5;
      }
      if s.x > RIGHT_LIMIT {
        s.x := RIGHT_LIMIT;
        s.playerVelocityX := s.playerVelocityX * -0.5;
      }
    }
  }

  // ------------------------------------------------------------- distance and outro

  /** The distance covered in one frame: 5000 m in 60 s at the initial speed. */
  function DistanceDelta(speed: real, timeScale: real): (d: real)
    requires timeScale > 0.0
    ensures speed >= 0.0 ==> d >= 0.0
    ensures speed == INITIAL_SPEED ==> d == WIN_DISTANCE / 3600.0 * timeScale
  {
    (speed / INITIAL_SPEED) * (WIN_DISTANCE / 60.0 / 60.0) * timeScale
  }

  /**
   * The distance section of updateGame: before the outro the distance and
   * the score grow and the outro starts once the distance reaches 5000; in
   * the outro the car drives off and the level completes once it is 100 px
   * past the top.
   */
  method AdvanceDistance(s: RacerState, timeScale: real) returns (completed: bool)
    requires timeScale > 0.0
    modifies s`distance, s`score, s`isOutro, s`outroExitOffset
    ensures !old(s.isOutro) ==> (!completed && s.distance == old(s.distance) + DistanceDelta(s.playerSpeed, timeScale) &&
      s.score == old(s.score) + DistanceDelta(s.playerSpeed, timeScale) &&
      (s.isOutro <==> s.distance >= WIN_DISTANCE) && s.outroExitOffset == old(s.outroExitOffset))
    ensures old(s.isOutro) ==> (s.isOutro && s.distance == old(s.distance) && s.score == old(s.score) &&
      s.outroExitOffset == old(s.outroExitOffset) + OUTRO_EXIT_SPEED * timeScale &&
      (completed <==> s.y + PLAYER_HEIGHT < -100.0))
  {
    completed := false;
    if !s.isOutro {
      var delta := DistanceDelta(s.playerSpeed, timeScale);
      s.distance := s.distance + delta;
      s.score := s.score + delta;
      if s.distance >= WIN_DISTANCE {
        s.isOutro := true;
      }
    } else {
      s.outroExitOffset := s.outroExitOffset + OUTRO_EXIT_SPEED * timeScale;
      if s.y + PLAYER_HEIGHT < -100.0 {
        completed := true;
      }
    }
  }

  // ------------------------------------------------------------- traffic

  /** The x of a car centred in lane `lane`. */
  function LaneX(lane: int): real
  {
    lane as real * LANE_WIDTH + LANE_WIDTH / 2.0 - TRAFFIC_WIDTH / 2.0
  }

  /** The shuffled lane order: a permutation of the five lanes. */
  predicate IsLaneOrder(lanes: seq<int>)
  {
    |lanes| == LANE_COUNT &&
    (forall i :: 0 <= i < |lanes| ==> 0 <= lanes[i] < LANE_COUNT) &&
    (forall l :: 0 <= l < LANE_COUNT ==> l in lanes)
  }

  predicate NearSpawnLevel(t: Car)
  {
    Abs(t.y - SPAWN_Y) < SPAWN_LEVEL_BAND
  }

  predicate BlocksLane(t: Car, x: real, laneGap: real)
  {
    Abs(t.x - x) < SAME_LANE_TOLERANCE && Abs(t.y - SPAWN_Y) < laneGap
  }

  /** How many cars are within 100 px of the spawn line. */
  function CountNearSpawn(cars: seq<Car>): (n: nat)
    ensures n <= |cars|
  {
    if cars == [] then 0
    else CountNearSpawn(cars[..|cars| - 1]) + (if NearSpawnLevel(cars[|cars| - 1]) then 1 else 0)
  }

  /** The inner scan over the traffic for one lane. */
  method LaneCheck(traffic: seq<Car>, x: real, laneGap: real) returns (blocked: bool, carsAtSpawnLevel: nat)
    ensures blocked <==> exists j :: 0 <= j < |traffic| && BlocksLane(traffic[j], x, laneGap)
    ensures carsAtSpawnLevel == CountNearSpawn(traffic)
  {
    blocked := false;
    carsAtSpawnLevel := 0;
    for j := 0 to |traffic|
      invariant carsAtSpawnLevel == CountNearSpawn(traffic[..j])
      invariant blocked <==> exists k :: 0 <= k < j && BlocksLane(traffic[k], x, laneGap)
    {
      assert traffic[..j + 1][..j] == traffic[..j];
      var t := traffic[j];
      var distY := Abs(t.y - SPAWN_Y);
      if distY < SPAWN_LEVEL_BAND {
        carsAtSpawnLevel := carsAtSpawnLevel + 1;
      }
      if !blocked {
        var isSameLane := Abs(t.x - x) < SAME_LANE_TOLERANCE;
        if isSameLane && distY < laneGap {
          blocked := true;
        }
      }
    }
    assert traffic[..|traffic|] == traffic;
  }

  /**
   * spawnTraffic: nothing while the start delay runs or in the outro, or
   * once 12 cars are on the road; otherwise, when the spawn timer runs out,
   * at most one car in the first lane (in shuffled order) that is free of
   * close cars while fewer than two cars sit at the spawn line, and the
   * timer restarts. `rand` stands for the Math.random() draws in order.
   */
  method SpawnTraffic(s: RacerState, timeScale: real, lanes: seq<int>, rand: nat -> real)
    requires timeScale > 0.0 && IsRandomStream(rand) && IsLaneOrder(lanes)
    modifies s`trafficSpawnDelay, s`spawnTimer, s`traffic, s`lastSpawnedLane
    ensures old(s.trafficSpawnDelay) > 0.0 || s.isOutro ==>
      s.traffic == old(s.traffic) && s.trafficSpawnDelay == old(s.trafficSpawnDelay) - timeScale
    ensures |old(s.traffic)| >= MAX_TRAFFIC_COUNT ==> s.traffic == old(s.traffic)
    ensures s.traffic == old(s.traffic) || (|s.traffic| == |old(s.traffic)| + 1 && s.traffic[..|old(s.traffic)|] == old(s.traffic))
    ensures |old(s.traffic)| <= MAX_TRAFFIC_COUNT ==> |s.traffic| <= MAX_TRAFFIC_COUNT
    ensures s.traffic != old(s.traffic) ==>
      var car := s.traffic[|s.traffic| - 1];
      0 <= s.lastSpawnedLane < LANE_COUNT && car.x == LaneX(s.lastSpawnedLane) && car.y == SPAWN_Y &&
      car.width == TRAFFIC_WIDTH && car.height == TRAFFIC_HEIGHT &&
      CountNearSpawn(old(s.traffic)) < 2 &&
      (forall j :: 0 <= j < |old(s.traffic)| ==> !BlocksLane(old(s.traffic)[j], car.x, MIN_SPAWN_GAP))
  {
    if s.trafficSpawnDelay > 0.0 || s.isOutro {
      s.trafficSpawnDelay := s.trafficSpawnDelay - timeScale;
      return;
    }
    var activeTrafficCount := |s.traffic|;
    if activeTrafficCount >= MAX_TRAFFIC_COUNT {
      return;
    }
    var spawnRateMultiplier := if activeTrafficCount < MIN_TRAFFIC_COUNT then 4.0 else 1.0;
    s.spawnTimer := s.spawnTimer - timeScale * spawnRateMultiplier;
    if s.spawnTimer <= 0.0 {
      var speedRatio := s.playerSpeed / MAX_SPEED;
      var baseDelay := 50.0 - speedRatio * 30.0;
      var randomDelay := rand(0) * 15.0;
      var k: nat := 1;
      var spawned := false;
      var i := 0;
      while i < |lanes|
        invariant 0 <= i <= |lanes| && k >= 1
        invariant !spawned && s.traffic == old(s.traffic)
      {
        var lane := lanes[i];
        assert 0 <= lane < LANE_COUNT;
        var x := LaneX(lane);
        var laneGap := MIN_SPAWN_GAP + rand(k) * 50.0;
        k := k + 1;
        var isLaneBlocked, carsAtSpawnLevel := LaneCheck(s.traffic, x, laneGap);
        if !isLaneBlocked && carsAtSpawnLevel < 2 {
          var trafficGlobalSpeed := s.baseTrafficSpeed + rand(k) * 6.0;
          // rand(k + 1) picks the colour, which is not modelled
          k := k + 2;
          s.traffic := s.traffic + [Car(x, SPAWN_Y, TRAFFIC_WIDTH, TRAFFIC_HEIGHT, trafficGlobalSpeed)];
          spawned := true;
          s.lastSpawnedLane := lane;
          break;
        }
        i := i + 1;
      }
      if spawned {
        if |s.traffic| < MIN_TRAFFIC_COUNT {
          s.spawnTimer := 10.0 + rand(k) * 10.0;
        } else {
          s.spawnTimer := baseDelay + randomDelay;
        }
      } else {
        s.spawnTimer := 5.0;
      }
    }
  }

  // ------------------------------------------------------------- collision

  /** The player's box against a car's, each shrunk by the 1 px hitbox padding. */
  predicate Hits(px: real, py: real, t: Car)
  {
    px + HITBOX_PADDING < t.x + t.width - HITBOX_PADDING &&
    px + PLAYER_WIDTH - HITBOX_PADDING > t.x + HITBOX_PADDING &&
    py + HITBOX_PADDING < t.y + t.height - HITBOX_PADDING &&
    py + PLAYER_HEIGHT - HITBOX_PADDING > t.y + HITBOX_PADDING
  }

  /**
   * The collision loop: the first car that overlaps the player ends the
   * game (updateGame reports it and returns false).
   */
  method FindCollision(px: real, py: real, traffic: seq<Car>) returns (crashed: bool)
    ensures crashed <==> exists i :: 0 <= i < |traffic| && Hits(px, py, traffic[i])
  {
    for i := 0 to |traffic|
      invariant forall j :: 0 <= j < i ==> !Hits(px, py, traffic[j])
    {
      if Hits(px, py, traffic[i]) {
        return true;
      }
    }
    return false;
  }

  /** A standard car whose x differs from the player's by 38 px or more never hits it. */
  lemma SideBySideNeverHits(px: real, py: real, t: Car)
    requires t.width == TRAFFIC_WIDTH && Abs(px - t.x) >= PLAYER_WIDTH - 2.0 * HITBOX_PADDING
    ensures !Hits(px, py, t)
  {
  }

  /** Cars one lane apart never hit each other: lanes are 80 px apart. */
  lemma AdjacentLanesNeverHit(lane: int, py: real, t: Car)
    requires 0 <= lane && t.width == TRAFFIC_WIDTH && t.x == LaneX(lane + 1)
    ensures !Hits(LaneX(lane), py, t)
  {
    SideBySideNeverHits(LaneX(lane), py, t);
  }
}
