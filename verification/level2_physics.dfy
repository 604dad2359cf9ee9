// One tick of the platformer: the player's horizontal speed and its clamp,
// security guards (spawning, patrolling, chasing, hitting), the boss that
// loses health when the player stops screaming, and the paper stacks it
// throws. Drawing, speech bubbles, the camera and vertical motion are not
// part of this model.

module Level2Physics {
  import opened Common
  import opened Level2Types
  import opened Level2Entities

  // ---------------------------------------------------------------------
  // Collision and phrases

  datatype Rect = Rect(x: real, y: real, width: real, height: real)

  /** How far each rectangle is shrunk on every side before testing overlap. */
  const COLLISION_PAD: real := 4.0

  function Shrink(r: Rect): Rect
  {
    Rect(r.x + COLLISION_PAD, r.y + COLLISION_PAD, r.width - 2.0 * COLLISION_PAD, r.height - 2.0 * COLLISION_PAD)
  }

  /** Two rectangles share interior points. */
  predicate Overlap(a: Rect, b: Rect)
  {
    a.x < b.x + b.width && b.x < a.x + a.width && a.y < b.y + b.height && b.y < a.y + a.height
  }

  /** checkCollision: an AABB test with 4 px of forgiveness on every side. */
  function CheckCollision(r1: Rect, r2: Rect): (hit: bool)
    ensures hit <==> Overlap(Shrink(r1), Shrink(r2))
  {
    r1.x + COLLISION_PAD < r2.x + r2.width - COLLISION_PAD &&
    r1.x + r1.width - COLLISION_PAD > r2.x + COLLISION_PAD &&
    r1.y + COLLISION_PAD < r2.y + r2.height - COLLISION_PAD &&
    r1.y + r1.height - COLLISION_PAD > r2.y + COLLISION_PAD
  }

  /** Which rectangle comes first does not matter. */
  lemma CollisionSymmetric(r1: Rect, r2: Rect)
    ensures CheckCollision(r1, r2) == CheckCollision(r2, r1)
  {
  }

  /** The test only forgives: a collision means the unshrunk rectangles overlap too. */
  lemma CollisionMeansOverlap(r1: Rect, r2: Rect)
    requires CheckCollision(r1, r2)
    ensures Overlap(r1, r2)
  {
  }

  /** phrases.filter(p => p !== x), in order. */
  function Without(phrases: seq<string>, x: string): (r: seq<string>)
    ensures forall p :: p in r <==> p in phrases && p != x
    ensures |r| <= |phrases|
  {
    if phrases == [] then []
    else (if phrases[0] == x then [] else [phrases[0]]) + Without(phrases[1..], x)
  }

  /**
   * getNonRepeatingPhrase: a phrase other than the last one when there is
   * another; the empty string counts as no last phrase.
   */
  function GetNonRepeatingPhrase(phrases: seq<string>, last: Option<string>, roll: real): (r: string)
    requires |phrases| > 0 && 0.0 <= roll < 1.0
    ensures r in phrases
    ensures last.Some? && last.value != "" && (exists p :: p in phrases && p != last.value) ==> r != last.value
  {
    var available := if last.Some? && last.value != "" then Without(phrases, last.value) else phrases;
    var source := if |available| > 0 then available else phrases;
    source[PickIndex(roll, |source|)]
  }

  /** With a single phrase there is nothing else to say. */
  lemma SinglePhraseRepeats(phrase: string, last: Option<string>, roll: real)
    requires 0.0 <= roll < 1.0
    ensures GetNonRepeatingPhrase([phrase], last, roll) == phrase
  {
  }

  // ---------------------------------------------------------------------
  // The player

  datatype Player = Player(
    x: real, y: real, vx: real, vy: real, width: real, height: real,
    hp: int, invulnerableTimer: real, isGrounded: bool, facingRight: bool,
    frameTimer: real, platform: Option<PlatformKind>)

  function PlayerRect(p: Player): Rect
  {
    Rect(p.x, p.y, p.width, p.height)
  }

  const ACCELERATION: real := 1.5
  const MEETING_TABLE_BOOST: real := 1.3
  /** While invulnerableTimer is above this, the knock-back runs its course and the keys are ignored. */
  const KNOCKBACK_FRAMES: real := 40.0
  const KNOCKBACK_DAMPING: real := 0.95
  const INVULNERABLE_FRAMES: real := 60.0

  /** Standing on a meeting table speeds the player up. */
  predicate OnMeetingTable(p: Player)
  {
    p.isGrounded && p.platform == Some(MeetingTable)
  }

  function SpeedMultiplier(p: Player): (m: real)
    ensures m == 1.0 || m == MEETING_TABLE_BOOST
  {
    if OnMeetingTable(p) then MEETING_TABLE_BOOST else 1.0
  }

  /** The top speed: MOVE_SPEED, 1.3 times that on a meeting table. */
  function MaxSpeed(p: Player): (m: real)
    ensures OnMeetingTable(p) ==> m == 7.8
    ensures !OnMeetingTable(p) ==> m == MOVE_SPEED
  {
    MOVE_SPEED * SpeedMultiplier(p)
  }

  /** Math.max(Math.min(v, m), -m) */
  function ClampSpeed(v: real, m: real): (r: real)
    requires m >= 0.0
    ensures -m <= r <= m
    ensures -m <= v <= m ==> r == v
    ensures v > m ==> r == m
    ensures v < -m ==> r == -m
  {
    Max(Min(v, m), -m)
  }

  /**
   * The speed before the clamp: damped during knock-back, pushed by the
   * arrow held (right wins), otherwise slowed by friction. `frictionPow`
   * stands for Math.pow(FRICTION, timeScale).
   */
  function DrivenVx(p: Player, right: bool, left: bool, timeScale: real, frictionPow: real): real
  {
    if p.invulnerableTimer > KNOCKBACK_FRAMES then p.vx * KNOCKBACK_DAMPING
    else if right then p.vx + ACCELERATION * timeScale * SpeedMultiplier(p)
    else if left then p.vx - ACCELERATION * timeScale * SpeedMultiplier(p)
    else p.vx * frictionPow
  }

  /**
   * q is p after the horizontal part of a tick: the driven speed, clamped to
   * the top speed, moves the player; it faces the key held unless still
   * knocked back; the run animation advances while moving on the ground;
   * nothing else of the player changes.
   */
  predicate MovedHorizontally(p: Player, q: Player, right: bool, left: bool, timeScale: real, frictionPow: real)
  {
    -MaxSpeed(p) <= q.vx <= MaxSpeed(p) &&
    q.vx == ClampSpeed(DrivenVx(p, right, left, timeScale, frictionPow), MaxSpeed(p)) &&
    q.x == p.x + q.vx * timeScale &&
    q.facingRight == (if p.invulnerableTimer <= KNOCKBACK_FRAMES && (right || left) then right else p.facingRight) &&
    q.frameTimer ==
      (if Abs(q.vx) > 0.1 && p.isGrounded then p.frameTimer + timeScale * SpeedMultiplier(p) else p.frameTimer) &&
    q == p.(vx := q.vx, x := q.x, facingRight := q.facingRight, frameTimer := q.frameTimer)
  }

  // ---------------------------------------------------------------------
  // Security guards

  datatype GuardState = Idle | Patrol | Running

  datatype Guard = Guard(
    x: real, y: real, width: real, height: real, state: GuardState, startX: real,
    patrolDir: real, patrolMaxDist: real, triggerDistance: real, vx: real, frameTimer: real)

  const GUARD_WIDTH: real := 45.0
  const GUARD_HEIGHT: real := 70.0
  const RUN_SPEED: real := 5.0
  const PATROL_SPEED: real := 1.5
  const PATROL_RADII: seq<real> := [50.0, 75.0, 100.0]
  const TRIGGER_DISTANCES: seq<real> := [450.0, 550.0, 650.0]
  const SPAWN_MIN_DIST: real := 400.0
  const SPAWN_MAX_DIST: real := 1000.0
  const MAX_ON_SCREEN: nat := 2
  /** A guard notices the player up to 100 px behind it. */
  const SIGHT_BEHIND: real := 100.0
  /** A guard this far left of the camera is dropped. */
  const OFFSCREEN_MARGIN: real := 100.0

  function GuardRect(e: Guard): Rect
  {
    Rect(e.x, e.y, e.width, e.height)
  }

  /** The player is within the guard's sight, measured before the guard moves. */
  predicate Spots(e: Guard, playerX: real)
  {
    -SIGHT_BEHIND < e.x - playerX < e.triggerDistance
  }

  /** A patrolling guard's direction after a step: it turns at either end of its beat. */
  function TurnedDir(dir: real, distFromStart: real, maxDist: real): (d: real)
    ensures dir == 1.0 || dir == -1.0 ==> d == 1.0 || d == -1.0
  {
    if distFromStart < -maxDist && dir == -1.0 then 1.0
    else if distFromStart > maxDist && dir == 1.0 then -1.0
    else dir
  }

  /**
   * One guard's step: a patrolling guard walks its beat and starts running
   * once it spots the player; a running guard runs left; an idle one stays.
   */
  function StepGuard(e: Guard, playerX: real, timeScale: real): (e': Guard)
    ensures e'.state == Running <==> e.state == Running || (e.state == Patrol && Spots(e, playerX))
    ensures e.state == Idle ==> e' == e
    ensures e.state == Patrol ==> e'.x == e.x + PATROL_SPEED * e.patrolDir * timeScale
    ensures e.state == Running ==> e'.x == e.x - RUN_SPEED * timeScale && e'.vx == -RUN_SPEED
    ensures e'.width == e.width && e'.y == e.y && e'.triggerDistance == e.triggerDistance
  {
    match e.state
    case Patrol =>
      var vx := PATROL_SPEED * e.patrolDir;
      var x := e.x + vx * timeScale;
      var dir := TurnedDir(e.patrolDir, x - e.startX, e.patrolMaxDist);
      e.(vx := vx, x := x, frameTimer := e.frameTimer + timeScale, patrolDir := dir,
         state := if Spots(e, playerX) then Running else Patrol)
    case Running =>
      e.(vx := -RUN_SPEED, frameTimer := e.frameTimer + timeScale, x := e.x + -RUN_SPEED * timeScale)
    case Idle => e
  }

  /** A guard that started running never goes back to patrolling, however many steps follow. */
  lemma {:induction false} RunningStaysRunning(e: Guard, playerXs: seq<real>, timeScale: real)
    requires e.state == Running
    ensures StepMany(e, playerXs, timeScale).state == Running
    decreases |playerXs|
  {
    if playerXs != [] {
      RunningStaysRunning(StepGuard(e, playerXs[0], timeScale), playerXs[1..], timeScale);
    }
  }

  /** A guard stepped once per player position. */
  function StepMany(e: Guard, playerXs: seq<real>, timeScale: real): Guard
    decreases |playerXs|
  {
    if playerXs == [] then e else StepMany(StepGuard(e, playerXs[0], timeScale), playerXs[1..], timeScale)
  }

  /** The guard has walked off the left of the screen. */
  predicate LeftBehind(e: Guard, cameraX: real)
  {
    e.x + e.width < cameraX - OFFSCREEN_MARGIN
  }

  /** Every guard stepped, those left behind dropped, the rest in order. */
  function StepGuards(es: seq<Guard>, playerX: real, cameraX: real, timeScale: real): (r: seq<Guard>)
    ensures |r| <= |es|
    ensures forall g :: g in r ==> !LeftBehind(g, cameraX)
  {
    if es == [] then []
    else
      var e := StepGuard(es[0], playerX, timeScale);
      (if LeftBehind(e, cameraX) then [] else [e]) + StepGuards(es[1..], playerX, cameraX, timeScale)
  }

  /** StepGuards from position i on: guard i's step, unless it is left behind, then the rest. */
  lemma StepGuardsAt(es: seq<Guard>, i: nat, playerX: real, cameraX: real, timeScale: real)
    requires i < |es|
    ensures var e := StepGuard(es[i], playerX, timeScale);
      StepGuards(es[i..], playerX, cameraX, timeScale) ==
        (if LeftBehind(e, cameraX) then [] else [e]) + StepGuards(es[i + 1..], playerX, cameraX, timeScale)
  {
    assert es[i..][1..] == es[i + 1..];
  }

  /** Every guard kept from position i on is kept from the start too. */
  lemma {:induction false} StepGuardsSuffix(es: seq<Guard>, i: nat, playerX: real, cameraX: real, timeScale: real)
    requires i <= |es|
    ensures forall g :: g in StepGuards(es[i..], playerX, cameraX, timeScale) ==> g in StepGuards(es, playerX, cameraX, timeScale)
    decreases i
  {
    if i == 0 {
      assert es[0..] == es;
    } else {
      StepGuardsAt(es, i - 1, playerX, cameraX, timeScale);
      StepGuardsSuffix(es, i - 1, playerX, cameraX, timeScale);
    }
  }

  /** No chasing guard turns back into a patrolling one within a tick. */
  lemma {:induction false} NoGuardCalmsDown(es: seq<Guard>, playerX: real, cameraX: real, timeScale: real)
    requires forall e :: e in es ==> e.state == Running
    ensures forall g :: g in StepGuards(es, playerX, cameraX, timeScale) ==> g.state == Running
  {
    if es != [] {
      assert es[0] in es;
      assert forall e :: e in es[1..] ==> e in es;
      NoGuardCalmsDown(es[1..], playerX, cameraX, timeScale);
    }
  }

  // ---------------------------------------------------------------------
  // The boss and its paper stacks

  datatype Boss = Boss(
    x: real, y: real, width: real, height: real, hp: int,
    invulnerableTimer: real, damagedTimer: real, frameTimer: real)

  function BossRect(b: Boss): Rect
  {
    Rect(b.x, b.y, b.width, b.height)
  }

  /** Frames between two hits on the boss. */
  const DAMAGE_COOLDOWN: real := 120.0
  const DAMAGE_FLASH: real := 15.0
  const BOUNCE_FORCE_X: real := -25.0
  const BOUNCE_FORCE_Y: real := -10.0

  /** Touching the boss puts the player 2 px left of it, flung up and back by the bounce forces. */
  function Bounced(p: Player, boss: Option<Boss>): (q: Player)
    ensures boss.Some? && CheckCollision(PlayerRect(p), BossRect(boss.value)) ==>
      !CheckCollision(PlayerRect(q), BossRect(boss.value)) && q.vx == BOUNCE_FORCE_X && q.vy == BOUNCE_FORCE_Y && !q.isGrounded
    ensures boss.None? || !CheckCollision(PlayerRect(p), BossRect(boss.value)) ==> q == p
    ensures q.hp == p.hp && q.invulnerableTimer == p.invulnerableTimer && q.y == p.y
  {
    if boss.Some? && CheckCollision(PlayerRect(p), BossRect(boss.value)) then
      p.(x := boss.value.x - p.width - 2.0, vx := BOUNCE_FORCE_X, vy := BOUNCE_FORCE_Y, isGrounded := false)
    else p
  }

  /** A timer above zero runs down by one tick's time. */
  function RunDown(t: real, timeScale: real): (r: real)
    ensures t > 0.0 ==> r == t - timeScale
    ensures t <= 0.0 ==> r == t
  {
    if t > 0.0 then t - timeScale else t
  }

  /** Some part of the boss is between the screen's edges. */
  predicate BossOnScreen(b: Boss, cameraX: real, canvasWidth: real)
  {
    b.x + b.width > cameraX && b.x < cameraX + canvasWidth
  }

  datatype Projectile = Projectile(x: real, y: real, vx: real, vy: real, width: real, height: real, rotation: real)

  const SPIN: real := 0.2

  function ProjectileRect(p: Projectile): Rect
  {
    Rect(p.x, p.y, p.width, p.height)
  }

  function Fly(p: Projectile, timeScale: real): Projectile
  {
    p.(x := p.x + p.vx * timeScale, y := p.y + p.vy * timeScale, rotation := p.rotation + SPIN * timeScale)
  }

  /** Off the left of the camera or below the canvas. */
  predicate Gone(p: Projectile, cameraX: real, canvasHeight: real)
  {
    p.x < cameraX - OFFSCREEN_MARGIN || p.y > canvasHeight + 100.0
  }

  /** Every stack moved, those gone dropped, the rest in order. */
  function FlyAll(ps: seq<Projectile>, cameraX: real, canvasHeight: real, timeScale: real): (r: seq<Projectile>)
    ensures |r| <= |ps|
    ensures forall q :: q in r ==> !Gone(q, cameraX, canvasHeight)
  {
    if ps == [] then []
    else
      var q := Fly(ps[0], timeScale);
      (if Gone(q, cameraX, canvasHeight) then [] else [q]) + FlyAll(ps[1..], cameraX, canvasHeight, timeScale)
  }

  /** FlyAll from position i on: stack i's flight, unless it is gone, then the rest. */
  lemma FlyAllAt(ps: seq<Projectile>, i: nat, cameraX: real, canvasHeight: real, timeScale: real)
    requires i < |ps|
    ensures var q := Fly(ps[i], timeScale);
      FlyAll(ps[i..], cameraX, canvasHeight, timeScale) ==
        (if Gone(q, cameraX, canvasHeight) then [] else [q]) + FlyAll(ps[i + 1..], cameraX, canvasHeight, timeScale)
  {
    assert ps[i..][1..] == ps[i + 1..];
  }

  // ---------------------------------------------------------------------
  // Hits on the player

  /** The player can be hit by r: not invulnerable, and touching it. */
  predicate HitBy(p: Player, r: Rect)
  {
    p.invulnerableTimer <= 0.0 && CheckCollision(PlayerRect(p), r)
  }

  /** A hit: one hp less, 60 frames of invulnerability, knocked back off the ground. */
  function Hurt(p: Player, vx: real, vy: real): (h: Player)
    ensures h.hp == p.hp - 1 && h.invulnerableTimer == INVULNERABLE_FRAMES
    ensures h.x == p.x && h.y == p.y && h.width == p.width && h.height == p.height && !h.isGrounded
  {
    p.(hp := p.hp - 1, invulnerableTimer := INVULNERABLE_FRAMES, vx := vx, vy := vy, isGrounded := false)
  }

  /** The player after a tick: untouched in health, or exactly one hp down after being open to hits. */
  predicate AtMostOneHit(before: Player, after: Player)
  {
    (after.hp == before.hp && after.invulnerableTimer == before.invulnerableTimer) ||
    (before.invulnerableTimer <= 0.0 && after.hp == before.hp - 1 && after.invulnerableTimer == INVULNERABLE_FRAMES)
  }

  /** Two stretches of a tick with at most one hit each make one with at most one hit: a hit leaves the player invulnerable. */
  lemma HitsCompose(a: Player, b: Player, c: Player)
    requires AtMostOneHit(a, b) && AtMostOneHit(b, c)
    ensures AtMostOneHit(a, c)
  {
  }

  /** A hit leaves the player invulnerable, so no second hit lands in the same tick. */
  lemma HitShieldsPlayer(p: Player, vx: real, vy: real, r: Rect)
    ensures !HitBy(Hurt(p, vx, vy), r)
  {
  }

  // ---------------------------------------------------------------------
  // The world one tick works on

  /** What updateLevel2 reports through its callbacks. */
  datatype Callback = GameOver | LevelComplete

  /** Math.random().toString() for each spawned guard's id draws a number that is not part of this model. */
  /** The player is open to hits and one of the guards, stepped for this tick, touches it. */
  ghost predicate HitByGuards(p: Player, guards: seq<Guard>, cameraX: real, timeScale: real)
  {
    p.invulnerableTimer <= 0.0 &&
    exists g :: g in StepGuards(guards, p.x, cameraX, timeScale) && CheckCollision(PlayerRect(p), GuardRect(g))
  }

  /** The player is open to hits and one of the paper stacks, flown for this tick, touches it. */
  ghost predicate HitByStacks(p: Player, ps: seq<Projectile>, timeScale: real)
  {
    p.invulnerableTimer <= 0.0 &&
    exists j :: 0 <= j < |ps| && CheckCollision(PlayerRect(p), ProjectileRect(Fly(ps[j], timeScale)))
  }

  /**
   * The paper-stack loop once stacks i.. of ps are handled, for the player
   * p0 at the start. With no hit yet (hitAt = -1) the player is untouched,
   * none of those stacks could hit it, and `kept` is their FlyAll. After the
   * hit by stack hitAt the player is hurt once, no higher-index stack touched
   * it, and `kept` is the flown stacks without the one used up.
   */
  ghost predicate StacksHandled(ps: seq<Projectile>, p0: Player, i: nat, kept: seq<Projectile>, player: Player, hitAt: int,
                                cameraX: real, canvasHeight: real, timeScale: real)
  {
    i <= |ps| &&
    (hitAt == -1 ==>
      player == p0 && kept == FlyAll(ps[i..], cameraX, canvasHeight, timeScale) &&
      forall j :: i <= j < |ps| ==> !HitBy(p0, ProjectileRect(Fly(ps[j], timeScale)))) &&
    (hitAt != -1 ==>
      i <= hitAt < |ps| && HitBy(p0, ProjectileRect(Fly(ps[hitAt], timeScale))) &&
      (forall j :: hitAt < j < |ps| ==> !CheckCollision(PlayerRect(p0), ProjectileRect(Fly(ps[j], timeScale)))) &&
      player == Hurt(p0, -12.0, -6.0) &&
      kept == FlyAll(ps[i..hitAt], cameraX, canvasHeight, timeScale) + FlyAll(ps[hitAt + 1..], cameraX, canvasHeight, timeScale))
  }

  /** A stack that does not hit flies on, and is kept unless it is gone. */
  lemma StacksPass(ps: seq<Projectile>, p0: Player, i: nat, kept: seq<Projectile>, player: Player, hitAt: int,
                   cameraX: real, canvasHeight: real, timeScale: real)
    requires i < |ps| && StacksHandled(ps, p0, i + 1, kept, player, hitAt, cameraX, canvasHeight, timeScale)
    requires !HitBy(player, ProjectileRect(Fly(ps[i], timeScale)))
    ensures var q := Fly(ps[i], timeScale);
      StacksHandled(ps, p0, i, if Gone(q, cameraX, canvasHeight) then kept else [q] + kept, player, hitAt,
                    cameraX, canvasHeight, timeScale)
  {
    var q := Fly(ps[i], timeScale);
    if hitAt == -1 {
      FlyAllAt(ps, i, cameraX, canvasHeight, timeScale);
    } else {
      FlyAllAt(ps[..hitAt], i, cameraX, canvasHeight, timeScale);
      assert ps[..hitAt][i..] == ps[i..hitAt] && ps[..hitAt][i + 1..] == ps[i + 1..hitAt];
      var rest := FlyAll(ps[hitAt + 1..], cameraX, canvasHeight, timeScale);
      if !Gone(q, cameraX, canvasHeight) {
        assert [q] + (FlyAll(ps[i + 1..hitAt], cameraX, canvasHeight, timeScale) + rest) ==
               ([q] + FlyAll(ps[i + 1..hitAt], cameraX, canvasHeight, timeScale)) + rest;
      } else {
        assert [] + FlyAll(ps[i + 1..hitAt], cameraX, canvasHeight, timeScale) == FlyAll(ps[i + 1..hitAt], cameraX, canvasHeight, timeScale);
      }
    }
  }

  /** The first stack to touch an open player is the hit: nothing hit before, and none of the later stacks is touched. */
  lemma StacksHit(ps: seq<Projectile>, p0: Player, i: nat, kept: seq<Projectile>, player: Player, hitAt: int,
                  cameraX: real, canvasHeight: real, timeScale: real)
    requires i < |ps| && StacksHandled(ps, p0, i + 1, kept, player, hitAt, cameraX, canvasHeight, timeScale)
    requires HitBy(player, ProjectileRect(Fly(ps[i], timeScale)))
    ensures hitAt == -1 && player == p0
    ensures StacksHandled(ps, p0, i, kept, Hurt(player, -12.0, -6.0), i, cameraX, canvasHeight, timeScale)
  {
    assert ps[i..i] == [];
    assert kept == FlyAll(ps[i..i], cameraX, canvasHeight, timeScale) + FlyAll(ps[i + 1..], cameraX, canvasHeight, timeScale);
  }

  /**
   * The whole loop: the player loses one hp exactly when it was open and
   * some stack, flown, touches it; without a hit every stack flies on as
   * FlyAll says; with one, the stack used up is the highest-index one
   * touching the player and every other stack flies on.
   */
  lemma StacksDone(ps: seq<Projectile>, p0: Player, kept: seq<Projectile>, player: Player, hitAt: int,
                   cameraX: real, canvasHeight: real, timeScale: real)
    requires StacksHandled(ps, p0, 0, kept, player, hitAt, cameraX, canvasHeight, timeScale)
    ensures player.hp == p0.hp - 1 <==>
      p0.invulnerableTimer <= 0.0 &&
      exists j :: 0 <= j < |ps| && CheckCollision(PlayerRect(p0), ProjectileRect(Fly(ps[j], timeScale)))
    ensures player.hp == p0.hp ==> player == p0 && kept == FlyAll(ps, cameraX, canvasHeight, timeScale)
    ensures player.hp != p0.hp ==>
      player == Hurt(p0, -12.0, -6.0) &&
      exists h :: 0 <= h < |ps| &&
        CheckCollision(PlayerRect(p0), ProjectileRect(Fly(ps[h], timeScale))) &&
        (forall j :: h < j < |ps| ==> !CheckCollision(PlayerRect(p0), ProjectileRect(Fly(ps[j], timeScale)))) &&
        kept == FlyAll(ps[..h], cameraX, canvasHeight, timeScale) + FlyAll(ps[h + 1..], cameraX, canvasHeight, timeScale)
  {
    assert ps[0..] == ps;
    if hitAt != -1 {
      assert ps[0..hitAt] == ps[..hitAt];
    }
  }

  class World {
    var player: Player
    var enemies: seq<Guard>
    var boss: Option<Boss>
    var projectiles: seq<Projectile>
    var cameraX: real
    var lastEnemySpawnX: real
    var levelLength: Option<real>
    var wasScreaming: bool

    constructor (player: Player, levelLength: Option<real>)
      ensures this.player == player && this.levelLength == levelLength
      ensures enemies == [] && boss == None && projectiles == [] && cameraX == 0.0
      ensures lastEnemySpawnX == 0.0 && !wasScreaming
    {
      this.player := player;
      this.levelLength := levelLength;
      enemies := [];
      boss := None;
      projectiles := [];
      cameraX := 0.0;
      lastEnemySpawnX := 0.0;
      wasScreaming := false;
    }

    /** The horizontal part of the tick, as MovedHorizontally states it. */
    method MoveHorizontally(right: bool, left: bool, timeScale: real, frictionPow: real)
      modifies this`player
      ensures MovedHorizontally(old(player), player, right, left, timeScale, frictionPow)
    {
      var p := player;
      var facing := p.facingRight;
      if p.invulnerableTimer <= KNOCKBACK_FRAMES {
        if right {
          facing := true;
        } else if left {
          facing := false;
        }
      }
      var vx := ClampSpeed(DrivenVx(p, right, left, timeScale, frictionPow), MaxSpeed(p));
      var frame := if Abs(vx) > 0.1 && p.isGrounded then p.frameTimer + timeScale * SpeedMultiplier(p) else p.frameTimer;
      player := p.(vx := vx, x := p.x + vx * timeScale, facingRight := facing, frameTimer := frame);
    }

    /** state.levelLength || LEVEL_LENGTH: a missing or zero length falls back to the default. */
    function EffectiveLength(): (len: real)
      reads this
      ensures levelLength.Some? && levelLength.value != 0.0 ==> len == levelLength.value
      ensures levelLength.None? || levelLength.value == 0.0 ==> len == LEVEL_LENGTH
    {
      if levelLength.Some? && levelLength.value != 0.0 then levelLength.value else LEVEL_LENGTH
    }

    /**
     * At most one guard per tick, only while fewer than two are about and
     * the player has gone 400 px since the last spawn: always past 1000 px,
     * otherwise with a 2% chance per frame. It appears just right of the
     * screen, patrolling leftwards, and never within 2000 px of the end.
     */
    method SpawnGuard(canvasWidth: real, floorY: real, timeScale: real, rand: nat -> real, k0: nat) returns (k: nat)
      requires IsRandomStream(rand)
      modifies this`enemies, this`lastEnemySpawnX
      ensures old(enemies) <= enemies && |enemies| <= |old(enemies)| + 1
      ensures |enemies| == |old(enemies)| ==> lastEnemySpawnX == old(lastEnemySpawnX)
      ensures |enemies| > |old(enemies)| ==>
        (|old(enemies)| < MAX_ON_SCREEN && player.x - old(lastEnemySpawnX) > SPAWN_MIN_DIST &&
         lastEnemySpawnX == player.x &&
         var g := enemies[|old(enemies)|];
         g.state == Patrol && g.patrolDir == -1.0 && g.x == cameraX + canvasWidth + 50.0 && g.startX == g.x &&
         g.x < EffectiveLength() - 2000.0 && g.y == floorY - GUARD_HEIGHT &&
         g.patrolMaxDist in PATROL_RADII && g.triggerDistance in TRIGGER_DISTANCES)
      ensures (player.x - old(lastEnemySpawnX) > SPAWN_MAX_DIST && |old(enemies)| < MAX_ON_SCREEN &&
               cameraX + canvasWidth + 50.0 < EffectiveLength() - 2000.0) ==> |enemies| == |old(enemies)| + 1
      ensures k >= k0
    {
      k := k0;
      var dist := player.x - lastEnemySpawnX;
      if |enemies| < MAX_ON_SCREEN && dist > SPAWN_MIN_DIST {
        var shouldSpawn := dist > SPAWN_MAX_DIST;
        if !shouldSpawn {
          shouldSpawn := rand(k) < 0.02 * timeScale;
          k := k + 1;
        }
        if shouldSpawn {
          var spawnX := cameraX + canvasWidth + 50.0;
          if spawnX < EffectiveLength() - 2000.0 {
            var radius := RandomItem(PATROL_RADII, rand(k));
            var trigger := RandomItem(TRIGGER_DISTANCES, rand(k + 1));
            k := k + 3;
            var g := Guard(spawnX, floorY - GUARD_HEIGHT, GUARD_WIDTH, GUARD_HEIGHT, Patrol, spawnX, -1.0, radius, trigger, 0.0, 0.0);
            enemies := enemies + [g];
            lastEnemySpawnX := player.x;
          }
        }
      }
    }

    /**
     * The guard loop, from the last guard to the first: each guard steps,
     * is dropped once left behind, and otherwise hits the player when it
     * touches it while the player is open to hits: one hp, and a knock-back
     * away from that guard. The first hit leaves the player invulnerable,
     * so at most one lands. The tick ends early (game over) when the hit
     * takes the last hp.
     */
    method UpdateGuards(timeScale: real) returns (gameOver: bool)
      modifies this`enemies, this`player
      ensures AtMostOneHit(old(player), player)
      ensures player.hp == old(player.hp) - 1 <==> HitByGuards(old(player), old(enemies), cameraX, timeScale)
      ensures player.hp == old(player.hp) ==> player == old(player)
      ensures player.hp != old(player.hp) ==>
        exists g :: g in StepGuards(old(enemies), old(player.x), cameraX, timeScale) &&
          CheckCollision(PlayerRect(old(player)), GuardRect(g)) &&
          player == Hurt(old(player), (if old(player.x) < g.x then -1.0 else 1.0) * 12.0, -7.0)
      ensures gameOver <==> player.hp != old(player.hp) && player.hp <= 0
      ensures player.x == old(player.x)
      ensures !gameOver ==> enemies == StepGuards(old(enemies), old(player.x), cameraX, timeScale)
    {
      ghost var es0 := enemies;
      ghost var p0 := player;
      var es := enemies;
      var px := player.x;
      var i := |es|;
      gameOver := false;
      while i > 0
        invariant 0 <= i <= |es|
        invariant enemies == es[..i] + StepGuards(es[i..], px, cameraX, timeScale)
        invariant AtMostOneHit(p0, player) && player.x == px
        invariant player.hp != p0.hp ==> player.hp > 0
        invariant player.hp == p0.hp ==> player == p0
        invariant player.hp != p0.hp <==>
          p0.invulnerableTimer <= 0.0 &&
          exists g :: g in StepGuards(es[i..], px, cameraX, timeScale) && CheckCollision(PlayerRect(p0), GuardRect(g))
        invariant player.hp != p0.hp ==>
          exists g :: g in StepGuards(es[i..], px, cameraX, timeScale) && CheckCollision(PlayerRect(p0), GuardRect(g)) &&
            player == Hurt(p0, (if p0.x < g.x then -1.0 else 1.0) * 12.0, -7.0)
      {
        i := i - 1;
        StepGuardsAt(es, i, px, cameraX, timeScale);
        var e := StepGuard(es[i], px, timeScale);
        ghost var rest := StepGuards(es[i + 1..], px, cameraX, timeScale);
        if LeftBehind(e, cameraX) {
          assert [] + rest == rest;
          assert StepGuards(es[i..], px, cameraX, timeScale) == rest;
          enemies := es[..i] + StepGuards(es[i + 1..], px, cameraX, timeScale);
          continue;
        }
        assert StepGuards(es[i..], px, cameraX, timeScale) == [e] + rest;
        enemies := es[..i] + [e] + StepGuards(es[i + 1..], px, cameraX, timeScale);
        assert es[..i] + [e] + rest == es[..i] + ([e] + rest);
        if HitBy(player, GuardRect(e)) {
          assert player.hp == p0.hp && player.invulnerableTimer == p0.invulnerableTimer;
          var dir := if player.x < e.x then -1.0 else 1.0;
          player := Hurt(player, dir * 12.0, -7.0);
          if player.hp <= 0 {
            gameOver := true;
            StepGuardsSuffix(es, i, px, cameraX, timeScale);
            return;
          }
        }
      }
      assert es[0..] == es;
    }

    /**
     * The boss's part of the tick: its animation clock advances and its
     * cooldown and flash timers run down; touching it puts the player 2 px
     * left of it, flung up and back by the bounce forces; and while it is on screen and the fight is on, the
     * moment the player stops screaming costs it one hp, unless it is still
     * cooling down from the last hit. Its last hp completes the level.
     */
    method UpdateBoss(isScreaming: bool, gameplayActive: bool, fightActive: bool, timeScale: real, canvasWidth: real)
      returns (complete: bool)
      modifies this`boss, this`player
      ensures boss.Some? <==> old(boss).Some?
      ensures player.hp == old(player.hp) && player.invulnerableTimer == old(player.invulnerableTimer)
      ensures old(boss).None? ==> boss == old(boss) && player == old(player) && !complete
      ensures old(boss).Some? ==>
        var b := old(boss).value;
        var struck := wasScreaming && !isScreaming && gameplayActive && fightActive &&
                      BossOnScreen(b, cameraX, canvasWidth) && RunDown(b.invulnerableTimer, timeScale) <= 0.0;
        boss.value.hp == (if struck then b.hp - 1 else b.hp) &&
        (struck ==> boss.value.invulnerableTimer == DAMAGE_COOLDOWN) &&
        (complete <==> struck && boss.value.hp <= 0)
      ensures old(boss).Some? ==>
        var b := old(boss).value;
        var struck := wasScreaming && !isScreaming && gameplayActive && fightActive &&
                      BossOnScreen(b, cameraX, canvasWidth) && RunDown(b.invulnerableTimer, timeScale) <= 0.0;
        boss.value == b.(hp := boss.value.hp, frameTimer := b.frameTimer + timeScale,
                         invulnerableTimer := if struck then DAMAGE_COOLDOWN else RunDown(b.invulnerableTimer, timeScale),
                         damagedTimer := if struck then DAMAGE_FLASH else RunDown(b.damagedTimer, timeScale))
      ensures player == Bounced(old(player), old(boss))
      ensures old(boss).Some? ==> BossRect(boss.value) == BossRect(old(boss).value)
    {
      complete := false;
      if boss.None? {
        return;
      }
      var b := boss.value;
      b := b.(frameTimer := b.frameTimer + timeScale,
               invulnerableTimer := RunDown(b.invulnerableTimer, timeScale),
               damagedTimer := RunDown(b.damagedTimer, timeScale));
      player := Bounced(player, boss);
      if BossOnScreen(b, cameraX, canvasWidth) {
        var justStopped := wasScreaming && !isScreaming;
        if fightActive && gameplayActive && justStopped && b.invulnerableTimer <= 0.0 {
          b := b.(hp := b.hp - 1, invulnerableTimer := DAMAGE_COOLDOWN, damagedTimer := DAMAGE_FLASH);
          if b.hp <= 0 {
            boss := Some(b);
            complete := true;
            return;
          }
        }
      }
      boss := Some(b);
    }

    /**
     * The paper-stack loop, from the last stack to the first: each flies on;
     * the first (highest-index) one that touches the player while it is open
     * to hits costs one hp, knocks the player back and is used up, and the
     * hit can end the game; stacks that left the screen are dropped.
     */
    method UpdateProjectiles(timeScale: real, canvasHeight: real) returns (gameOver: bool)
      modifies this`projectiles, this`player
      ensures AtMostOneHit(old(player), player)
      ensures player.hp == old(player.hp) - 1 <==> HitByStacks(old(player), old(projectiles), timeScale)
      ensures player.hp == old(player.hp) ==>
        player == old(player) && projectiles == FlyAll(old(projectiles), cameraX, canvasHeight, timeScale)
      ensures player.hp != old(player.hp) ==> player == Hurt(old(player), -12.0, -6.0)
      ensures !gameOver && player.hp != old(player.hp) ==>
        exists h :: 0 <= h < |old(projectiles)| &&
          CheckCollision(PlayerRect(old(player)), ProjectileRect(Fly(old(projectiles)[h], timeScale))) &&
          (forall j :: h < j < |old(projectiles)| ==>
            !CheckCollision(PlayerRect(old(player)), ProjectileRect(Fly(old(projectiles)[j], timeScale)))) &&
          projectiles == FlyAll(old(projectiles)[..h], cameraX, canvasHeight, timeScale) +
                         FlyAll(old(projectiles)[h + 1..], cameraX, canvasHeight, timeScale)
      ensures gameOver <==> player.hp != old(player.hp) && player.hp <= 0
      ensures player.x == old(player.x)
      ensures |projectiles| <= |old(projectiles)|
      ensures old(player.invulnerableTimer) > 0.0 ==>
        projectiles == FlyAll(old(projectiles), cameraX, canvasHeight, timeScale)
    {
      ghost var p0 := player;
      var ps := projectiles;
      var kept: seq<Projectile> := [];
      var i := |ps|;
      ghost var hitAt: int := -1;
      gameOver := false;
      assert ps[|ps|..] == [];
      while i > 0
        invariant 0 <= i <= |ps|
        invariant projectiles == ps[..i] + kept && |kept| <= |ps| - i
        invariant AtMostOneHit(p0, player) && player.x == p0.x
        invariant player.hp != p0.hp ==> player.hp > 0
        invariant StacksHandled(ps, p0, i, kept, player, hitAt, cameraX, canvasHeight, timeScale)
      {
        i := i - 1;
        var q := Fly(ps[i], timeScale);
        if HitBy(player, ProjectileRect(q)) {
          StacksHit(ps, p0, i, kept, player, hitAt, cameraX, canvasHeight, timeScale);
          player := Hurt(player, -12.0, -6.0);
          hitAt := i;
          projectiles := ps[..i] + kept;
          if player.hp <= 0 {
            gameOver := true;
            assert CheckCollision(PlayerRect(p0), ProjectileRect(Fly(ps[i], timeScale)));
            return;
          }
          continue;
        }
        StacksPass(ps, p0, i, kept, player, hitAt, cameraX, canvasHeight, timeScale);
        if !Gone(q, cameraX, canvasHeight) {
          kept := [q] + kept;
        }
        projectiles := ps[..i] + kept;
      }
      StacksDone(ps, p0, kept, player, hitAt, cameraX, canvasHeight, timeScale);
    }

    /**
     * The hazards of one tick, in the source's order: the guards, the boss,
     * then the paper stacks. The player loses one hp exactly when it was open
     * to hits and a stepped guard touches it, or, when the stack loop is
     * reached (`atStacks` is the player then), a flown stack touches it. A
     * guard's hit on the last hp stops everything after it, and so does the
     * boss's last hp.
     */
    method UpdateHazards(isScreaming: bool, gameplayActive: bool, fightActive: bool,
                         timeScale: real, canvasWidth: real, canvasHeight: real)
      returns (over: bool, complete: bool, ghost atStacks: Option<Player>)
      modifies this`enemies, this`player, this`boss, this`projectiles
      ensures AtMostOneHit(old(player), player)
      ensures player.hp == old(player.hp) - 1 <==>
        HitByGuards(old(player), old(enemies), cameraX, timeScale) ||
        (atStacks.Some? && HitByStacks(atStacks.value, old(projectiles), timeScale))
      ensures atStacks.None? ==> (over && HitByGuards(old(player), old(enemies), cameraX, timeScale)) || (complete && !over)
      ensures atStacks.Some? ==> enemies == StepGuards(old(enemies), old(player.x), cameraX, timeScale)
      ensures atStacks.Some? && !HitByGuards(old(player), old(enemies), cameraX, timeScale) ==>
        atStacks.value == Bounced(old(player), old(boss))
      ensures over ==> player.hp <= 0 && player.hp < old(player.hp) && !complete
      ensures !over && player.hp < old(player.hp) ==> player.hp > 0
      ensures complete ==> boss.Some? && boss.value.hp <= 0
      ensures boss.Some? <==> old(boss).Some?
      ensures boss.Some? ==> boss.value.hp == old(boss.value.hp) || boss.value.hp == old(boss.value.hp) - 1
      ensures boss.Some? && boss.value.hp < old(boss.value.hp) ==>
        wasScreaming && !isScreaming && gameplayActive && fightActive
    {
      atStacks := None;
      complete := false;
      ghost var p1 := player;
      over := UpdateGuards(timeScale);
      ghost var p2 := player;
      if over {
        return;
      }
      complete := UpdateBoss(isScreaming, gameplayActive, fightActive, timeScale, canvasWidth);
      ghost var p3 := player;
      HitsCompose(p1, p2, p3);
      if complete {
        return;
      }
      atStacks := Some(player);
      over := UpdateProjectiles(timeScale, canvasHeight);
      HitsCompose(p1, p3, player);
    }

    /**
     * updateLevel2, without the parts this model leaves out: the player
     * moves, guards spawn and step, the boss reacts to the scream, the paper
     * stacks fly, the invulnerability timer runs down, and the scream is
     * remembered for the next tick's falling edge. A hit that takes the last
     * hp ends the tick at once with a game over, and so does the boss's last
     * hp with a level complete; those early returns skip remembering the
     * scream. Falling below the canvas or running past the level's end is
     * reported at the end of the tick.
     */
    method Tick(right: bool, left: bool, isScreaming: bool, gameplayActive: bool, fightActive: bool,
                timeScale: real, frictionPow: real, canvasWidth: real, canvasHeight: real, floorY: real,
                rand: nat -> real, k0: nat)
      returns (calls: seq<Callback>, k: nat, ghost moved: Player, ghost guards: seq<Guard>, ghost atStacks: Option<Player>)
      requires IsRandomStream(rand) && timeScale > 0.0
      modifies this
      ensures cameraX == old(cameraX)
      ensures MovedHorizontally(old(player), moved, right, left, timeScale, frictionPow)
      ensures old(enemies) <= guards && |guards| <= |old(enemies)| + 1
      ensures atStacks.None? ==>
        (calls == [GameOver] && HitByGuards(moved, guards, cameraX, timeScale)) || calls == [LevelComplete]
      ensures atStacks.Some? ==> enemies == StepGuards(guards, moved.x, cameraX, timeScale)
      ensures atStacks.Some? && !HitByGuards(moved, guards, cameraX, timeScale) ==>
        atStacks.value == Bounced(moved, old(boss))
      ensures player.hp == old(player.hp) - 1 <==>
        HitByGuards(moved, guards, cameraX, timeScale) ||
        (atStacks.Some? && HitByStacks(atStacks.value, old(projectiles), timeScale))
      ensures player.hp == old(player.hp) ||
              (player.hp == old(player.hp) - 1 && old(player.invulnerableTimer) <= 0.0)
      ensures boss.Some? <==> old(boss).Some?
      ensures boss.Some? ==> boss.value.hp == old(boss.value.hp) || boss.value.hp == old(boss.value.hp) - 1
      ensures boss.Some? && boss.value.hp < old(boss.value.hp) ==>
        old(wasScreaming) && !isScreaming && gameplayActive && fightActive
      ensures (calls == [GameOver] && player.hp <= 0 && player.hp < old(player.hp) && wasScreaming == old(wasScreaming)) ||
              (calls == [LevelComplete] && boss.Some? && boss.value.hp <= 0 && wasScreaming == old(wasScreaming)) ||
              (wasScreaming == isScreaming && (player.hp < old(player.hp) ==> player.hp > 0) && |calls| <= 2 &&
               (GameOver in calls <==> player.y > canvasHeight + 100.0) &&
               (LevelComplete in calls <==> player.x > LEVEL_LENGTH + 200.0))
      ensures k >= k0
    {
      calls := [];
      MoveHorizontally(right, left, timeScale, frictionPow);
      moved := player;
      k := SpawnGuard(canvasWidth, floorY, timeScale, rand, k0);
      guards := enemies;
      assert AtMostOneHit(old(player), moved);
      var over, complete;
      over, complete, atStacks := UpdateHazards(isScreaming, gameplayActive, fightActive, timeScale, canvasWidth, canvasHeight);
      HitsCompose(old(player), moved, player);
      if over {
        calls := [GameOver];
        return;
      }
      if complete {
        calls := [LevelComplete];
        return;
      }
      player := player.(invulnerableTimer := RunDown(player.invulnerableTimer, timeScale));
      if player.y > canvasHeight + 100.0 {
        calls := calls + [GameOver];
      }
      if player.x > LEVEL_LENGTH + 200.0 {
        calls := calls + [LevelComplete];
      }
      wasScreaming := isScreaming;
    }
  }
}
