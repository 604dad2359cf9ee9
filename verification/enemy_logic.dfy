// Enemies of the grid stage: passability, line of sight, the per-tick state
// machine (patrol / chase / stunned), spawning and stunning.

module EnemyLogic {
  import opened Common
  import opened Level3Types

  const SIGHT_RANGE: int := 3
  const STUN_DURATION: real := 120.0
  /** Centre-to-centre distance below which a moving enemy catches the player. */
  const CONTACT_DISTANCE: real := 35.0
  const CHASE_FACTOR: real := 1.3
  const ALIGN_RATE: real := 2.5
  const SPAWN_COUNT: int := 3
  const MAX_SPAWN_ATTEMPTS: int := 1000
  const SPAWN_SPEED: real := 1.5

  /** Pixel coordinates that centre a 40 x 50 figure in a cell. */
  function LaneX(col: int): real { col as real * TILE_SIZE + (TILE_SIZE - PLAYER_WIDTH) / 2.0 }
  function LaneY(row: int): real { row as real * TILE_SIZE + (TILE_SIZE - PLAYER_HEIGHT) / 2.0 }

  function DistSq(x1: real, y1: real, x2: real, y2: real): real
  {
    (x1 - x2) * (x1 - x2) + (y1 - y2) * (y1 - y2)
  }

  function CellDistSq(c1: int, r1: int, c2: int, r2: int): int
  {
    (c1 - c2) * (c1 - c2) + (r1 - r2) * (r1 - r2)
  }

  /**
   * Whether an enemy may enter a cell. Unlike the player, an enemy gets no
   * exemption for a bomb it is standing on.
   */
  predicate IsCellPassable(soft: seq<SoftBlock>, bombs: seq<Bomb>, col: int, row: int)
  {
    if !InInterior(col, row) then false
    else if IsHardCell(col, row) then false
    else if HasSoftBlockAt(soft, col, row) then false
    else if HasBombAt(bombs, col, row) then false
    else true
  }

  lemma PassableMeansFree(soft: seq<SoftBlock>, bombs: seq<Bomb>, col: int, row: int)
    ensures IsCellPassable(soft, bombs, col, row) <==>
      InInterior(col, row) && !IsHardCell(col, row) &&
      !HasSoftBlockAt(soft, col, row) && !HasBombAt(bombs, col, row)
    ensures HasBombAt(bombs, col, row) ==> !IsCellPassable(soft, bombs, col, row)
  {
  }

  // ---------------------------------------------------------------- sight

  datatype Sight = Sees | Blind | Hangs

  /** The k-th cell of a column (vertical) or of a row (horizontal). */
  function LineCol(vertical: bool, fixed: int, k: int): int { if vertical then fixed else k }
  function LineRow(vertical: bool, fixed: int, k: int): int { if vertical then k else fixed }

  /** Every cell strictly between positions `from` and `to` of the line is passable. */
  predicate LineClear(soft: seq<SoftBlock>, bombs: seq<Bomb>, vertical: bool, fixed: int, from: int, to: int)
  {
    forall k | (if from < to then from else to) < k < (if from < to then to else from) ::
      IsCellPassable(soft, bombs, LineCol(vertical, fixed, k), LineRow(vertical, fixed, k))
  }

  /**
   * What the scan loop of the sight check ends with, from `from` toward `to`.
   * With from == to the step is 0: the loop keeps re-testing the cell just
   * before `from` and only stops if that cell is impassable.
   */
  function ScanOutcome(soft: seq<SoftBlock>, bombs: seq<Bomb>, vertical: bool, fixed: int, from: int, to: int): (r: Sight)
    ensures r == Hangs <==> from == to && IsCellPassable(soft, bombs, LineCol(vertical, fixed, from - 1), LineRow(vertical, fixed, from - 1))
    ensures r == Sees <==> from != to && LineClear(soft, bombs, vertical, fixed, from, to)
  {
    if from == to then
      (if IsCellPassable(soft, bombs, LineCol(vertical, fixed, from - 1), LineRow(vertical, fixed, from - 1)) then Hangs else Blind)
    else if LineClear(soft, bombs, vertical, fixed, from, to) then Sees
    else Blind
  }

  /**
   * The scan loop itself: walk from the cell after `from` toward `to`,
   * stopping at the first impassable cell. The source's loop never ends in
   * the `Hangs` case; the model reports it instead of looping.
   */
  method ScanLine(soft: seq<SoftBlock>, bombs: seq<Bomb>, vertical: bool, fixed: int, from: int, to: int)
    returns (res: Sight)
    ensures res == ScanOutcome(soft, bombs, vertical, fixed, from, to)
  {
    var step := if to - from > 0 then 1 else if to - from < 0 then -1 else 0;
    var k := from + (if step > 0 then 1 else -1);
    if step == 0 {
      // k never moves: the first test decides between leaving and spinning
      if !IsCellPassable(soft, bombs, LineCol(vertical, fixed, k), LineRow(vertical, fixed, k)) {
        return Blind;
      }
      return Hangs;
    }
    var blocked := false;
    while k != to
      invariant if step > 0 then from < k <= to else to <= k < from
      invariant forall j | (if from < to then from else k) < j < (if from < to then k else from) ::
        IsCellPassable(soft, bombs, LineCol(vertical, fixed, j), LineRow(vertical, fixed, j))
      decreases if step > 0 then to - k else k - to
    {
      if !IsCellPassable(soft, bombs, LineCol(vertical, fixed, k), LineRow(vertical, fixed, k)) {
        blocked := true;
        break;
      }
      k := k + step;
    }
    res := if blocked then Blind else Sees;
  }

  /**
   * The sight check of one enemy at (col, row) against the player cell:
   * first the shared column within range, otherwise the shared row.
   */
  function SightOf(soft: seq<SoftBlock>, bombs: seq<Bomb>, col: int, row: int, pCol: int, pRow: int): (r: Sight)
    ensures r == Sees ==>
      (col == pCol && 0 < AbsInt(row - pRow) <= SIGHT_RANGE && LineClear(soft, bombs, true, col, row, pRow)) ||
      (row == pRow && 0 < AbsInt(col - pCol) <= SIGHT_RANGE && LineClear(soft, bombs, false, row, col, pCol))
    ensures r == Hangs <==> col == pCol && row == pRow && IsCellPassable(soft, bombs, col, row - 1)
  {
    if col == pCol && AbsInt(row - pRow) <= SIGHT_RANGE then ScanOutcome(soft, bombs, true, col, row, pRow)
    else if row == pRow && AbsInt(col - pCol) <= SIGHT_RANGE then ScanOutcome(soft, bombs, false, row, col, pCol)
    else Blind
  }

  /** The direction an enemy turns to when it sees the player. */
  function Toward(col: int, row: int, pCol: int, pRow: int): Dir
  {
    if col == pCol then (if pRow - row > 0 then Down else Up)
    else (if pCol - col > 0 then Right else Left)
  }

  // ---------------------------------------------------------- one enemy

  /** A stunned enemy only counts its stun down and wakes up on patrol. */
  function StunTick(e: Enemy, timeScale: real): (r: Enemy)
    requires e.mode == Stunned
    ensures r.x == e.x && r.y == e.y && r.dir == e.dir && r.frame == e.frame && r.speed == e.speed
    ensures r.stunTimer == e.stunTimer - timeScale
    ensures r.mode == (if e.stunTimer - timeScale <= 0.0 then Patrol else Stunned)
  {
    var t := e.stunTimer - timeScale;
    e.(stunTimer := t, mode := if t <= 0.0 then Patrol else Stunned)
  }

  /** Mode and facing after the sight check. */
  function AfterSight(e: Enemy, sight: Sight, toward: Dir): (r: Enemy)
    requires e.mode != Stunned
    ensures r.x == e.x && r.y == e.y && r.speed == e.speed && r.frame == e.frame && r.stunTimer == e.stunTimer
    ensures sight == Sees ==> r.mode == Chase && r.dir == toward
    ensures sight != Sees ==> r.mode == Patrol && r.dir == e.dir
  {
    if sight == Sees then e.(mode := Chase, dir := toward)
    else if e.mode == Chase then e.(mode := Patrol)
    else assert e.mode == Patrol; e
  }

  function MoveSpeed(e: Enemy, timeScale: real): real
  {
    (if e.mode == Chase then e.speed * CHASE_FACTOR else e.speed) * timeScale
  }

  /**
   * Rail alignment: an enemy walking horizontally is pulled toward the
   * centre line of its row, one walking vertically toward that of its column.
   */
  function Realign(e: Enemy, col: int, row: int, timeScale: real): (r: Enemy)
    requires timeScale > 0.0
    ensures r.dir == e.dir && r.mode == e.mode && r.speed == e.speed && r.frame == e.frame && r.stunTimer == e.stunTimer
    ensures e.dir == Left || e.dir == Right ==>
      r.x == e.x && Abs(r.y - e.y) <= ALIGN_RATE * timeScale &&
      Abs(LaneY(row) - r.y) <= Abs(LaneY(row) - e.y) &&
      (e.y <= LaneY(row) ==> e.y <= r.y <= LaneY(row)) && (LaneY(row) <= e.y ==> LaneY(row) <= r.y <= e.y)
    ensures e.dir == Up || e.dir == Down ==>
      r.y == e.y && Abs(r.x - e.x) <= ALIGN_RATE * timeScale &&
      Abs(LaneX(col) - r.x) <= Abs(LaneX(col) - e.x) &&
      (e.x <= LaneX(col) ==> e.x <= r.x <= LaneX(col)) && (LaneX(col) <= e.x ==> LaneX(col) <= r.x <= e.x)
  {
    if e.dir == Left || e.dir == Right then
      var diffY := LaneY(row) - e.y;
      if Abs(diffY) > 0.1 then e.(y := e.y + BoundedStep(diffY, ALIGN_RATE * timeScale)) else e
    else
      var diffX := LaneX(col) - e.x;
      if Abs(diffX) > 0.1 then e.(x := e.x + BoundedStep(diffX, ALIGN_RATE * timeScale)) else e
  }

  function Neighbour(col: int, row: int, d: Dir): Cell
  {
    match d
    case Left => Cell(col - 1, row)
    case Right => Cell(col + 1, row)
    case Up => Cell(col, row - 1)
    case Down => Cell(col, row + 1)
  }

  /** The directions, in the order up, down, left, right, whose neighbour cell is passable. */
  function ValidDirs(soft: seq<SoftBlock>, bombs: seq<Bomb>, col: int, row: int): (r: seq<Dir>)
    ensures forall d :: d in r <==> IsCellPassable(soft, bombs, Neighbour(col, row, d).col, Neighbour(col, row, d).row)
    ensures |r| <= 4
  {
    (if IsCellPassable(soft, bombs, col, row - 1) then [Up] else []) +
    (if IsCellPassable(soft, bombs, col, row + 1) then [Down] else []) +
    (if IsCellPassable(soft, bombs, col - 1, row) then [Left] else []) +
    (if IsCellPassable(soft, bombs, col + 1, row) then [Right] else [])
  }

  function StepX(d: Dir, speed: real): real { if d == Left then -speed else if d == Right then speed else 0.0 }
  function StepY(d: Dir, speed: real): real { if d == Up then -speed else if d == Down then speed else 0.0 }

  /** The cell the enemy's leading edge would enter (15 px and 20 px ahead of its centre). */
  function ProbeCell(e: Enemy, dx: real, dy: real): Cell
  {
    Cell(CellIndex(e.x + dx + ENEMY_HALF_WIDTH + Sign(dx) * 15.0),
         CellIndex(e.y + dy + ENEMY_HALF_HEIGHT + Sign(dy) * 20.0))
  }

  /**
   * One movement step from (col, row): advance if the probed cell is
   * passable, otherwise stay put, turn to a random passable neighbour
   * direction (if any) and fall back to patrol.
   */
  function Advance(soft: seq<SoftBlock>, bombs: seq<Bomb>, e: Enemy, col: int, row: int, speed: real, roll: real): (r: Enemy)
    requires 0.0 <= roll < 1.0
    ensures r.speed == e.speed && r.frame == e.frame && r.stunTimer == e.stunTimer
    ensures var probe := ProbeCell(e, StepX(e.dir, speed), StepY(e.dir, speed));
      if IsCellPassable(soft, bombs, probe.col, probe.row) then
        r.x == e.x + StepX(e.dir, speed) && r.y == e.y + StepY(e.dir, speed) && r.dir == e.dir && r.mode == e.mode
      else
        r.x == e.x && r.y == e.y && r.mode == Patrol &&
        (if ValidDirs(soft, bombs, col, row) == [] then r.dir == e.dir
         else IsCellPassable(soft, bombs, Neighbour(col, row, r.dir).col, Neighbour(col, row, r.dir).row))
  {
    var dx := StepX(e.dir, speed);
    var dy := StepY(e.dir, speed);
    var probe := ProbeCell(e, dx, dy);
    if IsCellPassable(soft, bombs, probe.col, probe.row) then
      e.(x := e.x + dx, y := e.y + dy)
    else
      var valid := ValidDirs(soft, bombs, col, row);
      var d := if |valid| > 0 then valid[PickIndex(roll, |valid|)] else e.dir;
      e.(dir := d, mode := Patrol)
  }

  datatype EnemyOutcome = EnemyOutcome(enemy: Enemy, contact: bool, hung: bool)

  /**
   * One enemy's tick against the player whose hitbox centre is (px, py).
   * `contact` says the game-over callback fires; `hung` says the sight scan
   * never returns.
   */
  function Tick(soft: seq<SoftBlock>, bombs: seq<Bomb>, e: Enemy, px: real, py: real, timeScale: real, roll: real): (r: EnemyOutcome)
    requires timeScale > 0.0 && 0.0 <= roll < 1.0
  {
    if e.mode == Stunned then EnemyOutcome(StunTick(e, timeScale), false, false)
    else
      var cell := EnemyCell(e);
      ActiveTick(soft, bombs, e, px, py, timeScale, roll, SightOf(soft, bombs, cell.col, cell.row, CellIndex(px), CellIndex(py)))
  }

  /** The tick of an enemy that is not stunned, once its sight check has given `sight`. */
  function ActiveTick(soft: seq<SoftBlock>, bombs: seq<Bomb>, e: Enemy, px: real, py: real, timeScale: real, roll: real, sight: Sight): EnemyOutcome
    requires timeScale > 0.0 && 0.0 <= roll < 1.0 && e.mode != Stunned
  {
    var e1 := e.(frame := e.frame + timeScale);
    var cell := EnemyCell(e);
    var contact := DistSq(e.x + ENEMY_HALF_WIDTH, e.y + ENEMY_HALF_HEIGHT, px, py) < CONTACT_DISTANCE * CONTACT_DISTANCE;
    if sight == Hangs then EnemyOutcome(e1, contact, true)
    else
      var e2 := AfterSight(e1, sight, Toward(cell.col, cell.row, CellIndex(px), CellIndex(py)));
      var e3 := Realign(e2, cell.col, cell.row, timeScale);
      EnemyOutcome(Advance(soft, bombs, e3, cell.col, cell.row, MoveSpeed(e2, timeScale), roll), contact, false)
  }

  /**
   * The rules of one tick: a stunned enemy is harmless and only counts down;
   * any other enemy catches the player within 35 px; the scan hangs exactly
   * when enemy and player share a cell whose upper neighbour is passable; and
   * an enemy ends a tick chasing only if it saw the player and faces them.
   */
  lemma TickRules(soft: seq<SoftBlock>, bombs: seq<Bomb>, e: Enemy, px: real, py: real, timeScale: real, roll: real)
    requires timeScale > 0.0 && 0.0 <= roll < 1.0
    ensures var r := Tick(soft, bombs, e, px, py, timeScale, roll);
      e.mode == Stunned ==> !r.contact && !r.hung && r.enemy == StunTick(e, timeScale)
    ensures var r := Tick(soft, bombs, e, px, py, timeScale, roll);
      e.mode != Stunned ==>
        (r.contact <==> DistSq(e.x + ENEMY_HALF_WIDTH, e.y + ENEMY_HALF_HEIGHT, px, py) < CONTACT_DISTANCE * CONTACT_DISTANCE)
    ensures var r := Tick(soft, bombs, e, px, py, timeScale, roll);
      r.hung <==> e.mode != Stunned && EnemyCell(e) == Cell(CellIndex(px), CellIndex(py)) &&
                  IsCellPassable(soft, bombs, EnemyCell(e).col, EnemyCell(e).row - 1)
    ensures var r := Tick(soft, bombs, e, px, py, timeScale, roll);
      !r.hung && e.mode != Stunned ==> r.enemy.frame == e.frame + timeScale && r.enemy.mode != Stunned
    ensures var r := Tick(soft, bombs, e, px, py, timeScale, roll);
      !r.hung && r.enemy.mode == Chase ==>
        SightOf(soft, bombs, EnemyCell(e).col, EnemyCell(e).row, CellIndex(px), CellIndex(py)) == Sees &&
        r.enemy.dir == Toward(EnemyCell(e).col, EnemyCell(e).row, CellIndex(px), CellIndex(py))
  {
  }

  /** A cell shared by an enemy and the player with an open cell above it hangs the scan. */
  lemma SharedCellHangs(soft: seq<SoftBlock>, bombs: seq<Bomb>, e: Enemy, px: real, py: real, timeScale: real, roll: real)
    requires timeScale > 0.0 && 0.0 <= roll < 1.0
    requires e.mode != Stunned && EnemyCell(e) == Cell(CellIndex(px), CellIndex(py))
    requires IsCellPassable(soft, bombs, EnemyCell(e).col, EnemyCell(e).row - 1)
    ensures Tick(soft, bombs, e, px, py, timeScale, roll).hung
  {
  }

  // ---------------------------------------------------------- all enemies

  /** Ash piles fade by 0.01 per unit of time and vanish at zero. */
  function FadeAsh(ash: seq<AshPile>, timeScale: real): (r: seq<AshPile>)
    ensures |r| <= |ash|
    ensures forall a :: a in r ==> a.life > 0.0
    ensures forall a :: a in r ==> exists b :: b in ash && a == b.(life := b.life - 0.01 * timeScale)
  {
    if ash == [] then []
    else
      var a := ash[0].(life := ash[0].life - 0.01 * timeScale);
      (if a.life <= 0.0 then [] else [a]) + FadeAsh(ash[1..], timeScale)
  }

  /**
   * The body of the `forEach` for one enemy: the sight scan runs as a loop,
   * the rest of the tick follows from its outcome.
   */
  method TickEnemy(soft: seq<SoftBlock>, bombs: seq<Bomb>, e: Enemy, px: real, py: real, timeScale: real, roll: real)
    returns (o: EnemyOutcome)
    requires timeScale > 0.0 && 0.0 <= roll < 1.0
    ensures o == Tick(soft, bombs, e, px, py, timeScale, roll)
  {
    if e.mode == Stunned {
      return EnemyOutcome(StunTick(e, timeScale), false, false);
    }
    var pCol := CellIndex(px);
    var pRow := CellIndex(py);
    var col := CellIndex(e.x + ENEMY_HALF_WIDTH);
    var row := CellIndex(e.y + ENEMY_HALF_HEIGHT);
    var sight := Blind;
    if col == pCol && AbsInt(row - pRow) <= SIGHT_RANGE {
      sight := ScanLine(soft, bombs, true, col, row, pRow);
    } else if row == pRow && AbsInt(col - pCol) <= SIGHT_RANGE {
      sight := ScanLine(soft, bombs, false, row, col, pCol);
    }
    assert EnemyCell(e) == Cell(col, row);
    assert sight == SightOf(soft, bombs, col, row, pCol, pRow);
    o := ActiveTick(soft, bombs, e, px, py, timeScale, roll, sight);
  }

  /** Some enemy among the first n reaches the player this frame. */
  ghost predicate ContactAmong(soft: seq<SoftBlock>, bombs: seq<Bomb>, enemies: seq<Enemy>, px: real, py: real,
                               timeScale: real, rand: nat -> real, n: nat)
    requires timeScale > 0.0 && IsRandomStream(rand) && n <= |enemies|
  {
    exists j :: 0 <= j < n && Tick(soft, bombs, enemies[j], px, py, timeScale, rand(j)).contact
  }

  /** Enemy h is the first whose sight scan never returns. */
  ghost predicate FirstHang(soft: seq<SoftBlock>, bombs: seq<Bomb>, enemies: seq<Enemy>, px: real, py: real,
                            timeScale: real, rand: nat -> real, h: nat)
    requires timeScale > 0.0 && IsRandomStream(rand) && h < |enemies|
  {
    Tick(soft, bombs, enemies[h], px, py, timeScale, rand(h)).hung &&
    forall j :: 0 <= j < h ==> !Tick(soft, bombs, enemies[j], px, py, timeScale, rand(j)).hung
  }

  /**
   * The `forEach` over the enemies: enemy i ticks with draw rand(i) against
   * the same blocks, bombs and player; a hung scan stops the frame there,
   * after the game-over calls of the enemies up to and including it.
   */
  method TickAll(soft: seq<SoftBlock>, bombs: seq<Bomb>, enemies: seq<Enemy>, px: real, py: real,
                 timeScale: real, rand: nat -> real)
    returns (next: seq<Enemy>, gameOver: bool, hung: bool)
    requires timeScale > 0.0 && IsRandomStream(rand)
    ensures hung <==> (exists i :: 0 <= i < |enemies| && Tick(soft, bombs, enemies[i], px, py, timeScale, rand(i)).hung)
    ensures !hung ==> |next| == |enemies|
    ensures !hung ==> forall i :: 0 <= i < |enemies| ==> next[i] == Tick(soft, bombs, enemies[i], px, py, timeScale, rand(i)).enemy
    ensures !hung ==> (gameOver <==> (exists i :: 0 <= i < |enemies| && Tick(soft, bombs, enemies[i], px, py, timeScale, rand(i)).contact))
    ensures hung ==>
      exists h :: 0 <= h < |enemies| && FirstHang(soft, bombs, enemies, px, py, timeScale, rand, h) &&
        (gameOver <==> ContactAmong(soft, bombs, enemies, px, py, timeScale, rand, h + 1))
  {
    ghost var outs := Outcomes(soft, bombs, enemies, px, py, timeScale, rand, |enemies|);
    OutcomesAreTicks(soft, bombs, enemies, px, py, timeScale, rand);
    next := enemies;
    gameOver, hung := false, false;
    var i := 0;
    while i < |enemies|
      invariant 0 <= i <= |enemies| == |next|
      invariant forall j :: 0 <= j < i ==> next[j] == outs[j].enemy && !outs[j].hung
      invariant gameOver <==> (exists j :: 0 <= j < i && outs[j].contact)
    {
      var o := TickEnemy(soft, bombs, enemies[i], px, py, timeScale, rand(i));
      OutcomeAt(soft, bombs, enemies, px, py, timeScale, rand, |enemies|, i);
      assert o == outs[i];
      if o.contact {
        gameOver := true;
      }
      if o.hung {
        hung := true;
        assert FirstHang(soft, bombs, enemies, px, py, timeScale, rand, i);
        assert gameOver <==> ContactAmong(soft, bombs, enemies, px, py, timeScale, rand, i + 1);
        return;
      }
      next := next[i := o.enemy];
      i := i + 1;
    }
  }

  /** The outcomes of enemies 0 .. n-1, each ticked with its own draw against the same world. */
  ghost function Outcomes(soft: seq<SoftBlock>, bombs: seq<Bomb>, enemies: seq<Enemy>, px: real, py: real,
                          timeScale: real, rand: nat -> real, n: nat): (r: seq<EnemyOutcome>)
    requires timeScale > 0.0 && IsRandomStream(rand) && n <= |enemies|
    ensures |r| == n
  {
    if n == 0 then []
    else Outcomes(soft, bombs, enemies, px, py, timeScale, rand, n - 1) + [Tick(soft, bombs, enemies[n - 1], px, py, timeScale, rand(n - 1))]
  }

  lemma {:induction false} OutcomeAt(soft: seq<SoftBlock>, bombs: seq<Bomb>, enemies: seq<Enemy>, px: real, py: real,
                                     timeScale: real, rand: nat -> real, n: nat, j: nat)
    requires timeScale > 0.0 && IsRandomStream(rand) && j < n <= |enemies|
    ensures Outcomes(soft, bombs, enemies, px, py, timeScale, rand, n)[j] == Tick(soft, bombs, enemies[j], px, py, timeScale, rand(j))
    decreases n
  {
    if j < n - 1 {
      OutcomeAt(soft, bombs, enemies, px, py, timeScale, rand, n - 1, j);
    }
  }

  lemma OutcomesAreTicks(soft: seq<SoftBlock>, bombs: seq<Bomb>, enemies: seq<Enemy>, px: real, py: real,
                         timeScale: real, rand: nat -> real)
    requires timeScale > 0.0 && IsRandomStream(rand)
    ensures forall j :: 0 <= j < |enemies| ==>
      Outcomes(soft, bombs, enemies, px, py, timeScale, rand, |enemies|)[j] == Tick(soft, bombs, enemies[j], px, py, timeScale, rand(j))
  {
    forall j | 0 <= j < |enemies|
      ensures Outcomes(soft, bombs, enemies, px, py, timeScale, rand, |enemies|)[j] == Tick(soft, bombs, enemies[j], px, py, timeScale, rand(j))
    {
      OutcomeAt(soft, bombs, enemies, px, py, timeScale, rand, |enemies|, j);
    }
  }

  /**
   * The per-frame enemy update (updateEnemies). Each enemy ticks against the
   * unchanged world with draw `rand(i)`; if some enemy's sight scan would
   * never return, the update stops there with `hung`. Then ash piles fade.
   */
  method UpdateEnemies(s: Level3State, timeScale: real, rand: nat -> real) returns (gameOver: bool, hung: bool)
    requires timeScale > 0.0 && IsRandomStream(rand)
    modifies s`enemies, s`ashPiles
    ensures hung <==>
      (exists i :: 0 <= i < |old(s.enemies)| && Tick(s.softBlocks, s.bombs, old(s.enemies)[i], CentreX(s.player), CentreY(s.player), timeScale, rand(i)).hung)
    ensures !hung ==> |s.enemies| == |old(s.enemies)|
    ensures !hung ==> forall i :: 0 <= i < |s.enemies| ==>
      s.enemies[i] == Tick(s.softBlocks, s.bombs, old(s.enemies)[i], CentreX(s.player), CentreY(s.player), timeScale, rand(i)).enemy
    ensures !hung ==> (gameOver <==>
      (exists i :: 0 <= i < |old(s.enemies)| && Tick(s.softBlocks, s.bombs, old(s.enemies)[i], CentreX(s.player), CentreY(s.player), timeScale, rand(i)).contact))
    ensures !hung ==> s.ashPiles == FadeAsh(old(s.ashPiles), timeScale)
    ensures hung ==>
      exists h :: 0 <= h < |old(s.enemies)| &&
        FirstHang(s.softBlocks, s.bombs, old(s.enemies), CentreX(s.player), CentreY(s.player), timeScale, rand, h) &&
        (gameOver <==> ContactAmong(s.softBlocks, s.bombs, old(s.enemies), CentreX(s.player), CentreY(s.player), timeScale, rand, h + 1))
    ensures hung ==> s.enemies == old(s.enemies) && s.ashPiles == old(s.ashPiles)
  {
    var next;
    next, gameOver, hung := TickAll(s.softBlocks, s.bombs, s.enemies, CentreX(s.player), CentreY(s.player), timeScale, rand);
    if hung {
      return;
    }
    s.enemies := next;
    s.ashPiles := FadeAshInPlace(s.ashPiles, timeScale);
  }

  /** The backward splice loop over the ash piles. */
  method FadeAshInPlace(ash: seq<AshPile>, timeScale: real) returns (r: seq<AshPile>)
    ensures r == FadeAsh(ash, timeScale)
  {
    r := ash;
    var i := |ash|;
    assert ash[|ash|..] == [];
    while i > 0
      invariant 0 <= i <= |ash|
      invariant r == ash[..i] + FadeAsh(ash[i..], timeScale)
    {
      i := i - 1;
      FadeAshSplice(ash, i, timeScale, r);
      var a := r[i].(life := r[i].life - 0.01 * timeScale);
      if a.life <= 0.0 {
        r := r[..i] + r[i + 1..];
      } else {
        r := r[i := a];
      }
    }
    assert ash[0..] == ash;
  }

  /** One step of the splice loop: pile i is faded in place, or spliced out once spent. */
  lemma FadeAshSplice(ash: seq<AshPile>, i: nat, timeScale: real, r: seq<AshPile>)
    requires i < |ash| && r == ash[..i + 1] + FadeAsh(ash[i + 1..], timeScale)
    ensures i < |r| && r[i] == ash[i]
    ensures var a := ash[i].(life := ash[i].life - 0.01 * timeScale);
      (a.life <= 0.0 ==> r[..i] + r[i + 1..] == ash[..i] + FadeAsh(ash[i..], timeScale)) &&
      (a.life > 0.0 ==> r[i := a] == ash[..i] + FadeAsh(ash[i..], timeScale))
  {
    var prefix := ash[..i];
    var tail := FadeAsh(ash[i + 1..], timeScale);
    assert ash[..i + 1] == prefix + [ash[i]];
    assert r == prefix + [ash[i]] + tail;
    assert r[..i] == prefix && r[i + 1..] == tail;
    assert ash[i..][1..] == ash[i + 1..];
    var a := ash[i].(life := ash[i].life - 0.01 * timeScale);
    if a.life > 0.0 {
      assert r[i := a] == prefix + [a] + tail;
    }
  }

  // ------------------------------------------------------------- spawning

  /** An enemy freshly placed in the middle of cell (c, r). */
  function SpawnedEnemy(c: int, r: int, dirRoll: real, frameRoll: real): Enemy
  {
    Enemy(LaneX(c), LaneY(r), if dirRoll > 0.5 then Down else Right, Patrol, SPAWN_SPEED, frameRoll * 100.0, 0.0)
  }

  /** A spawned enemy is found again in the cell it was placed in. */
  lemma SpawnedEnemyCell(c: int, r: int, dirRoll: real, frameRoll: real)
    ensures EnemyCell(SpawnedEnemy(c, r, dirRoll, frameRoll)) == Cell(c, r)
  {
    var e := SpawnedEnemy(c, r, dirRoll, frameRoll);
    assert (e.x + ENEMY_HALF_WIDTH) / TILE_SIZE == c as real + 0.5;
    assert (e.y + ENEMY_HALF_HEIGHT) / TILE_SIZE == r as real + 0.5;
  }

  /**
   * The spawn rules for cell (c, r): not a table, no partition, no bomb, at
   * least 5 cells from the player and at least 4 from every enemy already
   * placed (distances compared squared).
   */
  predicate SpawnCellOk(soft: seq<SoftBlock>, bombs: seq<Bomb>, pCol: int, pRow: int, placed: seq<Enemy>, c: int, r: int)
  {
    !IsHardCell(c, r) && !HasSoftBlockAt(soft, c, r) && !HasBombAt(bombs, c, r) &&
    CellDistSq(c, r, pCol, pRow) >= 25 &&
    forall k :: 0 <= k < |placed| ==> CellDistSq(c, r, EnemyCell(placed[k]).col, EnemyCell(placed[k]).row) >= 16
  }

  /** What every enemy of a fresh room looks like. */
  predicate WellSpawned(soft: seq<SoftBlock>, bombs: seq<Bomb>, pCol: int, pRow: int, e: Enemy)
  {
    var cell := EnemyCell(e);
    IsCellPassable(soft, bombs, cell.col, cell.row) &&
    CellDistSq(cell.col, cell.row, pCol, pRow) >= 25 &&
    e.x == LaneX(cell.col) && e.y == LaneY(cell.row) &&
    e.mode == Patrol && e.speed == SPAWN_SPEED && e.stunTimer == 0.0 &&
    (e.dir == Down || e.dir == Right) && 0.0 <= e.frame < 100.0
  }

  /**
   * The rejection-sampling loop of spawnEnemiesForRoom, around a player in
   * cell (pCol, pRow). Each attempt draws a column and a row; an accepted
   * cell draws an id, a direction and a frame. `attempts` counts attempts.
   */
  method SpawnPlan(soft: seq<SoftBlock>, bombs: seq<Bomb>, pCol: int, pRow: int, rand: nat -> real)
    returns (enemies: seq<Enemy>, attempts: int)
    requires IsRandomStream(rand)
    ensures |enemies| <= SPAWN_COUNT && 0 <= attempts <= MAX_SPAWN_ATTEMPTS
    ensures |enemies| < SPAWN_COUNT ==> attempts == MAX_SPAWN_ATTEMPTS
    ensures forall i :: 0 <= i < |enemies| ==> WellSpawned(soft, bombs, pCol, pRow, enemies[i])
    ensures forall i, j :: 0 <= i < j < |enemies| ==>
      CellDistSq(EnemyCell(enemies[j]).col, EnemyCell(enemies[j]).row, EnemyCell(enemies[i]).col, EnemyCell(enemies[i]).row) >= 16
  {
    enemies, attempts := [], 0;
    var k: nat := 0;
    while |enemies| < SPAWN_COUNT && attempts < MAX_SPAWN_ATTEMPTS
      invariant |enemies| <= SPAWN_COUNT && 0 <= attempts <= MAX_SPAWN_ATTEMPTS
      invariant forall i :: 0 <= i < |enemies| ==> WellSpawned(soft, bombs, pCol, pRow, enemies[i])
      invariant forall i, j :: 0 <= i < j < |enemies| ==>
        CellDistSq(EnemyCell(enemies[j]).col, EnemyCell(enemies[j]).row, EnemyCell(enemies[i]).col, EnemyCell(enemies[i]).row) >= 16
      decreases MAX_SPAWN_ATTEMPTS - attempts
    {
      attempts := attempts + 1;
      var c := PickFrom(rand(k), 1, COLS - 2);
      var r := PickFrom(rand(k + 1), 1, ROWS - 2);
      k := k + 2;
      if !SpawnCellOk(soft, bombs, pCol, pRow, enemies, c, r) {
        continue;
      }
      // rand(k) is spent on the enemy's id
      var e := SpawnedEnemy(c, r, rand(k + 1), rand(k + 2));
      k := k + 3;
      SpawnedEnemyCell(c, r, rand(k - 2), rand(k - 1));
      enemies := enemies + [e];
    }
  }

  /**
   * spawnEnemiesForRoom: a fresh set of enemies, spaced apart, and no ash.
   * Fewer than SPAWN_COUNT enemies come only once every attempt is spent.
   */
  method SpawnEnemiesForRoom(s: Level3State, rand: nat -> real) returns (attempts: int)
    requires IsRandomStream(rand)
    modifies s`enemies, s`ashPiles
    ensures s.ashPiles == []
    ensures |s.enemies| <= SPAWN_COUNT && 0 <= attempts <= MAX_SPAWN_ATTEMPTS
    ensures |s.enemies| < SPAWN_COUNT ==> attempts == MAX_SPAWN_ATTEMPTS
    ensures forall i :: 0 <= i < |s.enemies| ==>
      WellSpawned(s.softBlocks, s.bombs, PlayerCell(s.player).col, PlayerCell(s.player).row, s.enemies[i])
    ensures forall i, j :: 0 <= i < j < |s.enemies| ==>
      CellDistSq(EnemyCell(s.enemies[j]).col, EnemyCell(s.enemies[j]).row,
                 EnemyCell(s.enemies[i]).col, EnemyCell(s.enemies[i]).row) >= 16
  {
    var cell := PlayerCell(s.player);
    s.enemies, attempts := SpawnPlan(s.softBlocks, s.bombs, cell.col, cell.row, rand);
    s.ashPiles := [];
  }

  // ------------------------------------------------------------- stunning

  /** Whether an enemy's cell lies within `radius` cells (Euclidean) of (col, row). */
  predicate InStunRadius(e: Enemy, col: int, row: int, radius: int)
  {
    radius >= 0 && CellDistSq(EnemyCell(e).col, EnemyCell(e).row, col, row) <= radius * radius
  }

  /** One enemy under a stun blast: within the radius it is (re)stunned for the full duration. */
  function StunIfNear(e: Enemy, col: int, row: int, radius: int): (r: Enemy)
    ensures InStunRadius(e, col, row, radius) ==>
      r.mode == Stunned && r.stunTimer == STUN_DURATION &&
      r.x == e.x && r.y == e.y && r.dir == e.dir && r.speed == e.speed && r.frame == e.frame
    ensures !InStunRadius(e, col, row, radius) ==> r == e
  {
    if InStunRadius(e, col, row, radius) then e.(mode := Stunned, stunTimer := STUN_DURATION) else e
  }

  /**
   * The forEach of stunEnemiesInRadius. `stunnedSomeone` says that an enemy
   * within the radius was not stunned before, which is when the player comments.
   */
  method StunEnemiesInRadius(enemies: seq<Enemy>, col: int, row: int, radius: int)
    returns (next: seq<Enemy>, stunnedSomeone: bool)
    ensures |next| == |enemies|
    ensures forall i :: 0 <= i < |enemies| ==> next[i] == StunIfNear(enemies[i], col, row, radius)
    ensures stunnedSomeone <==>
      (exists i :: 0 <= i < |enemies| && InStunRadius(enemies[i], col, row, radius) && enemies[i].mode != Stunned)
  {
    next, stunnedSomeone := enemies, false;
    var i := 0;
    while i < |enemies|
      invariant 0 <= i <= |enemies| == |next|
      invariant next[i..] == enemies[i..]
      invariant forall j :: 0 <= j < i ==> next[j] == StunIfNear(enemies[j], col, row, radius)
      invariant stunnedSomeone <==>
        (exists j :: 0 <= j < i && InStunRadius(enemies[j], col, row, radius) && enemies[j].mode != Stunned)
    {
      var e := next[i];
      assert e == enemies[i];
      if InStunRadius(e, col, row, radius) {
        if e.mode != Stunned {
          stunnedSomeone := true;
        }
        next := next[i := e.(mode := Stunned, stunTimer := STUN_DURATION)];
      }
      i := i + 1;
    }
  }
}
