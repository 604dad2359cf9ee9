// Bombs of the grid stage: placing one under the player, the cross-shaped
// blast that breaks partitions, fuses neighbouring bombs, burns enemies and
// stuns the rest, and the per-frame countdown of bombs, flames and charges.

module BombLogic {
  import opened Common
  import opened Level3Types
  import opened EnemyLogic

  const BOMB_TIMER: real := 120.0
  const BLAST_RADIUS: int := 1
  const RECHARGE_TIME: real := 180.0
  /** A bomb caught in a blast is left with this much fuse at most. */
  const FUSE_TIMER: real := 2.0
  /** Survivors within this many cells of the blast centre are stunned. */
  const STUN_RADIUS: int := 3
  const EXPLOSION_FADE: real := 0.02

  /** The four arms of the blast, in the order up, down, left, right. */
  const DIRECTIONS: seq<(int, int)> := [(0, -1), (0, 1), (-1, 0), (1, 0)]

  // ------------------------------------------------------------- placing

  /** Whether a bomb may go into `cell`: a charge is left and the cell is free floor. */
  predicate CanPlaceBomb(charges: int, soft: seq<SoftBlock>, bombs: seq<Bomb>, cell: Cell)
  {
    charges > 0 && InInterior(cell.col, cell.row) && !IsHardCell(cell.col, cell.row) &&
    !HasSoftBlockAt(soft, cell.col, cell.row) && !HasBombAt(bombs, cell.col, cell.row)
  }

  /**
   * placeBomb: spend a charge, start its recharge timer and drop a bomb in
   * the cell of the player's centre, unless one of the checks refuses.
   */
  method PlaceBomb(s: Level3State)
    modifies s`bombCharges, s`rechargeTimers, s`bombs
    ensures var cell := PlayerCell(s.player);
      if CanPlaceBomb(old(s.bombCharges), s.softBlocks, old(s.bombs), cell) then
        s.bombCharges == old(s.bombCharges) - 1 &&
        s.rechargeTimers == old(s.rechargeTimers) + [RECHARGE_TIME] &&
        s.bombs == old(s.bombs) + [Bomb(cell.col, cell.row, BOMB_TIMER, BOMB_TIMER)]
      else
        s.bombCharges == old(s.bombCharges) && s.rechargeTimers == old(s.rechargeTimers) && s.bombs == old(s.bombs)
    ensures ChargesBalanced(old(s.bombCharges), old(s.rechargeTimers), s.maxBombCharges) ==>
      ChargesBalanced(s.bombCharges, s.rechargeTimers, s.maxBombCharges)
    ensures BombsOnDistinctCells(old(s.bombs)) ==> BombsOnDistinctCells(s.bombs)
    ensures s.bombCharges >= 0 || s.bombCharges == old(s.bombCharges)
  {
    if s.bombCharges <= 0 {
      return;
    }
    var col := CellIndex(s.player.x + PLAYER_WIDTH / 2.0);
    var row := CellIndex(s.player.y + PLAYER_HEIGHT / 2.0);
    if col < 1 || col >= COLS - 1 || row < 1 || row >= ROWS - 1 {
      return;
    }
    var isHardBlock := row % 2 == 0 && col % 2 == 0;
    var hasSoftBlock := HasSoftBlockAt(s.softBlocks, col, row);
    if isHardBlock || hasSoftBlock {
      return;
    }
    if HasBombAt(s.bombs, col, row) {
      return;
    }
    s.bombCharges := s.bombCharges - 1;
    s.rechargeTimers := s.rechargeTimers + [RECHARGE_TIME];
    s.bombs := s.bombs + [Bomb(col, row, BOMB_TIMER, BOMB_TIMER)];
  }

  // ------------------------------------------------------------- the blast

  /** softBlocks.findIndex for cell (col, row): the first partition standing there, or -1. */
  function FirstSoftAt(soft: seq<SoftBlock>, col: int, row: int): (i: int)
    ensures -1 <= i < |soft|
    ensures i == -1 <==> !HasSoftBlockAt(soft, col, row)
    ensures 0 <= i ==> soft[i].col == col && soft[i].row == row
    ensures 0 <= i ==> forall k :: 0 <= k < i ==> !(soft[k].col == col && soft[k].row == row)
  {
    if soft == [] then -1
    else if soft[0].col == col && soft[0].row == row then 0
    else
      var j := FirstSoftAt(soft[1..], col, row);
      if j == -1 then -1 else j + 1
  }

  /**
   * A blast only shortens bomb fuses: every bomb keeps its cell and either
   * its timer or, if that was longer, the short fuse.
   */
  predicate FusedOnly(before: seq<Bomb>, after: seq<Bomb>)
  {
    |after| == |before| &&
    forall k :: 0 <= k < |before| ==>
      after[k] == before[k] || (before[k].timer > FUSE_TIMER && after[k] == before[k].(timer := FUSE_TIMER))
  }

  lemma FusedOnlyTrans(a: seq<Bomb>, b: seq<Bomb>, c: seq<Bomb>)
    requires FusedOnly(a, b) && FusedOnly(b, c)
    ensures FusedOnly(a, c)
  {
    forall k | 0 <= k < |a|
      ensures c[k] == a[k] || (a[k].timer > FUSE_TIMER && c[k] == a[k].(timer := FUSE_TIMER))
    {
      assert b[k] == a[k] || (a[k].timer > FUSE_TIMER && b[k] == a[k].(timer := FUSE_TIMER));
      assert c[k] == b[k] || (b[k].timer > FUSE_TIMER && c[k] == b[k].(timer := FUSE_TIMER));
    }
  }

  /**
   * bombs.find for a blasted cell: the first bomb lying there, if its timer
   * is longer than the short fuse, gets the short fuse.
   */
  function Fuse(bombs: seq<Bomb>, col: int, row: int): (r: seq<Bomb>)
    ensures FusedOnly(bombs, r)
    ensures forall k :: 0 <= k < |r| && !(bombs[k].col == col && bombs[k].row == row) ==> r[k] == bombs[k]
    ensures BombsOnDistinctCells(bombs) ==>
      forall k :: 0 <= k < |r| && bombs[k].col == col && bombs[k].row == row ==>
        r[k].timer == Min(bombs[k].timer, FUSE_TIMER)
  {
    if bombs == [] then []
    else if bombs[0].col == col && bombs[0].row == row then
      [if bombs[0].timer > FUSE_TIMER then bombs[0].(timer := FUSE_TIMER) else bombs[0]] + bombs[1..]
    else [bombs[0]] + Fuse(bombs[1..], col, row)
  }

  datatype ArmResult = ArmResult(cells: seq<Cell>, soft: seq<SoftBlock>, bombs: seq<Bomb>)

  /**
   * One arm of the blast from (col, row) in direction (dc, dr). With a blast
   * radius of one cell the arm has at most one cell: nothing beyond the
   * arena wall or on a table; a partition there is removed; otherwise the
   * cell burns and a bomb in it is fused.
   */
  function Arm(soft: seq<SoftBlock>, bombs: seq<Bomb>, col: int, row: int, dc: int, dr: int): ArmResult
  {
    var tc, tr := col + dc, row + dr;
    if !InInterior(tc, tr) || IsHardCell(tc, tr) then ArmResult([], soft, bombs)
    else
      var k := FirstSoftAt(soft, tc, tr);
      if k != -1 then ArmResult([Cell(tc, tr)], soft[..k] + soft[k + 1..], bombs)
      else ArmResult([Cell(tc, tr)], soft, Fuse(bombs, tc, tr))
  }

  /** `after` is `before` with one partition standing in cell c taken out. */
  predicate RemovedOneAt(before: seq<SoftBlock>, after: seq<SoftBlock>, c: Cell)
  {
    exists k :: 0 <= k < |before| && before[k].col == c.col && before[k].row == c.row &&
      after == before[..k] + before[k + 1..]
  }

  /** Whether c lies on the cross of the given radius around (col, row), off the centre. */
  predicate OnCross(c: Cell, col: int, row: int, radius: int)
  {
    (c.col == col && 1 <= AbsInt(c.row - row) <= radius) ||
    (c.row == row && 1 <= AbsInt(c.col - col) <= radius)
  }

  /** A unit step along a row or a column. */
  predicate UnitStep(dc: int, dr: int)
  {
    (dc == 0 && (dr == 1 || dr == -1)) || (dr == 0 && (dc == 1 || dc == -1))
  }

  lemma ArmInArena(soft: seq<SoftBlock>, bombs: seq<Bomb>, col: int, row: int, dc: int, dr: int)
    ensures forall c :: c in Arm(soft, bombs, col, row, dc, dr).cells ==> InInterior(c.col, c.row) && !IsHardCell(c.col, c.row)
  {
  }

  lemma ArmOnCross(soft: seq<SoftBlock>, bombs: seq<Bomb>, col: int, row: int, dc: int, dr: int)
    requires UnitStep(dc, dr)
    ensures forall c :: c in Arm(soft, bombs, col, row, dc, dr).cells ==> OnCross(c, col, row, BLAST_RADIUS)
  {
    assert OnCross(Cell(col + dc, row + dr), col, row, BLAST_RADIUS);
  }

  lemma ArmRemovesPartition(soft: seq<SoftBlock>, bombs: seq<Bomb>, col: int, row: int, dc: int, dr: int)
    ensures var arm := Arm(soft, bombs, col, row, dc, dr);
      arm.soft == soft || (arm.cells != [] && RemovedOneAt(soft, arm.soft, arm.cells[0]))
  {
    var tc, tr := col + dc, row + dr;
    if InInterior(tc, tr) && !IsHardCell(tc, tr) {
      var k := FirstSoftAt(soft, tc, tr);
      if k != -1 {
        assert RemovedOneAt(soft, soft[..k] + soft[k + 1..], Cell(tc, tr));
      }
    }
  }

  /**
   * One arm reaches at most BLAST_RADIUS cells, inside the arena, off the
   * tables and on the cross; it removes at most the partition in its cell
   * and otherwise only shortens fuses.
   */
  lemma ArmFacts(soft: seq<SoftBlock>, bombs: seq<Bomb>, col: int, row: int, dc: int, dr: int)
    requires UnitStep(dc, dr)
    ensures |Arm(soft, bombs, col, row, dc, dr).cells| <= BLAST_RADIUS
    ensures forall c :: c in Arm(soft, bombs, col, row, dc, dr).cells ==>
      InInterior(c.col, c.row) && !IsHardCell(c.col, c.row) && OnCross(c, col, row, BLAST_RADIUS)
    ensures var arm := Arm(soft, bombs, col, row, dc, dr);
      arm.soft == soft || (arm.cells != [] && RemovedOneAt(soft, arm.soft, arm.cells[0]))
    ensures FusedOnly(bombs, Arm(soft, bombs, col, row, dc, dr).bombs)
  {
    ArmInArena(soft, bombs, col, row, dc, dr);
    ArmOnCross(soft, bombs, col, row, dc, dr);
    ArmRemovesPartition(soft, bombs, col, row, dc, dr);
  }

  /** The first d arms, in DIRECTIONS order, each acting on what the previous ones left. */
  function BlastUpTo(soft: seq<SoftBlock>, bombs: seq<Bomb>, col: int, row: int, d: nat): ArmResult
    requires d <= |DIRECTIONS|
  {
    if d == 0 then ArmResult([], soft, bombs)
    else
      var done := BlastUpTo(soft, bombs, col, row, d - 1);
      var arm := Arm(done.soft, done.bombs, col, row, DIRECTIONS[d - 1].0, DIRECTIONS[d - 1].1);
      ArmResult(done.cells + arm.cells, arm.soft, arm.bombs)
  }

  /** The whole blast from (col, row): all four arms. */
  function Blasted(soft: seq<SoftBlock>, bombs: seq<Bomb>, col: int, row: int): ArmResult
  {
    BlastUpTo(soft, bombs, col, row, |DIRECTIONS|)
  }

  /** The first d arms reach at most one cell each, all arena cells off the tables on the cross. */
  lemma {:induction false} BlastReach(soft: seq<SoftBlock>, bombs: seq<Bomb>, col: int, row: int, d: nat)
    requires d <= |DIRECTIONS|
    ensures var b := BlastUpTo(soft, bombs, col, row, d);
      |b.cells| <= d &&
      forall c :: c in b.cells ==>
        InInterior(c.col, c.row) && !IsHardCell(c.col, c.row) && OnCross(c, col, row, BLAST_RADIUS)
  {
    if d > 0 {
      BlastReach(soft, bombs, col, row, d - 1);
      var done := BlastUpTo(soft, bombs, col, row, d - 1);
      var dc, dr := DIRECTIONS[d - 1].0, DIRECTIONS[d - 1].1;
      ArmFacts(done.soft, done.bombs, col, row, dc, dr);
      var arm := Arm(done.soft, done.bombs, col, row, dc, dr);
      assert BlastUpTo(soft, bombs, col, row, d).cells == done.cells + arm.cells;
    }
  }

  /** The first d arms remove at most one partition each. */
  lemma {:induction false} BlastSoftBound(soft: seq<SoftBlock>, bombs: seq<Bomb>, col: int, row: int, d: nat)
    requires d <= |DIRECTIONS|
    ensures var b := BlastUpTo(soft, bombs, col, row, d);
      |soft| - d <= |b.soft| <= |soft|
  {
    if d > 0 {
      BlastSoftBound(soft, bombs, col, row, d - 1);
      var done := BlastUpTo(soft, bombs, col, row, d - 1);
      var dc, dr := DIRECTIONS[d - 1].0, DIRECTIONS[d - 1].1;
      ArmRemovesPartition(done.soft, done.bombs, col, row, dc, dr);
      var arm := Arm(done.soft, done.bombs, col, row, dc, dr);
      if arm.soft != done.soft {
        var k :| 0 <= k < |done.soft| && done.soft[k].col == arm.cells[0].col && done.soft[k].row == arm.cells[0].row &&
          arm.soft == done.soft[..k] + done.soft[k + 1..];
        assert |arm.soft| == |done.soft| - 1;
      }
    }
  }

  /** The first d arms only shorten fuses. */
  lemma {:induction false} BlastFusesOnly(soft: seq<SoftBlock>, bombs: seq<Bomb>, col: int, row: int, d: nat)
    requires d <= |DIRECTIONS|
    ensures FusedOnly(bombs, BlastUpTo(soft, bombs, col, row, d).bombs)
  {
    if d > 0 {
      BlastFusesOnly(soft, bombs, col, row, d - 1);
      var done := BlastUpTo(soft, bombs, col, row, d - 1);
      var arm := Arm(done.soft, done.bombs, col, row, DIRECTIONS[d - 1].0, DIRECTIONS[d - 1].1);
      assert FusedOnly(done.bombs, arm.bombs);
      FusedOnlyTrans(bombs, done.bombs, arm.bombs);
    } else {
      assert FusedOnly(bombs, bombs);
    }
  }

  /**
   * The blast as a whole: it reaches only arena cells off the tables on the
   * cross of radius BLAST_RADIUS, at most one per arm, removes at most one
   * partition per arm and only shortens fuses.
   */
  lemma BlastFacts(soft: seq<SoftBlock>, bombs: seq<Bomb>, col: int, row: int)
    ensures var b := Blasted(soft, bombs, col, row);
      |b.cells| <= |DIRECTIONS| * BLAST_RADIUS &&
      (forall c :: c in b.cells ==>
        InInterior(c.col, c.row) && !IsHardCell(c.col, c.row) && OnCross(c, col, row, BLAST_RADIUS)) &&
      |soft| - |DIRECTIONS| <= |b.soft| <= |soft| &&
      FusedOnly(bombs, b.bombs)
  {
    BlastReach(soft, bombs, col, row, |DIRECTIONS|);
    BlastSoftBound(soft, bombs, col, row, |DIRECTIONS|);
    BlastFusesOnly(soft, bombs, col, row, |DIRECTIONS|);
  }

  lemma ArmBlocked(soft: seq<SoftBlock>, bombs: seq<Bomb>, col: int, row: int, dc: int, dr: int)
    requires !InInterior(col + dc, row + dr) || IsHardCell(col + dc, row + dr)
    ensures Arm(soft, bombs, col, row, dc, dr) == ArmResult([], soft, bombs)
  {
  }

  lemma ArmStopsAtPartition(soft: seq<SoftBlock>, bombs: seq<Bomb>, col: int, row: int, dc: int, dr: int, k: int)
    requires InInterior(col + dc, row + dr) && !IsHardCell(col + dc, row + dr)
    requires k == FirstSoftAt(soft, col + dc, row + dr) && k != -1
    ensures Arm(soft, bombs, col, row, dc, dr) == ArmResult([Cell(col + dc, row + dr)], soft[..k] + soft[k + 1..], bombs)
  {
  }

  lemma ArmFusesBombs(soft: seq<SoftBlock>, bombs: seq<Bomb>, col: int, row: int, dc: int, dr: int)
    requires InInterior(col + dc, row + dr) && !IsHardCell(col + dc, row + dr)
    requires FirstSoftAt(soft, col + dc, row + dr) == -1
    ensures Arm(soft, bombs, col, row, dc, dr) == ArmResult([Cell(col + dc, row + dr)], soft, Fuse(bombs, col + dc, row + dr))
  {
  }

  /**
   * The inner `for` loop of one arm: it records the cells the flames reach,
   * removes the partition they stop in and fuses bombs, returning the
   * partitions and bombs it leaves.
   */
  method BlastArm(soft: seq<SoftBlock>, bombs: seq<Bomb>, col: int, row: int, dc: int, dr: int)
    returns (cells: seq<Cell>, soft': seq<SoftBlock>, bombs': seq<Bomb>)
    ensures ArmResult(cells, soft', bombs') == Arm(soft, bombs, col, row, dc, dr)
  {
    cells, soft', bombs' := [], soft, bombs;
    // (tc, tr) is (col + dc * i, row + dr * i), kept as a running sum
    var tc, tr := col, row;
    for i := 1 to BLAST_RADIUS + 1
      invariant i == 1 ==> cells == [] && soft' == soft && bombs' == bombs && tc == col && tr == row
      invariant i > 1 ==> ArmResult(cells, soft', bombs') == Arm(soft, bombs, col, row, dc, dr)
    {
      tc, tr := tc + dc, tr + dr;
      if tc < 1 || tc >= COLS - 1 || tr < 1 || tr >= ROWS - 1 {
        ArmBlocked(soft, bombs, col, row, dc, dr);
        break;
      }
      if tr % 2 == 0 && tc % 2 == 0 {
        ArmBlocked(soft, bombs, col, row, dc, dr);
        break;
      }
      cells := cells + [Cell(tc, tr)];
      var k := FirstSoftAt(soft', tc, tr);
      if k != -1 {
        ArmStopsAtPartition(soft, bombs, col, row, dc, dr, k);
        soft' := soft'[..k] + soft'[k + 1..];
        break;
      }
      ArmFusesBombs(soft, bombs, col, row, dc, dr);
      bombs' := Fuse(bombs', tc, tr);
    }
  }

  // ------------------------------------------------------------- burning

  /** Whether the flames reach an enemy's cell. */
  predicate Burns(cells: seq<Cell>, e: Enemy)
  {
    EnemyCell(e) in cells
  }

  /** The enemies the blast spares, in their original order. */
  function Survivors(enemies: seq<Enemy>, cells: seq<Cell>): seq<Enemy>
  {
    if enemies == [] then []
    else (if Burns(cells, enemies[0]) then [] else [enemies[0]]) + Survivors(enemies[1..], cells)
  }

  /** The ash piles of the burnt enemies, last enemy first as the backward loop leaves them. */
  function AshOf(enemies: seq<Enemy>, cells: seq<Cell>): seq<AshPile>
  {
    if enemies == [] then []
    else
      var e := enemies[0];
      AshOf(enemies[1..], cells) +
      (if Burns(cells, e) then [AshPile(EnemyCell(e).col, EnemyCell(e).row, 1.0)] else [])
  }

  /**
   * Burning partitions the enemies: every burnt one leaves exactly one fresh
   * ash pile in a blasted cell, every spared one stays, and nothing else.
   */
  lemma {:induction false} BurnPartition(enemies: seq<Enemy>, cells: seq<Cell>)
    ensures |Survivors(enemies, cells)| + |AshOf(enemies, cells)| == |enemies|
    ensures forall e :: e in Survivors(enemies, cells) <==> e in enemies && !Burns(cells, e)
    ensures forall a :: a in AshOf(enemies, cells) ==> Cell(a.col, a.row) in cells && a.life == 1.0
  {
    if enemies != [] {
      BurnPartition(enemies[1..], cells);
      assert enemies == [enemies[0]] + enemies[1..];
      forall e
        ensures e in Survivors(enemies, cells) <==> e in enemies && !Burns(cells, e)
      {
        assert e in enemies <==> e == enemies[0] || e in enemies[1..];
      }
    }
  }

  /**
   * The backward kill loop of detonate: burnt enemies are spliced out and
   * leave an ash pile each.
   */
  method Incinerate(enemies: seq<Enemy>, cells: seq<Cell>) returns (survivors: seq<Enemy>, ash: seq<AshPile>)
    ensures survivors == Survivors(enemies, cells)
    ensures ash == AshOf(enemies, cells)
  {
    survivors, ash := enemies, [];
    var i := |enemies|;
    while i > 0
      invariant 0 <= i <= |enemies|
      invariant survivors == enemies[..i] + Survivors(enemies[i..], cells)
      invariant ash == AshOf(enemies[i..], cells)
    {
      i := i - 1;
      assert enemies[i..] == [enemies[i]] + enemies[i + 1..];
      var e := survivors[i];
      assert e == enemies[i];
      if EnemyCell(e) in cells {
        ash := ash + [AshPile(EnemyCell(e).col, EnemyCell(e).row, 1.0)];
        survivors := survivors[..i] + survivors[i + 1..];
        assert survivors == enemies[..i] + Survivors(enemies[i..], cells);
      } else {
        assert survivors == enemies[..i] + Survivors(enemies[i..], cells);
      }
    }
    assert enemies[0..] == enemies;
  }

  // ------------------------------------------------------------- detonating

  /** All cells of a blast: the bomb's own cell first, then the arms. */
  function BlastCells(soft: seq<SoftBlock>, bombs: seq<Bomb>, bomb: Bomb): seq<Cell>
  {
    [Cell(bomb.col, bomb.row)] + Blasted(soft, bombs, bomb.col, bomb.row).cells
  }

  /** The `forEach` over the four arms: the cells of the blast, centre first. */
  method Blast(soft: seq<SoftBlock>, bombs: seq<Bomb>, bomb: Bomb)
    returns (cells: seq<Cell>, soft': seq<SoftBlock>, bombs': seq<Bomb>)
    ensures cells == BlastCells(soft, bombs, bomb)
    ensures var blast := Blasted(soft, bombs, bomb.col, bomb.row);
      soft' == blast.soft && bombs' == blast.bombs
  {
    var reached: seq<Cell> := [];
    soft', bombs' := soft, bombs;
    for d := 0 to |DIRECTIONS|
      invariant ArmResult(reached, soft', bombs') == BlastUpTo(soft, bombs, bomb.col, bomb.row, d)
    {
      var arm;
      arm, soft', bombs' := BlastArm(soft', bombs', bomb.col, bomb.row, DIRECTIONS[d].0, DIRECTIONS[d].1);
      reached := reached + arm;
    }
    cells := [Cell(bomb.col, bomb.row)] + reached;
  }

  /** The parts of the stage state that a detonation reads and writes. */
  datatype Field = Field(soft: seq<SoftBlock>, bombs: seq<Bomb>, enemies: seq<Enemy>,
                         ash: seq<AshPile>, explosions: seq<Explosion>)

  /**
   * What one detonation does to the fields, for the bomb at (bomb.col,
   * bomb.row): the blast's partitions and bombs, the game-over call when its
   * cells cover the player, one new explosion over those cells, an ash pile
   * per burnt enemy and the survivors in order, stunned when within
   * STUN_RADIUS.
   */
  ghost predicate Detonated(f: Field, player: Cell, bomb: Bomb, g: Field, playerHit: bool)
  {
    var blast := Blasted(f.soft, f.bombs, bomb.col, bomb.row);
    var cells := BlastCells(f.soft, f.bombs, bomb);
    g.soft == blast.soft && g.bombs == blast.bombs &&
    (playerHit <==> player in cells) &&
    g.explosions == f.explosions + [Explosion(bomb.col, bomb.row, 1.0, cells)] &&
    g.ash == f.ash + AshOf(f.enemies, cells) &&
    |g.enemies| == |Survivors(f.enemies, cells)| &&
    forall i :: 0 <= i < |g.enemies| ==>
      g.enemies[i] == StunIfNear(Survivors(f.enemies, cells)[i], bomb.col, bomb.row, STUN_RADIUS)
  }

  /**
   * detonate on the values of the state: the blast, the player check, the
   * kill loop, the stun of the survivors within STUN_RADIUS and the new
   * explosion. `playerHit` is the game-over call.
   */
  method DetonateOn(f: Field, player: Cell, bomb: Bomb) returns (g: Field, playerHit: bool)
    ensures Detonated(f, player, bomb, g, playerHit)
    ensures FusedOnly(f.bombs, g.bombs)
    ensures |f.soft| - 4 <= |g.soft| <= |f.soft|
  {
    BlastFacts(f.soft, f.bombs, bomb.col, bomb.row);
    var cells, soft, bombs := Blast(f.soft, f.bombs, bomb);
    playerHit := player in cells;

    var survivors, ash := Incinerate(f.enemies, cells);
    var enemies, stunnedSomeone := StunEnemiesInRadius(survivors, bomb.col, bomb.row, STUN_RADIUS);

    g := Field(soft, bombs, enemies, f.ash + ash, f.explosions + [Explosion(bomb.col, bomb.row, 1.0, cells)]);
  }

  /** The fields of the stage state that a detonation touches. */
  function FieldOf(s: Level3State): Field
    reads s
  {
    Field(s.softBlocks, s.bombs, s.enemies, s.ashPiles, s.explosions)
  }

  /** detonate(state, bomb): DetonateOn applied to the state's fields. */
  method Detonate(s: Level3State, bomb: Bomb) returns (playerHit: bool)
    modifies s`softBlocks, s`bombs, s`enemies, s`ashPiles, s`explosions
    ensures Detonated(old(FieldOf(s)), PlayerCell(s.player), bomb, FieldOf(s), playerHit)
  {
    var g;
    g, playerHit := DetonateOn(FieldOf(s), PlayerCell(s.player), bomb);
    s.softBlocks, s.bombs, s.enemies, s.ashPiles, s.explosions := g.soft, g.bombs, g.enemies, g.ash, g.explosions;
  }

  /** The fields after detonating `bomb`, as a value: the one Field that Detonated allows. */
  ghost function Detonation(f: Field, bomb: Bomb): (g: Field)
    ensures FusedOnly(f.bombs, g.bombs)
  {
    BlastFacts(f.soft, f.bombs, bomb.col, bomb.row);
    var blast := Blasted(f.soft, f.bombs, bomb.col, bomb.row);
    var cells := BlastCells(f.soft, f.bombs, bomb);
    var survivors := Survivors(f.enemies, cells);
    Field(blast.soft, blast.bombs,
          seq(|survivors|, k requires 0 <= k < |survivors| => StunIfNear(survivors[k], bomb.col, bomb.row, STUN_RADIUS)),
          f.ash + AshOf(f.enemies, cells), f.explosions + [Explosion(bomb.col, bomb.row, 1.0, cells)])
  }

  /** Detonated pins the new fields down completely. */
  lemma DetonatedIsDetonation(f: Field, player: Cell, bomb: Bomb, g: Field, playerHit: bool)
    requires Detonated(f, player, bomb, g, playerHit)
    ensures g == Detonation(f, bomb)
  {
    assert g.enemies == Detonation(f, bomb).enemies;
  }

  // ------------------------------------------------------------- per frame

  /** The bombs left on the field are, in order, old bombs at the strictly increasing indices `kept`. */
  ghost predicate KeptFrom(before: seq<Bomb>, after: seq<Bomb>, kept: seq<nat>)
  {
    |kept| == |after| &&
    (forall k :: 0 <= k < |kept| ==>
      kept[k] < |before| && after[k].col == before[kept[k]].col && after[k].row == before[kept[k]].row &&
      after[k].maxTimer == before[kept[k]].maxTimer && after[k].timer <= before[kept[k]].timer) &&
    (forall k, l :: 0 <= k < l < |kept| ==> kept[k] < kept[l])
  }

  /** Keeping bombs in order never puts two of them on one cell. */
  lemma KeptStayDistinct(before: seq<Bomb>, after: seq<Bomb>, kept: seq<nat>)
    requires KeptFrom(before, after, kept) && BombsOnDistinctCells(before)
    ensures BombsOnDistinctCells(after)
  {
    forall k, l | 0 <= k < l < |after|
      ensures !(after[k].col == after[l].col && after[k].row == after[l].row)
    {
      assert kept[k] < kept[l];
    }
  }

  /** A bomb whose timer changed only by a fuse cut, or the tick, keeps its place in KeptFrom. */
  lemma KeptAfterFuse(before: seq<Bomb>, mid: seq<Bomb>, after: seq<Bomb>, kept: seq<nat>)
    requires KeptFrom(before, mid, kept) && FusedOnly(mid, after)
    ensures KeptFrom(before, after, kept)
  {
  }

  /** Dropping the bomb at position i drops its index from `kept`. */
  lemma KeptAfterSplice(before: seq<Bomb>, after: seq<Bomb>, kept: seq<nat>, i: nat)
    requires KeptFrom(before, after, kept) && i < |after|
    ensures KeptFrom(before, after[..i] + after[i + 1..], kept[..i] + kept[i + 1..])
  {
    var a', k' := after[..i] + after[i + 1..], kept[..i] + kept[i + 1..];
    forall m | 0 <= m < |k'|
      ensures a'[m] == (if m < i then after[m] else after[m + 1]) && k'[m] == (if m < i then kept[m] else kept[m + 1])
    {
    }
    forall m, l | 0 <= m < l < |k'|
      ensures k'[m] < k'[l]
    {
      var m0, l0 := if m < i then m else m + 1, if l < i then l else l + 1;
      assert k'[m] == kept[m0] && k'[l] == kept[l0];
    }
  }

  /** The bombs already ticked keep their shortened, positive fuses across a splice at i and a detonation. */
  lemma TickedSuffix(orig: seq<Bomb>, mid: seq<Bomb>, after: seq<Bomb>, kept: seq<nat>, i: nat, timeScale: real)
    requires i < |mid| == |kept| && FusedOnly(mid[..i] + mid[i + 1..], after)
    requires forall k :: 0 <= k < |kept| ==> kept[k] < |orig|
    requires forall k :: i < k < |mid| ==>
      i + 1 <= kept[k] && 0.0 < mid[k].timer <= orig[kept[k]].timer - timeScale
    ensures var k' := kept[..i] + kept[i + 1..];
      forall k :: i <= k < |after| ==> i + 1 <= k'[k] && 0.0 < after[k].timer <= orig[k'[k]].timer - timeScale
  {
    var m', k' := mid[..i] + mid[i + 1..], kept[..i] + kept[i + 1..];
    forall k | i <= k < |after|
      ensures i + 1 <= k'[k] && 0.0 < after[k].timer <= orig[k'[k]].timer - timeScale
    {
      assert m'[k] == mid[k + 1] && k'[k] == kept[k + 1];
    }
  }

  /** A new explosion reaches the player iff an earlier one did or the last one does. */
  lemma AppendHits(xs: seq<Explosion>, x: Explosion, m: nat, player: Cell)
    requires m <= |xs|
    ensures (exists k :: m <= k < |xs + [x]| && player in (xs + [x])[k].cells) <==>
      (exists k :: m <= k < |xs| && player in xs[k].cells) || player in x.cells
  {
    if player in x.cells {
      assert (xs + [x])[|xs|] == x;
    }
    if exists k :: m <= k < |xs| && player in xs[k].cells {
      var k :| m <= k < |xs| && player in xs[k].cells;
      assert (xs + [x])[k] == xs[k];
    }
  }

  /** Removing the same position from both sides keeps FusedOnly. */
  lemma FusedOnlySplice(before: seq<Bomb>, after: seq<Bomb>, i: nat)
    requires FusedOnly(before, after) && i < |before|
    ensures FusedOnly(before[..i] + before[i + 1..], after[..i] + after[i + 1..])
  {
    var b', a' := before[..i] + before[i + 1..], after[..i] + after[i + 1..];
    forall k | 0 <= k < |b'|
      ensures b'[k] == (if k < i then before[k] else before[k + 1])
      ensures a'[k] == (if k < i then after[k] else after[k + 1])
    {
    }
  }

  /**
   * One detonation inside the bomb loop: detonate(state, b) followed by
   * state.bombs.splice(i, 1). The other bombs keep their order and can only
   * have their fuses cut; one explosion centred on b is appended.
   */
  method DetonateAndRemove(g: Field, player: Cell, i: nat) returns (h: Field, hit: bool)
    requires i < |g.bombs|
    ensures var d := Detonation(g, g.bombs[i]); h == d.(bombs := d.bombs[..i] + d.bombs[i + 1..])
    ensures FusedOnly(g.bombs[..i] + g.bombs[i + 1..], h.bombs)
    ensures |h.explosions| == |g.explosions| + 1 && h.explosions[..|g.explosions|] == g.explosions
    ensures var x := h.explosions[|g.explosions|];
      x.col == g.bombs[i].col && x.row == g.bombs[i].row && (hit <==> player in x.cells)
  {
    var b := g.bombs[i];
    h, hit := DetonateOn(g, player, b);
    DetonatedIsDetonation(g, player, b, h, hit);
    FusedOnlySplice(g.bombs, h.bombs, i);
    h := h.(bombs := h.bombs[..i] + h.bombs[i + 1..]);
    assert h.explosions == g.explosions + [h.explosions[|g.explosions|]];
  }

  /**
   * The bombs once those from position i on have ticked: they are the old
   * bombs `kept`, those before i untouched in place, those from i on ticked
   * and still burning.
   */
  ghost predicate BombsTicked(orig: seq<Bomb>, bombs: seq<Bomb>, timeScale: real, i: nat, kept: seq<nat>)
  {
    i <= |bombs| &&
    KeptFrom(orig, bombs, kept) &&
    (forall k :: 0 <= k < i ==> kept[k] == k) &&
    (forall k :: i <= k < |bombs| ==>
      i <= kept[k] && 0.0 < bombs[k].timer <= orig[kept[k]].timer - timeScale)
  }

  /** Explosion |before| + k came from the old bomb `fired[k]`, at or after i and no longer kept. */
  ghost predicate FiredFrom(orig: seq<Bomb>, before: seq<Explosion>, xs: seq<Explosion>, i: nat,
                            kept: seq<nat>, fired: seq<nat>)
  {
    |before| <= |xs| && xs[..|before|] == before && |xs| - |before| == |fired| &&
    forall k :: 0 <= k < |fired| ==>
      i <= fired[k] < |orig| && fired[k] !in kept &&
      orig[fired[k]].col == xs[|before| + k].col && orig[fired[k]].row == xs[|before| + k].row
  }

  /**
   * Every old bomb from position i on (of n) has either stayed, in `kept`,
   * or fired, and `fired` lists each at most once, latest position first.
   */
  ghost predicate FiredOnce(n: nat, i: nat, kept: seq<nat>, fired: seq<nat>)
  {
    (forall a, b :: 0 <= a < b < |fired| ==> fired[a] > fired[b]) &&
    (forall j :: i <= j < n && j !in fired ==> j in kept)
  }

  /** The loop state once the bombs from position i on have ticked. */
  ghost predicate TickInv(f: Field, g: Field, player: Cell, timeScale: real, i: nat,
                          kept: seq<nat>, fired: seq<nat>, gameOver: bool)
  {
    BombsTicked(f.bombs, g.bombs, timeScale, i, kept) &&
    FiredFrom(f.bombs, f.explosions, g.explosions, i, kept, fired) &&
    FiredOnce(|f.bombs|, i, kept, fired) &&
    |fired| == |f.bombs| - |g.bombs| &&
    (gameOver <==> exists k :: |f.explosions| <= k < |g.explosions| && player in g.explosions[k].cells)
  }

  /**
   * One pass of the bomb loop at position i, as a value: the bomb there
   * burns timeScale of its fuse and, once it has run out, detonates and is
   * spliced out.
   */
  ghost function TickStep(g: Field, i: nat, timeScale: real): (h: Field)
    requires i < |g.bombs|
    ensures i <= |h.bombs|
  {
    var b := g.bombs[i].(timer := g.bombs[i].timer - timeScale);
    var g1 := g.(bombs := g.bombs[i := b]);
    if b.timer <= 0.0 then
      var d := Detonation(g1, b);
      d.(bombs := d.bombs[..i] + d.bombs[i + 1..])
    else g1
  }

  /**
   * The bomb loop as a value: the fields once positions |f.bombs| - 1 down
   * to i have had their pass. A pass never removes a bomb before its own
   * position, so position i still holds old bomb i when its turn comes.
   */
  ghost function Ticked(f: Field, timeScale: real, i: nat): (g: Field)
    requires i <= |f.bombs|
    ensures i <= |g.bombs|
    decreases |f.bombs| - i
  {
    if i == |f.bombs| then f else TickStep(Ticked(f, timeScale, i + 1), i, timeScale)
  }

  /** A bomb that stays keeps FiredOnce: position j holds old bomb j, which is kept. */
  lemma FiredOnceKeep(n: nat, j: nat, kept: seq<nat>, fired: seq<nat>)
    requires FiredOnce(n, j + 1, kept, fired)
    requires j < |kept| && kept[j] == j
    ensures FiredOnce(n, j, kept, fired)
  {
  }

  /** A bomb that fires at j moves from `kept` to the end of `fired`; every later index fired earlier. */
  lemma FiredOnceFire(n: nat, j: nat, kept: seq<nat>, fired: seq<nat>)
    requires FiredOnce(n, j + 1, kept, fired)
    requires j < |kept| && kept[j] == j
    requires forall k :: 0 <= k < |fired| ==> j + 1 <= fired[k]
    ensures FiredOnce(n, j, kept[..j] + kept[j + 1..], fired + [j])
  {
    var k' := kept[..j] + kept[j + 1..];
    var f' := fired + [j];
    forall a, b | 0 <= a < b < |f'|
      ensures f'[a] > f'[b]
    {
      if b < |fired| {
        assert f'[a] == fired[a] && f'[b] == fired[b];
      }
    }
    forall l | j <= l < n && l !in f'
      ensures l in k'
    {
      assert l != j && l !in fired;
      var m :| 0 <= m < |kept| && kept[m] == l;
      if m < j {
        assert k'[m] == l;
      } else {
        assert m > j && k'[m - 1] == l;
      }
    }
  }

  /** A bomb at j whose fuse is still burning after the tick stays where it is. */
  lemma TickKeepsBomb(f: Field, g: Field, player: Cell, timeScale: real, j: nat,
                      kept: seq<nat>, fired: seq<nat>, gameOver: bool)
    requires timeScale > 0.0
    requires TickInv(f, g, player, timeScale, j + 1, kept, fired, gameOver)
    requires g.bombs[j].timer - timeScale > 0.0
    ensures var b := g.bombs[j];
      TickInv(f, g.(bombs := g.bombs[j := b.(timer := b.timer - timeScale)]), player, timeScale, j,
              kept, fired, gameOver)
  {
    FiredOnceKeep(|f.bombs|, j, kept, fired);
  }

  /** Bomb j detonated and left: the others keep their places and their fuses can only be cut. */
  lemma BombsAfterFire(orig: seq<Bomb>, before: seq<Bomb>, after: seq<Bomb>, timeScale: real, j: nat, kept: seq<nat>)
    requires BombsTicked(orig, before, timeScale, j + 1, kept)
    requires FusedOnly(before[..j] + before[j + 1..], after)
    ensures BombsTicked(orig, after, timeScale, j, kept[..j] + kept[j + 1..])
  {
    KeptAfterSplice(orig, before, kept, j);
    KeptAfterFuse(orig, before[..j] + before[j + 1..], after, kept[..j] + kept[j + 1..]);
    TickedSuffix(orig, before, after, kept, j, timeScale);
  }

  /** The explosion of bomb j is recorded as fired, and j is no longer kept. */
  lemma FiredAfterFire(orig: seq<Bomb>, before: seq<Explosion>, xs: seq<Explosion>, ys: seq<Explosion>,
                       j: nat, kept: seq<nat>, fired: seq<nat>)
    requires FiredFrom(orig, before, xs, j + 1, kept, fired)
    requires j < |kept| && kept[j] == j && j < |orig|
    requires forall k :: 0 <= k < j ==> kept[k] == k
    requires forall k :: j < k < |kept| ==> j + 1 <= kept[k]
    requires |ys| == |xs| + 1 && ys[..|xs|] == xs
    requires ys[|xs|].col == orig[j].col && ys[|xs|].row == orig[j].row
    ensures FiredFrom(orig, before, ys, j, kept[..j] + kept[j + 1..], fired + [j])
  {
    var k' := kept[..j] + kept[j + 1..];
    forall l | 0 <= l < |k'|
      ensures k'[l] == (if l < j then kept[l] else kept[l + 1])
    {
    }
    assert j !in k';
    forall m | 0 <= m < |fired|
      ensures fired[m] !in k'
    {
      assert fired[m] !in kept;
    }
    assert ys[..|before|] == xs[..|before|];
  }

  /** A bomb at j whose fuse has run out detonates and leaves; the explosion is recorded as fired. */
  lemma TickFiresBomb(f: Field, g: Field, h: Field, hit: bool, player: Cell, timeScale: real, j: nat,
                      kept: seq<nat>, fired: seq<nat>, gameOver: bool)
    requires timeScale > 0.0
    requires TickInv(f, g, player, timeScale, j + 1, kept, fired, gameOver)
    requires j < |g.bombs| && FusedOnly(g.bombs[..j] + g.bombs[j + 1..], h.bombs)
    requires |h.explosions| == |g.explosions| + 1 && h.explosions[..|g.explosions|] == g.explosions
    requires var x := h.explosions[|g.explosions|];
      x.col == g.bombs[j].col && x.row == g.bombs[j].row && (hit <==> player in x.cells)
    ensures TickInv(f, h, player, timeScale, j, kept[..j] + kept[j + 1..], fired + [j], gameOver || hit)
  {
    BombsAfterFire(f.bombs, g.bombs, h.bombs, timeScale, j, kept);
    FiredAfterFire(f.bombs, f.explosions, g.explosions, h.explosions, j, kept, fired);
    FiredOnceFire(|f.bombs|, j, kept, fired);
    AppendHits(g.explosions, h.explosions[|g.explosions|], |f.explosions|, player);
    assert h.explosions == g.explosions + [h.explosions[|g.explosions|]];
  }

  /** Before the loop nothing has ticked: every bomb is kept in place and nothing has fired. */
  lemma TickInvStart(f: Field, player: Cell, timeScale: real)
    ensures TickInv(f, f, player, timeScale, |f.bombs|, seq(|f.bombs|, k => k), [], false)
  {
    assert f.explosions[..|f.explosions|] == f.explosions;
  }

  /**
   * One pass of the backward bomb loop, for the bomb at position i: it burns
   * timeScale of its fuse; if the fuse has run out it detonates and is
   * spliced out.
   */
  method TickBomb(f: Field, g: Field, player: Cell, timeScale: real, i: nat,
                  ghost kept: seq<nat>, ghost fired: seq<nat>, gameOver: bool)
    returns (g': Field, gameOver': bool, ghost kept': seq<nat>, ghost fired': seq<nat>)
    requires timeScale > 0.0
    requires TickInv(f, g, player, timeScale, i + 1, kept, fired, gameOver)
    ensures TickInv(f, g', player, timeScale, i, kept', fired', gameOver')
    ensures i < |g.bombs| && g' == TickStep(g, i, timeScale)
  {
    var b := g.bombs[i];
    b := b.(timer := b.timer - timeScale);
    g' := g.(bombs := g.bombs[i := b]);
    gameOver', kept', fired' := gameOver, kept, fired;
    if b.timer <= 0.0 {
      ghost var mid := g';
      var hit;
      g', hit := DetonateAndRemove(g', player, i);
      assert mid.bombs[..i] + mid.bombs[i + 1..] == g.bombs[..i] + g.bombs[i + 1..];
      TickFiresBomb(f, g, g', hit, player, timeScale, i, kept, fired, gameOver);
      if hit {
        gameOver' := true;
      }
      kept' := kept[..i] + kept[i + 1..];
      fired' := fired + [i];
    } else {
      TickKeepsBomb(f, g, player, timeScale, i, kept, fired, gameOver);
    }
  }

  /**
   * The backward bomb loop of updateBombsAndExplosions, on the values of the
   * state: every bomb burns timeScale of its fuse; one whose fuse runs out
   * detonates (possibly cutting the fuses of other bombs) and is removed.
   * Explosion number |f.explosions| + k comes from old bomb `fired[k]`, which
   * is no longer on the field; the bombs left are the old bombs `kept`, each
   * with a positive timer at least timeScale shorter. Every old bomb is
   * either kept or fired, never both, and fires at most once. `gameOver`
   * says some new explosion covers the player's cell. The fields as a whole
   * are those of the value-level loop Ticked.
   */
  method TickBombs(f: Field, player: Cell, timeScale: real)
    returns (g: Field, gameOver: bool, ghost kept: seq<nat>, ghost fired: seq<nat>, ghost blasts: seq<Explosion>)
    requires timeScale > 0.0
    ensures g == Ticked(f, timeScale, 0)
    ensures forall a, b :: 0 <= a < b < |fired| ==> fired[a] > fired[b]
    ensures forall j :: 0 <= j < |f.bombs| ==> (j in kept <==> j !in fired)
    ensures KeptFrom(f.bombs, g.bombs, kept)
    ensures forall k :: 0 <= k < |g.bombs| ==> 0.0 < g.bombs[k].timer <= f.bombs[kept[k]].timer - timeScale
    ensures g.explosions == f.explosions + blasts
    ensures |blasts| == |fired| == |f.bombs| - |g.bombs|
    ensures forall k :: 0 <= k < |blasts| ==>
      fired[k] < |f.bombs| &&
      blasts[k].col == f.bombs[fired[k]].col && blasts[k].row == f.bombs[fired[k]].row
    ensures gameOver <==> exists k :: 0 <= k < |blasts| && player in blasts[k].cells
  {
    g := f;
    gameOver := false;
    kept := seq(|f.bombs|, k => k);
    fired := [];
    TickInvStart(f, player, timeScale);
    var i: nat := |f.bombs|;
    while i > 0
      invariant TickInv(f, g, player, timeScale, i, kept, fired, gameOver)
      invariant i <= |f.bombs| && g == Ticked(f, timeScale, i)
    {
      i := i - 1;
      g, gameOver, kept, fired := TickBomb(f, g, player, timeScale, i, kept, fired, gameOver);
    }
    blasts := g.explosions[|f.explosions|..];
    NewBlasts(f.explosions, g.explosions, player);
    BlastsCentred(f.bombs, fired, f.explosions, g.explosions);
  }

  /** Explosions fade by 0.02 per unit of time; one whose life reaches zero is removed. */
  function FadeExplosions(xs: seq<Explosion>, timeScale: real): (r: seq<Explosion>)
    ensures |r| <= |xs|
    ensures forall x :: x in r ==> x.life > 0.0
  {
    if xs == [] then []
    else
      var x := xs[0].(life := xs[0].life - EXPLOSION_FADE * timeScale);
      (if x.life <= 0.0 then [] else [x]) + FadeExplosions(xs[1..], timeScale)
  }

  /** Every explosion left is one of the old ones, faded by one frame. */
  lemma {:induction false} FadeExplosionsSound(xs: seq<Explosion>, timeScale: real)
    ensures forall x :: x in FadeExplosions(xs, timeScale) ==> x.(life := x.life + EXPLOSION_FADE * timeScale) in xs
  {
    if xs != [] {
      FadeExplosionsSound(xs[1..], timeScale);
      var head := xs[0].(life := xs[0].life - EXPLOSION_FADE * timeScale);
      assert head.(life := head.life + EXPLOSION_FADE * timeScale) == xs[0];
      assert FadeExplosions(xs, timeScale) == (if head.life <= 0.0 then [] else [head]) + FadeExplosions(xs[1..], timeScale);
    }
  }

  /** Conversely, every explosion whose life exceeds this frame's fade is still there, faded. */
  lemma {:induction false} FadeExplosionsKeeps(xs: seq<Explosion>, timeScale: real)
    ensures forall k :: 0 <= k < |xs| && xs[k].life > EXPLOSION_FADE * timeScale ==>
      xs[k].(life := xs[k].life - EXPLOSION_FADE * timeScale) in FadeExplosions(xs, timeScale)
  {
    if xs != [] {
      FadeExplosionsKeeps(xs[1..], timeScale);
      var head := xs[0].(life := xs[0].life - EXPLOSION_FADE * timeScale);
      var rest := FadeExplosions(xs[1..], timeScale);
      assert FadeExplosions(xs, timeScale) == (if head.life <= 0.0 then [] else [head]) + rest;
      forall k | 0 <= k < |xs| && xs[k].life > EXPLOSION_FADE * timeScale
        ensures xs[k].(life := xs[k].life - EXPLOSION_FADE * timeScale) in FadeExplosions(xs, timeScale)
      {
        if k > 0 {
          assert xs[k] == xs[1..][k - 1];
        }
      }
    }
  }

  /** The backward splice loop over the explosions. */
  method FadeExplosionsInPlace(xs: seq<Explosion>, timeScale: real) returns (r: seq<Explosion>)
    ensures r == FadeExplosions(xs, timeScale)
  {
    r := xs;
    var i := |xs|;
    assert xs[|xs|..] == [];
    while i > 0
      invariant 0 <= i <= |xs|
      invariant r == xs[..i] + FadeExplosions(xs[i..], timeScale)
    {
      i := i - 1;
      FadeExplosionsSplice(xs, i, timeScale, r);
      var x := r[i].(life := r[i].life - EXPLOSION_FADE * timeScale);
      if x.life <= 0.0 {
        r := r[..i] + r[i + 1..];
      } else {
        r := r[i := x];
      }
    }
    assert xs[0..] == xs;
  }

  /** One step of the splice loop: explosion i is faded in place, or spliced out once spent. */
  lemma FadeExplosionsSplice(xs: seq<Explosion>, i: nat, timeScale: real, r: seq<Explosion>)
    requires i < |xs| && r == xs[..i + 1] + FadeExplosions(xs[i + 1..], timeScale)
    ensures i < |r| && r[i] == xs[i]
    ensures var x := xs[i].(life := xs[i].life - EXPLOSION_FADE * timeScale);
      (x.life <= 0.0 ==> r[..i] + r[i + 1..] == xs[..i] + FadeExplosions(xs[i..], timeScale)) &&
      (x.life > 0.0 ==> r[i := x] == xs[..i] + FadeExplosions(xs[i..], timeScale))
  {
    var prefix := xs[..i];
    var tail := FadeExplosions(xs[i + 1..], timeScale);
    assert xs[..i + 1] == prefix + [xs[i]];
    assert r == prefix + [xs[i]] + tail;
    assert r[..i] == prefix && r[i + 1..] == tail;
    assert xs[i..][1..] == xs[i + 1..];
    var x := xs[i].(life := xs[i].life - EXPLOSION_FADE * timeScale);
    if x.life > 0.0 {
      assert r[i := x] == prefix + [x] + tail;
    }
  }

  /** The recharge timers after one frame: each runs down by timeScale, and those that reach zero are dropped. */
  function Recharged(timers: seq<real>, timeScale: real): (r: seq<real>)
    ensures |r| <= |timers|
    ensures forall t :: t in r ==> t > 0.0 && t + timeScale in timers
  {
    if timers == [] then []
    else
      var t := timers[0] - timeScale;
      (if t <= 0.0 then [] else [t]) + Recharged(timers[1..], timeScale)
  }

  /** Conversely, every timer longer than the frame is still pending, run down by timeScale. */
  lemma RechargedKeeps(timers: seq<real>, timeScale: real)
    ensures forall k :: 0 <= k < |timers| && timers[k] > timeScale ==> timers[k] - timeScale in Recharged(timers, timeScale)
  {
    forall k | 0 <= k < |timers| && timers[k] > timeScale
      ensures timers[k] - timeScale in Recharged(timers, timeScale)
    {
      RechargedKeepsOne(timers, timeScale, k);
    }
  }

  /** The timer at index k, if longer than the frame, is still pending. */
  lemma {:induction false} RechargedKeepsOne(timers: seq<real>, timeScale: real, k: nat)
    requires k < |timers| && timers[k] > timeScale
    ensures timers[k] - timeScale in Recharged(timers, timeScale)
    decreases k
  {
    var t := timers[0] - timeScale;
    var head := if t <= 0.0 then [] else [t];
    var rest := Recharged(timers[1..], timeScale);
    assert Recharged(timers, timeScale) == head + rest;
    if k == 0 {
      assert (head + rest)[0] == t;
    } else {
      assert timers[1..][k - 1] == timers[k];
      RechargedKeepsOne(timers[1..], timeScale, k - 1);
      var j :| 0 <= j < |rest| && rest[j] == timers[k] - timeScale;
      assert (head + rest)[|head| + j] == rest[j];
    }
  }

  /**
   * The recharge step: only while a charge is missing, every timer runs
   * down, and each that runs out gives one charge back. A balanced count
   * (charges + pending timers == maximum) stays balanced.
   */
  method Recharge(charges: int, maxCharges: int, timers: seq<real>, timeScale: real)
    returns (charges': int, timers': seq<real>)
    ensures charges < maxCharges ==> timers' == Recharged(timers, timeScale)
    ensures charges >= maxCharges ==> timers' == timers
    ensures charges' == charges + |timers| - |timers'|
    ensures ChargesBalanced(charges, timers, maxCharges) ==>
      ChargesBalanced(charges', timers', maxCharges) && charges <= charges' <= maxCharges
  {
    charges', timers' := charges, timers;
    if charges < maxCharges {
      var i := |timers|;
      while i > 0
        invariant 0 <= i <= |timers|
        invariant timers' == timers[..i] + Recharged(timers[i..], timeScale)
        invariant charges' == charges + (|timers| - i) - |Recharged(timers[i..], timeScale)|
      {
        i := i - 1;
        assert timers[i..] == [timers[i]] + timers[i + 1..];
        timers' := timers'[i := timers'[i] - timeScale];
        if timers'[i] <= 0.0 {
          charges' := charges' + 1;
          timers' := timers'[..i] + timers'[i + 1..];
        }
        assert timers' == timers[..i] + Recharged(timers[i..], timeScale);
      }
      assert timers[0..] == timers;
    }
  }

  /** The explosions appended after `before`, read as their own sequence, are still centred on the fired bombs. */
  lemma BlastsCentred(bombs: seq<Bomb>, fired: seq<nat>, before: seq<Explosion>, xs: seq<Explosion>)
    requires |before| <= |xs| && |xs| - |before| == |fired|
    requires forall k :: 0 <= k < |fired| ==>
      fired[k] < |bombs| &&
      bombs[fired[k]].col == xs[|before| + k].col && bombs[fired[k]].row == xs[|before| + k].row
    ensures forall k :: 0 <= k < |xs[|before|..]| ==>
      fired[k] < |bombs| &&
      xs[|before|..][k].col == bombs[fired[k]].col && xs[|before|..][k].row == bombs[fired[k]].row
  {
    forall k | 0 <= k < |xs[|before|..]|
      ensures fired[k] < |bombs| &&
        xs[|before|..][k].col == bombs[fired[k]].col && xs[|before|..][k].row == bombs[fired[k]].row
    {
      assert xs[|before|..][k] == xs[|before| + k];
    }
  }

  lemma NewBlasts(before: seq<Explosion>, xs: seq<Explosion>, player: Cell)
    requires |before| <= |xs| && xs[..|before|] == before
    ensures xs == before + xs[|before|..]
    ensures (exists k :: |before| <= k < |xs| && player in xs[k].cells) <==>
      (exists k :: 0 <= k < |xs[|before|..]| && player in xs[|before|..][k].cells)
  {
    var blasts := xs[|before|..];
    assert xs == xs[..|before|] + blasts;
    if exists k :: |before| <= k < |xs| && player in xs[k].cells {
      var k :| |before| <= k < |xs| && player in xs[k].cells;
      assert blasts[k - |before|] == xs[k];
    }
    if exists k :: 0 <= k < |blasts| && player in blasts[k].cells {
      var k :| 0 <= k < |blasts| && player in blasts[k].cells;
      assert xs[|before| + k] == blasts[k];
    }
  }

  /**
   * updateBombsAndExplosions: the bomb loop, the fade of the explosions
   * (those fired this frame included) and the recharge. The bombs left are
   * the old bombs `kept`, each still burning; `blasts` are the explosions
   * this frame's detonations added, blast k centred on old bomb `fired[k]`;
   * every old bomb is kept or fired, exactly once. The partitions, enemies
   * and ash are those the value-level loop Ticked leaves. `gameOver` says a
   * blast covers the player's cell.
   */
  method UpdateBombsAndExplosions(s: Level3State, timeScale: real)
    returns (gameOver: bool, ghost kept: seq<nat>, ghost fired: seq<nat>, ghost blasts: seq<Explosion>)
    requires timeScale > 0.0
    modifies s`softBlocks, s`bombs, s`enemies, s`ashPiles, s`explosions, s`bombCharges, s`rechargeTimers
    ensures var t := Ticked(old(FieldOf(s)), timeScale, 0);
      s.softBlocks == t.soft && s.bombs == t.bombs && s.enemies == t.enemies && s.ashPiles == t.ash &&
      t.explosions == old(s.explosions) + blasts
    ensures |fired| == |blasts| &&
      forall k :: 0 <= k < |blasts| ==>
        fired[k] < |old(s.bombs)| &&
        blasts[k].col == old(s.bombs)[fired[k]].col && blasts[k].row == old(s.bombs)[fired[k]].row
    ensures forall a, b :: 0 <= a < b < |fired| ==> fired[a] > fired[b]
    ensures forall j :: 0 <= j < |old(s.bombs)| ==> (j in kept <==> j !in fired)
    ensures KeptFrom(old(s.bombs), s.bombs, kept)
    ensures forall k :: 0 <= k < |s.bombs| ==> 0.0 < s.bombs[k].timer <= old(s.bombs)[kept[k]].timer - timeScale
    ensures BombsOnDistinctCells(old(s.bombs)) ==> BombsOnDistinctCells(s.bombs)
    ensures |blasts| == |old(s.bombs)| - |s.bombs|
    ensures s.explosions == FadeExplosions(old(s.explosions) + blasts, timeScale)
    ensures gameOver <==> exists k :: 0 <= k < |blasts| && PlayerCell(s.player) in blasts[k].cells
    ensures old(s.bombCharges) < s.maxBombCharges ==> s.rechargeTimers == Recharged(old(s.rechargeTimers), timeScale)
    ensures old(s.bombCharges) >= s.maxBombCharges ==> s.rechargeTimers == old(s.rechargeTimers)
    ensures s.bombCharges == old(s.bombCharges) + |old(s.rechargeTimers)| - |s.rechargeTimers|
    ensures ChargesBalanced(old(s.bombCharges), old(s.rechargeTimers), s.maxBombCharges) ==>
      ChargesBalanced(s.bombCharges, s.rechargeTimers, s.maxBombCharges)
  {
    gameOver, kept, fired, blasts := UpdateBombs(s, timeScale);
    s.bombCharges, s.rechargeTimers := Recharge(s.bombCharges, s.maxBombCharges, s.rechargeTimers, timeScale);
  }

  /** The bomb loop and the fade of the explosions, this frame's included; the charges are left alone. */
  method UpdateBombs(s: Level3State, timeScale: real)
    returns (gameOver: bool, ghost kept: seq<nat>, ghost fired: seq<nat>, ghost blasts: seq<Explosion>)
    requires timeScale > 0.0
    modifies s`softBlocks, s`bombs, s`enemies, s`ashPiles, s`explosions
    ensures var t := Ticked(old(FieldOf(s)), timeScale, 0);
      s.softBlocks == t.soft && s.bombs == t.bombs && s.enemies == t.enemies && s.ashPiles == t.ash &&
      t.explosions == old(s.explosions) + blasts
    ensures |fired| == |blasts| &&
      forall k :: 0 <= k < |blasts| ==>
        fired[k] < |old(s.bombs)| &&
        blasts[k].col == old(s.bombs)[fired[k]].col && blasts[k].row == old(s.bombs)[fired[k]].row
    ensures forall a, b :: 0 <= a < b < |fired| ==> fired[a] > fired[b]
    ensures forall j :: 0 <= j < |old(s.bombs)| ==> (j in kept <==> j !in fired)
    ensures KeptFrom(old(s.bombs), s.bombs, kept)
    ensures forall k :: 0 <= k < |s.bombs| ==> 0.0 < s.bombs[k].timer <= old(s.bombs)[kept[k]].timer - timeScale
    ensures BombsOnDistinctCells(old(s.bombs)) ==> BombsOnDistinctCells(s.bombs)
    ensures |blasts| == |old(s.bombs)| - |s.bombs|
    ensures s.explosions == FadeExplosions(old(s.explosions) + blasts, timeScale)
    ensures gameOver <==> exists k :: 0 <= k < |blasts| && PlayerCell(s.player) in blasts[k].cells
  {
    var f := FieldOf(s);
    var g;
    g, gameOver, kept, fired, blasts := TickBombs(f, PlayerCell(s.player), timeScale);
    if BombsOnDistinctCells(f.bombs) {
      KeptStayDistinct(f.bombs, g.bombs, kept);
    }
    var faded := FadeExplosionsInPlace(g.explosions, timeScale);
    s.softBlocks, s.bombs, s.enemies, s.ashPiles, s.explosions := g.soft, g.bombs, g.enemies, g.ash, faded;
  }
}
