// The grid stage: its configuration constants, the value types that live in
// its state, and the mutable state object itself.

module Level3Types {
  import opened Common

  const TILE_SIZE: real := 64.0
  const COLS: int := 17
  const ROWS: int := 11
  const MOVE_SPEED: real := 4.0
  const PLAYER_WIDTH: real := 40.0
  const PLAYER_HEIGHT: real := 50.0

  /** Enemies are drawn as a 40 x 50 box; their centre is (x + 20, y + 25). */
  const ENEMY_HALF_WIDTH: real := 20.0
  const ENEMY_HALF_HEIGHT: real := 25.0

  datatype Cell = Cell(col: int, row: int)

  datatype Side = TopEdge | BottomEdge | LeftEdge | RightEdge
  datatype DoorKind = Entry | Exit
  datatype Door = Door(col: int, row: int, side: Side, kind: DoorKind)

  datatype Axis = Horizontal | Vertical
  datatype SoftBlock = SoftBlock(col: int, row: int, axis: Axis)

  datatype Dir = Up | Down | Left | Right
  datatype EnemyMode = Patrol | Chase | Stunned

  datatype Enemy = Enemy(x: real, y: real, dir: Dir, mode: EnemyMode,
                         speed: real, frame: real, stunTimer: real)

  datatype Bomb = Bomb(col: int, row: int, timer: real, maxTimer: real)
  datatype Explosion = Explosion(col: int, row: int, life: real, cells: seq<Cell>)
  datatype AshPile = AshPile(col: int, row: int, life: real)

  datatype Player = Player(x: real, y: real, dir: Dir, isMoving: bool, frame: real)

  /** Math.floor(p / TILE_SIZE): the grid index of a pixel coordinate. */
  function CellIndex(p: real): int
  {
    (p / TILE_SIZE).Floor
  }

  predicate InInterior(col: int, row: int)
  {
    1 <= col < COLS - 1 && 1 <= row < ROWS - 1
  }

  /** Tables stand on the cells whose coordinates are both even. */
  predicate IsHardCell(col: int, row: int)
  {
    col % 2 == 0 && row % 2 == 0
  }

  /** The centre of the player's 40 x 50 sprite box. */
  function CentreX(p: Player): real { p.x + PLAYER_WIDTH / 2.0 }
  function CentreY(p: Player): real { p.y + PLAYER_HEIGHT / 2.0 }

  function PlayerCell(p: Player): Cell
  {
    Cell(CellIndex(CentreX(p)), CellIndex(CentreY(p)))
  }

  function EnemyCell(e: Enemy): Cell
  {
    Cell(CellIndex(e.x + ENEMY_HALF_WIDTH), CellIndex(e.y + ENEMY_HALF_HEIGHT))
  }

  predicate HasSoftBlockAt(soft: seq<SoftBlock>, col: int, row: int)
  {
    exists i :: 0 <= i < |soft| && soft[i].col == col && soft[i].row == row
  }

  predicate HasBombAt(bombs: seq<Bomb>, col: int, row: int)
  {
    exists i :: 0 <= i < |bombs| && bombs[i].col == col && bombs[i].row == row
  }

  predicate HasDoorAt(doors: seq<Door>, col: int, row: int)
  {
    exists i :: 0 <= i < |doors| && doors[i].col == col && doors[i].row == row
  }

  /** No two bombs share a cell: placeBomb refuses an occupied cell. */
  predicate BombsOnDistinctCells(bombs: seq<Bomb>)
  {
    forall i, j :: 0 <= i < j < |bombs| ==>
      !(bombs[i].col == bombs[j].col && bombs[i].row == bombs[j].row)
  }

  /** Every spent charge has exactly one pending recharge timer. */
  predicate ChargesBalanced(charges: int, timers: seq<real>, maxCharges: int)
  {
    charges + |timers| == maxCharges
  }

  /** The `Level3State` record of the stage, updated in place every frame. */
  class Level3State {
    var player: Player
    var enemies: seq<Enemy>
    var softBlocks: seq<SoftBlock>
    var doors: seq<Door>
    var bombs: seq<Bomb>
    var explosions: seq<Explosion>
    var ashPiles: seq<AshPile>
    var bombCharges: int
    var maxBombCharges: int
    var rechargeTimers: seq<real>
    var roomNumber: int
    var cakePos: Option<Cell>

    /** The initial state held by the stage component. */
    constructor ()
      ensures player == Player(TILE_SIZE + 10.0, TILE_SIZE + 10.0, Down, false, 0.0)
      ensures enemies == [] && softBlocks == [] && doors == []
      ensures bombs == [] && explosions == [] && ashPiles == []
      ensures bombCharges == 2 && maxBombCharges == 2 && rechargeTimers == []
      ensures roomNumber == 1 && cakePos == None
      ensures ChargesBalanced(bombCharges, rechargeTimers, maxBombCharges)
    {
      player := Player(TILE_SIZE + 10.0, TILE_SIZE + 10.0, Down, false, 0.0);
      enemies := [];
      softBlocks := [];
      doors := [];
      bombs := [];
      explosions := [];
      ashPiles := [];
      bombCharges := 2;
      maxBombCharges := 2;
      rechargeTimers := [];
      roomNumber := 1;
      cakePos := None;
    }
  }
}
