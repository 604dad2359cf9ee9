// Room orchestration of the grid stage: the entry of the second room
// mirrors the exit taken from the first, a new room replaces the layout and
// clears the bombs and fire while the bomb charges carry over, and the
// player is placed one tile in from the entry.

module Level3Room {
  import opened Common
  import opened Level3Types
  import opened EnemyLogic
  import opened Level3Physics
  import opened Level3Map
  import opened Level3Render

  /** The last room of the stage; it holds the cake instead of an exit. */
  const LAST_ROOM: int := 2

  /** A door standing on the arena's outer ring, on the side it names. */
  predicate OnBorder(d: Door)
  {
    match d.side
    case RightEdge => d.col == COLS - 1 && 0 <= d.row < ROWS
    case LeftEdge => d.col == 0 && 0 <= d.row < ROWS
    case BottomEdge => d.row == ROWS - 1 && 0 <= d.col < COLS
    case TopEdge => d.row == 0 && 0 <= d.col < COLS
  }

  /** Every exit of a room lies on the outer ring. */
  predicate ExitsOnBorder(doors: seq<Door>)
  {
    forall i :: 0 <= i < |doors| && doors[i].kind == Exit ==> OnBorder(doors[i])
  }

  /**
   * The entry facing a previous exit: the cell point-mirrored through the
   * arena's centre, its side read off the border it lands on (column 0
   * first, then the last column, the top row, the bottom row; left when on
   * none).
   */
  function MirrorDoor(d: Door): (m: Door)
    ensures m.kind == Entry
    ensures m.col + d.col == COLS - 1 && m.row + d.row == ROWS - 1
    ensures m.col == 0 ==> m.side == LeftEdge
    ensures m.col != 0 && m.col == COLS - 1 ==> m.side == RightEdge
  {
    var col := (COLS - 1) - d.col;
    var row := (ROWS - 1) - d.row;
    var side :=
      if col == 0 then LeftEdge
      else if col == COLS - 1 then RightEdge
      else if row == 0 then TopEdge
      else if row == ROWS - 1 then BottomEdge
      else LeftEdge;
    Door(col, row, side, Entry)
  }

  function Opposite(s: Side): Side
  {
    match s
    case LeftEdge => RightEdge
    case RightEdge => LeftEdge
    case TopEdge => BottomEdge
    case BottomEdge => TopEdge
  }

  /**
   * An exit away from the corners mirrors to an entry on the opposite side,
   * which the generator can clear; mirroring the entry again gives back the
   * exit's cell.
   */
  lemma MirrorOfExit(d: Door)
    requires OnBorder(d)
    requires d.side == LeftEdge || d.side == RightEdge ==> 1 <= d.row < ROWS - 1
    requires d.side == TopEdge || d.side == BottomEdge ==> 1 <= d.col < COLS - 1
    ensures OnBorder(MirrorDoor(d)) && MirrorDoor(d).side == Opposite(d.side)
    ensures ClearableEntry(MirrorDoor(d))
    ensures MirrorDoor(MirrorDoor(d)).col == d.col && MirrorDoor(MirrorDoor(d)).row == d.row
  {
  }

  /** Any door on the outer ring, corners included, mirrors to an entry the generator can clear. */
  lemma MirrorClearable(d: Door)
    requires OnBorder(d)
    ensures ClearableEntry(MirrorDoor(d))
  {
  }

  /** The forced entry of a room entered through `prevExit`, if any. */
  function ForcedEntry(prevExit: Option<Door>): (f: Option<Door>)
    ensures prevExit.None? <==> f.None?
    ensures prevExit.Some? ==> f.value == MirrorDoor(prevExit.value)
  {
    match prevExit
    case None => None
    case Some(d) => Some(MirrorDoor(d))
  }

  /** The cell one tile in from an entry, the one the player starts on. */
  function InwardCell(e: Door): Cell
  {
    match e.side
    case LeftEdge => Cell(1, e.row)
    case RightEdge => Cell(COLS - 2, e.row)
    case TopEdge => Cell(e.col, 1)
    case BottomEdge => Cell(e.col, ROWS - 2)
  }

  /** The direction that looks into the room from an entry. */
  function Inward(s: Side): Dir
  {
    match s
    case LeftEdge => Right
    case RightEdge => Left
    case TopEdge => Down
    case BottomEdge => Up
  }

  /** A sprite box placed at the lane of (col, row) has its centre in that cell. */
  lemma LaneCentreInCell(col: int, row: int)
    ensures CellIndex(LaneX(col) + PLAYER_WIDTH / 2.0) == col
    ensures CellIndex(LaneY(row) + PLAYER_HEIGHT / 2.0) == row
  {
    FloorBelow(LaneX(col) + PLAYER_WIDTH / 2.0, col);
    FloorAbove(LaneX(col) + PLAYER_WIDTH / 2.0, col);
    FloorBelow(LaneY(row) + PLAYER_HEIGHT / 2.0, row);
    FloorAbove(LaneY(row) + PLAYER_HEIGHT / 2.0, row);
  }

  /**
   * The player as a new room places it: centred in the cell one tile in
   * from the entry, facing into the room; `isMoving` and the walk frame are
   * kept.
   */
  function PlacedAtEntry(p: Player, e: Door): (q: Player)
    ensures PlayerCell(q) == InwardCell(e)
    ensures q.dir == Inward(e.side)
    ensures q.isMoving == p.isMoving && q.frame == p.frame
  {
    var cell := InwardCell(e);
    LaneCentreInCell(cell.col, cell.row);
    p.(x := LaneX(cell.col), y := LaneY(cell.row), dir := Inward(e.side))
  }

  /** The map of room roomNum, entered through the mirror of prevExit when there is one. */
  method BuildRoom(roomNum: int, prevExit: Option<Door>, maze: (int, int) -> int, mapRand: nat -> real)
    returns (room: Room)
    requires IsRandomStream(mapRand)
    requires prevExit.Some? ==> OnBorder(prevExit.value)
    ensures |room.doors| >= 1 && room.doors[0] == EntryDoor(ForcedEntry(prevExit))
    ensures ExitsOnBorder(room.doors)
    ensures roomNum == LAST_ROOM <==> room.cakePos.Some?
    ensures roomNum != LAST_ROOM ==> |room.doors| == 2 && room.doors[1].kind == Exit
    ensures forall i :: 0 <= i < |room.softBlocks| ==> WellPlaced(room.softBlocks[i], room.doors)
  {
    var forced := ForcedEntry(prevExit);
    if prevExit.Some? {
      MirrorClearable(prevExit.value);
    }
    ghost var grid;
    room, grid := GenerateLevelMap(maze, forced, roomNum == LAST_ROOM, mapRand);
    if roomNum != LAST_ROOM {
      ExitOnBorder(room.doors[1], forced.None?, room.doors[0]);
    }
  }

  /**
   * initRoom: a generated layout replaces the old one, bombs, fire and ash
   * are gone, the player stands inside the entry and a fresh set of enemies
   * is spawned around them, no two within 4 cells of each other; the
   * renderer's static cache is cleared so that the next frame draws the new
   * room afresh. The bomb charges and recharge timers are not in
   * the frame and carry over. `maze` is the maze library's grid and
   * `mapRand`, `spawnRand` the Math.random() draws of the generator and of
   * the spawner.
   */
  method InitRoom(s: Level3State, cache: StaticCache, roomNum: int, prevExit: Option<Door>,
                  maze: (int, int) -> int, mapRand: nat -> real, spawnRand: nat -> real)
    requires IsRandomStream(mapRand) && IsRandomStream(spawnRand)
    requires prevExit.Some? ==> OnBorder(prevExit.value)
    modifies s`softBlocks, s`doors, s`roomNumber, s`cakePos, s`bombs, s`explosions, s`ashPiles, s`player, s`enemies
    modifies cache
    ensures s.roomNumber == roomNum
    ensures s.bombs == [] && s.explosions == [] && s.ashPiles == []
    ensures |s.doors| >= 1 && s.doors[0] == EntryDoor(ForcedEntry(prevExit))
    ensures ExitsOnBorder(s.doors)
    ensures roomNum == LAST_ROOM <==> s.cakePos.Some?
    ensures roomNum != LAST_ROOM ==> |s.doors| == 2 && s.doors[1].kind == Exit
    ensures forall i :: 0 <= i < |s.softBlocks| ==> WellPlaced(s.softBlocks[i], s.doors)
    ensures s.player == PlacedAtEntry(old(s.player), s.doors[0])
    ensures |s.enemies| <= SPAWN_COUNT
    ensures forall i :: 0 <= i < |s.enemies| ==>
      WellSpawned(s.softBlocks, [], InwardCell(s.doors[0]).col, InwardCell(s.doors[0]).row, s.enemies[i])
    ensures forall i, j :: 0 <= i < j < |s.enemies| ==>
      CellDistSq(EnemyCell(s.enemies[j]).col, EnemyCell(s.enemies[j]).row,
                 EnemyCell(s.enemies[i]).col, EnemyCell(s.enemies[i]).row) >= 16
    ensures !cache.arenaDrawn && cache.chairCache.None? && cache.tableCache == []
  {
    var room := BuildRoom(roomNum, prevExit, maze, mapRand);
    s.softBlocks := room.softBlocks;
    s.doors := room.doors;
    s.roomNumber := roomNum;
    s.cakePos := room.cakePos;
    s.bombs := [];
    s.explosions := [];
    s.ashPiles := [];
    // doors.find(d => d.type === 'entry') is the first door
    s.player := PlacedAtEntry(s.player, s.doors[0]);
    var attempts := SpawnEnemiesForRoom(s, spawnRand);
    cache.Clear();
  }

  /** Every exit the generator produces stands on the outer ring. */
  lemma ExitOnBorder(x: Door, firstRoom: bool, e: Door)
    requires IsExitCandidate(x, firstRoom, e) || x == FALLBACK_EXIT
    ensures OnBorder(x) && x.kind == Exit
  {
  }

  /** doors.find: the first exit door on cell (col, row). */
  function ExitAt(doors: seq<Door>, col: int, row: int): (r: Option<Door>)
    ensures r.Some? ==> r.value in doors && r.value.kind == Exit && r.value.col == col && r.value.row == row
    ensures r.None? ==> forall i :: 0 <= i < |doors| ==> !(doors[i].kind == Exit && doors[i].col == col && doors[i].row == row)
  {
    if doors == [] then None
    else if doors[0].kind == Exit && doors[0].col == col && doors[0].row == row then Some(doors[0])
    else ExitAt(doors[1..], col, row)
  }

  /**
   * The state change of handleExitReached once its fade is complete: in the
   * first room the second room is built behind the exit door the player's
   * centre stands on (the default entry when there is none); in the last
   * room the stage is finished and nothing changes.
   */
  method HandleExitReached(s: Level3State, cache: StaticCache, maze: (int, int) -> int, mapRand: nat -> real,
                           spawnRand: nat -> real)
    returns (finished: bool)
    requires IsRandomStream(mapRand) && IsRandomStream(spawnRand)
    requires ExitsOnBorder(s.doors)
    modifies s`softBlocks, s`doors, s`roomNumber, s`cakePos, s`bombs, s`explosions, s`ashPiles, s`player, s`enemies
    modifies cache
    ensures finished <==> old(s.roomNumber) == LAST_ROOM
    ensures old(s.roomNumber) == 1 ==> (s.roomNumber == LAST_ROOM && s.cakePos.Some? && |s.doors| >= 1 &&
      s.doors[0] == EntryDoor(ForcedEntry(ExitAt(old(s.doors), PlayerCell(old(s.player)).col, PlayerCell(old(s.player)).row))))
    ensures old(s.roomNumber) == 1 ==> !cache.arenaDrawn && cache.chairCache.None? && cache.tableCache == []
    ensures old(s.roomNumber) != 1 ==> unchanged(s) && unchanged(cache)
  {
    finished := s.roomNumber == LAST_ROOM;
    if s.roomNumber == 1 {
      var cell := PlayerCell(s.player);
      var touchedExit := ExitAt(s.doors, cell.col, cell.row);
      InitRoom(s, cache, LAST_ROOM, touchedExit, maze, mapRand, spawnRand);
    }
  }
}
