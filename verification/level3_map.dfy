// The room generator of the grid stage, from the point where the maze grid
// exists: the entry door and its corridor, the exit door (or, in the last
// room, the cake), the "scanner" that inserts extra partitions, and the
// conversion of marked cells into axis-tagged partitions (soft blocks).
// In the grid, 0 is open floor and 1 a wall or partition mark.

module Level3Map {
  import opened Common
  import opened Level3Types
  import opened Level3Physics

  /** How many interior cells the entry corridor opens, and the exit corridor. */
  const ENTRY_CLEARANCE: int := 4
  const EXIT_CLEARANCE: int := 2

  /** An exit must be more than 8 cells (Euclidean) from the entry. */
  const EXIT_MIN_DIST: int := 8

  const DEFAULT_ENTRY: Door := Door(0, 1, LeftEdge, Entry)
  const FALLBACK_EXIT: Door := Door(COLS - 1, ROWS - 2, RightEdge, Exit)

  /** Columns 6..10 of the top and bottom rows are kept free of exits after the first room. */
  const HUD_FIRST_COL: int := 6
  const HUD_LAST_COL: int := 10

  predicate IsGrid(grid: array2<int>)
  {
    grid.Length0 == ROWS && grid.Length1 == COLS
  }

  function DistSq(c: int, r: int, e: Door): int
  {
    (c - e.col) * (c - e.col) + (r - e.row) * (r - e.row)
  }

  /** isFarEnough: a Euclidean distance above 8, compared on squares. */
  predicate FarEnough(c: int, r: int, e: Door)
  {
    DistSq(c, r, e) > EXIT_MIN_DIST * EXIT_MIN_DIST
  }

  // ------------------------------------------------------------- doors

  /** The entry: a forced one is copied with its kind set to entry; otherwise the left door on row 1. */
  function EntryDoor(forced: Option<Door>): (e: Door)
    ensures e.kind == Entry
    ensures forced.None? ==> e == DEFAULT_ENTRY
    ensures forced.Some? ==> e.col == forced.value.col && e.row == forced.value.row && e.side == forced.value.side
  {
    if forced.Some? then forced.value.(kind := Entry) else DEFAULT_ENTRY
  }

  /**
   * The grid index the entry corridor needs. For a left or right door outside
   * it the source indexes a missing row and throws; for a top or bottom door
   * it would write past the end of a row, which the model does not allow.
   */
  predicate ClearableEntry(e: Door)
  {
    match e.side
    case LeftEdge => 0 <= e.row < ROWS
    case RightEdge => 0 <= e.row < ROWS
    case TopEdge => 0 <= e.col < COLS
    case BottomEdge => 0 <= e.col < COLS
  }

  /** The four cells straight in from the entry's side. */
  predicate InEntryCorridor(e: Door, c: int, r: int)
  {
    match e.side
    case LeftEdge => r == e.row && 1 <= c <= ENTRY_CLEARANCE
    case RightEdge => r == e.row && COLS - 1 - ENTRY_CLEARANCE <= c <= COLS - 2
    case TopEdge => c == e.col && 1 <= r <= ENTRY_CLEARANCE
    case BottomEdge => c == e.col && ROWS - 1 - ENTRY_CLEARANCE <= r <= ROWS - 2
  }

  /** The two cells straight in from the exit's side. */
  predicate InExitCorridor(x: Door, c: int, r: int)
  {
    match x.side
    case RightEdge => r == x.row && x.col - EXIT_CLEARANCE <= c <= x.col - 1
    case LeftEdge => r == x.row && x.col + 1 <= c <= x.col + EXIT_CLEARANCE
    case BottomEdge => c == x.col && x.row - EXIT_CLEARANCE <= r <= x.row - 1
    case TopEdge => c == x.col && x.row + 1 <= r <= x.row + EXIT_CLEARANCE
  }

  /** Where an exit may go: in the first room the lower part of the right column or the right part of the bottom row; later, any border cell off the corners, except the top and bottom cells of columns 6..10. */
  predicate IsExitSpot(d: Door, firstRoom: bool)
  {
    d.kind == Exit &&
    if firstRoom then
      (d.side == RightEdge && d.col == COLS - 1 && ROWS / 2 <= d.row < ROWS - 1) ||
      (d.side == BottomEdge && d.row == ROWS - 1 && COLS / 2 <= d.col < COLS - 1)
    else
      (d.side == RightEdge && d.col == COLS - 1 && 1 <= d.row < ROWS - 1) ||
      (d.side == LeftEdge && d.col == 0 && 1 <= d.row < ROWS - 1) ||
      (d.side == BottomEdge && d.row == ROWS - 1 && 1 <= d.col < COLS - 1 && !(HUD_FIRST_COL <= d.col <= HUD_LAST_COL)) ||
      (d.side == TopEdge && d.row == 0 && 1 <= d.col < COLS - 1 && !(HUD_FIRST_COL <= d.col <= HUD_LAST_COL))
  }

  /** An exit spot that is far enough from the entry. */
  predicate IsExitCandidate(d: Door, firstRoom: bool, e: Door)
  {
    IsExitSpot(d, firstRoom) && FarEnough(d.col, d.row, e)
  }

  /** The loops that collect exitCandidates: exactly the far-enough exit spots. */
  method ExitCandidates(e: Door, firstRoom: bool) returns (cs: seq<Door>)
    ensures forall d :: d in cs <==> IsExitCandidate(d, firstRoom, e)
  {
    cs := [];
    if firstRoom {
      for r := ROWS / 2 to ROWS - 1
        invariant forall d :: d in cs <==>
          IsExitCandidate(d, true, e) && d.side == RightEdge && d.row < r
      {
        if FarEnough(COLS - 1, r, e) {
          cs := cs + [Door(COLS - 1, r, RightEdge, Exit)];
        }
      }
      for c := COLS / 2 to COLS - 1
        invariant forall d :: d in cs <==>
          IsExitCandidate(d, true, e) && (d.side == RightEdge || d.col < c)
      {
        if FarEnough(c, ROWS - 1, e) {
          cs := cs + [Door(c, ROWS - 1, BottomEdge, Exit)];
        }
      }
    } else {
      for r := 1 to ROWS - 1
        invariant forall d :: d in cs <==>
          IsExitCandidate(d, false, e) && (d.side == RightEdge || d.side == LeftEdge) && d.row < r
      {
        if FarEnough(COLS - 1, r, e) {
          cs := cs + [Door(COLS - 1, r, RightEdge, Exit)];
        }
        if FarEnough(0, r, e) {
          cs := cs + [Door(0, r, LeftEdge, Exit)];
        }
      }
      for c := 1 to COLS - 1
        invariant forall d :: d in cs <==>
          IsExitCandidate(d, false, e) && (d.side == RightEdge || d.side == LeftEdge || d.col < c)
      {
        var mirrorsHud := HUD_FIRST_COL <= c <= HUD_LAST_COL;
        if FarEnough(c, ROWS - 1, e) && !mirrorsHud {
          cs := cs + [Door(c, ROWS - 1, BottomEdge, Exit)];
        }
        if FarEnough(c, 0, e) && !mirrorsHud {
          cs := cs + [Door(c, 0, TopEdge, Exit)];
        }
      }
    }
  }

  /** The first room, entered by the default door, always has an exit candidate: the fallback is never used there. */
  lemma FirstRoomHasCandidates(cs: seq<Door>)
    requires forall d :: d in cs <==> IsExitCandidate(d, true, DEFAULT_ENTRY)
    ensures cs != []
  {
    assert IsExitCandidate(Door(COLS - 1, ROWS - 2, RightEdge, Exit), true, DEFAULT_ENTRY);
  }

  /** exitCandidates[Math.floor(roll * length)], or the fallback door when there is none. */
  function PickExit(cs: seq<Door>, roll: real): (x: Door)
    requires 0.0 <= roll < 1.0
    ensures cs != [] ==> x in cs
    ensures cs == [] ==> x == FALLBACK_EXIT
  {
    if cs == [] then FALLBACK_EXIT else cs[PickIndex(roll, |cs|)]
  }

  // ------------------------------------------------------------- grid edits

  /** mapData filled by the maze callback: the maze is an input, read at (x, y). */
  method FillFromMaze(maze: (int, int) -> int) returns (grid: array2<int>)
    ensures fresh(grid) && IsGrid(grid)
    ensures forall r, c :: 0 <= r < ROWS && 0 <= c < COLS ==> grid[r, c] == maze(c, r)
  {
    grid := new int[ROWS, COLS];
    for r := 0 to ROWS
      invariant forall r', c :: 0 <= r' < r && 0 <= c < COLS ==> grid[r', c] == maze(c, r')
    {
      for c := 0 to COLS
        invariant forall r', c' :: 0 <= r' < r && 0 <= c' < COLS ==> grid[r', c'] == maze(c', r')
        invariant forall c' :: 0 <= c' < c ==> grid[r, c'] == maze(c', r)
      {
        grid[r, c] := maze(c, r);
      }
    }
  }

  /** Opens the entry corridor and leaves every other cell as it was. */
  method ClearEntry(grid: array2<int>, e: Door)
    requires IsGrid(grid) && ClearableEntry(e)
    modifies grid
    ensures forall r, c :: 0 <= r < ROWS && 0 <= c < COLS ==>
      grid[r, c] == (if InEntryCorridor(e, c, r) then 0 else old(grid[r, c]))
  {
    match e.side {
      case LeftEdge =>
        for c := 1 to ENTRY_CLEARANCE + 1
          invariant forall r', c' :: 0 <= r' < ROWS && 0 <= c' < COLS ==>
            grid[r', c'] == (if r' == e.row && 1 <= c' < c then 0 else old(grid[r', c']))
        {
          grid[e.row, c] := 0;
        }
      case RightEdge =>
        for c := COLS - 1 - ENTRY_CLEARANCE to COLS - 1
          invariant forall r', c' :: 0 <= r' < ROWS && 0 <= c' < COLS ==>
            grid[r', c'] == (if r' == e.row && COLS - 1 - ENTRY_CLEARANCE <= c' < c then 0 else old(grid[r', c']))
        {
          grid[e.row, c] := 0;
        }
      case TopEdge =>
        for r := 1 to ENTRY_CLEARANCE + 1
          invariant forall r', c' :: 0 <= r' < ROWS && 0 <= c' < COLS ==>
            grid[r', c'] == (if c' == e.col && 1 <= r' < r then 0 else old(grid[r', c']))
        {
          grid[r, e.col] := 0;
        }
      case BottomEdge =>
        for r := ROWS - 1 - ENTRY_CLEARANCE to ROWS - 1
          invariant forall r', c' :: 0 <= r' < ROWS && 0 <= c' < COLS ==>
            grid[r', c'] == (if c' == e.col && ROWS - 1 - ENTRY_CLEARANCE <= r' < r then 0 else old(grid[r', c']))
        {
          grid[r, e.col] := 0;
        }
    }
  }

  /** Opens the two cells in from an exit on the border, and leaves every other cell as it was. */
  method ClearExit(grid: array2<int>, x: Door)
    requires IsGrid(grid)
    requires x.side == RightEdge ==> x.col == COLS - 1 && 0 <= x.row < ROWS
    requires x.side == LeftEdge ==> x.col == 0 && 0 <= x.row < ROWS
    requires x.side == BottomEdge ==> x.row == ROWS - 1 && 0 <= x.col < COLS
    requires x.side == TopEdge ==> x.row == 0 && 0 <= x.col < COLS
    modifies grid
    ensures forall r, c :: 0 <= r < ROWS && 0 <= c < COLS ==>
      grid[r, c] == (if InExitCorridor(x, c, r) then 0 else old(grid[r, c]))
  {
    match x.side {
      case RightEdge =>
        grid[x.row, x.col - 1] := 0;
        grid[x.row, x.col - 2] := 0;
      case LeftEdge =>
        grid[x.row, x.col + 1] := 0;
        grid[x.row, x.col + 2] := 0;
      case BottomEdge =>
        grid[x.row - 1, x.col] := 0;
        grid[x.row - 2, x.col] := 0;
      case TopEdge =>
        grid[x.row + 1, x.col] := 0;
        grid[x.row + 2, x.col] := 0;
    }
  }

  // ------------------------------------------------------------- the cake

  /** Cell (c1, r1) comes before (c2, r2) in row-major order. */
  predicate RowMajorBefore(c1: int, r1: int, c2: int, r2: int)
  {
    r1 < r2 || (r1 == r2 && c1 < c2)
  }

  /** A square sum is never negative, so the first table cell always beats the initial maxDist of -1. */
  lemma DistSqNonNegative(c: int, r: int, e: Door)
    ensures DistSq(c, r, e) >= 0
  {
  }

  /**
   * The argmax loop of the cake placement, over the table cells in
   * row-major order, for a distance that is never negative; a cell replaces
   * the current best only when strictly farther.
   */
  method FarthestTable(dist: (int, int) -> int) returns (cake: Option<Cell>)
    requires forall c, r :: dist(c, r) >= 0
    ensures cake.Some? && IsTableCell(cake.value.col, cake.value.row)
    ensures forall c, r :: IsTableCell(c, r) ==> dist(c, r) <= dist(cake.value.col, cake.value.row)
    ensures forall c, r :: IsTableCell(c, r) && RowMajorBefore(c, r, cake.value.col, cake.value.row) ==>
      dist(c, r) < dist(cake.value.col, cake.value.row)
  {
    cake := None;
    var maxDist := -1;
    var r := 2;
    while r < ROWS - 1
      invariant 2 <= r <= ROWS && r % 2 == 0
      invariant r > 2 ==> cake.Some?
      invariant cake.Some? ==> IsTableCell(cake.value.col, cake.value.row) && RowMajorBefore(cake.value.col, cake.value.row, 0, r)
      invariant maxDist == (if cake.Some? then dist(cake.value.col, cake.value.row) else -1)
      invariant forall c', r' :: IsTableCell(c', r') && r' < r ==> dist(c', r') <= maxDist
      invariant cake.Some? ==> forall c', r' :: IsTableCell(c', r') && RowMajorBefore(c', r', cake.value.col, cake.value.row) ==>
        dist(c', r') < maxDist
    {
      cake, maxDist := FarthestInRow(dist, cake, maxDist, r);
      r := r + 2;
    }
  }

  /** The argmax loop over the table cells of row r, from left to right. */
  method FarthestInRow(dist: (int, int) -> int, cake0: Option<Cell>, maxDist0: int, r: int)
    returns (cake: Option<Cell>, maxDist: int)
    requires forall c, r :: dist(c, r) >= 0
    requires 2 <= r < ROWS - 1 && r % 2 == 0
    requires cake0.Some? ==> IsTableCell(cake0.value.col, cake0.value.row) && RowMajorBefore(cake0.value.col, cake0.value.row, 0, r)
    requires maxDist0 == (if cake0.Some? then dist(cake0.value.col, cake0.value.row) else -1)
    requires forall c', r' :: IsTableCell(c', r') && r' < r ==> dist(c', r') <= maxDist0
    requires cake0.Some? ==> forall c', r' :: IsTableCell(c', r') && RowMajorBefore(c', r', cake0.value.col, cake0.value.row) ==>
      dist(c', r') < maxDist0
    ensures cake.Some? && IsTableCell(cake.value.col, cake.value.row) && RowMajorBefore(cake.value.col, cake.value.row, 0, r + 2)
    ensures maxDist == dist(cake.value.col, cake.value.row)
    ensures forall c', r' :: IsTableCell(c', r') && r' < r + 2 ==> dist(c', r') <= maxDist
    ensures forall c', r' :: IsTableCell(c', r') && RowMajorBefore(c', r', cake.value.col, cake.value.row) ==>
      dist(c', r') < maxDist
  {
    cake, maxDist := cake0, maxDist0;
    var c := 2;
    while c < COLS - 1
      invariant 2 <= c <= COLS && c % 2 == 0
      invariant c > 2 ==> cake.Some?
      invariant cake.Some? ==> IsTableCell(cake.value.col, cake.value.row) && RowMajorBefore(cake.value.col, cake.value.row, c, r)
      invariant maxDist == (if cake.Some? then dist(cake.value.col, cake.value.row) else -1)
      invariant forall c', r' :: IsTableCell(c', r') && RowMajorBefore(c', r', c, r) ==> dist(c', r') <= maxDist
      invariant cake.Some? ==> forall c', r' :: IsTableCell(c', r') && RowMajorBefore(c', r', cake.value.col, cake.value.row) ==>
        dist(c', r') < maxDist
    {
      cake, maxDist := ConsiderTable(dist, cake, maxDist, c, r);
      c := c + 2;
    }
  }

  /**
   * One step of the argmax: table cell (c, r) becomes the best when it is
   * strictly farther than the best so far, among the cells before it.
   */
  method ConsiderTable(dist: (int, int) -> int, cake: Option<Cell>, maxDist: int, c: int, r: int)
    returns (cake': Option<Cell>, maxDist': int)
    requires forall c, r :: dist(c, r) >= 0
    requires IsTableCell(c, r)
    requires cake.Some? ==> IsTableCell(cake.value.col, cake.value.row) && RowMajorBefore(cake.value.col, cake.value.row, c, r)
    requires maxDist == (if cake.Some? then dist(cake.value.col, cake.value.row) else -1)
    requires forall c', r' :: IsTableCell(c', r') && RowMajorBefore(c', r', c, r) ==> dist(c', r') <= maxDist
    requires cake.Some? ==> forall c', r' :: IsTableCell(c', r') && RowMajorBefore(c', r', cake.value.col, cake.value.row) ==>
      dist(c', r') < maxDist
    ensures cake'.Some? && IsTableCell(cake'.value.col, cake'.value.row)
    ensures RowMajorBefore(cake'.value.col, cake'.value.row, c + 2, r)
    ensures maxDist' == dist(cake'.value.col, cake'.value.row)
    ensures forall c', r' :: IsTableCell(c', r') && RowMajorBefore(c', r', c + 2, r) ==> dist(c', r') <= maxDist'
    ensures forall c', r' :: IsTableCell(c', r') && RowMajorBefore(c', r', cake'.value.col, cake'.value.row) ==>
      dist(c', r') < maxDist'
  {
    var d := dist(c, r);
    if d > maxDist {
      maxDist', cake' := d, Some(Cell(c, r));
    } else {
      maxDist', cake' := maxDist, cake;
    }
    forall c', r' | IsTableCell(c', r') && RowMajorBefore(c', r', c + 2, r)
      ensures dist(c', r') <= maxDist'
    {
      if !RowMajorBefore(c', r', c, r) {
        assert r' == r && c <= c' < c + 2;
        assert c' == c;
      }
    }
  }

  /**
   * The last room's cake: the table cell farthest (squared distance) from
   * the entry; on a tie the first one in row-major order stays.
   */
  method FindCake(e: Door) returns (cake: Option<Cell>)
    ensures cake.Some? && IsTableCell(cake.value.col, cake.value.row)
    ensures forall c, r :: IsTableCell(c, r) ==> DistSq(c, r, e) <= DistSq(cake.value.col, cake.value.row, e)
    ensures forall c, r :: IsTableCell(c, r) && RowMajorBefore(c, r, cake.value.col, cake.value.row) ==>
      DistSq(c, r, e) < DistSq(cake.value.col, cake.value.row, e)
  {
    forall c, r ensures DistSq(c, r, e) >= 0 {
      DistSqNonNegative(c, r, e);
    }
    cake := FarthestTable((c, r) => DistSq(c, r, e));
  }

  // ------------------------------------------------------------- the scanner

  /** |a - b| < d for both coordinates: the Chebyshev "near" of the scanner. */
  predicate Near(c: int, r: int, col: int, row: int, d: int)
  {
    AbsInt(c - col) < d && AbsInt(r - row) < d
  }

  predicate NearAnyDoor(doors: seq<Door>, c: int, r: int)
  {
    exists i :: 0 <= i < |doors| && Near(c, r, doors[i].col, doors[i].row, 2)
  }

  /**
   * A cell the scanner may turn into a partition: an odd row and an even
   * column inside the arena, not within 3 of the entry, 2 of a door or 2 of
   * the cake.
   */
  predicate ScannerMayMark(e: Door, doors: seq<Door>, cake: Option<Cell>, c: int, r: int)
  {
    r % 2 == 1 && c % 2 == 0 && 1 <= r < ROWS - 1 && 1 <= c < COLS - 1 &&
    !Near(c, r, e.col, e.row, 3) && !NearAnyDoor(doors, c, r) &&
    !(cake.Some? && Near(c, r, cake.value.col, cake.value.row, 2))
  }

  /** What the scanner may have done to one cell: nothing, or mark an open, allowed cell. */
  predicate ScannedCell(e: Door, doors: seq<Door>, cake: Option<Cell>, c: int, r: int, before: int, after: int)
  {
    after == before || (ScannerMayMark(e, doors, cake, c, r) && before == 0 && after == 1)
  }

  /**
   * The scanner on odd row r: a run counter of open cells, and a mark on an
   * even column once the run reaches the current limit (a draw from 4..6,
   * drawn again after each mark), unless the cell is near the entry, a door
   * or the cake. A marked cell has three open cells before it in its row.
   */
  method ScanRow(grid: array2<int>, r: int, e: Door, doors: seq<Door>, cake: Option<Cell>, rand: nat -> real, k0: nat)
    returns (k: nat)
    requires IsGrid(grid) && IsRandomStream(rand) && 1 <= r < ROWS - 1 && r % 2 == 1
    modifies grid
    ensures k >= k0 + 1
    ensures forall r', c :: 0 <= r' < ROWS && 0 <= c < COLS && r' != r ==> grid[r', c] == old(grid[r', c])
    ensures forall c :: 0 <= c < COLS ==> ScannedCell(e, doors, cake, c, r, old(grid[r, c]), grid[r, c])
    ensures forall c :: 0 <= c < COLS && grid[r, c] != old(grid[r, c]) ==>
      c >= 4 && grid[r, c - 1] == 0 && grid[r, c - 2] == 0 && grid[r, c - 3] == 0
  {
    k := k0;
    var emptyRun := 0;
    var limit := PickFrom(rand(k), 4, 3);
    k := k + 1;
    for c := 1 to COLS - 1
      invariant k >= k0 + 1 && 4 <= limit <= 6
      invariant 0 <= emptyRun <= c - 1
      invariant forall c' :: c - emptyRun <= c' < c ==> grid[r, c'] == 0
      invariant forall r', c' :: 0 <= r' < ROWS && 0 <= c' < COLS && (r' != r || c' >= c) ==> grid[r', c'] == old(grid[r', c'])
      invariant forall c' :: 0 <= c' < COLS ==> ScannedCell(e, doors, cake, c', r, old(grid[r, c']), grid[r, c'])
      invariant forall c' :: 0 <= c' < COLS && grid[r, c'] != old(grid[r, c']) ==>
        c' >= 4 && grid[r, c' - 1] == 0 && grid[r, c' - 2] == 0 && grid[r, c' - 3] == 0
    {
      if grid[r, c] == 0 {
        emptyRun := emptyRun + 1;
        if emptyRun >= limit && c % 2 == 0 {
          var nearEntry := Near(c, r, e.col, e.row, 3);
          var nearDoor := NearAnyDoor(doors, c, r);
          var nearCake := cake.Some? && Near(c, r, cake.value.col, cake.value.row, 2);
          if !nearEntry && !nearDoor && !nearCake {
            assert grid[r, c - 1] == 0 && grid[r, c - 2] == 0 && grid[r, c - 3] == 0;
            grid[r, c] := 1;
            emptyRun := 0;
            limit := PickFrom(rand(k), 4, 3);
            k := k + 1;
          }
        }
      } else {
        emptyRun := 0;
      }
    }
  }

  /** The scanner over every odd row of the arena. */
  method Scan(grid: array2<int>, e: Door, doors: seq<Door>, cake: Option<Cell>, rand: nat -> real, k0: nat)
    returns (k: nat)
    requires IsGrid(grid) && IsRandomStream(rand)
    modifies grid
    ensures k >= k0
    ensures forall r, c :: 0 <= r < ROWS && 0 <= c < COLS ==> ScannedCell(e, doors, cake, c, r, old(grid[r, c]), grid[r, c])
  {
    k := k0;
    var r := 1;
    while r < ROWS - 1
      invariant 1 <= r <= ROWS && r % 2 == 1 && k >= k0
      invariant forall r', c :: 0 <= r' < ROWS && 0 <= c < COLS ==>
        if r' < r then ScannedCell(e, doors, cake, c, r', old(grid[r', c]), grid[r', c]) else grid[r', c] == old(grid[r', c])
    {
      k := ScanRow(grid, r, e, doors, cake, rand, k);
      r := r + 2;
    }
  }

  // ------------------------------------------------------------- partitions

  /** |dc| + |dr| <= 1 from some door: the door's cell or one next to it. */
  predicate NextToDoor(doors: seq<Door>, c: int, r: int)
  {
    exists i :: 0 <= i < |doors| && AbsInt(c - doors[i].col) + AbsInt(r - doors[i].row) <= 1
  }

  /**
   * A partition as the conversion makes it: inside the arena, on a "bridge"
   * cell (exactly one coordinate even), vertical on an even column and
   * horizontal on an even row, and not next to a door.
   */
  predicate WellPlaced(sb: SoftBlock, doors: seq<Door>)
  {
    InInterior(sb.col, sb.row) &&
    (sb.col % 2 == 0) != (sb.row % 2 == 0) &&
    sb.axis == (if sb.col % 2 == 0 then Vertical else Horizontal) &&
    !NextToDoor(doors, sb.col, sb.row)
  }

  /** A well-placed partition never stands on a table cell. */
  lemma WellPlacedIsNotTable(sb: SoftBlock, doors: seq<Door>)
    requires WellPlaced(sb, doors)
    ensures !IsHardCell(sb.col, sb.row)
  {
  }

  /** Appending a partition keeps every earlier one and adds its own cell. */
  lemma AppendKeepsSoftBlocks(soft: seq<SoftBlock>, sb: SoftBlock)
    ensures HasSoftBlockAt(soft + [sb], sb.col, sb.row)
    ensures forall c, r :: HasSoftBlockAt(soft, c, r) ==> HasSoftBlockAt(soft + [sb], c, r)
  {
    assert (soft + [sb])[|soft|] == sb;
    forall c, r | HasSoftBlockAt(soft, c, r)
      ensures HasSoftBlockAt(soft + [sb], c, r)
    {
      var i :| 0 <= i < |soft| && soft[i].col == c && soft[i].row == r;
      assert (soft + [sb])[i] == soft[i];
    }
  }

  /** The conversion: every marked bridge cell of the arena not next to a door, in row-major order. */
  method ToSoftBlocks(grid: array2<int>, doors: seq<Door>) returns (soft: seq<SoftBlock>)
    requires IsGrid(grid)
    ensures forall i :: 0 <= i < |soft| ==> WellPlaced(soft[i], doors) && grid[soft[i].row, soft[i].col] == 1
    ensures forall c, r :: InInterior(c, r) && grid[r, c] == 1 && (c % 2 == 0) != (r % 2 == 0) && !NextToDoor(doors, c, r) ==>
      HasSoftBlockAt(soft, c, r)
    ensures forall i, j :: 0 <= i < j < |soft| ==> RowMajorBefore(soft[i].col, soft[i].row, soft[j].col, soft[j].row)
  {
    soft := [];
    for r := 1 to ROWS - 1
      invariant forall i :: 0 <= i < |soft| ==> WellPlaced(soft[i], doors) && grid[soft[i].row, soft[i].col] == 1
      invariant forall i :: 0 <= i < |soft| ==> soft[i].row < r
      invariant forall c, r' :: (1 <= r' < r && InInterior(c, r') && grid[r', c] == 1 && (c % 2 == 0) != (r' % 2 == 0) &&
        !NextToDoor(doors, c, r')) ==> HasSoftBlockAt(soft, c, r')
      invariant forall i, j :: 0 <= i < j < |soft| ==> RowMajorBefore(soft[i].col, soft[i].row, soft[j].col, soft[j].row)
    {
      for c := 1 to COLS - 1
        invariant forall i :: 0 <= i < |soft| ==> WellPlaced(soft[i], doors) && grid[soft[i].row, soft[i].col] == 1
        invariant forall i :: 0 <= i < |soft| ==> RowMajorBefore(soft[i].col, soft[i].row, c, r)
        invariant forall c', r' :: ((1 <= r' < r || (r' == r && c' < c)) && InInterior(c', r') && grid[r', c'] == 1 &&
          (c' % 2 == 0) != (r' % 2 == 0) && !NextToDoor(doors, c', r')) ==> HasSoftBlockAt(soft, c', r')
        invariant forall i, j :: 0 <= i < j < |soft| ==> RowMajorBefore(soft[i].col, soft[i].row, soft[j].col, soft[j].row)
      {
        soft := ConvertCell(grid, doors, soft, c, r);
      }
    }
  }

  /**
   * One cell of the conversion: a marked bridge cell not next to a door
   * becomes a partition, vertical on an even column and horizontal on an
   * even row; any other cell adds nothing.
   */
  method ConvertCell(grid: array2<int>, doors: seq<Door>, soft: seq<SoftBlock>, c: int, r: int)
    returns (soft': seq<SoftBlock>)
    requires IsGrid(grid) && InInterior(c, r)
    requires forall i :: 0 <= i < |soft| ==> WellPlaced(soft[i], doors) && grid[soft[i].row, soft[i].col] == 1
    requires forall i :: 0 <= i < |soft| ==> RowMajorBefore(soft[i].col, soft[i].row, c, r)
    requires forall i, j :: 0 <= i < j < |soft| ==> RowMajorBefore(soft[i].col, soft[i].row, soft[j].col, soft[j].row)
    ensures forall i :: 0 <= i < |soft'| ==> WellPlaced(soft'[i], doors) && grid[soft'[i].row, soft'[i].col] == 1
    ensures forall i :: 0 <= i < |soft'| ==> RowMajorBefore(soft'[i].col, soft'[i].row, c + 1, r)
    ensures forall i, j :: 0 <= i < j < |soft'| ==> RowMajorBefore(soft'[i].col, soft'[i].row, soft'[j].col, soft'[j].row)
    ensures grid[r, c] == 1 && (c % 2 == 0) != (r % 2 == 0) && !NextToDoor(doors, c, r) ==> HasSoftBlockAt(soft', c, r)
    ensures forall c', r' :: HasSoftBlockAt(soft, c', r') ==> HasSoftBlockAt(soft', c', r')
  {
    soft' := soft;
    if grid[r, c] == 1 {
      var blocksDoor := NextToDoor(doors, c, r);
      var isHardBlockPos := r % 2 == 0 && c % 2 == 0;
      if !blocksDoor && !isHardBlockPos {
        var isVerticalBridge := r % 2 != 0 && c % 2 == 0;
        var isHorizontalBridge := r % 2 == 0 && c % 2 != 0;
        var sb;
        if isVerticalBridge {
          sb := SoftBlock(c, r, Vertical);
        } else if isHorizontalBridge {
          sb := SoftBlock(c, r, Horizontal);
        } else {
          return;
        }
        AppendKeepsSoftBlocks(soft, sb);
        soft' := soft + [sb];
        forall i | 0 <= i < |soft'|
          ensures WellPlaced(soft'[i], doors) && grid[soft'[i].row, soft'[i].col] == 1
          ensures RowMajorBefore(soft'[i].col, soft'[i].row, c + 1, r)
        {
          if i < |soft| {
            assert soft'[i] == soft[i];
          }
        }
        forall i, j | 0 <= i < j < |soft'|
          ensures RowMajorBefore(soft'[i].col, soft'[i].row, soft'[j].col, soft'[j].row)
        {
          assert soft'[i] == soft[i];
          if j < |soft| {
            assert soft'[j] == soft[j];
          }
        }
      }
    }
  }

  /** Partitions listed in strict row-major order stand on distinct cells. */
  lemma RowMajorDistinct(soft: seq<SoftBlock>)
    requires forall i, j :: 0 <= i < j < |soft| ==> RowMajorBefore(soft[i].col, soft[i].row, soft[j].col, soft[j].row)
    ensures forall i, j :: 0 <= i < j < |soft| ==> !(soft[i].col == soft[j].col && soft[i].row == soft[j].row)
  {
  }

  // ------------------------------------------------------------- the room

  /** The result of generateLevelMap. */
  datatype Room = Room(softBlocks: seq<SoftBlock>, doors: seq<Door>, cakePos: Option<Cell>)

  /** Cell (c, r) of the maze once the entry corridor, and the exit corridor when there is an exit, are opened. */
  function Carved(maze: (int, int) -> int, doors: seq<Door>, c: int, r: int): int
    requires |doors| >= 1
  {
    if InEntryCorridor(doors[0], c, r) || (|doors| >= 2 && InExitCorridor(doors[1], c, r)) then 0 else maze(c, r)
  }

  /**
   * generateLevelMap after the maze: `maze` is the maze library's grid,
   * `rand` the Math.random() stream (the exit pick first, then the scanner).
   * `grid` is mapData at the end: the carved maze with the scanner's marks.
   * The partitions are exactly its marked bridge cells away from the doors,
   * in row-major order.
   */
  method GenerateLevelMap(maze: (int, int) -> int, forcedEntry: Option<Door>, isLastRoom: bool, rand: nat -> real)
    returns (room: Room, ghost grid: array2<int>)
    requires IsRandomStream(rand)
    requires forcedEntry.Some? ==> ClearableEntry(forcedEntry.value)
    ensures |room.doors| >= 1 && room.doors[0] == EntryDoor(forcedEntry)
    ensures isLastRoom ==> |room.doors| == 1 && room.cakePos.Some? && IsTableCell(room.cakePos.value.col, room.cakePos.value.row)
    ensures isLastRoom ==> forall c, r :: IsTableCell(c, r) ==>
      DistSq(c, r, room.doors[0]) <= DistSq(room.cakePos.value.col, room.cakePos.value.row, room.doors[0])
    ensures isLastRoom ==> forall c, r :: IsTableCell(c, r) && RowMajorBefore(c, r, room.cakePos.value.col, room.cakePos.value.row) ==>
      DistSq(c, r, room.doors[0]) < DistSq(room.cakePos.value.col, room.cakePos.value.row, room.doors[0])
    ensures !isLastRoom ==> (|room.doors| == 2 && room.cakePos.None? &&
      (IsExitCandidate(room.doors[1], forcedEntry.None?, room.doors[0]) || room.doors[1] == FALLBACK_EXIT))
    ensures !isLastRoom && forcedEntry.None? ==> IsExitCandidate(room.doors[1], true, DEFAULT_ENTRY)
    ensures IsGrid(grid)
    ensures forall r, c :: 0 <= r < ROWS && 0 <= c < COLS ==>
      ScannedCell(room.doors[0], room.doors, room.cakePos, c, r, Carved(maze, room.doors, c, r), grid[r, c])
    ensures forall i :: 0 <= i < |room.softBlocks| ==>
      WellPlaced(room.softBlocks[i], room.doors) && grid[room.softBlocks[i].row, room.softBlocks[i].col] == 1
    ensures forall c, r :: InInterior(c, r) && grid[r, c] == 1 && (c % 2 == 0) != (r % 2 == 0) && !NextToDoor(room.doors, c, r) ==>
      HasSoftBlockAt(room.softBlocks, c, r)
    ensures forall i, j :: 0 <= i < j < |room.softBlocks| ==>
      RowMajorBefore(room.softBlocks[i].col, room.softBlocks[i].row, room.softBlocks[j].col, room.softBlocks[j].row)
    ensures forall i, j :: 0 <= i < j < |room.softBlocks| ==>
      !(room.softBlocks[i].col == room.softBlocks[j].col && room.softBlocks[i].row == room.softBlocks[j].row)
  {
    var g := FillFromMaze(maze);
    var entry := EntryDoor(forcedEntry);
    var doors := [entry];
    ClearEntry(g, entry);

    var cakePos := None;
    var k := 0;
    if !isLastRoom {
      var cs := ExitCandidates(entry, forcedEntry.None?);
      if forcedEntry.None? {
        FirstRoomHasCandidates(cs);
      }
      var exitDoor := PickExit(cs, rand(0));
      k := 1;
      doors := doors + [exitDoor];
      ClearExit(g, exitDoor);
    } else {
      cakePos := FindCake(entry);
    }
    assert forall r, c :: 0 <= r < ROWS && 0 <= c < COLS ==> g[r, c] == Carved(maze, doors, c, r);

    k := Scan(g, entry, doors, cakePos, rand, k);
    var soft := ToSoftBlocks(g, doors);
    RowMajorDistinct(soft);
    room := Room(soft, doors, cakePos);
    grid := g;
  }
}
