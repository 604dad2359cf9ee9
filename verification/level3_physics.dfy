// The per-frame update of the grid stage: arrow-key input, the bomb key,
// the bomb and enemy updates, the hitbox collision test with bomb
// "ghosting", the cell-aligned movement and the exit / cake checks.

module Level3Physics {
  import opened Common
  import opened Level3Types
  import opened EnemyLogic
  import opened BombLogic

  /** The player's hitbox: 24 x 24, inset 8 px from the sides of the sprite and 23 px from its top. */
  const HITBOX_MARGIN_X: real := 8.0
  const HITBOX_HEIGHT: real := 24.0
  const HITBOX_Y_OFFSET: real := (PLAYER_HEIGHT - HITBOX_HEIGHT) / 2.0 + 10.0
  const HITBOX_WIDTH: real := PLAYER_WIDTH - HITBOX_MARGIN_X * 2.0

  /** Tables collide as their tile inset by 4 px; partitions are 14 px thick. */
  const BLOCK_MARGIN: real := 4.0
  const PARTITION_THICKNESS: real := 14.0

  /** The perpendicular re-centring speed, per unit of time. */
  const ALIGN_SPEED: real := 3.0

  /** Re-centring is skipped within this distance of the lane centre. */
  const ALIGN_TOLERANCE: real := 0.1

  /** The cake is reached within this distance of its cell centre. */
  const CAKE_REACH: real := 64.0

  datatype Rect = Rect(left: real, top: real, right: real, bottom: real)

  /** Strict overlap of two rectangles: touching edges do not count. */
  predicate Overlaps(a: Rect, b: Rect)
  {
    a.left < b.right && a.right > b.left && a.top < b.bottom && a.bottom > b.top
  }

  function Hitbox(x: real, y: real): (r: Rect)
    ensures r.right - r.left == HITBOX_WIDTH && r.bottom - r.top == HITBOX_HEIGHT
  {
    Rect(x + HITBOX_MARGIN_X, y + HITBOX_Y_OFFSET, x + HITBOX_MARGIN_X + HITBOX_WIDTH, y + HITBOX_Y_OFFSET + HITBOX_HEIGHT)
  }

  function TileRect(c: int, r: int): Rect
  {
    Rect(c as real * TILE_SIZE, r as real * TILE_SIZE, (c + 1) as real * TILE_SIZE, (r + 1) as real * TILE_SIZE)
  }

  /** A table: the tile inset by BLOCK_MARGIN on every side. */
  function TableRect(c: int, r: int): Rect
  {
    var bx := c as real * TILE_SIZE + BLOCK_MARGIN;
    var y0 := r as real * TILE_SIZE + BLOCK_MARGIN;
    var w := TILE_SIZE - BLOCK_MARGIN * 2.0;
    Rect(bx, y0, bx + w, y0 + w)
  }

  /**
   * A partition: a vertical one is a 14 px column through the middle of its
   * tile, a horizontal one a 22 px band (the thickness plus 4 px each way).
   */
  function PartitionRect(sb: SoftBlock): (r: Rect)
    ensures sb.axis == Vertical ==> r.right - r.left == PARTITION_THICKNESS && r.bottom - r.top == TILE_SIZE
    ensures sb.axis == Horizontal ==> r.right - r.left == TILE_SIZE && r.bottom - r.top == PARTITION_THICKNESS + 8.0
  {
    var offset := (TILE_SIZE - PARTITION_THICKNESS) / 2.0;
    var x0 := sb.col as real * TILE_SIZE;
    var y0 := sb.row as real * TILE_SIZE;
    if sb.axis == Vertical then Rect(x0 + offset, y0, x0 + offset + PARTITION_THICKNESS, y0 + TILE_SIZE)
    else Rect(x0, y0 + offset - 4.0, x0 + TILE_SIZE, y0 + offset - 4.0 + PARTITION_THICKNESS + 8.0)
  }

  /** The tables the collision test knows: even/even cells of the interior. */
  predicate IsTableCell(c: int, r: int)
  {
    r % 2 == 0 && c % 2 == 0 && InInterior(c, r)
  }

  /**
   * Whether cell (c, r) stops a player whose hitbox is `cur` now and would
   * be `target` after the step: a door cell never does; a bomb does unless
   * the player already touches its tile; a table, the first partition on the
   * cell, or the arena wall does when the target overlaps it.
   */
  predicate CellBlocks(doors: seq<Door>, bombs: seq<Bomb>, soft: seq<SoftBlock>, cur: Rect, target: Rect, c: int, r: int)
  {
    !HasDoorAt(doors, c, r) &&
    ((HasBombAt(bombs, c, r) && !Overlaps(cur, TileRect(c, r))) ||
     (IsTableCell(c, r) && Overlaps(target, TableRect(c, r))) ||
     (var k := FirstSoftAt(soft, c, r); k != -1 && Overlaps(target, PartitionRect(soft[k]))) ||
     !InInterior(c, r))
  }

  /** isColliding(nx, ny) with the player at (x, y): some cell under the target hitbox blocks. */
  ghost predicate Colliding(doors: seq<Door>, bombs: seq<Bomb>, soft: seq<SoftBlock>, x: real, y: real, nx: real, ny: real)
  {
    var t := Hitbox(nx, ny);
    exists r, c :: CellIndex(t.top) <= r <= CellIndex(t.bottom) && CellIndex(t.left) <= c <= CellIndex(t.right) &&
      CellBlocks(doors, bombs, soft, Hitbox(x, y), t, c, r)
  }

  /** The nested row / column loops of isColliding, returning at the first blocking cell. */
  method IsColliding(doors: seq<Door>, bombs: seq<Bomb>, soft: seq<SoftBlock>, x: real, y: real, nx: real, ny: real)
    returns (hit: bool)
    ensures hit <==> Colliding(doors, bombs, soft, x, y, nx, ny)
  {
    var t := Hitbox(nx, ny);
    var cur := Hitbox(x, y);
    var startCol, endCol := CellIndex(t.left), CellIndex(t.right);
    var startRow, endRow := CellIndex(t.top), CellIndex(t.bottom);
    var r := startRow;
    while r <= endRow
      invariant startRow <= r
      invariant forall r', c' :: startRow <= r' < r && startCol <= c' <= endCol ==>
        !CellBlocks(doors, bombs, soft, cur, t, c', r')
    {
      var c := startCol;
      while c <= endCol
        invariant startCol <= c
        invariant forall r', c' :: startRow <= r' < r && startCol <= c' <= endCol ==>
          !CellBlocks(doors, bombs, soft, cur, t, c', r')
        invariant forall c' :: startCol <= c' < c ==> !CellBlocks(doors, bombs, soft, cur, t, c', r)
      {
        if !HasDoorAt(doors, c, r) {
          assert startRow <= r <= endRow && startCol <= c <= endCol;
          if HasBombAt(bombs, c, r) && !Overlaps(cur, TileRect(c, r)) {
            assert CellBlocks(doors, bombs, soft, cur, t, c, r);
            return true;
          }
          if IsTableCell(c, r) && Overlaps(t, TableRect(c, r)) {
            assert CellBlocks(doors, bombs, soft, cur, t, c, r);
            return true;
          }
          var k := FirstSoftAt(soft, c, r);
          if k != -1 && Overlaps(t, PartitionRect(soft[k])) {
            assert CellBlocks(doors, bombs, soft, cur, t, c, r);
            return true;
          }
          if c < 1 || c >= COLS - 1 || r < 1 || r >= ROWS - 1 {
            assert CellBlocks(doors, bombs, soft, cur, t, c, r);
            return true;
          }
        }
        c := c + 1;
      }
      r := r + 1;
    }
    return false;
  }

  /** The scan rows and columns cover every tile the target hitbox overlaps. */
  lemma ScanCoversHitbox(t: Rect, c: int, r: int)
    requires Overlaps(t, TileRect(c, r))
    ensures CellIndex(t.left) <= c <= CellIndex(t.right)
    ensures CellIndex(t.top) <= r <= CellIndex(t.bottom)
  {
    FloorBelow(t.left, c);
    FloorAbove(t.right, c);
    FloorBelow(t.top, r);
    FloorAbove(t.bottom, r);
  }

  lemma FloorBelow(p: real, c: int)
    requires p < (c + 1) as real * TILE_SIZE
    ensures CellIndex(p) <= c
  {
    assert p / TILE_SIZE < (c + 1) as real;
  }

  lemma FloorAbove(p: real, c: int)
    requires p > c as real * TILE_SIZE
    ensures CellIndex(p) >= c
  {
    assert p / TILE_SIZE > c as real;
  }

  /** A target hitbox over an arena-wall tile that is not a door always collides. */
  lemma WallTileCollides(doors: seq<Door>, bombs: seq<Bomb>, soft: seq<SoftBlock>, x: real, y: real, nx: real, ny: real, c: int, r: int)
    requires !InInterior(c, r) && !HasDoorAt(doors, c, r)
    requires Overlaps(Hitbox(nx, ny), TileRect(c, r))
    ensures Colliding(doors, bombs, soft, x, y, nx, ny)
  {
    ScanCoversHitbox(Hitbox(nx, ny), c, r);
    assert CellBlocks(doors, bombs, soft, Hitbox(x, y), Hitbox(nx, ny), c, r);
  }

  /**
   * Ghosting: a bomb tile the target overlaps blocks exactly when the
   * player's current hitbox is off that tile (for a bomb on a free floor
   * cell, the only kind placeBomb makes).
   */
  lemma BombTileBlocksFromOutside(doors: seq<Door>, bombs: seq<Bomb>, soft: seq<SoftBlock>, x: real, y: real, nx: real, ny: real, c: int, r: int)
    requires HasBombAt(bombs, c, r) && !HasDoorAt(doors, c, r)
    requires Overlaps(Hitbox(nx, ny), TileRect(c, r)) && !Overlaps(Hitbox(x, y), TileRect(c, r))
    ensures Colliding(doors, bombs, soft, x, y, nx, ny)
  {
    ScanCoversHitbox(Hitbox(nx, ny), c, r);
    assert CellBlocks(doors, bombs, soft, Hitbox(x, y), Hitbox(nx, ny), c, r);
  }

  lemma BombTileLetsOut(doors: seq<Door>, bombs: seq<Bomb>, soft: seq<SoftBlock>, cur: Rect, target: Rect, c: int, r: int)
    requires InInterior(c, r) && !IsHardCell(c, r) && !HasSoftBlockAt(soft, c, r)
    requires Overlaps(cur, TileRect(c, r))
    ensures !CellBlocks(doors, bombs, soft, cur, target, c, r)
  {
    FirstSoftAtAbsent(soft, c, r);
  }

  lemma FirstSoftAtAbsent(soft: seq<SoftBlock>, c: int, r: int)
    requires !HasSoftBlockAt(soft, c, r)
    ensures FirstSoftAt(soft, c, r) == -1
  {
  }

  /** A door cell never blocks, whatever lies on it. */
  lemma DoorNeverBlocks(doors: seq<Door>, bombs: seq<Bomb>, soft: seq<SoftBlock>, cur: Rect, target: Rect, c: int, r: int)
    requires HasDoorAt(doors, c, r)
    ensures !CellBlocks(doors, bombs, soft, cur, target, c, r)
  {
  }

  // ------------------------------------------------------------- input

  datatype Keys = Keys(left: bool, right: bool, up: bool, down: bool, space: bool)

  /** The movement one frame's keys ask for, and the direction the player then faces. */
  datatype Steering = Steering(dx: real, dy: real, dir: Option<Dir>)

  /** Arrow keys with priority Left > Right > Up > Down; only one axis moves. */
  function Steer(keys: Keys, speed: real): (st: Steering)
    requires speed > 0.0
    ensures st.dx == 0.0 || st.dy == 0.0
    ensures (st.dx != 0.0 || st.dy != 0.0) <==> (keys.left || keys.right || keys.up || keys.down)
    ensures st.dir == Some(Left) <==> st.dx < 0.0
    ensures st.dir == Some(Right) <==> st.dx > 0.0
    ensures st.dir == Some(Up) <==> st.dy < 0.0
    ensures st.dir == Some(Down) <==> st.dy > 0.0
    ensures keys.left ==> st.dir == Some(Left)
    ensures !keys.left && keys.right ==> st.dir == Some(Right)
    ensures !keys.left && !keys.right && keys.up ==> st.dir == Some(Up)
    ensures st.dx == 0.0 || st.dx == speed || st.dx == -speed
    ensures st.dy == 0.0 || st.dy == speed || st.dy == -speed
  {
    if keys.left then Steering(-speed, 0.0, Some(Left))
    else if keys.right then Steering(speed, 0.0, Some(Right))
    else if keys.up then Steering(0.0, -speed, Some(Up))
    else if keys.down then Steering(0.0, speed, Some(Down))
    else Steering(0.0, 0.0, None)
  }

  // ------------------------------------------------------------- movement

  /** The y the sprite has when centred in the row its centre is in. */
  function LaneTop(y: real): real
  {
    CellIndex(y + PLAYER_HEIGHT / 2.0) as real * TILE_SIZE + (TILE_SIZE - PLAYER_HEIGHT) / 2.0
  }

  /** The x the sprite has when centred in the column its centre is in. */
  function LaneLeft(x: real): real
  {
    CellIndex(x + PLAYER_WIDTH / 2.0) as real * TILE_SIZE + (TILE_SIZE - PLAYER_WIDTH) / 2.0
  }

  /** The re-centring step toward a lane that is `diff` away, as the source writes it. */
  function AlignStep(diff: real, timeScale: real): (step: real)
    requires timeScale > 0.0
    ensures Abs(step) <= ALIGN_SPEED * timeScale
    ensures diff >= 0.0 ==> 0.0 <= step <= diff
    ensures diff <= 0.0 ==> diff <= step <= 0.0
    ensures diff != 0.0 ==> step != 0.0
  {
    ClampedStepAgrees(diff, ALIGN_SPEED * timeScale);
    if Abs(diff) < ALIGN_SPEED * timeScale then diff else Sign(diff) * (ALIGN_SPEED * timeScale)
  }

  /**
   * One frame of movement from (x, y) to (x', y'): with a horizontal move the
   * player first re-centres vertically (when more than 0.1 px off and the
   * step is free), then takes the horizontal step if it is free, tested from
   * the re-centred position; a vertical move is the mirror image; with no
   * move nothing changes.
   */
  ghost predicate Stepped(doors: seq<Door>, bombs: seq<Bomb>, soft: seq<SoftBlock>,
                          x: real, y: real, dx: real, dy: real, timeScale: real, x': real, y': real)
    requires timeScale > 0.0
  {
    if dx != 0.0 then
      var diff := LaneTop(y) - y;
      var step := AlignStep(diff, timeScale);
      (if Abs(diff) > ALIGN_TOLERANCE && !Colliding(doors, bombs, soft, x, y, x, y + step) then y' == y + step else y' == y) &&
      (if !Colliding(doors, bombs, soft, x, y', x + dx, y') then x' == x + dx else x' == x)
    else if dy != 0.0 then
      var diff := LaneLeft(x) - x;
      var step := AlignStep(diff, timeScale);
      (if Abs(diff) > ALIGN_TOLERANCE && !Colliding(doors, bombs, soft, x, y, x + step, y) then x' == x + step else x' == x) &&
      (if !Colliding(doors, bombs, soft, x', y, x', y + dy) then y' == y + dy else y' == y)
    else
      x' == x && y' == y
  }

  /** Step 4 of updateLevel3 on the player's coordinates. */
  method Move(doors: seq<Door>, bombs: seq<Bomb>, soft: seq<SoftBlock>, x: real, y: real, dx: real, dy: real, timeScale: real)
    returns (x': real, y': real)
    requires timeScale > 0.0
    ensures Stepped(doors, bombs, soft, x, y, dx, dy, timeScale, x', y')
  {
    x', y' := x, y;
    if dx != 0.0 {
      var diff := LaneTop(y') - y';
      if Abs(diff) > ALIGN_TOLERANCE {
        var step := AlignStep(diff, timeScale);
        var blocked := IsColliding(doors, bombs, soft, x', y', x', y' + step);
        if !blocked {
          y' := y' + step;
        }
      }
      var blocked := IsColliding(doors, bombs, soft, x', y', x' + dx, y');
      if !blocked {
        x' := x' + dx;
      }
    } else if dy != 0.0 {
      var diff := LaneLeft(x') - x';
      if Abs(diff) > ALIGN_TOLERANCE {
        var step := AlignStep(diff, timeScale);
        var blocked := IsColliding(doors, bombs, soft, x', y', x' + step, y');
        if !blocked {
          x' := x' + step;
        }
      }
      var blocked := IsColliding(doors, bombs, soft, x', y', x', y' + dy);
      if !blocked {
        y' := y' + dy;
      }
    }
  }

  /** The re-centring never moves the player more than 3 * timeScale, nor past the lane centre. */
  lemma SteppedAlignsWithoutOvershoot(doors: seq<Door>, bombs: seq<Bomb>, soft: seq<SoftBlock>,
                                      x: real, y: real, dx: real, dy: real, timeScale: real, x': real, y': real)
    requires timeScale > 0.0 && Stepped(doors, bombs, soft, x, y, dx, dy, timeScale, x', y')
    ensures dx != 0.0 ==> Abs(y' - y) <= ALIGN_SPEED * timeScale && Abs(LaneTop(y) - y') <= Abs(LaneTop(y) - y)
    ensures dx == 0.0 && dy != 0.0 ==> Abs(x' - x) <= ALIGN_SPEED * timeScale && Abs(LaneLeft(x) - x') <= Abs(LaneLeft(x) - x)
  {
  }

  /**
   * A horizontal step is only taken to a free spot: the hitbox there overlaps
   * no arena-wall tile except through a door, and enters no bomb tile it was
   * not already touching.
   */
  lemma SteppedHorizontallyAvoidsWallsAndBombs(doors: seq<Door>, bombs: seq<Bomb>, soft: seq<SoftBlock>,
                                   x: real, y: real, dx: real, dy: real, timeScale: real, x': real, y': real,
                                   c: int, r: int)
    requires timeScale > 0.0 && Stepped(doors, bombs, soft, x, y, dx, dy, timeScale, x', y')
    requires dx != 0.0 && x' == x + dx && !HasDoorAt(doors, c, r)
    ensures !InInterior(c, r) ==> !Overlaps(Hitbox(x', y'), TileRect(c, r))
    ensures HasBombAt(bombs, c, r) && Overlaps(Hitbox(x', y'), TileRect(c, r)) ==> Overlaps(Hitbox(x, y'), TileRect(c, r))
  {
    assert !Colliding(doors, bombs, soft, x, y', x + dx, y');
    if !InInterior(c, r) && Overlaps(Hitbox(x', y'), TileRect(c, r)) {
      WallTileCollides(doors, bombs, soft, x, y', x', y', c, r);
    }
    if HasBombAt(bombs, c, r) && Overlaps(Hitbox(x', y'), TileRect(c, r)) && !Overlaps(Hitbox(x, y'), TileRect(c, r)) {
      BombTileBlocksFromOutside(doors, bombs, soft, x, y', x', y', c, r);
    }
  }

  /**
   * The mirror image for a vertical step: it is only taken to a spot whose
   * hitbox overlaps no arena-wall tile except through a door, and enters no
   * bomb tile it was not already touching.
   */
  lemma SteppedVerticallyAvoidsWallsAndBombs(doors: seq<Door>, bombs: seq<Bomb>, soft: seq<SoftBlock>,
                                             x: real, y: real, dx: real, dy: real, timeScale: real, x': real, y': real,
                                             c: int, r: int)
    requires timeScale > 0.0 && Stepped(doors, bombs, soft, x, y, dx, dy, timeScale, x', y')
    requires dx == 0.0 && dy != 0.0 && y' == y + dy && !HasDoorAt(doors, c, r)
    ensures !InInterior(c, r) ==> !Overlaps(Hitbox(x', y'), TileRect(c, r))
    ensures HasBombAt(bombs, c, r) && Overlaps(Hitbox(x', y'), TileRect(c, r)) ==> Overlaps(Hitbox(x', y), TileRect(c, r))
  {
    assert !Colliding(doors, bombs, soft, x', y, x', y + dy);
    if !InInterior(c, r) && Overlaps(Hitbox(x', y'), TileRect(c, r)) {
      WallTileCollides(doors, bombs, soft, x', y, x', y', c, r);
    }
    if HasBombAt(bombs, c, r) && Overlaps(Hitbox(x', y'), TileRect(c, r)) && !Overlaps(Hitbox(x', y), TileRect(c, r)) {
      BombTileBlocksFromOutside(doors, bombs, soft, x', y, x', y', c, r);
    }
  }

  // ------------------------------------------------------------- completion

  /** doors.find(d => d.type === 'exit') */
  function FirstExit(doors: seq<Door>): (r: Option<Door>)
    ensures r.None? <==> forall i :: 0 <= i < |doors| ==> doors[i].kind != Exit
    ensures r.Some? ==> r.value in doors && r.value.kind == Exit
    ensures r.Some? ==> exists i :: 0 <= i < |doors| && doors[i] == r.value && forall j :: 0 <= j < i ==> doors[j].kind != Exit
  {
    if doors == [] then None
    else if doors[0].kind == Exit then Some(doors[0])
    else
      var r := FirstExit(doors[1..]);
      assert forall i :: 1 <= i < |doors| ==> doors[i] == doors[1..][i - 1];
      r
  }

  /**
   * Step 5 of updateLevel3: room 1 is done when the hitbox overlaps the exit door's tile;
   * a later room when the sprite's centre is within 64 px of the cake cell's
   * centre.
   */
  predicate ReachedGoal(roomNumber: int, doors: seq<Door>, cakePos: Option<Cell>, p: Player)
  {
    if roomNumber == 1 then
      FirstExit(doors).Some? && Overlaps(Hitbox(p.x, p.y), TileRect(FirstExit(doors).value.col, FirstExit(doors).value.row))
    else
      cakePos.Some? && CakeDistSq(p, cakePos.value) < CAKE_REACH * CAKE_REACH
  }

  /** The squared distance from the sprite's centre to the centre of the cake's cell. */
  function CakeDistSq(p: Player, cake: Cell): real
  {
    var tx := cake.col as real * TILE_SIZE + TILE_SIZE / 2.0;
    var ty := cake.row as real * TILE_SIZE + TILE_SIZE / 2.0;
    (CentreX(p) - tx) * (CentreX(p) - tx) + (CentreY(p) - ty) * (CentreY(p) - ty)
  }

  /** In a later room, a player standing on the cake's cell has reached it. */
  lemma OnCakeCellReachesIt(roomNumber: int, doors: seq<Door>, cake: Cell, p: Player)
    requires roomNumber != 1 && PlayerCell(p) == cake
    ensures ReachedGoal(roomNumber, doors, Some(cake), p)
  {
    var tx := cake.col as real * TILE_SIZE + TILE_SIZE / 2.0;
    var ty := cake.row as real * TILE_SIZE + TILE_SIZE / 2.0;
    CellSpan(CentreX(p), cake.col);
    CellSpan(CentreY(p), cake.row);
    var ex, ey := CentreX(p) - tx, CentreY(p) - ty;
    assert -32.0 <= ex < 32.0 && -32.0 <= ey < 32.0;
    SquareBelow(ex);
    SquareBelow(ey);
  }

  lemma CellSpan(p: real, c: int)
    requires CellIndex(p) == c
    ensures c as real * TILE_SIZE <= p < (c + 1) as real * TILE_SIZE
  {
  }

  lemma SquareBelow(e: real)
    requires -32.0 <= e < 32.0
    ensures e * e <= 1024.0
  {
    if e >= 0.0 {
      assert e * e <= 32.0 * e;
    } else {
      assert e * e <= -32.0 * e;
    }
  }

  /** Steps 4 and 5 of updateLevel3: the aligned move, then the exit or cake check. */
  method MoveAndCheckGoal(s: Level3State, st: Steering, timeScale: real) returns (complete: bool)
    requires timeScale > 0.0
    modifies s`player
    ensures Stepped(s.doors, s.bombs, s.softBlocks, old(s.player.x), old(s.player.y), st.dx, st.dy, timeScale, s.player.x, s.player.y)
    ensures s.player == old(s.player).(x := s.player.x, y := s.player.y)
    ensures complete <==> ReachedGoal(s.roomNumber, s.doors, s.cakePos, s.player)
  {
    var x, y := Move(s.doors, s.bombs, s.softBlocks, s.player.x, s.player.y, st.dx, st.dy, timeScale);
    s.player := s.player.(x := x, y := y);

    complete := false;
    if s.roomNumber == 1 {
      var exit := FirstExit(s.doors);
      if exit.Some? {
        complete := Overlaps(Hitbox(s.player.x, s.player.y), TileRect(exit.value.col, exit.value.row));
      }
    } else if s.cakePos.Some? {
      complete := CakeDistSq(s.player, s.cakePos.value) < CAKE_REACH * CAKE_REACH;
    }
  }

  // ------------------------------------------------------------- the frame

  /** Step 1 tries placeBomb while space is held; it places one exactly when CanPlaceBomb allows it. */
  predicate PlacesBomb(keys: Keys, charges: int, soft: seq<SoftBlock>, bombs: seq<Bomb>, p: Player)
  {
    keys.space && CanPlaceBomb(charges, soft, bombs, PlayerCell(p))
  }

  /** The bomb placeBomb drops: a full fuse in the player's centre cell. */
  function NewBomb(p: Player): Bomb
  {
    Bomb(PlayerCell(p).col, PlayerCell(p).row, BOMB_TIMER, BOMB_TIMER)
  }

  /**
   * Step 2 of updateLevel3, first half, from the field f to m: the bomb loop
   * leaves t = Ticked(f) with its explosions faded, t's explosions are f's
   * plus the blasts, blast k is centred on bomb fired[k] of f, and `bombHit`
   * (an onGameOver call) says that a blast covers `cell`.
   */
  ghost predicate BombsUpdated(f: Field, m: Field, cell: Cell, timeScale: real,
                               fired: seq<nat>, blasts: seq<Explosion>, bombHit: bool)
    requires timeScale > 0.0
  {
    var t := Ticked(f, timeScale, 0);
    t.explosions == f.explosions + blasts && |fired| == |blasts| &&
    (forall k :: 0 <= k < |blasts| ==>
      fired[k] < |f.bombs| && blasts[k].col == f.bombs[fired[k]].col && blasts[k].row == f.bombs[fired[k]].row) &&
    m.soft == t.soft && m.bombs == t.bombs && m.enemies == t.enemies && m.ash == t.ash &&
    m.explosions == FadeExplosions(t.explosions, timeScale) &&
    (bombHit <==> exists k :: 0 <= k < |blasts| && cell in blasts[k].cells)
  }

  /**
   * Second half, from m to g: partitions, bombs and explosions stay; enemy i
   * ticks with draw rand(i) towards the player's centre (px, py) and the ash
   * fades, unless a sight scan hangs, which leaves enemies and ash as they
   * were. `enemyHit` (an onGameOver call) says that an enemy reached the
   * player: when a scan hangs, one up to and including the first to hang.
   */
  ghost predicate EnemiesUpdated(m: Field, g: Field, px: real, py: real, timeScale: real, rand: nat -> real,
                                 enemyHit: bool, hung: bool)
    requires timeScale > 0.0 && IsRandomStream(rand)
  {
    g.soft == m.soft && g.bombs == m.bombs && g.explosions == m.explosions &&
    (hung <==> exists i :: 0 <= i < |m.enemies| && Tick(m.soft, m.bombs, m.enemies[i], px, py, timeScale, rand(i)).hung) &&
    (hung ==>
      g.enemies == m.enemies && g.ash == m.ash &&
      exists h :: 0 <= h < |m.enemies| && FirstHang(m.soft, m.bombs, m.enemies, px, py, timeScale, rand, h) &&
        (enemyHit <==> ContactAmong(m.soft, m.bombs, m.enemies, px, py, timeScale, rand, h + 1))) &&
    (!hung ==>
      |g.enemies| == |m.enemies| &&
      (forall i :: 0 <= i < |m.enemies| ==> g.enemies[i] == Tick(m.soft, m.bombs, m.enemies[i], px, py, timeScale, rand(i)).enemy) &&
      g.ash == FadeAsh(m.ash, timeScale) &&
      (enemyHit <==> ContactAmong(m.soft, m.bombs, m.enemies, px, py, timeScale, rand, |m.enemies|)))
  }

  /** Step 2 of updateLevel3 on values, from f through m to g, with the player p standing still. */
  ghost predicate ObjectsUpdated(f: Field, m: Field, g: Field, p: Player, timeScale: real, rand: nat -> real,
                                 fired: seq<nat>, blasts: seq<Explosion>, bombHit: bool, enemyHit: bool, hung: bool)
    requires timeScale > 0.0 && IsRandomStream(rand)
  {
    BombsUpdated(f, m, PlayerCell(p), timeScale, fired, blasts, bombHit) &&
    EnemiesUpdated(m, g, CentreX(p), CentreY(p), timeScale, rand, enemyHit, hung)
  }

  /** Step 1 of updateLevel3: face the key's direction, drop a bomb while space is held, animate. */
  method ReadInput(s: Level3State, keys: Keys, timeScale: real) returns (st: Steering)
    requires timeScale > 0.0
    modifies s`player, s`bombCharges, s`rechargeTimers, s`bombs
    ensures st == Steer(keys, MOVE_SPEED * timeScale)
    ensures s.player.x == old(s.player.x) && s.player.y == old(s.player.y)
    ensures s.player.dir == (if st.dir.Some? then st.dir.value else old(s.player.dir))
    ensures s.player.isMoving == (st.dx != 0.0 || st.dy != 0.0)
    ensures s.player.frame == (if s.player.isMoving then old(s.player.frame) + timeScale else old(s.player.frame))
    ensures s.player == old(s.player).(dir := s.player.dir, isMoving := s.player.isMoving, frame := s.player.frame)
    ensures if PlacesBomb(keys, old(s.bombCharges), s.softBlocks, old(s.bombs), old(s.player)) then
        s.bombs == old(s.bombs) + [NewBomb(old(s.player))] && s.bombCharges == old(s.bombCharges) - 1 &&
        s.rechargeTimers == old(s.rechargeTimers) + [RECHARGE_TIME]
      else
        s.bombs == old(s.bombs) && s.bombCharges == old(s.bombCharges) && s.rechargeTimers == old(s.rechargeTimers)
    ensures !keys.space ==> s.bombs == old(s.bombs) && s.bombCharges == old(s.bombCharges)
    ensures FieldOf(s) == old(FieldOf(s)).(bombs := s.bombs)
    ensures ChargesBalanced(old(s.bombCharges), old(s.rechargeTimers), s.maxBombCharges) ==>
      ChargesBalanced(s.bombCharges, s.rechargeTimers, s.maxBombCharges)
    ensures BombsOnDistinctCells(old(s.bombs)) ==> BombsOnDistinctCells(s.bombs)
  {
    st := Steer(keys, MOVE_SPEED * timeScale);
    if st.dir.Some? {
      s.player := s.player.(dir := st.dir.value);
    }
    if keys.space {
      PlaceBomb(s);
    }
    var moving := st.dx != 0.0 || st.dy != 0.0;
    s.player := s.player.(isMoving := moving);
    if moving {
      s.player := s.player.(frame := s.player.frame + timeScale);
    }
  }

  /**
   * Step 2 of updateLevel3: the bombs and explosions, then the enemies, as
   * ObjectsUpdated states; the recharge runs as in Recharge. `gameOver` is a
   * blast or an enemy reaching the player; `hung` is the enemy update never
   * returning.
   */
  method UpdateObjects(s: Level3State, timeScale: real, rand: nat -> real)
    returns (gameOver: bool, hung: bool, ghost mid: Field, ghost bombHit: bool, ghost enemyHit: bool,
             ghost fired: seq<nat>, ghost blasts: seq<Explosion>)
    requires timeScale > 0.0 && IsRandomStream(rand)
    modifies s`softBlocks, s`bombs, s`enemies, s`ashPiles, s`explosions, s`bombCharges, s`rechargeTimers
    ensures ObjectsUpdated(old(FieldOf(s)), mid, FieldOf(s), s.player, timeScale, rand, fired, blasts, bombHit, enemyHit, hung)
    ensures gameOver == (bombHit || enemyHit)
    ensures old(s.bombCharges) < s.maxBombCharges ==> s.rechargeTimers == Recharged(old(s.rechargeTimers), timeScale)
    ensures old(s.bombCharges) >= s.maxBombCharges ==> s.rechargeTimers == old(s.rechargeTimers)
    ensures s.bombCharges == old(s.bombCharges) + |old(s.rechargeTimers)| - |s.rechargeTimers|
    ensures ChargesBalanced(old(s.bombCharges), old(s.rechargeTimers), s.maxBombCharges) ==>
      ChargesBalanced(s.bombCharges, s.rechargeTimers, s.maxBombCharges)
    ensures BombsOnDistinctCells(old(s.bombs)) ==> BombsOnDistinctCells(s.bombs)
    ensures forall b :: b in s.bombs ==> b.timer > 0.0
  {
    ghost var f := FieldOf(s);
    ghost var kept;
    var blastHit, contact;
    blastHit, kept, fired, blasts := UpdateBombsAndExplosions(s, timeScale);
    assert forall k :: 0 <= k < |s.bombs| ==> s.bombs[k].timer > 0.0;
    mid, bombHit := FieldOf(s), blastHit;
    assert BombsUpdated(f, mid, PlayerCell(s.player), timeScale, fired, blasts, bombHit);
    contact, hung := UpdateEnemies(s, timeScale, rand);
    enemyHit := contact;
    gameOver := blastHit || contact;
  }

  /**
   * updateLevel3: read the keys (placing a bomb when PlacesBomb allows it),
   * update the bombs, explosions and enemies as ObjectsUpdated states, move
   * the player, and check for completion. `gameOver` and `complete` are the
   * onGameOver / onComplete calls; `hung` is the enemy update never
   * returning, after which nothing else happens.
   */
  method UpdateLevel3(s: Level3State, keys: Keys, timeScale: real, rand: nat -> real)
    returns (gameOver: bool, hung: bool, complete: bool,
             ghost input: Player, ghost mid: Field, ghost bombHit: bool, ghost enemyHit: bool,
             ghost fired: seq<nat>, ghost blasts: seq<Explosion>)
    requires timeScale > 0.0 && IsRandomStream(rand)
    modifies s`player, s`softBlocks, s`bombs, s`enemies, s`ashPiles, s`explosions, s`bombCharges, s`rechargeTimers
    ensures var st := Steer(keys, MOVE_SPEED * timeScale);
      input == old(s.player).(dir := if st.dir.Some? then st.dir.value else old(s.player.dir),
                              isMoving := st.dx != 0.0 || st.dy != 0.0,
                              frame := if st.dx != 0.0 || st.dy != 0.0 then old(s.player.frame) + timeScale else old(s.player.frame))
    ensures var placed := PlacesBomb(keys, old(s.bombCharges), old(s.softBlocks), old(s.bombs), old(s.player));
      var f := if placed then old(FieldOf(s)).(bombs := old(s.bombs) + [NewBomb(old(s.player))]) else old(FieldOf(s));
      ObjectsUpdated(f, mid, FieldOf(s), input, timeScale, rand, fired, blasts, bombHit, enemyHit, hung)
    ensures gameOver == (bombHit || enemyHit)
    ensures var placed := PlacesBomb(keys, old(s.bombCharges), old(s.softBlocks), old(s.bombs), old(s.player));
      var charges := if placed then old(s.bombCharges) - 1 else old(s.bombCharges);
      var timers := if placed then old(s.rechargeTimers) + [RECHARGE_TIME] else old(s.rechargeTimers);
      (charges < s.maxBombCharges ==> s.rechargeTimers == Recharged(timers, timeScale)) &&
      (charges >= s.maxBombCharges ==> s.rechargeTimers == timers) &&
      s.bombCharges == charges + |timers| - |s.rechargeTimers|
    ensures var st := Steer(keys, MOVE_SPEED * timeScale);
      s.player.dir == (if st.dir.Some? then st.dir.value else old(s.player.dir)) &&
      s.player.isMoving == (st.dx != 0.0 || st.dy != 0.0) &&
      s.player.frame == (if s.player.isMoving then old(s.player.frame) + timeScale else old(s.player.frame))
    ensures hung ==> s.player.x == old(s.player.x) && s.player.y == old(s.player.y) && !complete
    ensures var st := Steer(keys, MOVE_SPEED * timeScale);
      !hung ==> Stepped(s.doors, s.bombs, s.softBlocks, old(s.player.x), old(s.player.y), st.dx, st.dy, timeScale, s.player.x, s.player.y)
    ensures !hung ==> (complete <==> ReachedGoal(s.roomNumber, s.doors, s.cakePos, s.player))
    ensures ChargesBalanced(old(s.bombCharges), old(s.rechargeTimers), s.maxBombCharges) ==>
      ChargesBalanced(s.bombCharges, s.rechargeTimers, s.maxBombCharges)
    ensures BombsOnDistinctCells(old(s.bombs)) ==> BombsOnDistinctCells(s.bombs)
  {
    var st := ReadInput(s, keys, timeScale);
    input := s.player;
    gameOver, hung, mid, bombHit, enemyHit, fired, blasts := UpdateObjects(s, timeScale, rand);
    complete := false;
    if hung {
      return;
    }
    complete := MoveAndCheckGoal(s, st, timeScale);
  }
}
