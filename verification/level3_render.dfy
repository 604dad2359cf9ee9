// The layout side of the grid stage's renderer: which serving each table
// gets, where the chairs around the tables stand, and the caches that a new
// room throws away. The Math.sin-based per-cell noise is an input.

module Level3Render {
  import opened Common
  import opened Level3Types
  import opened Level3Physics

  const TOTAL_VARIANTS: int := 8
  const CHAIR_OFFSET: real := 28.0

  datatype Table = Table(x: real, y: real, col: int, row: int, variant: int, sortY: real)

  /** The four chair orientations: right of the table (-PI/2), left (PI/2), above (PI) and below (0). */
  datatype Facing = RightSide | LeftSide | TopSide | BottomSide

  datatype Chair = Chair(cx: real, cy: real, facing: Facing, offset: real, sortY: real)

  // ------------------------------------------------------------- tables

  /** A variant already used by the left or the top neighbour table. */
  predicate TakenBy(left: Option<int>, top: Option<int>, v: int)
  {
    (left.Some? && left.value == v) || (top.Some? && top.value == v)
  }

  /** The k-th value the probing loop looks at from `start`. */
  function Probe(start: int, k: int): int
  {
    (start + k) % TOTAL_VARIANTS
  }

  /**
   * v is what the probing loop settles on from `start`: free, and every
   * value before it (counting up modulo 8 from start) is taken.
   */
  predicate FirstFreeFrom(start: int, left: Option<int>, top: Option<int>, v: int)
  {
    0 <= v < TOTAL_VARIANTS && !TakenBy(left, top, v) &&
    forall k :: 0 <= k < (v - start) % TOTAL_VARIANTS ==> TakenBy(left, top, Probe(start, k))
  }

  /**
   * The `while (neighborVariants.has(variant))` loop. It stops after at
   * most two steps, as only two values can be taken.
   */
  method NextFreeVariant(start: int, left: Option<int>, top: Option<int>) returns (v: int)
    requires 0 <= start < TOTAL_VARIANTS
    ensures FirstFreeFrom(start, left, top, v)
  {
    v := start;
    var steps := 0;
    while TakenBy(left, top, v)
      invariant 0 <= steps <= 2 && v == Probe(start, steps)
      invariant forall k :: 0 <= k < steps ==> TakenBy(left, top, Probe(start, k))
      // three distinct values start, start + 1, start + 2 cannot all be taken by two neighbours
      invariant steps == 2 ==> !TakenBy(left, top, v)
      decreases 2 - steps
    {
      v := (v + 1) % TOTAL_VARIANTS;
      steps := steps + 1;
    }
    assert (v - start) % TOTAL_VARIANTS == steps;
  }

  /** The variant recorded for cell (c, r), if a table there was generated. */
  function VariantAt(variants: map<Cell, int>, c: int, r: int): (v: Option<int>)
    ensures v.Some? <==> Cell(c, r) in variants
    ensures v.Some? ==> v.value == variants[Cell(c, r)]
  {
    if Cell(c, r) in variants then Some(variants[Cell(c, r)]) else None
  }

  predicate HasTableAt(tables: seq<Table>, c: int, r: int)
  {
    exists i :: 0 <= i < |tables| && tables[i].col == c && tables[i].row == r
  }

  /** A table as drawn: at its cell's corner, sorted by the bottom of its tile less 4 px. */
  predicate TablePlaced(t: Table)
  {
    IsTableCell(t.col, t.row) && 0 <= t.variant < TOTAL_VARIANTS &&
    t.x == t.col as real * TILE_SIZE && t.y == t.row as real * TILE_SIZE &&
    t.sortY == t.row as real * TILE_SIZE + TILE_SIZE - 4.0
  }

  /** Neighbouring tables two cells apart in a row or a column never share a variant. */
  predicate NeighboursDiffer(tables: seq<Table>)
  {
    forall i, j :: 0 <= i < |tables| && 0 <= j < |tables| &&
      ((tables[j].row == tables[i].row && tables[j].col == tables[i].col - 2) ||
       (tables[j].col == tables[i].col && tables[j].row == tables[i].row - 2))
      ==> tables[i].variant != tables[j].variant
  }

  /** Strict row-major order of the tables' cells. */
  predicate TablesRowMajor(tables: seq<Table>)
  {
    forall i, j :: 0 <= i < j < |tables| ==>
      tables[i].row < tables[j].row || (tables[i].row == tables[j].row && tables[i].col < tables[j].col)
  }

  /** The map of assigned variants agrees with the tables generated so far and holds nothing else. */
  predicate VariantsRecorded(variants: map<Cell, int>, tables: seq<Table>)
  {
    (forall i :: 0 <= i < |tables| ==>
      Cell(tables[i].col, tables[i].row) in variants && variants[Cell(tables[i].col, tables[i].row)] == tables[i].variant) &&
    (forall cell :: cell in variants ==> HasTableAt(tables, cell.col, cell.row))
  }

  /**
   * generateTables: one table per table cell in row-major order, each with a
   * serving variant that starts from the cell's noise and is moved on past
   * the variants of the left and the top neighbour.
   */
  method GenerateTables(noise: (int, int) -> real) returns (tables: seq<Table>)
    requires IsCellHash(noise)
    ensures forall i :: 0 <= i < |tables| ==> TablePlaced(tables[i])
    ensures forall c, r :: IsTableCell(c, r) ==> HasTableAt(tables, c, r)
    ensures TablesRowMajor(tables)
    ensures NeighboursDiffer(tables)
  {
    tables := [];
    var variants: map<Cell, int> := map[];
    for r := 1 to ROWS - 1
      invariant forall i :: 0 <= i < |tables| ==> TablePlaced(tables[i]) && tables[i].row < r
      invariant forall c, r' :: IsTableCell(c, r') && r' < r ==> HasTableAt(tables, c, r')
      invariant TablesRowMajor(tables) && NeighboursDiffer(tables)
      invariant VariantsRecorded(variants, tables)
    {
      for c := 1 to COLS - 1
        invariant forall i :: 0 <= i < |tables| ==> TablePlaced(tables[i]) && RowMajorBefore(tables[i].col, tables[i].row, c, r)
        invariant forall c', r' :: IsTableCell(c', r') && (r' < r || (r' == r && c' < c)) ==> HasTableAt(tables, c', r')
        invariant TablesRowMajor(tables) && NeighboursDiffer(tables)
        invariant VariantsRecorded(variants, tables)
      {
        if r % 2 == 0 && c % 2 == 0 {
          tables, variants := PlaceTable(tables, variants, c, r, noise);
        }
      }
    }
  }

  /**
   * The table of cell (c, r), after all tables before it in row-major
   * order: its variant starts from the cell's noise and moves on past the
   * recorded variants of its left and top neighbours.
   */
  method PlaceTable(tables: seq<Table>, variants: map<Cell, int>, c: int, r: int, noise: (int, int) -> real)
    returns (tables': seq<Table>, variants': map<Cell, int>)
    requires IsCellHash(noise) && IsTableCell(c, r)
    requires forall i :: 0 <= i < |tables| ==> TablePlaced(tables[i]) && RowMajorBefore(tables[i].col, tables[i].row, c, r)
    requires TablesRowMajor(tables) && NeighboursDiffer(tables) && VariantsRecorded(variants, tables)
    ensures forall i :: 0 <= i < |tables'| ==> TablePlaced(tables'[i]) && RowMajorBefore(tables'[i].col, tables'[i].row, c + 1, r)
    ensures TablesRowMajor(tables') && NeighboursDiffer(tables') && VariantsRecorded(variants', tables')
    ensures HasTableAt(tables', c, r)
    ensures forall c', r' :: HasTableAt(tables, c', r') ==> HasTableAt(tables', c', r')
  {
    var left := VariantAt(variants, c - 2, r);
    var top := VariantAt(variants, c, r - 2);
    var variant := NextFreeVariant(PickIndex(noise(c, r), TOTAL_VARIANTS), left, top);
    var t := Table(c as real * TILE_SIZE, r as real * TILE_SIZE, c, r, variant, r as real * TILE_SIZE + TILE_SIZE - 4.0);
    AddTableKeepsOrder(tables, t, variants, left, top);
    AddTableRecorded(tables, t, variants);
    AppendKeepsTables(tables, t);
    variants' := variants[Cell(c, r) := variant];
    tables' := tables + [t];
    assert TablePlaced(t);
    forall i | 0 <= i < |tables'|
      ensures TablePlaced(tables'[i]) && RowMajorBefore(tables'[i].col, tables'[i].row, c + 1, r)
    {
      if i < |tables| {
        assert tables'[i] == tables[i];
      }
    }
  }

  /** Cell (c1, r1) comes before (c2, r2) in row-major order. */
  predicate RowMajorBefore(c1: int, r1: int, c2: int, r2: int)
  {
    r1 < r2 || (r1 == r2 && c1 < c2)
  }

  /**
   * Appending a table after all others, with a variant free of its left and
   * top neighbours' recorded variants, keeps the order and the neighbour rule.
   */
  lemma AddTableKeepsOrder(tables: seq<Table>, t: Table, variants: map<Cell, int>, left: Option<int>, top: Option<int>)
    requires TablesRowMajor(tables) && NeighboursDiffer(tables) && VariantsRecorded(variants, tables)
    requires forall i :: 0 <= i < |tables| ==> RowMajorBefore(tables[i].col, tables[i].row, t.col, t.row)
    requires left == VariantAt(variants, t.col - 2, t.row)
    requires top == VariantAt(variants, t.col, t.row - 2)
    requires !TakenBy(left, top, t.variant)
    ensures TablesRowMajor(tables + [t]) && NeighboursDiffer(tables + [t])
  {
    AppendKeepsRowMajor(tables, t);
    AppendKeepsNeighboursDiffer(tables, t, variants, left, top);
  }

  /** A table after all others keeps the row-major order. */
  lemma AppendKeepsRowMajor(tables: seq<Table>, t: Table)
    requires TablesRowMajor(tables)
    requires forall i :: 0 <= i < |tables| ==> RowMajorBefore(tables[i].col, tables[i].row, t.col, t.row)
    ensures TablesRowMajor(tables + [t])
  {
    var ext := tables + [t];
    forall i, j | 0 <= i < j < |ext|
      ensures ext[i].row < ext[j].row || (ext[i].row == ext[j].row && ext[i].col < ext[j].col)
    {
      assert ext[i] == tables[i];
      if j < |tables| {
        assert ext[j] == tables[j];
      }
    }
  }

  /** A table after all others, with a variant free of its recorded neighbours', keeps the neighbour rule. */
  lemma AppendKeepsNeighboursDiffer(tables: seq<Table>, t: Table, variants: map<Cell, int>, left: Option<int>, top: Option<int>)
    requires NeighboursDiffer(tables) && VariantsRecorded(variants, tables)
    requires forall i :: 0 <= i < |tables| ==> RowMajorBefore(tables[i].col, tables[i].row, t.col, t.row)
    requires left == VariantAt(variants, t.col - 2, t.row)
    requires top == VariantAt(variants, t.col, t.row - 2)
    requires !TakenBy(left, top, t.variant)
    ensures NeighboursDiffer(tables + [t])
  {
    var ext := tables + [t];
    forall i, j | 0 <= i < |ext| && 0 <= j < |ext| &&
      ((ext[j].row == ext[i].row && ext[j].col == ext[i].col - 2) ||
       (ext[j].col == ext[i].col && ext[j].row == ext[i].row - 2))
      ensures ext[i].variant != ext[j].variant
    {
      if i < |tables| && j < |tables| {
        assert ext[i] == tables[i] && ext[j] == tables[j];
      } else if i == |tables| && j < |tables| {
        assert ext[j] == tables[j];
        NewTableDiffersFromNeighbour(tables, t, variants, left, top, j);
      } else if i < |tables| {
        assert false;
      }
    }
  }

  /** The new table's variant differs from that of its recorded left or top neighbour j. */
  lemma NewTableDiffersFromNeighbour(tables: seq<Table>, t: Table, variants: map<Cell, int>, left: Option<int>, top: Option<int>, j: int)
    requires VariantsRecorded(variants, tables) && 0 <= j < |tables|
    requires left == VariantAt(variants, t.col - 2, t.row)
    requires top == VariantAt(variants, t.col, t.row - 2)
    requires !TakenBy(left, top, t.variant)
    requires (tables[j].row == t.row && tables[j].col == t.col - 2) || (tables[j].col == t.col && tables[j].row == t.row - 2)
    ensures t.variant != tables[j].variant
  {
    var cell := Cell(tables[j].col, tables[j].row);
    assert cell in variants && variants[cell] == tables[j].variant;
  }

  /** The recorded variants, extended with the new table's, agree with the extended list. */
  lemma AddTableRecorded(tables: seq<Table>, t: Table, variants: map<Cell, int>)
    requires VariantsRecorded(variants, tables)
    requires forall i :: 0 <= i < |tables| ==> RowMajorBefore(tables[i].col, tables[i].row, t.col, t.row)
    ensures VariantsRecorded(variants[Cell(t.col, t.row) := t.variant], tables + [t])
  {
    var ext := tables + [t];
    var m := variants[Cell(t.col, t.row) := t.variant];
    forall cell | cell in m
      ensures HasTableAt(ext, cell.col, cell.row)
    {
      if cell == Cell(t.col, t.row) {
        assert ext[|tables|] == t;
      } else {
        var i :| 0 <= i < |tables| && tables[i].col == cell.col && tables[i].row == cell.row;
        assert ext[i] == tables[i];
      }
    }
  }

  /** Appending a table keeps every table cell already covered and covers the new one. */
  lemma AppendKeepsTables(tables: seq<Table>, t: Table)
    ensures HasTableAt(tables + [t], t.col, t.row)
    ensures forall c, r :: HasTableAt(tables, c, r) ==> HasTableAt(tables + [t], c, r)
  {
    assert (tables + [t])[|tables|] == t;
    forall c, r | HasTableAt(tables, c, r)
      ensures HasTableAt(tables + [t], c, r)
    {
      var i :| 0 <= i < |tables| && tables[i].col == c && tables[i].row == r;
      assert (tables + [t])[i] == tables[i];
    }
  }

  // ------------------------------------------------------------- chairs

  /** The chair offset and sort key around the table of cell (c, r). */
  function ChairAt(c: int, r: int, facing: Facing): Chair
  {
    Chair(c as real * TILE_SIZE + TILE_SIZE / 2.0, r as real * TILE_SIZE + TILE_SIZE / 2.0, facing,
          CHAIR_OFFSET, r as real * TILE_SIZE + TILE_SIZE - 10.0)
  }

  /**
   * The chairs around one table for the cell's noise value: none at or
   * below 0.2, all four above 0.8, and in between the bands of the source.
   */
  function ChairsAt(c: int, r: int, noise: real): (cs: seq<Chair>)
    ensures |cs| <= 4
    ensures noise <= 0.2 ==> cs == []
    ensures noise > 0.8 ==> cs == [ChairAt(c, r, RightSide), ChairAt(c, r, LeftSide), ChairAt(c, r, TopSide), ChairAt(c, r, BottomSide)]
    ensures forall i, j :: 0 <= i < j < |cs| ==> cs[i].facing != cs[j].facing
    ensures forall i :: 0 <= i < |cs| ==> exists f :: cs[i] == ChairAt(c, r, f)
  {
    if noise > 0.2 then
      (if noise > 0.8 || (noise > 0.5 && noise < 0.65) || (noise > 0.2 && noise < 0.3) then [ChairAt(c, r, RightSide)] else []) +
      (if noise > 0.8 || (noise > 0.5 && noise < 0.65) then [ChairAt(c, r, LeftSide)] else []) +
      (if noise > 0.8 || (noise > 0.65 && noise <= 0.8) || (noise > 0.3 && noise < 0.4) then [ChairAt(c, r, TopSide)] else []) +
      (if noise > 0.8 || (noise > 0.65 && noise <= 0.8) then [ChairAt(c, r, BottomSide)] else [])
    else []
  }

  /** The chairs of column c for rows 1 .. r-1, in row order. */
  function ColumnChairs(noise: (int, int) -> real, c: int, r: int): seq<Chair>
    decreases r
  {
    if r <= 1 then []
    else ColumnChairs(noise, c, r - 1) + (if IsTableCell(c, r - 1) then ChairsAt(c, r - 1, noise(c, r - 1)) else [])
  }

  /** The chairs of columns 1 .. c-1, column by column: the order generateChairs emits them in. */
  function ChairsBefore(noise: (int, int) -> real, c: int): seq<Chair>
    decreases c
  {
    if c <= 1 then [] else ChairsBefore(noise, c - 1) + ColumnChairs(noise, c - 1, ROWS - 1)
  }

  /** generateChairs: the tables' chairs, scanning columns outermost. */
  method GenerateChairs(noise: (int, int) -> real) returns (chairs: seq<Chair>)
    ensures chairs == ChairsBefore(noise, COLS - 1)
  {
    chairs := [];
    for c := 1 to COLS - 1
      invariant chairs == ChairsBefore(noise, c)
    {
      var column := ScanColumn(noise, c);
      assert ChairsBefore(noise, c + 1) == ChairsBefore(noise, c) + column;
      chairs := chairs + column;
    }
  }

  /** The inner loop of generateChairs: the chairs of one column, row by row. */
  method ScanColumn(noise: (int, int) -> real, c: int) returns (column: seq<Chair>)
    requires 1 <= c < COLS - 1
    ensures column == ColumnChairs(noise, c, ROWS - 1)
  {
    column := [];
    for r := 1 to ROWS - 1
      invariant column == ColumnChairs(noise, c, r)
    {
      if r % 2 == 0 && c % 2 == 0 {
        column := column + ChairsAt(c, r, noise(c, r));
      }
    }
  }

  /** Some table cell (c, r) with c in [lo, hi) and rows below rHi places this chair. */
  predicate AroundTable(ch: Chair, lo: int, hi: int, rHi: int)
  {
    exists c, r, f :: lo <= c < hi && 1 <= r < rHi && IsTableCell(c, r) && ch == ChairAt(c, r, f)
  }

  lemma {:induction false} ColumnChairsAroundTables(noise: (int, int) -> real, c: int, r: int)
    ensures forall i :: 0 <= i < |ColumnChairs(noise, c, r)| ==> AroundTable(ColumnChairs(noise, c, r)[i], c, c + 1, r)
    decreases r
  {
    if r > 1 {
      ColumnChairsAroundTables(noise, c, r - 1);
      var prev := ColumnChairs(noise, c, r - 1);
      var here := if IsTableCell(c, r - 1) then ChairsAt(c, r - 1, noise(c, r - 1)) else [];
      forall i | 0 <= i < |prev + here|
        ensures AroundTable((prev + here)[i], c, c + 1, r)
      {
        if i < |prev| {
          assert (prev + here)[i] == prev[i];
        } else {
          assert (prev + here)[i] == here[i - |prev|];
          var f :| here[i - |prev|] == ChairAt(c, r - 1, f);
        }
      }
    }
  }

  /** Every generated chair stands around a table: at the centre of a table cell, 28 px out, in one of the four orientations. */
  lemma {:induction false} ChairsAroundTables(noise: (int, int) -> real, c: int)
    ensures forall i :: 0 <= i < |ChairsBefore(noise, c)| ==> AroundTable(ChairsBefore(noise, c)[i], 1, c, ROWS - 1)
    decreases c
  {
    if c > 1 {
      ChairsAroundTables(noise, c - 1);
      ColumnChairsAroundTables(noise, c - 1, ROWS - 1);
      var prev := ChairsBefore(noise, c - 1);
      var col := ColumnChairs(noise, c - 1, ROWS - 1);
      forall i | 0 <= i < |prev + col|
        ensures AroundTable((prev + col)[i], 1, c, ROWS - 1)
      {
        if i < |prev| {
          assert (prev + col)[i] == prev[i];
        } else {
          assert (prev + col)[i] == col[i - |prev|];
        }
      }
    }
  }

  // ------------------------------------------------------------- caches

  /** The renderer's module-level caches: the pre-drawn arena, the chairs and the tables. */
  class StaticCache {
    var arenaDrawn: bool
    var chairCache: Option<seq<Chair>>
    var tableCache: seq<Table>

    constructor ()
      ensures !arenaDrawn && chairCache.None? && tableCache == []
    {
      arenaDrawn := false;
      chairCache := None;
      tableCache := [];
    }

    /** clearStaticCache: the next frame redraws the arena and regenerates tables and chairs. */
    method Clear()
      modifies this
      ensures !arenaDrawn && chairCache.None? && tableCache == []
    {
      arenaDrawn := false;
      chairCache := None;
      tableCache := [];
    }
  }
}
