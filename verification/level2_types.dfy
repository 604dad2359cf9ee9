// The platformer stage's world objects: platforms the player can stand on,
// decorations that are only drawn, and the sizes the generator builds them
// with. Positions are in pixels; the floor line `floorY` is a parameter,
// since the generator reads it from the window height.

module Level2Types {

  datatype PlatformKind =
    | Desk | Floor | PlainPlatform | Sofa | Armchair | MeetingTable | FileCabinet | MetalRack
    | SmallBookShelf | AirConditioner | Xerox | Vending | ElectricBox | BigTrashcan | BookCabinet | Crate

  datatype Platform = Platform(x: real, y: real, width: real, height: real, kind: PlatformKind)

  datatype DecorationKind =
    | Window | Plant | Cooler | Computer | Papers | Phone | Coffee | FloorPlant
    | Boxes | Tv | Trashcan | Clock | FloorLamp | DeskLamp

  datatype Decoration = Decoration(x: real, y: real, kind: DecorationKind, variant: int)

  // Sizes of the furniture the generator places.
  const DESK_WIDTH: real := 120.0
  const DESK_HEIGHT: real := 60.0
  const PLATFORM_WIDTH: real := 80.0
  const PLATFORM_MEDIUM_WIDTH: real := 160.0
  const PLATFORM_LARGE_WIDTH: real := 240.0
  const PLATFORM_HEIGHT: real := 20.0
  const AC_WIDTH: real := 90.0
  const AC_HEIGHT: real := 32.0
  const EBOX_WIDTH: real := 60.0
  const EBOX_HEIGHT: real := 60.0
  const FILE_CABINET_WIDTH: real := 80.0
  const FILE_CABINET_HEIGHT: real := 160.0
  const BOOK_CABINET_WIDTH: real := 80.0
  const BOOK_CABINET_HEIGHT: real := 160.0
  const METAL_RACK_WIDTH: real := 80.0
  const SMALL_SHELF_WIDTH: real := 80.0
  const SMALL_SHELF_HEIGHT: real := 10.0
  const XEROX_WIDTH: real := 90.0
  const XEROX_HEIGHT: real := 85.0
  const VENDING_WIDTH: real := 120.0
  const VENDING_HEIGHT: real := 160.0
  const TRASHCAN_SECTION_WIDTH: real := 40.0
  const BIG_TRASHCAN_HEIGHT: real := 75.0
  const CRATE_WIDTH: real := 70.0
  const CRATE_HEIGHT: real := 70.0
  const SOFA_WIDTH: real := 160.0
  const SOFA_HEIGHT: real := 50.0
  const MEETING_TABLE_WIDTH: real := 260.0
  const MEETING_TABLE_WIDTH_X2: real := 460.0
  const MEETING_TABLE_WIDTH_X3: real := 660.0
  const MEETING_TABLE_HEIGHT: real := 60.0

  /** The wall clock hangs this far above the floor line. */
  const CLOCK_HEIGHT_ABOVE_FLOOR: real := 220.0

  // LEVEL2_CONFIG
  const LEVEL_LENGTH: real := 21600.0
  const FLOOR_HEIGHT: real := 60.0
  const MOVE_SPEED: real := 6.0

  /** A platform standing on the floor line. */
  predicate RestsOnFloor(p: Platform, floorY: real)
  {
    p.y == floorY - p.height
  }

  /** The air layers: 260 px above the floor (tier 3) and 360 px above it (tier 4). */
  const TIER3_RISE: real := 260.0
  const TIER4_RISE: real := 360.0

  /** The widths a storage shelf or cabinet comes in: 1, 1.5 or 2 base widths. */
  predicate ScaledWidth(w: real, base: real)
  {
    w == base || w == base * 1.5 || w == base * 2.0
  }

  /**
   * The catalogue of shapes the generator builds: every platform of a kind
   * has that kind's size and stands at that kind's height. The armchair's
   * size is not part of this model, so it is only required to rest on the
   * floor.
   */
  predicate WellBuilt(p: Platform, floorY: real)
  {
    match p.kind
    case Desk => p.width == DESK_WIDTH && p.height == DESK_HEIGHT && RestsOnFloor(p, floorY)
    case BigTrashcan =>
      p.height == BIG_TRASHCAN_HEIGHT && RestsOnFloor(p, floorY) &&
      (p.width == 2.0 * TRASHCAN_SECTION_WIDTH || p.width == 3.0 * TRASHCAN_SECTION_WIDTH || p.width == 4.0 * TRASHCAN_SECTION_WIDTH)
    case Crate => p.width == CRATE_WIDTH && p.height == CRATE_HEIGHT && RestsOnFloor(p, floorY)
    case SmallBookShelf => p.width == SMALL_SHELF_WIDTH && p.height == SMALL_SHELF_HEIGHT && p.y == floorY - 160.0
    case FileCabinet => p.width == FILE_CABINET_WIDTH && p.height == FILE_CABINET_HEIGHT && RestsOnFloor(p, floorY)
    case BookCabinet => ScaledWidth(p.width, BOOK_CABINET_WIDTH) && p.height == BOOK_CABINET_HEIGHT && RestsOnFloor(p, floorY)
    case MetalRack => ScaledWidth(p.width, METAL_RACK_WIDTH) && p.height == 160.0 && RestsOnFloor(p, floorY)
    case Xerox => p.width == XEROX_WIDTH && p.height == XEROX_HEIGHT && RestsOnFloor(p, floorY)
    case Vending => p.width == VENDING_WIDTH && p.height == VENDING_HEIGHT && RestsOnFloor(p, floorY)
    case Sofa => p.width == SOFA_WIDTH && p.height == SOFA_HEIGHT && RestsOnFloor(p, floorY)
    case Armchair => RestsOnFloor(p, floorY)
    case MeetingTable =>
      p.height == MEETING_TABLE_HEIGHT && RestsOnFloor(p, floorY) &&
      (p.width == MEETING_TABLE_WIDTH || p.width == MEETING_TABLE_WIDTH_X2 || p.width == MEETING_TABLE_WIDTH_X3)
    case PlainPlatform =>
      p.height == PLATFORM_HEIGHT &&
      ((p.y == floorY - TIER3_RISE && p.width == PLATFORM_WIDTH) ||
       (p.y == floorY - TIER4_RISE && (p.width == PLATFORM_MEDIUM_WIDTH || p.width == PLATFORM_LARGE_WIDTH)))
    case AirConditioner => p.width == AC_WIDTH && p.height == AC_HEIGHT && p.y == floorY - TIER3_RISE
    case ElectricBox => p.width == EBOX_WIDTH && p.height == EBOX_HEIGHT && p.y == floorY - TIER3_RISE
    case Floor => false
  }

  /** The two arrays every generator step pushes into. */
  class Layout {
    var platforms: seq<Platform>
    var decorations: seq<Decoration>

    constructor ()
      ensures platforms == [] && decorations == []
    {
      platforms := [];
      decorations := [];
    }
  }

  /** How many entries of `ps` are of kind `k`. */
  function CountKind(ps: seq<Platform>, k: PlatformKind): nat
  {
    if ps == [] then 0
    else CountKind(ps[..|ps| - 1], k) + (if ps[|ps| - 1].kind == k then 1 else 0)
  }

  /** Appending one platform adds one to its own kind's count and nothing to any other. */
  lemma CountAppend(ps: seq<Platform>, p: Platform, k: PlatformKind)
    ensures CountKind(ps + [p], k) == CountKind(ps, k) + (if p.kind == k then 1 else 0)
  {
    assert (ps + [p])[..|ps + [p]| - 1] == ps;
  }
}
