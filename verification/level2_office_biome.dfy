// The office biome: a row of three to six desks, each with a computer or
// desk items, every third one with a wall clock when the spacing allows,
// and a spacer (a cabinet, a floor decoration or empty floor) between two
// desks.

module OfficeBiome {
  import opened Common
  import opened Level2Types
  import opened Level2GenState
  import opened Level2Entities
  import opened Level2AirLayer
  import opened Level2BiomeRules

  /** The desk-top items of the middle desk outfit, picked by (i + floor(10 roll)) % 5. */
  const DESK_ITEMS: seq<DecorationKind> := [Plant, Papers, Phone, Coffee, DeskLamp]

  /**
   * The desk-top items of desk i: a computer (with a coffee by chance), one
   * of the desk items, or a lamp or phone beside a stack of papers. The
   * computer and plant variants follow i % 3, the papers i % 4.
   */
  method DeskItems(lay: Layout, i: nat, currentX: real, floorY: real, ghost lastClockX: real,
                   rand: nat -> real, k0: nat, ghost ps0: seq<Platform>, ghost ds0: seq<Decoration>)
    returns (k: nat)
    requires IsRandomStream(rand)
    requires Extends(ps0, ds0, lay.platforms, lay.decorations, floorY)
    requires ClocksSpaced(lastClockX, lay.decorations)
    modifies lay`decorations
    ensures Extends(ps0, ds0, lay.platforms, lay.decorations, floorY)
    ensures ClocksSpaced(lastClockX, lay.decorations)
    ensures k > k0
  {
    var roll := rand(k0);
    k := k0 + 1;
    var top := floorY - DESK_HEIGHT;
    if roll < 0.6 {
      AddDecoration(lay, CreateDecoration(currentX + 25.0, top, Computer, Some(i % 3), 0.0), floorY, lastClockX, ps0, ds0);
      var coffee := rand(k);
      k := k + 1;
      if coffee < 0.5 {
        var d;
        d, k := Decorate(currentX + 85.0, top, Coffee, None, rand, k);
        AddDecoration(lay, d, floorY, lastClockX, ps0, ds0);
      }
    } else if roll < 0.85 {
      var item := DESK_ITEMS[(i + (roll * 10.0).Floor) % |DESK_ITEMS|];
      var variant := if item == Plant then i % 3 else if item == Papers then i % 4 else 0;
      AddDecoration(lay, CreateDecoration(currentX + 40.0, top, item, Some(variant), 0.0), floorY, lastClockX, ps0, ds0);
    } else {
      var lamp := rand(k);
      k := k + 1;
      var d;
      d, k := Decorate(currentX + 20.0, top, if lamp > 0.5 then DeskLamp else Phone, None, rand, k);
      AddDecoration(lay, d, floorY, lastClockX, ps0, ds0);
      AddDecoration(lay, CreateDecoration(currentX + 80.0, top, Papers, Some(i % 4), 0.0), floorY, lastClockX, ps0, ds0);
    }
  }

  /**
   * One desk of the row: the desk itself, maybe an air layer above it, its
   * desk-top items and, on every third desk, a wall clock the clock rule
   * allows.
   */
  method PlaceDesk(lay: Layout, gs: GeneratorState, i: nat, currentX: real, floorY: real,
                   rand: nat -> real, k0: nat, ghost ps0: seq<Platform>, ghost ds0: seq<Decoration>)
    returns (k: nat)
    requires IsRandomStream(rand)
    requires Extends(ps0, ds0, lay.platforms, lay.decorations, floorY)
    requires ClocksSpaced(gs.lastClockX, lay.decorations)
    modifies lay, gs`lastAcX, gs`lastEboxX, gs`lastClockX
    ensures Extends(ps0, ds0, lay.platforms, lay.decorations, floorY)
    ensures ClocksSpaced(gs.lastClockX, lay.decorations)
    ensures CountKind(lay.platforms, Desk) == CountKind(old(lay.platforms), Desk) + 1
    ensures |lay.platforms| > |old(lay.platforms)| &&
      lay.platforms[|old(lay.platforms)|] == Platform(currentX, floorY - DESK_HEIGHT, DESK_WIDTH, DESK_HEIGHT, Desk)
    ensures i % 3 != 0 ==> gs.lastClockX == old(gs.lastClockX)
    ensures k > k0
  {
    var desk := Platform(currentX, floorY - DESK_HEIGHT, DESK_WIDTH, DESK_HEIGHT, Desk);
    AddPlatform(lay, desk, floorY, ps0, ds0);
    k := k0;
    if rand(k) < 0.5 {
      k := AddAirLayer(lay, gs, currentX + DESK_WIDTH / 2.0, floorY, Mixed, rand, k + 1, ps0, ds0);
    } else {
      k := k + 1;
    }
    k := DeskItems(lay, i, currentX, floorY, gs.lastClockX, rand, k, ps0, ds0);
    if i % 3 == 0 {
      k := AddClockIfAllowed(lay, gs, currentX + DESK_WIDTH / 2.0, floorY, rand, k, ps0, ds0);
    }
  }

  /** The width a floor decoration of the spacer keeps clear. */
  function SpacerItemWidth(kind: DecorationKind): real
  {
    if kind == Tv then 120.0
    else if kind == Boxes then 100.0
    else if kind == FloorPlant then 80.0
    else if kind == FloorLamp then 60.0
    else 50.0
  }

  /**
   * A furniture spacer standing at px: a big trashcan of 2 to 4 sections
   * (15%) or a file cabinet, book cabinet, xerox or small shelf, with an
   * air layer above it by chance, and 40 px of floor after it.
   */
  method SpacerFurniture(lay: Layout, gs: GeneratorState, px: real, floorY: real,
                         rand: nat -> real, k0: nat, ghost ps0: seq<Platform>, ghost ds0: seq<Decoration>)
    returns (x: real, k: nat)
    requires IsRandomStream(rand)
    requires Extends(ps0, ds0, lay.platforms, lay.decorations, floorY)
    modifies lay`platforms, gs`lastAcX, gs`lastEboxX
    ensures Extends(ps0, ds0, lay.platforms, lay.decorations, floorY)
    ensures CountKind(lay.platforms, Desk) == CountKind(old(lay.platforms), Desk)
    ensures px + 120.0 <= x <= px + 200.0
    ensures k >= k0
  {
    var typeRoll := rand(k0);
    k := k0 + 1;
    if typeRoll < 0.15 {
      x, k := SpacerTrashcan(lay, gs, px, floorY, rand, k, ps0, ds0);
    } else {
      x, k := SpacerCabinet(lay, gs, px, floorY, rand, k, ps0, ds0);
    }
  }

  /** A big trashcan of 2 to 4 sections at px, under a tier-3 air layer 60% of the time. */
  method SpacerTrashcan(lay: Layout, gs: GeneratorState, px: real, floorY: real,
                        rand: nat -> real, k0: nat, ghost ps0: seq<Platform>, ghost ds0: seq<Decoration>)
    returns (x: real, k: nat)
    requires IsRandomStream(rand)
    requires Extends(ps0, ds0, lay.platforms, lay.decorations, floorY)
    modifies lay`platforms, gs`lastAcX, gs`lastEboxX
    ensures Extends(ps0, ds0, lay.platforms, lay.decorations, floorY)
    ensures CountKind(lay.platforms, Desk) == CountKind(old(lay.platforms), Desk)
    ensures px + 120.0 <= x <= px + 200.0
    ensures k >= k0
  {
    var sections := 2 + PickIndex(rand(k0), 3);
    k := k0 + 1;
    var bw := sections as real * TRASHCAN_SECTION_WIDTH;
    AddPlatform(lay, Platform(px, floorY - BIG_TRASHCAN_HEIGHT, bw, BIG_TRASHCAN_HEIGHT, BigTrashcan), floorY, ps0, ds0);
    if rand(k) < 0.6 {
      k := AddAirLayer(lay, gs, px + bw / 2.0, floorY, PreferTier3, rand, k + 1, ps0, ds0);
    } else {
      k := k + 1;
    }
    x := px + bw + 40.0;
  }

  /**
   * A file cabinet, book cabinet (1.5 times as wide 30% of the time), xerox
   * or small shelf 160 px up at px, under a tier-3 air layer 70% of the time.
   */
  method SpacerCabinet(lay: Layout, gs: GeneratorState, px: real, floorY: real,
                       rand: nat -> real, k0: nat, ghost ps0: seq<Platform>, ghost ds0: seq<Decoration>)
    returns (x: real, k: nat)
    requires IsRandomStream(rand)
    requires Extends(ps0, ds0, lay.platforms, lay.decorations, floorY)
    modifies lay`platforms, gs`lastAcX, gs`lastEboxX
    ensures Extends(ps0, ds0, lay.platforms, lay.decorations, floorY)
    ensures CountKind(lay.platforms, Desk) == CountKind(old(lay.platforms), Desk)
    ensures px + 120.0 <= x <= px + 200.0
    ensures k >= k0
  {
    var sepType := RandomItem([FileCabinet, BookCabinet, Xerox, SmallBookShelf], rand(k0));
    k := k0 + 1;
    var w, h, y;
    if sepType == SmallBookShelf {
      w, h, y := SMALL_SHELF_WIDTH, SMALL_SHELF_HEIGHT, floorY - 160.0;
    } else if sepType == BookCabinet {
      var mult := if rand(k) < 0.3 then 1.5 else 1.0;
      k := k + 1;
      w, h := BOOK_CABINET_WIDTH * mult, BOOK_CABINET_HEIGHT;
      y := floorY - h;
    } else if sepType == Xerox {
      w, h := XEROX_WIDTH, XEROX_HEIGHT;
      y := floorY - h;
    } else {
      w, h := FILE_CABINET_WIDTH, FILE_CABINET_HEIGHT;
      y := floorY - h;
    }
    AddPlatform(lay, Platform(px, y, w, h, sepType), floorY, ps0, ds0);
    if rand(k) < 0.7 {
      k := AddAirLayer(lay, gs, px + w / 2.0, floorY, PreferTier3, rand, k + 1, ps0, ds0);
    } else {
      k := k + 1;
    }
    x := px + w + 40.0;
  }

  /**
   * A floor decoration spacer after the desk ending at deskEndX: a
   * trashcan, floor plant (variant i % 4), floor lamp, boxes or tv with
   * 30 px on each side, and an air layer above it (always above a tv).
   */
  method SpacerDecoration(lay: Layout, gs: GeneratorState, i: nat, deskEndX: real, floorY: real,
                          rand: nat -> real, k0: nat, ghost ps0: seq<Platform>, ghost ds0: seq<Decoration>)
    returns (x: real, k: nat)
    requires IsRandomStream(rand)
    requires Extends(ps0, ds0, lay.platforms, lay.decorations, floorY)
    requires ClocksSpaced(gs.lastClockX, lay.decorations)
    modifies lay, gs`lastAcX, gs`lastEboxX
    ensures Extends(ps0, ds0, lay.platforms, lay.decorations, floorY)
    ensures ClocksSpaced(gs.lastClockX, lay.decorations)
    ensures CountKind(lay.platforms, Desk) == CountKind(old(lay.platforms), Desk)
    ensures deskEndX + 110.0 <= x <= deskEndX + 180.0
    ensures k >= k0
  {
    var decoType := RandomItem([Trashcan, FloorPlant, FloorPlant, FloorPlant, FloorLamp, Boxes, Tv], rand(k0));
    k := k0 + 1;
    var itemWidth := SpacerItemWidth(decoType);
    var decoX := deskEndX + 30.0;
    if decoType == Boxes {
      decoX := decoX + 10.0;
    }
    if decoType == FloorPlant {
      decoX := decoX + 20.0;
    }
    var d;
    d, k := Decorate(decoX, floorY, decoType, if decoType == FloorPlant then Some(i % 4) else None, rand, k);
    AddDecoration(lay, d, floorY, gs.lastClockX, ps0, ds0);
    if decoType == Tv {
      k := AddAirLayer(lay, gs, decoX + 60.0, floorY, PreferTier4, rand, k, ps0, ds0);
    } else if rand(k) < 0.5 {
      k := AddAirLayer(lay, gs, decoX + itemWidth / 2.0, floorY, Mixed, rand, k + 1, ps0, ds0);
    } else {
      k := k + 1;
    }
    x := deskEndX + (30.0 + itemWidth + 30.0);
  }

  /**
   * The spacer after desk i (never after the last desk): a cabinet, shelf,
   * xerox or big trashcan between 40 px gaps, a floor decoration, or 60 px
   * of empty floor. It adds no desk and no clock.
   */
  method PlaceSpacer(lay: Layout, gs: GeneratorState, i: nat, currentX: real, floorY: real,
                     rand: nat -> real, k0: nat, ghost ps0: seq<Platform>, ghost ds0: seq<Decoration>)
    returns (x: real, k: nat)
    requires IsRandomStream(rand)
    requires Extends(ps0, ds0, lay.platforms, lay.decorations, floorY)
    requires ClocksSpaced(gs.lastClockX, lay.decorations)
    modifies lay, gs`lastAcX, gs`lastEboxX
    ensures Extends(ps0, ds0, lay.platforms, lay.decorations, floorY)
    ensures ClocksSpaced(gs.lastClockX, lay.decorations)
    ensures CountKind(lay.platforms, Desk) == CountKind(old(lay.platforms), Desk)
    ensures currentX + DESK_WIDTH + 60.0 <= x <= currentX + DESK_WIDTH + 240.0
    ensures k >= k0
  {
    var spacerRoll := rand(k0);
    k := k0 + 1;
    if spacerRoll < 0.65 {
      x, k := SpacerFurniture(lay, gs, currentX + DESK_WIDTH + 40.0, floorY, rand, k, ps0, ds0);
    } else if spacerRoll < 0.90 {
      x, k := SpacerDecoration(lay, gs, i, currentX + DESK_WIDTH, floorY, rand, k, ps0, ds0);
    } else {
      if rand(k) < 0.4 {
        k := AddAirLayer(lay, gs, currentX + DESK_WIDTH + 15.0, floorY, Mixed, rand, k + 1, ps0, ds0);
      } else {
        k := k + 1;
      }
      x := currentX + DESK_WIDTH + 60.0;
    }
  }

  /**
   * generateOfficeBiome: `groupSize` desks, 3 to 6 of them, each pushed on
   * the floor exactly once, spacers only between two desks, a trailing
   * floor decoration by chance, and an x 50 past the end of the row.
   */
  method GenerateOfficeBiome(lay: Layout, gs: GeneratorState, startX: real, floorY: real, rand: nat -> real, k0: nat)
    returns (x: real, k: nat, groupSize: nat)
    requires IsRandomStream(rand)
    requires ClocksSpaced(gs.lastClockX, lay.decorations)
    modifies lay, gs`lastAcX, gs`lastEboxX, gs`lastClockX
    ensures 3 <= groupSize <= 6
    ensures Extends(old(lay.platforms), old(lay.decorations), lay.platforms, lay.decorations, floorY)
    ensures CountKind(lay.platforms, Desk) == CountKind(old(lay.platforms), Desk) + groupSize
    ensures ClocksSpaced(gs.lastClockX, lay.decorations)
    ensures startX + groupSize as real * DESK_WIDTH + 50.0 <= x <= startX + 6.0 * (DESK_WIDTH + 240.0) + 170.0
    ensures k > k0
  {
    ghost var ps0, ds0 := lay.platforms, lay.decorations;
    ExtendsRefl(ps0, ds0, floorY);
    groupSize := 3 + PickIndex(rand(k0), 4);
    k := k0 + 1;
    var currentX := startX;
    var i := 0;
    while i < groupSize
      invariant 0 <= i <= groupSize && k > k0
      invariant Extends(ps0, ds0, lay.platforms, lay.decorations, floorY)
      invariant ClocksSpaced(gs.lastClockX, lay.decorations)
      invariant CountKind(lay.platforms, Desk) == CountKind(ps0, Desk) + i
      invariant startX + i as real * DESK_WIDTH <= currentX <= startX + i as real * (DESK_WIDTH + 240.0)
    {
      k := PlaceDesk(lay, gs, i, currentX, floorY, rand, k, ps0, ds0);
      if i < groupSize - 1 {
        currentX, k := PlaceSpacer(lay, gs, i, currentX, floorY, rand, k, ps0, ds0);
      } else {
        currentX := currentX + DESK_WIDTH;
      }
      i := i + 1;
    }

    if rand(k) < 0.6 {
      var trailType := RandomItem([Trashcan, Boxes, FloorPlant], rand(k + 1));
      var trailGap := if trailType == Boxes then 120.0 else if trailType == FloorPlant then 100.0 else 60.0;
      var d;
      d, k := Decorate(currentX + 30.0, floorY, trailType, None, rand, k + 2);
      AddDecoration(lay, d, floorY, gs.lastClockX, ps0, ds0);
      currentX := currentX + trailGap;
    } else {
      k := k + 1;
    }
    x := currentX + 50.0;
  }
}
