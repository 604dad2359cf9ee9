// The lounge biome: a sofa group or a big trashcan (or nothing), one meeting
// table of one, two or three sections, then an armchair, a TV, or a cooler
// or floor plant.

module LoungeBiome {
  import opened Common
  import opened Level2Types
  import opened Level2GenState
  import opened Level2Entities
  import opened Level2AirLayer
  import opened Level2BiomeRules

  /** The three meeting-table lengths the lounge picks from. */
  const TABLE_WIDTHS: seq<real> := [MEETING_TABLE_WIDTH, MEETING_TABLE_WIDTH_X2, MEETING_TABLE_WIDTH_X3]

  /**
   * The sofa of the sofa group: a sofa with an air layer and, when the clock
   * rule allows, a wall clock above its middle; a floor lamp left of it by
   * chance.
   */
  method PlaceSofa(lay: Layout, gs: GeneratorState, startX: real, floorY: real,
              rand: nat -> real, k0: nat, ghost ps0: seq<Platform>, ghost ds0: seq<Decoration>)
    returns (k: nat)
    requires IsRandomStream(rand)
    requires Extends(ps0, ds0, lay.platforms, lay.decorations, floorY)
    requires ClocksSpaced(gs.lastClockX, lay.decorations)
    modifies lay, gs`lastAcX, gs`lastEboxX, gs`lastClockX
    ensures Extends(ps0, ds0, lay.platforms, lay.decorations, floorY)
    ensures ClocksSpaced(gs.lastClockX, lay.decorations)
    ensures CountKind(lay.platforms, MeetingTable) == CountKind(old(lay.platforms), MeetingTable)
    ensures |lay.platforms| > |old(lay.platforms)| &&
      lay.platforms[|old(lay.platforms)|] == Platform(startX, floorY - SOFA_HEIGHT, SOFA_WIDTH, SOFA_HEIGHT, Sofa)
    ensures k > k0
  {
    AddPlatform(lay, Platform(startX, floorY - SOFA_HEIGHT, SOFA_WIDTH, SOFA_HEIGHT, Sofa), floorY, ps0, ds0);
    k := AddAirLayer(lay, gs, startX + SOFA_WIDTH / 2.0, floorY, Mixed, rand, k0, ps0, ds0);
    k := AddClockIfAllowed(lay, gs, startX + SOFA_WIDTH / 2.0, floorY, rand, k, ps0, ds0);
    k := MaybeFloorLamp(lay, gs.lastClockX, startX - 30.0, floorY, rand, k, ps0, ds0);
  }

  /** Half of the time, a floor lamp at x. */
  method MaybeFloorLamp(lay: Layout, ghost lastClockX: real, x: real, floorY: real,
                        rand: nat -> real, k0: nat, ghost ps0: seq<Platform>, ghost ds0: seq<Decoration>)
    returns (k: nat)
    requires IsRandomStream(rand)
    requires Extends(ps0, ds0, lay.platforms, lay.decorations, floorY)
    requires ClocksSpaced(lastClockX, lay.decorations)
    modifies lay`decorations
    ensures Extends(ps0, ds0, lay.platforms, lay.decorations, floorY)
    ensures ClocksSpaced(lastClockX, lay.decorations)
    ensures k > k0
  {
    if rand(k0) < 0.5 {
      var d;
      d, k := Decorate(x, floorY, FloorLamp, None, rand, k0 + 1);
      AddDecoration(lay, d, floorY, lastClockX, ps0, ds0);
    } else {
      k := k0 + 1;
    }
  }

  /** Right of the sofa: a TV with a tier-4 layer (40%) or a floor plant with a mixed one. */
  method SofaSide(lay: Layout, gs: GeneratorState, startX: real, floorY: real,
                  rand: nat -> real, k0: nat, ghost ps0: seq<Platform>, ghost ds0: seq<Decoration>)
    returns (x: real, k: nat)
    requires IsRandomStream(rand)
    requires Extends(ps0, ds0, lay.platforms, lay.decorations, floorY)
    requires ClocksSpaced(gs.lastClockX, lay.decorations)
    modifies lay, gs`lastAcX, gs`lastEboxX
    ensures Extends(ps0, ds0, lay.platforms, lay.decorations, floorY)
    ensures ClocksSpaced(gs.lastClockX, lay.decorations)
    ensures CountKind(lay.platforms, MeetingTable) == CountKind(old(lay.platforms), MeetingTable)
    ensures x == startX + 130.0 || x == startX + 60.0
    ensures k > k0
  {
    var d;
    if rand(k0) < 0.4 {
      d, k := Decorate(startX, floorY, Tv, None, rand, k0 + 1);
      AddDecoration(lay, d, floorY, gs.lastClockX, ps0, ds0);
      k := AddAirLayer(lay, gs, startX + 60.0, floorY, PreferTier4, rand, k, ps0, ds0);
      x := startX + 130.0;
    } else {
      d, k := Decorate(startX, floorY, FloorPlant, None, rand, k0 + 1);
      AddDecoration(lay, d, floorY, gs.lastClockX, ps0, ds0);
      k := AddAirLayer(lay, gs, startX, floorY, Mixed, rand, k, ps0, ds0);
      x := startX + 60.0;
    }
  }

  /**
   * The meeting table: one of the three lengths, on the floor, with an air
   * layer over its middle; x moves 30 past its end.
   */
  method MeetingTableSection(lay: Layout, gs: GeneratorState, startX: real, floorY: real,
                             rand: nat -> real, k0: nat, ghost ps0: seq<Platform>, ghost ds0: seq<Decoration>)
    returns (x: real, k: nat, tableW: real)
    requires IsRandomStream(rand)
    requires Extends(ps0, ds0, lay.platforms, lay.decorations, floorY)
    modifies lay`platforms, gs`lastAcX, gs`lastEboxX
    ensures Extends(ps0, ds0, lay.platforms, lay.decorations, floorY)
    ensures tableW in TABLE_WIDTHS
    ensures |lay.platforms| > |old(lay.platforms)| &&
      lay.platforms[|old(lay.platforms)|] == Platform(startX, floorY - MEETING_TABLE_HEIGHT, tableW, MEETING_TABLE_HEIGHT, MeetingTable)
    ensures CountKind(lay.platforms, MeetingTable) == CountKind(old(lay.platforms), MeetingTable) + 1
    ensures x == startX + tableW + 30.0
    ensures k == k0 + 3
  {
    tableW := RandomItem(TABLE_WIDTHS, rand(k0));
    AddPlatform(lay, Platform(startX, floorY - MEETING_TABLE_HEIGHT, tableW, MEETING_TABLE_HEIGHT, MeetingTable), floorY, ps0, ds0);
    k := AddAirLayer(lay, gs, startX + tableW / 2.0, floorY, Mixed, rand, k0 + 1, ps0, ds0);
    x := startX + tableW + 30.0;
  }

  /** A floor lamp, then an armchair 50 px on with an air layer above it. */
  method ArmchairCorner(lay: Layout, gs: GeneratorState, startX: real, floorY: real, armchairWidth: real, armchairHeight: real,
                        rand: nat -> real, k0: nat, ghost ps0: seq<Platform>, ghost ds0: seq<Decoration>)
    returns (x: real, k: nat)
    requires IsRandomStream(rand)
    requires Extends(ps0, ds0, lay.platforms, lay.decorations, floorY)
    requires ClocksSpaced(gs.lastClockX, lay.decorations)
    modifies lay, gs`lastAcX, gs`lastEboxX
    ensures Extends(ps0, ds0, lay.platforms, lay.decorations, floorY)
    ensures ClocksSpaced(gs.lastClockX, lay.decorations)
    ensures CountKind(lay.platforms, MeetingTable) == CountKind(old(lay.platforms), MeetingTable)
    ensures x == startX + 50.0 + armchairWidth
    ensures k >= k0
  {
    var d;
    d, k := Decorate(startX + 5.0, floorY, FloorLamp, None, rand, k0);
    AddDecoration(lay, d, floorY, gs.lastClockX, ps0, ds0);
    var ax := startX + 50.0;
    AddPlatform(lay, Platform(ax, floorY - armchairHeight, armchairWidth, armchairHeight, Armchair), floorY, ps0, ds0);
    k := AddAirLayer(lay, gs, ax + armchairWidth / 2.0, floorY, Mixed, rand, k, ps0, ds0);
    x := ax + armchairWidth;
  }

  /**
   * A cooler at startX + 10 when the cooler rule allows it and a 60% draw
   * agrees (registered at startX), a floor plant there otherwise, with an
   * air layer above. `d` is the decoration placed.
   */
  method CoolerOrPlant(lay: Layout, gs: GeneratorState, startX: real, floorY: real,
                       rand: nat -> real, k0: nat, ghost ps0: seq<Platform>, ghost ds0: seq<Decoration>)
    returns (d: Decoration, k: nat)
    requires IsRandomStream(rand)
    requires Extends(ps0, ds0, lay.platforms, lay.decorations, floorY)
    requires ClocksSpaced(gs.lastClockX, lay.decorations)
    modifies lay, gs`lastAcX, gs`lastEboxX, gs`lastCoolerX
    ensures Extends(ps0, ds0, lay.platforms, lay.decorations, floorY)
    ensures ClocksSpaced(gs.lastClockX, lay.decorations)
    ensures CountKind(lay.platforms, MeetingTable) == CountKind(old(lay.platforms), MeetingTable)
    ensures gs.lastCoolerX == old(gs.lastCoolerX) || (old(gs.CanPlaceCooler(startX)) && gs.lastCoolerX == startX)
    ensures lay.decorations == old(lay.decorations) + [d]
    ensures d.x == startX + 10.0 && d.y == floorY
    ensures d.kind == (if old(gs.CanPlaceCooler(startX)) && rand(k0) < 0.6 then Cooler else FloorPlant)
    ensures d.kind == Cooler ==> gs.lastCoolerX == startX
    ensures d.kind == FloorPlant ==> gs.lastCoolerX == old(gs.lastCoolerX)
    ensures k >= k0
  {
    k := k0;
    var cooler := false;
    if gs.CanPlaceCooler(startX) {
      cooler := rand(k) < 0.6;
      k := k + 1;
    }
    if cooler {
      d, k := Decorate(startX + 10.0, floorY, Cooler, None, rand, k);
      AddDecoration(lay, d, floorY, gs.lastClockX, ps0, ds0);
      gs.RegisterCooler(startX);
    } else {
      d, k := Decorate(startX + 10.0, floorY, FloorPlant, None, rand, k);
      AddDecoration(lay, d, floorY, gs.lastClockX, ps0, ds0);
    }
    k := AddAirLayer(lay, gs, startX + 20.0, floorY, Mixed, rand, k, ps0, ds0);
  }

  /**
   * The item after the table: an armchair behind a floor lamp, a TV, or a
   * cooler when the cooler rule allows it and a 60% draw agrees (registered
   * at its slot x), a floor plant otherwise.
   */
  method SecondItem(lay: Layout, gs: GeneratorState, startX: real, floorY: real, armchairWidth: real, armchairHeight: real,
                    rand: nat -> real, k0: nat, ghost ps0: seq<Platform>, ghost ds0: seq<Decoration>)
    returns (x: real, k: nat)
    requires IsRandomStream(rand)
    requires armchairWidth > 0.0
    requires Extends(ps0, ds0, lay.platforms, lay.decorations, floorY)
    requires ClocksSpaced(gs.lastClockX, lay.decorations)
    modifies lay, gs`lastAcX, gs`lastEboxX, gs`lastCoolerX
    ensures Extends(ps0, ds0, lay.platforms, lay.decorations, floorY)
    ensures ClocksSpaced(gs.lastClockX, lay.decorations)
    ensures CountKind(lay.platforms, MeetingTable) == CountKind(old(lay.platforms), MeetingTable)
    ensures gs.lastCoolerX == old(gs.lastCoolerX) || (old(gs.CanPlaceCooler(startX)) && gs.lastCoolerX == startX)
    ensures startX + 50.0 < x <= startX + 120.0 + armchairWidth
    ensures k > k0
  {
    var roll := rand(k0);
    k := k0 + 1;
    if roll < 0.5 {
      x, k := ArmchairCorner(lay, gs, startX, floorY, armchairWidth, armchairHeight, rand, k, ps0, ds0);
    } else if roll < 0.6 {
      var d;
      d, k := Decorate(startX, floorY, Tv, None, rand, k);
      AddDecoration(lay, d, floorY, gs.lastClockX, ps0, ds0);
      k := AddAirLayer(lay, gs, startX + 60.0, floorY, PreferTier4, rand, k, ps0, ds0);
      x := startX + 120.0;
    } else {
      var d;
      d, k := CoolerOrPlant(lay, gs, startX, floorY, rand, k, ps0, ds0);
      x := startX + 60.0;
    }
  }

  /**
   * The lounge's opening: a sofa group (70%), else a big trashcan of 2 or 3
   * sections (25% of the rest), else nothing.
   */
  method OpeningGroup(lay: Layout, gs: GeneratorState, startX: real, floorY: real,
                      rand: nat -> real, k0: nat, ghost ps0: seq<Platform>, ghost ds0: seq<Decoration>)
    returns (x: real, k: nat)
    requires IsRandomStream(rand)
    requires Extends(ps0, ds0, lay.platforms, lay.decorations, floorY)
    requires ClocksSpaced(gs.lastClockX, lay.decorations)
    modifies lay, gs`lastAcX, gs`lastEboxX, gs`lastClockX
    ensures Extends(ps0, ds0, lay.platforms, lay.decorations, floorY)
    ensures ClocksSpaced(gs.lastClockX, lay.decorations)
    ensures CountKind(lay.platforms, MeetingTable) == CountKind(old(lay.platforms), MeetingTable)
    ensures startX <= x <= startX + 320.0
    ensures k > k0
  {
    if rand(k0) < 0.7 {
      k := PlaceSofa(lay, gs, startX, floorY, rand, k0 + 1, ps0, ds0);
      x, k := SofaSide(lay, gs, startX + SOFA_WIDTH + 30.0, floorY, rand, k, ps0, ds0);
    } else if rand(k0 + 1) < 0.25 {
      var sections := 2 + PickIndex(rand(k0 + 2), 2);
      var bw := sections as real * TRASHCAN_SECTION_WIDTH;
      AddPlatform(lay, Platform(startX, floorY - BIG_TRASHCAN_HEIGHT, bw, BIG_TRASHCAN_HEIGHT, BigTrashcan), floorY, ps0, ds0);
      k := AddAirLayer(lay, gs, startX + bw / 2.0, floorY, PreferTier3, rand, k0 + 3, ps0, ds0);
      x := startX + bw + 60.0;
    } else {
      x, k := startX, k0 + 2;
    }
  }

  /**
   * generateLoungeBiome: exactly one meeting table, of one of the three
   * lengths, after the opening group; returns x 60 past the last item.
   * The armchair's size is a parameter, as its configuration is not part
   * of this model.
   */
  method GenerateLoungeBiome(lay: Layout, gs: GeneratorState, startX: real, floorY: real,
                             armchairWidth: real, armchairHeight: real, rand: nat -> real, k0: nat)
    returns (x: real, k: nat, tableW: real)
    requires IsRandomStream(rand)
    requires armchairWidth > 0.0
    requires ClocksSpaced(gs.lastClockX, lay.decorations)
    modifies lay, gs`lastAcX, gs`lastEboxX, gs`lastClockX, gs`lastCoolerX
    ensures Extends(old(lay.platforms), old(lay.decorations), lay.platforms, lay.decorations, floorY)
    ensures ClocksSpaced(gs.lastClockX, lay.decorations)
    ensures tableW in TABLE_WIDTHS
    ensures CountKind(lay.platforms, MeetingTable) == CountKind(old(lay.platforms), MeetingTable) + 1
    ensures startX + tableW + 140.0 < x <= startX + 320.0 + tableW + 30.0 + 120.0 + armchairWidth + 60.0
    ensures k > k0
  {
    ghost var ps0, ds0 := lay.platforms, lay.decorations;
    ExtendsRefl(ps0, ds0, floorY);
    var currentX;
    currentX, k := OpeningGroup(lay, gs, startX, floorY, rand, k0, ps0, ds0);
    currentX, k, tableW := MeetingTableSection(lay, gs, currentX, floorY, rand, k, ps0, ds0);
    currentX, k := SecondItem(lay, gs, currentX, floorY, armchairWidth, armchairHeight, rand, k, ps0, ds0);
    x := currentX + 60.0;
  }
}
