// The transition biome: 60 px of floor, one ground object (a machine, a big
// trashcan with some clutter, or a floor decoration), an air layer over it
// and another over the 80 px bridge after it.

module TransitionBiome {
  import opened Common
  import opened Level2Types
  import opened Level2GenState
  import opened Level2Entities
  import opened Level2AirLayer
  import opened Level2BiomeRules

  /** The floor decorations of the empty variant, floor plants three times as likely. */
  const FLOOR_DECOR: seq<DecorationKind> := [FloorPlant, FloorPlant, FloorPlant, Trashcan, Boxes, FloorLamp, Tv]

  /** The width a floor decoration keeps clear. */
  function DecorWidth(kind: DecorationKind): (w: real)
    ensures w in {50.0, 80.0, 100.0, 120.0}
  {
    if kind == Tv then 120.0 else if kind == Boxes then 100.0 else if kind == FloorPlant then 80.0 else 50.0
  }

  /** The widths the ground object of a transition can have. */
  predicate TransitionWidth(w: real)
  {
    w in {50.0, 80.0, 90.0, 100.0, 120.0}
  }

  /**
   * A big trashcan of two or three sections at x, with a floor plant, boxes
   * or a small trashcan 30 px past it 70% of the time. Returns its width.
   */
  method TrashcanWithClutter(lay: Layout, ghost lastClockX: real, x: real, floorY: real, rand: nat -> real, k0: nat,
                             ghost ps0: seq<Platform>, ghost ds0: seq<Decoration>)
    returns (w: real, k: nat)
    requires IsRandomStream(rand)
    requires Extends(ps0, ds0, lay.platforms, lay.decorations, floorY)
    requires ClocksSpaced(lastClockX, lay.decorations)
    modifies lay
    ensures Extends(ps0, ds0, lay.platforms, lay.decorations, floorY)
    ensures ClocksSpaced(lastClockX, lay.decorations)
    ensures w == 2.0 * TRASHCAN_SECTION_WIDTH || w == 3.0 * TRASHCAN_SECTION_WIDTH
    ensures lay.platforms == old(lay.platforms) + [Platform(x, floorY - BIG_TRASHCAN_HEIGHT, w, BIG_TRASHCAN_HEIGHT, BigTrashcan)]
    ensures k > k0
  {
    var sections := 2 + PickIndex(rand(k0), 2);
    k := k0 + 1;
    w := sections as real * TRASHCAN_SECTION_WIDTH;
    AddPlatform(lay, Platform(x, floorY - BIG_TRASHCAN_HEIGHT, w, BIG_TRASHCAN_HEIGHT, BigTrashcan), floorY, ps0, ds0);
    if rand(k) < 0.7 {
      var clutter := RandomItem([FloorPlant, FloorPlant, Boxes, Trashcan], rand(k + 1));
      var d;
      d, k := Decorate(x + w + 30.0, floorY, clutter, None, rand, k + 2);
      AddDecoration(lay, d, floorY, lastClockX, ps0, ds0);
    } else {
      k := k + 1;
    }
  }

  /**
   * The ground object at x: a xerox or vending machine (50%), a big
   * trashcan of two or three sections with clutter beside it 70% of the time
   * (30%), or a floor decoration (20%). Returns its width.
   */
  method GroundObject(lay: Layout, gs: GeneratorState, x: real, floorY: real, rand: nat -> real, k0: nat,
                      ghost ps0: seq<Platform>, ghost ds0: seq<Decoration>)
    returns (objectWidth: real, k: nat)
    requires IsRandomStream(rand)
    requires Extends(ps0, ds0, lay.platforms, lay.decorations, floorY)
    requires ClocksSpaced(gs.lastClockX, lay.decorations)
    modifies lay
    ensures Extends(ps0, ds0, lay.platforms, lay.decorations, floorY)
    ensures ClocksSpaced(gs.lastClockX, lay.decorations)
    ensures TransitionWidth(objectWidth)
    ensures |lay.platforms| <= |old(lay.platforms)| + 1
    ensures forall i :: |old(lay.platforms)| <= i < |lay.platforms| ==>
      lay.platforms[i].kind in {Xerox, Vending, BigTrashcan} && lay.platforms[i].x == x && lay.platforms[i].width == objectWidth
    ensures k > k0
  {
    var roll := rand(k0);
    k := k0 + 1;
    if roll < 0.5 {
      var kind := RandomItem([Xerox, Vending], rand(k));
      k := k + 1;
      var w := if kind == Xerox then XEROX_WIDTH else VENDING_WIDTH;
      var h := if kind == Xerox then XEROX_HEIGHT else VENDING_HEIGHT;
      AddPlatform(lay, Platform(x, floorY - h, w, h, kind), floorY, ps0, ds0);
      objectWidth := w;
    } else if roll < 0.8 {
      objectWidth, k := TrashcanWithClutter(lay, gs.lastClockX, x, floorY, rand, k, ps0, ds0);
    } else {
      var decorType := RandomItem(FLOOR_DECOR, rand(k));
      objectWidth := DecorWidth(decorType);
      var d;
      d, k := Decorate(x, floorY, decorType, None, rand, k + 1);
      AddDecoration(lay, d, floorY, gs.lastClockX, ps0, ds0);
    }
  }

  /**
   * generateTransitionBiome: the ground object 60 px in, an air layer over
   * its centre and one over the bridge 80 px past it; returns x 60 past the
   * bridge, so the biome spans 200 px plus the object's width.
   */
  method GenerateTransitionBiome(lay: Layout, gs: GeneratorState, startX: real, floorY: real, rand: nat -> real, k0: nat)
    returns (x: real, k: nat, objectWidth: real)
    requires IsRandomStream(rand)
    requires ClocksSpaced(gs.lastClockX, lay.decorations)
    modifies lay, gs`lastAcX, gs`lastEboxX
    ensures Extends(old(lay.platforms), old(lay.decorations), lay.platforms, lay.decorations, floorY)
    ensures ClocksSpaced(gs.lastClockX, lay.decorations)
    ensures TransitionWidth(objectWidth)
    ensures x == startX + 60.0 + objectWidth + 80.0 + 60.0
    ensures |lay.platforms| <= |old(lay.platforms)| + 3
    ensures k > k0
  {
    ghost var ps0, ds0 := lay.platforms, lay.decorations;
    ExtendsRefl(ps0, ds0, floorY);
    var currentX := startX + 60.0;
    objectWidth, k := GroundObject(lay, gs, currentX, floorY, rand, k0, ps0, ds0);
    var objectCenter := currentX + objectWidth / 2.0;
    k := AddAirLayer(lay, gs, objectCenter, floorY, Mixed, rand, k, ps0, ds0);
    var bridgeX := currentX + objectWidth + 80.0;
    k := AddAirLayer(lay, gs, bridgeX, floorY, Mixed, rand, k, ps0, ds0);
    x := bridgeX + 60.0;
  }
}
