// The storage biome: three to five tall storage pieces (racks, cabinets,
// shelves), most with a crate as a step on one side, gaps with a crate or a
// floor decoration between them, and a trailing crate now and then. A crate
// is never placed within 100 px after the nearest crate behind it.

module StorageBiome {
  import opened Common
  import opened Level2Types
  import opened Level2GenState
  import opened Level2Entities
  import opened Level2AirLayer
  import opened Level2BiomeRules

  /** The widest a structure gets: a double-width rack with a crate on each side. */
  const STRUCTURE_SPAN: real := 2.0 * (CRATE_WIDTH + 5.0) + 2.0 * METAL_RACK_WIDTH

  /** The least clear floor between a crate and the nearest crate behind it. */
  const CRATE_MIN_GAP: real := 100.0

  /** A crate whose right edge is at or left of x. */
  predicate CrateBehind(p: Platform, x: real)
  {
    p.kind == Crate && x - (p.x + p.width) >= 0.0
  }

  /** The index of the last crate in `ps` that ends at or left of x, if any. */
  function LastCrateBehind(ps: seq<Platform>, x: real): (j: Option<nat>)
    ensures j.Some? ==> (j.value < |ps| && CrateBehind(ps[j.value], x) &&
      forall i :: j.value < i < |ps| ==> !CrateBehind(ps[i], x))
    ensures j.None? ==> forall i :: 0 <= i < |ps| ==> !CrateBehind(ps[i], x)
  {
    if ps == [] then None
    else if CrateBehind(ps[|ps| - 1], x) then Some(|ps| - 1)
    else LastCrateBehind(ps[..|ps| - 1], x)
  }

  /** A crate at x would stand less than 100 px after the last crate behind it. */
  function CrateTooClose(ps: seq<Platform>, x: real): bool
  {
    match LastCrateBehind(ps, x)
    case None => false
    case Some(j) => x - (ps[j].x + ps[j].width) < CRATE_MIN_GAP
  }

  /** isCrateTooClose: scans the platforms backwards for the nearest crate ending at or before x. */
  method IsCrateTooClose(ps: seq<Platform>, x: real) returns (r: bool)
    ensures r == CrateTooClose(ps, x)
  {
    var i := |ps|;
    while i > 0
      invariant 0 <= i <= |ps|
      invariant LastCrateBehind(ps, x) == LastCrateBehind(ps[..i], x)
    {
      i := i - 1;
      assert ps[..i + 1][..i] == ps[..i];
      var p := ps[i];
      if p.kind == Crate {
        var dist := x - (p.x + p.width);
        if dist >= 0.0 {
          return dist < CRATE_MIN_GAP;
        }
      }
    }
    assert ps[..0] == [];
    return false;
  }

  /** With no crate at all nothing is ever too close. */
  lemma {:induction false} NoCrateNeverTooClose(ps: seq<Platform>, x: real)
    requires CountKind(ps, Crate) == 0
    ensures !CrateTooClose(ps, x)
  {
    if ps != [] {
      NoCrateNeverTooClose(ps[..|ps| - 1], x);
      assert LastCrateBehind(ps, x) == LastCrateBehind(ps[..|ps| - 1], x);
    }
  }

  /** A crate just placed blocks the 100 px after its right edge. */
  lemma CrateBlocksNext(ps: seq<Platform>, c: Platform, x: real)
    requires c.kind == Crate && c.x + c.width <= x < c.x + c.width + CRATE_MIN_GAP
    ensures CrateTooClose(ps + [c], x)
  {
  }

  /** Every crate in ps past ps0 was checked against the platforms before it. */
  ghost predicate CratesChecked(ps0: seq<Platform>, ps: seq<Platform>)
  {
    forall j :: |ps0| <= j < |ps| && ps[j].kind == Crate ==> !CrateTooClose(ps[..j], ps[j].x)
  }

  lemma PushKeepsChecked(ps0: seq<Platform>, ps: seq<Platform>, p: Platform)
    requires CratesChecked(ps0, ps)
    requires p.kind == Crate ==> !CrateTooClose(ps, p.x)
    ensures CratesChecked(ps0, ps + [p])
  {
    var ps' := ps + [p];
    forall j | |ps0| <= j < |ps'| && ps'[j].kind == Crate
      ensures !CrateTooClose(ps'[..j], ps'[j].x)
    {
      assert ps'[..j] == if j < |ps| then ps[..j] else ps;
    }
  }

  lemma GrowKeepsChecked(ps0: seq<Platform>, ps: seq<Platform>, ps': seq<Platform>)
    requires CratesChecked(ps0, ps) && ps <= ps'
    requires forall i :: |ps| <= i < |ps'| ==> IsAirKind(ps'[i].kind)
    ensures CratesChecked(ps0, ps')
  {
    forall j | |ps0| <= j < |ps'| && ps'[j].kind == Crate
      ensures !CrateTooClose(ps'[..j], ps'[j].x)
    {
      if j < |ps| {
        assert ps'[..j] == ps[..j];
      }
    }
  }

  /** The tall storage pieces. */
  predicate IsHighKind(kd: PlatformKind)
  {
    kd in {MetalRack, BookCabinet, FileCabinet, SmallBookShelf}
  }

  /** How many tall storage pieces `ps` holds. */
  function HighCount(ps: seq<Platform>): nat
  {
    CountKind(ps, MetalRack) + CountKind(ps, BookCabinet) + CountKind(ps, FileCabinet) + CountKind(ps, SmallBookShelf)
  }

  /** The width multiplier of a rack or book cabinet: 1 (30%), 1.5 (40%) or 2 (30%). */
  function StorageScale(roll: real): (m: real)
    ensures m == 1.0 || m == 1.5 || m == 2.0
  {
    if roll < 0.3 then 1.0 else if roll < 0.7 then 1.5 else 2.0
  }

  /** A crate standing on the floor at x. */
  function CrateAt(x: real, floorY: real): (c: Platform)
    ensures c.kind == Crate && c.x == x && WellBuilt(c, floorY)
  {
    Platform(x, floorY - CRATE_HEIGHT, CRATE_WIDTH, CRATE_HEIGHT, Crate)
  }

  /** Pushes a crate at x unless a crate ends less than 100 px before it; says whether it did. */
  method TryCrate(lay: Layout, x: real, floorY: real, ghost ps0: seq<Platform>, ghost ds0: seq<Decoration>,
                  ghost cps0: seq<Platform>)
    returns (placed: bool)
    requires Extends(ps0, ds0, lay.platforms, lay.decorations, floorY)
    requires CratesChecked(cps0, lay.platforms)
    modifies lay`platforms
    ensures placed == !old(CrateTooClose(lay.platforms, x))
    ensures lay.platforms == old(lay.platforms) + (if placed then [CrateAt(x, floorY)] else [])
    ensures Extends(ps0, ds0, lay.platforms, lay.decorations, floorY)
    ensures CratesChecked(cps0, lay.platforms)
    ensures HighCount(lay.platforms) == HighCount(old(lay.platforms))
  {
    var tooClose := IsCrateTooClose(lay.platforms, x);
    placed := !tooClose;
    if placed {
      PushKeepsChecked(cps0, lay.platforms, CrateAt(x, floorY));
      AddPlatform(lay, CrateAt(x, floorY), floorY, ps0, ds0);
    }
  }

  /**
   * The tall piece itself at x: a rack or book cabinet of a scaled width, a
   * file cabinet, or a small shelf hanging 160 px above the floor.
   */
  method HighPiece(lay: Layout, x: real, floorY: real, rand: nat -> real, k0: nat,
                   ghost ps0: seq<Platform>, ghost ds0: seq<Decoration>, ghost cps0: seq<Platform>)
    returns (w: real, k: nat)
    requires IsRandomStream(rand)
    requires Extends(ps0, ds0, lay.platforms, lay.decorations, floorY)
    requires CratesChecked(cps0, lay.platforms)
    modifies lay`platforms
    ensures Extends(ps0, ds0, lay.platforms, lay.decorations, floorY)
    ensures CratesChecked(cps0, lay.platforms)
    ensures |lay.platforms| == |old(lay.platforms)| + 1 && IsHighKind(lay.platforms[|old(lay.platforms)|].kind)
    ensures HighCount(lay.platforms) == HighCount(old(lay.platforms)) + 1
    ensures SMALL_SHELF_WIDTH <= w <= 2.0 * METAL_RACK_WIDTH
    ensures k > k0
  {
    var kind := RandomItem([MetalRack, BookCabinet, FileCabinet, SmallBookShelf], rand(k0));
    k := k0 + 1;
    var h, y;
    if kind == SmallBookShelf {
      w, h, y := SMALL_SHELF_WIDTH, SMALL_SHELF_HEIGHT, floorY - 160.0;
    } else {
      h := 160.0;
      y := floorY - h;
      if kind == MetalRack {
        w := METAL_RACK_WIDTH * StorageScale(rand(k));
        k := k + 1;
      } else if kind == BookCabinet {
        w := BOOK_CABINET_WIDTH * StorageScale(rand(k));
        k := k + 1;
      } else {
        w := FILE_CABINET_WIDTH;
      }
    }
    var piece := Platform(x, y, w, h, kind);
    PushKeepsChecked(cps0, lay.platforms, piece);
    AddPlatform(lay, piece, floorY, ps0, ds0);
  }

  /**
   * One structure: a tall piece with a crate step on its left (45%) or
   * right (45%) when the crate rule allows it; returns the right end of the
   * structure.
   */
  method Structure(lay: Layout, startX: real, floorY: real, rand: nat -> real, k0: nat,
                   ghost ps0: seq<Platform>, ghost ds0: seq<Decoration>, ghost cps0: seq<Platform>)
    returns (endX: real, k: nat)
    requires IsRandomStream(rand)
    requires Extends(ps0, ds0, lay.platforms, lay.decorations, floorY)
    requires CratesChecked(cps0, lay.platforms)
    modifies lay`platforms
    ensures Extends(ps0, ds0, lay.platforms, lay.decorations, floorY)
    ensures CratesChecked(cps0, lay.platforms)
    ensures HighCount(lay.platforms) == HighCount(old(lay.platforms)) + 1
    ensures startX + SMALL_SHELF_WIDTH <= endX <= startX + STRUCTURE_SPAN
    ensures k > k0
  {
    var structRoll := rand(k0);
    var currentX := startX;
    if structRoll < 0.45 {
      var placed := TryCrate(lay, currentX, floorY, ps0, ds0, cps0);
      if placed {
        currentX := currentX + CRATE_WIDTH + 5.0;
      }
    }
    var w;
    w, k := HighPiece(lay, currentX, floorY, rand, k0 + 1, ps0, ds0, cps0);
    endX := currentX + w;
    if 0.45 <= structRoll < 0.90 {
      var placed := TryCrate(lay, endX + 5.0, floorY, ps0, ds0, cps0);
      if placed {
        endX := endX + 5.0 + CRATE_WIDTH;
      }
    }
  }

  /**
   * The floor of a gap, 90% of the time: half of those a crate at its
   * middle if the crate rule allows one, otherwise a box or a floor plant.
   */
  method GapFloor(lay: Layout, ghost lastClockX: real, midGapX: real, floorY: real, rand: nat -> real, k0: nat,
                  ghost ps0: seq<Platform>, ghost ds0: seq<Decoration>, ghost cps0: seq<Platform>)
    returns (k: nat)
    requires IsRandomStream(rand)
    requires Extends(ps0, ds0, lay.platforms, lay.decorations, floorY)
    requires CratesChecked(cps0, lay.platforms)
    requires ClocksSpaced(lastClockX, lay.decorations)
    modifies lay
    ensures Extends(ps0, ds0, lay.platforms, lay.decorations, floorY)
    ensures CratesChecked(cps0, lay.platforms)
    ensures ClocksSpaced(lastClockX, lay.decorations)
    ensures HighCount(lay.platforms) == HighCount(old(lay.platforms))
    ensures k > k0
  {
    if rand(k0) < 0.9 {
      var tryCrate := rand(k0 + 1) >= 0.5;
      k := k0 + 2;
      var placed := false;
      if tryCrate {
        placed := TryCrate(lay, midGapX - CRATE_WIDTH / 2.0, floorY, ps0, ds0, cps0);
      }
      if !placed {
        var deco := RandomItem([Boxes, FloorPlant, FloorPlant], rand(k));
        var d;
        d, k := Decorate(midGapX - 20.0, floorY, deco, None, rand, k + 1);
        AddDecoration(lay, d, floorY, lastClockX, ps0, ds0);
      }
    } else {
      k := k0 + 1;
    }
  }

  /**
   * The gap after a structure, 120 to 180 px wide: a crate centred in it
   * (when a coin says so and the crate rule allows it) or else boxes or a
   * floor plant, each 90% of the time, and an air layer over its middle.
   */
  method Gap(lay: Layout, gs: GeneratorState, endX: real, floorY: real, rand: nat -> real, k0: nat,
             ghost ps0: seq<Platform>, ghost ds0: seq<Decoration>, ghost cps0: seq<Platform>)
    returns (x: real, k: nat)
    requires IsRandomStream(rand)
    requires Extends(ps0, ds0, lay.platforms, lay.decorations, floorY)
    requires CratesChecked(cps0, lay.platforms)
    requires ClocksSpaced(gs.lastClockX, lay.decorations)
    modifies lay, gs`lastAcX, gs`lastEboxX
    ensures Extends(ps0, ds0, lay.platforms, lay.decorations, floorY)
    ensures CratesChecked(cps0, lay.platforms)
    ensures ClocksSpaced(gs.lastClockX, lay.decorations)
    ensures HighCount(lay.platforms) == HighCount(old(lay.platforms))
    ensures endX + 120.0 <= x < endX + 180.0
    ensures k > k0
  {
    var gap := 120.0 + rand(k0) * 60.0;
    var midGapX := endX + gap / 2.0;
    k := GapFloor(lay, gs.lastClockX, midGapX, floorY, rand, k0 + 1, ps0, ds0, cps0);
    ghost var before := lay.platforms;
    k := AddAirLayer(lay, gs, midGapX, floorY, Mixed, rand, k, ps0, ds0);
    GrowKeepsChecked(cps0, before, lay.platforms);
    x := endX + gap;
  }

  /** One round of the storage loop: a structure, then a gap unless it is the last one. */
  method StructureThenGap(lay: Layout, gs: GeneratorState, startX: real, withGap: bool, floorY: real,
                          rand: nat -> real, k0: nat, ghost ps0: seq<Platform>, ghost ds0: seq<Decoration>)
    returns (x: real, k: nat)
    requires IsRandomStream(rand)
    requires Extends(ps0, ds0, lay.platforms, lay.decorations, floorY)
    requires CratesChecked(ps0, lay.platforms)
    requires ClocksSpaced(gs.lastClockX, lay.decorations)
    modifies lay, gs`lastAcX, gs`lastEboxX
    ensures Extends(ps0, ds0, lay.platforms, lay.decorations, floorY)
    ensures CratesChecked(ps0, lay.platforms)
    ensures ClocksSpaced(gs.lastClockX, lay.decorations)
    ensures HighCount(lay.platforms) == HighCount(old(lay.platforms)) + 1
    ensures startX + 80.0 <= x <= startX + 490.0
    ensures k > k0
  {
    var endX;
    endX, k := Structure(lay, startX, floorY, rand, k0, ps0, ds0, ps0);
    if withGap {
      x, k := Gap(lay, gs, endX, floorY, rand, k, ps0, ds0, ps0);
    } else {
      x := endX;
    }
  }

  /**
   * generateStorageBiome: `count` structures, 3 to 5, each holding exactly
   * one tall piece, gaps only between two structures, a trailing crate 15%
   * of the time; every crate it places passed the crate rule.
   */
  method GenerateStorageBiome(lay: Layout, gs: GeneratorState, startX: real, floorY: real, rand: nat -> real, k0: nat)
    returns (x: real, k: nat, count: nat)
    requires IsRandomStream(rand)
    requires ClocksSpaced(gs.lastClockX, lay.decorations)
    modifies lay, gs`lastAcX, gs`lastEboxX
    ensures 3 <= count <= 5
    ensures Extends(old(lay.platforms), old(lay.decorations), lay.platforms, lay.decorations, floorY)
    ensures CratesChecked(old(lay.platforms), lay.platforms)
    ensures ClocksSpaced(gs.lastClockX, lay.decorations)
    ensures HighCount(lay.platforms) == HighCount(old(lay.platforms)) + count
    ensures startX + count as real * SMALL_SHELF_WIDTH + 60.0 <= x <= startX + 2590.0
    ensures k > k0
  {
    ghost var ps0, ds0 := lay.platforms, lay.decorations;
    ExtendsRefl(ps0, ds0, floorY);
    count := 3 + PickIndex(rand(k0), 3);
    k := k0 + 1;
    var currentX := startX;
    var i := 0;
    while i < count
      invariant 0 <= i <= count && k > k0
      invariant Extends(ps0, ds0, lay.platforms, lay.decorations, floorY)
      invariant CratesChecked(ps0, lay.platforms)
      invariant ClocksSpaced(gs.lastClockX, lay.decorations)
      invariant HighCount(lay.platforms) == HighCount(ps0) + i
      invariant startX + i as real * 80.0 <= currentX <= startX + i as real * 490.0
    {
      currentX, k := StructureThenGap(lay, gs, currentX, i < count - 1, floorY, rand, k, ps0, ds0);
      i := i + 1;
    }
    if rand(k) < 0.15 {
      currentX := currentX + 10.0;
      var placed := TryCrate(lay, currentX, floorY, ps0, ds0, ps0);
      if placed {
        currentX := currentX + CRATE_WIDTH;
      }
    }
    k := k + 1;
    x := currentX + 60.0;
  }
}
