// generateLevel: the fixed opening, a mandatory office, then biomes picked
// at random until 2000 px before the end, with two vending-machine landmarks
// at about a third and two thirds of the way; finally everything that could
// block the exit door is filtered out.

module Level2Generator {
  import opened Common
  import opened Level2Types
  import opened Level2GenState
  import opened Level2Entities
  import opened Level2BiomeRules
  import opened Level2Background
  import StartBiome
  import OfficeBiome
  import LoungeBiome
  import StorageBiome
  import TransitionBiome

  /** Math.floor(levelLen * 0.33) and Math.floor(levelLen * 0.66) for the 21600 px level. */
  const VENDING1_X: real := 7128.0
  const VENDING2_X: real := 14256.0
  /** Within this distance of its target (or past it) a landmark is due. */
  const LANDMARK_ZONE: real := 500.0

  /** The first object of the level starts here; the player spawns at x = 50. */
  const START_X: real := 250.0
  const MANDATORY_GAP: real := 250.0
  /** Generation stops 2000 px before the end, to leave room for the boss. */
  const STOP_X: real := LEVEL_LENGTH - 2000.0
  /** Nothing may reach into the 250 px before the exit door. */
  const DOOR_SAFE_X: real := LEVEL_LENGTH - 250.0
  /** A decoration counts as 120 px wide for the door filter. */
  const DECORATION_REACH: real := 120.0

  /** An upper bound on how far one loop step (a landmark or a biome) moves x. */
  const MAX_STEP: real := 2600.0
  /** The armchair is never wider than this; its exact size is not part of this model. */
  const MAX_ARMCHAIR_WIDTH: real := 400.0

  /** The landmarks' start targets, Math.floor(levelLen * fraction). */
  lemma LandmarkTargets()
    ensures VENDING1_X == (LEVEL_LENGTH * 0.33).Floor as real
    ensures VENDING2_X == (LEVEL_LENGTH * 0.66).Floor as real
  {
  }

  /** The landmark at target is due at x: within 500 px of it or past it, and not placed yet. */
  predicate LandmarkDue(x: real, target: real, placed: bool)
  {
    (Abs(x - target) < LANDMARK_ZONE || x > target) && !placed
  }

  /** r is s with some elements left out and the rest in their order (matched from the end). */
  ghost predicate Subsequence<T>(r: seq<T>, s: seq<T>)
    decreases |s|
  {
    if r == [] then true
    else if s == [] then false
    else if r[|r| - 1] == s[|s| - 1] then Subsequence(r[..|r| - 1], s[..|s| - 1])
    else Subsequence(r, s[..|s| - 1])
  }

  /** platforms.filter: the platforms that end before the door's safe zone, in order. */
  function KeepClearOfDoor(ps: seq<Platform>): (r: seq<Platform>)
    ensures |r| <= |ps|
    ensures forall p :: p in r <==> p in ps && p.x + p.width < DOOR_SAFE_X
    ensures Subsequence(r, ps)
  {
    if ps == [] then []
    else
      var rest := KeepClearOfDoor(ps[..|ps| - 1]);
      var p := ps[|ps| - 1];
      assert ps == ps[..|ps| - 1] + [p];
      if p.x + p.width < DOOR_SAFE_X then
        assert (rest + [p])[..|rest|] == rest;
        rest + [p]
      else
        assert rest != [] ==> rest[|rest| - 1] in rest;
        rest
  }

  /** The platform filter works piece by piece: filtering a + b is filtering a, then b. */
  lemma {:induction false} KeepClearOfDoorSplits(a: seq<Platform>, b: seq<Platform>)
    ensures KeepClearOfDoor(a + b) == KeepClearOfDoor(a) + KeepClearOfDoor(b)
    decreases |b|
  {
    if b != [] {
      var b', p := b[..|b| - 1], b[|b| - 1];
      assert (a + b)[..|a + b| - 1] == a + b';
      KeepClearOfDoorSplits(a, b');
    } else {
      assert a + b == a;
    }
  }

  /** decorations.filter: the decorations whose 120 px reach ends before the door's safe zone, in order. */
  function KeepDecorationsClearOfDoor(ds: seq<Decoration>): (r: seq<Decoration>)
    ensures |r| <= |ds|
    ensures forall d :: d in r <==> d in ds && d.x + DECORATION_REACH < DOOR_SAFE_X
    ensures Subsequence(r, ds)
  {
    if ds == [] then []
    else
      var rest := KeepDecorationsClearOfDoor(ds[..|ds| - 1]);
      var d := ds[|ds| - 1];
      assert ds == ds[..|ds| - 1] + [d];
      if d.x + DECORATION_REACH < DOOR_SAFE_X then
        assert (rest + [d])[..|rest|] == rest;
        rest + [d]
      else
        assert rest != [] ==> rest[|rest| - 1] in rest;
        rest
  }

  /** The decoration filter works piece by piece: filtering a + b is filtering a, then b. */
  lemma {:induction false} KeepDecorationsClearOfDoorSplits(a: seq<Decoration>, b: seq<Decoration>)
    ensures KeepDecorationsClearOfDoor(a + b) == KeepDecorationsClearOfDoor(a) + KeepDecorationsClearOfDoor(b)
    decreases |b|
  {
    if b != [] {
      var b', d := b[..|b| - 1], b[|b| - 1];
      assert (a + b)[..|a + b| - 1] == a + b';
      KeepDecorationsClearOfDoorSplits(a, b');
    } else {
      assert a + b == a;
    }
  }

  /**
   * A vending-machine landmark at x + 60, a silver trashcan (variant 1) left
   * of it, and a cooler 60 px right of it when the cooler rule allows one at
   * the machine's x; the cooler registers at its own x.
   */
  method VendingLandmark(lay: Layout, gs: GeneratorState, currentX: real, floorY: real,
                         ghost ps0: seq<Platform>, ghost ds0: seq<Decoration>)
    returns (x: real, machine: Platform)
    requires Extends(ps0, ds0, lay.platforms, lay.decorations, floorY)
    requires ClocksSpaced(gs.lastClockX, lay.decorations)
    modifies lay, gs`lastCoolerX
    ensures Extends(ps0, ds0, lay.platforms, lay.decorations, floorY)
    ensures ClocksSpaced(gs.lastClockX, lay.decorations)
    ensures lay.platforms == old(lay.platforms) + [machine]
    ensures machine.kind == Vending && machine.x == currentX + 60.0
    ensures old(gs.CanPlaceCooler(currentX + 60.0)) ==>
      gs.lastCoolerX == currentX + 60.0 + VENDING_WIDTH + 60.0 && x == gs.lastCoolerX + 80.0
    ensures !old(gs.CanPlaceCooler(currentX + 60.0)) ==>
      gs.lastCoolerX == old(gs.lastCoolerX) && x == currentX + 60.0 + VENDING_WIDTH + 80.0
  {
    var actualX := currentX + 60.0;
    AddDecoration(lay, CreateDecoration(actualX - 60.0, floorY, Trashcan, Some(1), 0.0), floorY, gs.lastClockX, ps0, ds0);
    machine := Platform(actualX, floorY - VENDING_HEIGHT, VENDING_WIDTH, VENDING_HEIGHT, Vending);
    AddPlatform(lay, machine, floorY, ps0, ds0);
    if gs.CanPlaceCooler(actualX) {
      var coolerX := actualX + VENDING_WIDTH + 60.0;
      AddDecoration(lay, CreateDecoration(coolerX, floorY, Cooler, None, 0.0), floorY, gs.lastClockX, ps0, ds0);
      gs.RegisterCooler(coolerX);
      x := coolerX + 80.0;
    } else {
      x := actualX + VENDING_WIDTH + 80.0;
    }
  }

  /**
   * One random biome at currentX: office (40%), lounge (30%), storage (20%)
   * or transition (10%). It moves x forward by at least 50 and at most
   * MAX_STEP.
   */
  method RandomBiome(lay: Layout, gs: GeneratorState, currentX: real, floorY: real,
                     armchairWidth: real, armchairHeight: real, rand: nat -> real, k0: nat)
    returns (x: real, k: nat)
    requires IsRandomStream(rand)
    requires 0.0 < armchairWidth <= MAX_ARMCHAIR_WIDTH
    requires ClocksSpaced(gs.lastClockX, lay.decorations)
    modifies lay, gs
    ensures Extends(old(lay.platforms), old(lay.decorations), lay.platforms, lay.decorations, floorY)
    ensures ClocksSpaced(gs.lastClockX, lay.decorations)
    ensures currentX + 50.0 <= x <= currentX + MAX_STEP
    ensures k > k0
  {
    var roll := rand(k0);
    if roll < 0.4 {
      var groupSize;
      x, k, groupSize := OfficeBiome.GenerateOfficeBiome(lay, gs, currentX, floorY, rand, k0 + 1);
    } else if roll < 0.7 {
      var tableW;
      x, k, tableW := LoungeBiome.GenerateLoungeBiome(lay, gs, currentX, floorY, armchairWidth, armchairHeight, rand, k0 + 1);
    } else if roll < 0.9 {
      var count;
      x, k, count := StorageBiome.GenerateStorageBiome(lay, gs, currentX, floorY, rand, k0 + 1);
    } else {
      var objectWidth;
      x, k, objectWidth := TransitionBiome.GenerateTransitionBiome(lay, gs, currentX, floorY, rand, k0 + 1);
    }
  }

  /** The two landmarks, each a vending machine in its target window. */
  ghost predicate LandmarksIn(ps: seq<Platform>, m1: Platform, m2: Platform)
  {
    m1 in ps && m2 in ps && m1.kind == Vending && m2.kind == Vending &&
    VENDING1_X - LANDMARK_ZONE + 60.0 < m1.x <= VENDING1_X - LANDMARK_ZONE + MAX_STEP + 60.0 &&
    VENDING2_X - LANDMARK_ZONE + 60.0 < m2.x <= VENDING2_X - LANDMARK_ZONE + MAX_STEP + 60.0
  }

  /**
   * The door filter at the end of generateLevel: what survives is clear of
   * the door and keeps the generator's guarantees, landmarks included.
   */
  method ClearDoor(ps: seq<Platform>, ds: seq<Decoration>, floorY: real, ghost lastClockX: real,
                   ghost m1: Platform, ghost m2: Platform)
    returns (platforms: seq<Platform>, decorations: seq<Decoration>)
    requires Extends([], [], ps, ds, floorY) && ClocksSpaced(lastClockX, ds)
    requires LandmarksIn(ps, m1, m2)
    ensures platforms == KeepClearOfDoor(ps) && decorations == KeepDecorationsClearOfDoor(ds)
    ensures forall p :: p in platforms ==> WellBuilt(p, floorY) && p.x + p.width < DOOR_SAFE_X
    ensures forall d :: d in decorations ==> DefaultVariantOk(d.kind, d.variant) && d.x + DECORATION_REACH < DOOR_SAFE_X
    ensures forall c1, c2 :: c1 in decorations && c2 in decorations && c1.kind == Clock && c2.kind == Clock && c1 != c2 ==>
      Abs(c1.x - c2.x) > CLOCK_SPACING
    ensures LandmarksIn(platforms, m1, m2)
  {
    platforms := KeepClearOfDoor(ps);
    decorations := KeepDecorationsClearOfDoor(ds);
    forall c1, c2 | c1 in decorations && c2 in decorations && c1.kind == Clock && c2.kind == Clock && c1 != c2
      ensures Abs(c1.x - c2.x) > CLOCK_SPACING
    {
      ClocksApart(lastClockX, ds, c1, c2);
    }
  }

  /**
   * generateLevel: resets the placement trackers, lays out the level and
   * returns what survives the door filter with the background views. Both
   * landmarks are always placed, the first between 6688 and 9288 and the
   * second between 13816 and 16416; every platform is a catalogue shape
   * clear of the door, every decoration has an in-range variant, and wall
   * clocks stand more than 800 px apart. `placements1` and `placements2`
   * count how often each landmark was laid out: once each.
   */
  method GenerateLevel(gs: GeneratorState, floorY: real, armchairWidth: real, armchairHeight: real,
                       rand: nat -> real, k0: nat)
    returns (platforms: seq<Platform>, decorations: seq<Decoration>, background: seq<BackgroundElement>, k: nat,
             ghost placements1: nat, ghost placements2: nat)
    requires IsRandomStream(rand)
    requires 0.0 < armchairWidth <= MAX_ARMCHAIR_WIDTH
    modifies gs
    ensures forall p :: p in platforms ==> WellBuilt(p, floorY) && p.x + p.width < DOOR_SAFE_X
    ensures forall d :: d in decorations ==> DefaultVariantOk(d.kind, d.variant) && d.x + DECORATION_REACH < DOOR_SAFE_X
    ensures forall c1, c2 :: c1 in decorations && c2 in decorations && c1.kind == Clock && c2.kind == Clock && c1 != c2 ==>
      Abs(c1.x - c2.x) > CLOCK_SPACING
    ensures exists m1, m2 :: LandmarksIn(platforms, m1, m2)
    ensures |background| == ViewCount(LEVEL_LENGTH)
    ensures placements1 == 1 && placements2 == 1
  {
    gs.Reset();
    var lay := new Layout();
    ClocksSpacedEmpty(gs.lastClockX);

    var currentX := StartBiome.GenerateStartBiome(lay, START_X, floorY);
    StartBiome.StartKeepsRules([], [], START_X, floorY);
    ClocksSpacedNoClocks(gs.lastClockX, [], StartBiome.StartDecorations(START_X, floorY));
    currentX := currentX + MANDATORY_GAP;
    var groupSize;
    ghost var ps1, ds1 := lay.platforms, lay.decorations;
    currentX, k, groupSize := OfficeBiome.GenerateOfficeBiome(lay, gs, currentX, floorY, rand, k0);
    ExtendsTrans([], [], ps1, ds1, lay.platforms, lay.decorations, floorY);

    var placed1, placed2 := false, false;
    ghost var i1: nat, i2: nat := 0, 0;
    placements1, placements2 := 0, 0;
    while currentX < STOP_X
      invariant placements1 == (if placed1 then 1 else 0) && placements2 == (if placed2 then 1 else 0)
      invariant Extends([], [], lay.platforms, lay.decorations, floorY)
      invariant ClocksSpaced(gs.lastClockX, lay.decorations)
      invariant placed2 ==> placed1
      invariant !placed1 ==> currentX <= VENDING1_X - LANDMARK_ZONE + MAX_STEP
      invariant !placed2 ==> currentX <= VENDING2_X - LANDMARK_ZONE + MAX_STEP
      invariant placed1 ==> (i1 < |lay.platforms| && lay.platforms[i1].kind == Vending &&
        VENDING1_X - LANDMARK_ZONE + 60.0 < lay.platforms[i1].x <= VENDING1_X - LANDMARK_ZONE + MAX_STEP + 60.0)
      invariant placed2 ==> (i2 < |lay.platforms| && lay.platforms[i2].kind == Vending &&
        VENDING2_X - LANDMARK_ZONE + 60.0 < lay.platforms[i2].x <= VENDING2_X - LANDMARK_ZONE + MAX_STEP + 60.0)
      decreases (STOP_X - currentX).Floor
    {
      ghost var ps, ds := lay.platforms, lay.decorations;
      var due1 := LandmarkDue(currentX, VENDING1_X, placed1);
      var due2 := LandmarkDue(currentX, VENDING2_X, placed2);
      if due1 || due2 {
        var machine;
        if due1 {
          placed1 := true;
          placements1 := placements1 + 1;
          i1 := |lay.platforms|;
        } else {
          placed2 := true;
          placements2 := placements2 + 1;
          i2 := |lay.platforms|;
        }
        currentX, machine := VendingLandmark(lay, gs, currentX, floorY, [], []);
      } else {
        currentX, k := RandomBiome(lay, gs, currentX, floorY, armchairWidth, armchairHeight, rand, k);
        ExtendsTrans([], [], ps, ds, lay.platforms, lay.decorations, floorY);
        assert placed1 ==> lay.platforms[i1] == ps[i1];
        assert placed2 ==> lay.platforms[i2] == ps[i2];
      }
    }

    background, k := GenerateBackground(LEVEL_LENGTH, rand, k);

    platforms, decorations := ClearDoor(lay.platforms, lay.decorations, floorY, gs.lastClockX, lay.platforms[i1], lay.platforms[i2]);
  }
}
