// What every biome generator keeps: it only appends, every platform it
// appends is a catalogue shape, every decoration carries a variant in its
// kind's range, and wall clocks stay more than 800 px apart.

module Level2BiomeRules {
  import opened Common
  import opened Level2Types
  import opened Level2GenState
  import opened Level2Entities
  import opened Level2AirLayer

  /** ps and ds grew from ps0 and ds0 by appending well-built platforms and in-range decorations. */
  ghost predicate Extends(ps0: seq<Platform>, ds0: seq<Decoration>, ps: seq<Platform>, ds: seq<Decoration>, floorY: real)
  {
    ps0 <= ps && ds0 <= ds &&
    (forall i :: |ps0| <= i < |ps| ==> WellBuilt(ps[i], floorY)) &&
    (forall i :: |ds0| <= i < |ds| ==> DefaultVariantOk(ds[i].kind, ds[i].variant))
  }

  lemma ExtendsRefl(ps: seq<Platform>, ds: seq<Decoration>, floorY: real)
    ensures Extends(ps, ds, ps, ds, floorY)
  {
  }

  lemma ExtendsTrans(ps0: seq<Platform>, ds0: seq<Decoration>, ps1: seq<Platform>, ds1: seq<Decoration>,
                     ps2: seq<Platform>, ds2: seq<Decoration>, floorY: real)
    requires Extends(ps0, ds0, ps1, ds1, floorY) && Extends(ps1, ds1, ps2, ds2, floorY)
    ensures Extends(ps0, ds0, ps2, ds2, floorY)
  {
    forall i | |ps0| <= i < |ps2|
      ensures WellBuilt(ps2[i], floorY)
    {
      if i < |ps1| {
        assert ps2[i] == ps1[i];
      }
    }
    forall i | |ds0| <= i < |ds2|
      ensures DefaultVariantOk(ds2[i].kind, ds2[i].variant)
    {
      if i < |ds1| {
        assert ds2[i] == ds1[i];
      }
    }
  }

  /** Pushing a catalogue platform keeps the generator's invariants. */
  lemma PushPlatform(ps0: seq<Platform>, ds0: seq<Decoration>, ps: seq<Platform>, ds: seq<Decoration>, p: Platform, floorY: real)
    requires Extends(ps0, ds0, ps, ds, floorY) && WellBuilt(p, floorY)
    ensures Extends(ps0, ds0, ps + [p], ds, floorY)
  {
    var ps' := ps + [p];
    forall i | |ps0| <= i < |ps'|
      ensures WellBuilt(ps'[i], floorY)
    {
      if i < |ps| {
        assert ps'[i] == ps[i];
      }
    }
  }

  /** Pushing a decoration with an in-range variant keeps the generator's invariants. */
  lemma PushDecoration(ps0: seq<Platform>, ds0: seq<Decoration>, ps: seq<Platform>, ds: seq<Decoration>, d: Decoration, floorY: real)
    requires Extends(ps0, ds0, ps, ds, floorY) && DefaultVariantOk(d.kind, d.variant)
    ensures Extends(ps0, ds0, ps, ds + [d], floorY)
  {
    var ds' := ds + [d];
    forall i | |ds0| <= i < |ds'|
      ensures DefaultVariantOk(ds'[i].kind, ds'[i].variant)
    {
      if i < |ds| {
        assert ds'[i] == ds[i];
      }
    }
  }

  /** Growing the platforms by catalogue shapes (as the air-layer placer does) keeps the invariants. */
  lemma GrowPlatforms(ps0: seq<Platform>, ds0: seq<Decoration>, ps: seq<Platform>, ds: seq<Decoration>, ps': seq<Platform>, floorY: real)
    requires Extends(ps0, ds0, ps, ds, floorY) && ps <= ps'
    requires forall i :: |ps| <= i < |ps'| ==> WellBuilt(ps'[i], floorY)
    ensures Extends(ps0, ds0, ps', ds, floorY)
  {
    forall i | |ps0| <= i < |ps'|
      ensures WellBuilt(ps'[i], floorY)
    {
      if i < |ps| {
        assert ps'[i] == ps[i];
      }
    }
  }

  /** x is within the bound: below `limit`, or at it too when the bound is not strict. */
  predicate Within(x: real, limit: real, strict: bool)
  {
    if strict then x < limit else x <= limit
  }

  /**
   * The clocks of `ds` read from the last one back: the last is within the
   * bound, and each earlier one stands more than 800 px left of the clock
   * after it.
   */
  ghost predicate ClocksBefore(limit: real, strict: bool, ds: seq<Decoration>)
    decreases |ds|
  {
    if ds == [] then true
    else
      var d := ds[|ds| - 1];
      if d.kind == Clock then Within(d.x, limit, strict) && ClocksBefore(d.x - CLOCK_SPACING, true, ds[..|ds| - 1])
      else ClocksBefore(limit, strict, ds[..|ds| - 1])
  }

  /**
   * Wall clocks in `ds` stand at or left of the last registered clock, each
   * more than 800 px right of the clock placed before it.
   */
  ghost predicate ClocksSpaced(lastClockX: real, ds: seq<Decoration>)
  {
    ClocksBefore(lastClockX, false, ds)
  }

  /**
   * What the spacing means for every pair: all clocks are within the bound,
   * and any two of them are more than 800 px apart in placement order.
   */
  lemma {:induction false} ClocksPairwise(limit: real, strict: bool, ds: seq<Decoration>)
    requires ClocksBefore(limit, strict, ds)
    ensures forall i :: 0 <= i < |ds| && ds[i].kind == Clock ==> Within(ds[i].x, limit, strict)
    ensures forall i, j :: 0 <= i < j < |ds| && ds[i].kind == Clock && ds[j].kind == Clock ==>
      ds[j].x - ds[i].x > CLOCK_SPACING
    decreases |ds|
  {
    if ds != [] {
      var d, rest := ds[|ds| - 1], ds[..|ds| - 1];
      if d.kind == Clock {
        ClocksPairwise(d.x - CLOCK_SPACING, true, rest);
      } else {
        ClocksPairwise(limit, strict, rest);
      }
      forall i | 0 <= i < |ds| && ds[i].kind == Clock
        ensures Within(ds[i].x, limit, strict)
      {
        if i < |rest| {
          assert ds[i] == rest[i];
        }
      }
      forall i, j | 0 <= i < j < |ds| && ds[i].kind == Clock && ds[j].kind == Clock
        ensures ds[j].x - ds[i].x > CLOCK_SPACING
      {
        assert ds[i] == rest[i];
        if j < |rest| {
          assert ds[j] == rest[j];
        }
      }
    }
  }

  /** A looser bound keeps the spacing. */
  lemma {:induction false} ClocksBeforeLoosen(a: real, sa: bool, b: real, sb: bool, ds: seq<Decoration>)
    requires ClocksBefore(a, sa, ds)
    requires a < b || (a == b && (sa || !sb))
    ensures ClocksBefore(b, sb, ds)
    decreases |ds|
  {
    if ds != [] && ds[|ds| - 1].kind != Clock {
      ClocksBeforeLoosen(a, sa, b, sb, ds[..|ds| - 1]);
    }
  }

  /** Anything but a clock leaves the spacing alone. */
  lemma ClocksSpacedOther(lastClockX: real, ds: seq<Decoration>, d: Decoration)
    requires ClocksSpaced(lastClockX, ds) && d.kind != Clock
    ensures ClocksSpaced(lastClockX, ds + [d])
  {
    assert (ds + [d])[..|ds|] == ds;
  }

  /** Appending decorations none of which is a clock leaves the spacing alone. */
  lemma {:induction false} ClocksSpacedNoClocks(lastClockX: real, ds: seq<Decoration>, extra: seq<Decoration>)
    requires ClocksSpaced(lastClockX, ds)
    requires forall i :: 0 <= i < |extra| ==> extra[i].kind != Clock
    ensures ClocksSpaced(lastClockX, ds + extra)
    decreases |extra|
  {
    if extra != [] {
      var init := extra[..|extra| - 1];
      ClocksSpacedNoClocks(lastClockX, ds, init);
      ClocksSpacedOther(lastClockX, ds + init, extra[|extra| - 1]);
      assert ds + init + [extra[|extra| - 1]] == ds + extra;
    } else {
      assert ds + extra == ds;
    }
  }

  /** A clock allowed by the clock rule, then registered, keeps the spacing. */
  lemma ClocksSpacedClock(lastClockX: real, ds: seq<Decoration>, d: Decoration)
    requires ClocksSpaced(lastClockX, ds) && d.kind == Clock && d.x - lastClockX > CLOCK_SPACING
    ensures ClocksSpaced(d.x, ds + [d])
  {
    ClocksBeforeLoosen(lastClockX, false, d.x - CLOCK_SPACING, true, ds);
    assert (ds + [d])[..|ds|] == ds;
  }

  /** Spaced clocks, looked at as a set: any two different clocks are more than 800 px apart. */
  lemma ClocksApart(lastClockX: real, ds: seq<Decoration>, c1: Decoration, c2: Decoration)
    requires ClocksSpaced(lastClockX, ds)
    requires c1 in ds && c2 in ds && c1.kind == Clock && c2.kind == Clock && c1 != c2
    ensures Abs(c1.x - c2.x) > CLOCK_SPACING
  {
    ClocksPairwise(lastClockX, false, ds);
    var i :| 0 <= i < |ds| && ds[i] == c1;
    var j :| 0 <= j < |ds| && ds[j] == c2;
    if i < j {
      assert ds[j].x - ds[i].x > CLOCK_SPACING;
    } else {
      assert ds[i].x - ds[j].x > CLOCK_SPACING;
    }
  }

  /** The state right after a reset: no decorations yet, so clocks are trivially spaced. */
  lemma ClocksSpacedEmpty(lastClockX: real)
    ensures ClocksSpaced(lastClockX, [])
  {
  }

  /** platforms.push(p) inside a biome, for a catalogue shape. */
  method AddPlatform(lay: Layout, p: Platform, floorY: real, ghost ps0: seq<Platform>, ghost ds0: seq<Decoration>)
    requires Extends(ps0, ds0, lay.platforms, lay.decorations, floorY) && WellBuilt(p, floorY)
    modifies lay`platforms
    ensures lay.platforms == old(lay.platforms) + [p]
    ensures Extends(ps0, ds0, lay.platforms, lay.decorations, floorY)
    ensures forall kd :: CountKind(lay.platforms, kd) == CountKind(old(lay.platforms), kd) + (if p.kind == kd then 1 else 0)
  {
    PushPlatform(ps0, ds0, lay.platforms, lay.decorations, p, floorY);
    forall kd
      ensures CountKind(lay.platforms + [p], kd) == CountKind(lay.platforms, kd) + (if p.kind == kd then 1 else 0)
    {
      CountAppend(lay.platforms, p, kd);
    }
    lay.platforms := lay.platforms + [p];
  }

  /** decorations.push(d) inside a biome, for anything but a clock. */
  method AddDecoration(lay: Layout, d: Decoration, floorY: real, ghost lastClockX: real,
                       ghost ps0: seq<Platform>, ghost ds0: seq<Decoration>)
    requires Extends(ps0, ds0, lay.platforms, lay.decorations, floorY) && DefaultVariantOk(d.kind, d.variant)
    requires d.kind != Clock && ClocksSpaced(lastClockX, lay.decorations)
    modifies lay`decorations
    ensures lay.decorations == old(lay.decorations) + [d]
    ensures Extends(ps0, ds0, lay.platforms, lay.decorations, floorY)
    ensures ClocksSpaced(lastClockX, lay.decorations)
  {
    PushDecoration(ps0, ds0, lay.platforms, lay.decorations, d, floorY);
    ClocksSpacedOther(lastClockX, lay.decorations, d);
    lay.decorations := lay.decorations + [d];
  }

  /**
   * A wall clock at x, placed and registered only when the clock rule
   * allows it; its variant is drawn from the stream. Otherwise nothing
   * changes.
   */
  method AddClockIfAllowed(lay: Layout, gs: GeneratorState, x: real, floorY: real, rand: nat -> real, k0: nat,
                           ghost ps0: seq<Platform>, ghost ds0: seq<Decoration>) returns (k: nat)
    requires IsRandomStream(rand)
    requires Extends(ps0, ds0, lay.platforms, lay.decorations, floorY)
    requires ClocksSpaced(gs.lastClockX, lay.decorations)
    modifies lay`decorations, gs`lastClockX
    ensures Extends(ps0, ds0, lay.platforms, lay.decorations, floorY)
    ensures ClocksSpaced(gs.lastClockX, lay.decorations)
    ensures old(gs.CanPlaceClock(x)) ==>
      gs.lastClockX == x && k == k0 + 1 &&
      lay.decorations == old(lay.decorations) + [CreateDecoration(x, floorY - CLOCK_HEIGHT_ABOVE_FLOOR, Clock, None, rand(k0))]
    ensures !old(gs.CanPlaceClock(x)) ==> gs.lastClockX == old(gs.lastClockX) && lay.decorations == old(lay.decorations)
    ensures k == k0 || k == k0 + 1
  {
    k := k0;
    if gs.CanPlaceClock(x) {
      var clock;
      clock, k := Decorate(x, floorY - CLOCK_HEIGHT_ABOVE_FLOOR, Clock, None, rand, k);
      PushDecoration(ps0, ds0, lay.platforms, lay.decorations, clock, floorY);
      ClocksSpacedClock(gs.lastClockX, lay.decorations, clock);
      lay.decorations := lay.decorations + [clock];
      gs.RegisterClock(x);
    }
  }

  /** tryGenerateAirLayer inside a biome: whatever it adds is a catalogue shape, and no other kind's count moves. */
  method AddAirLayer(lay: Layout, gs: GeneratorState, centerX: real, floorY: real, prefer: TierPreference,
                     rand: nat -> real, k0: nat, ghost ps0: seq<Platform>, ghost ds0: seq<Decoration>) returns (k: nat)
    requires IsRandomStream(rand)
    requires Extends(ps0, ds0, lay.platforms, lay.decorations, floorY)
    modifies lay`platforms, gs`lastAcX, gs`lastEboxX
    ensures k == k0 + 2
    ensures Extends(ps0, ds0, lay.platforms, lay.decorations, floorY)
    ensures forall kd :: !IsAirKind(kd) ==> CountKind(lay.platforms, kd) == CountKind(old(lay.platforms), kd)
    ensures old(lay.platforms) <= lay.platforms && |lay.platforms| <= |old(lay.platforms)| + 1
    ensures forall i :: |old(lay.platforms)| <= i < |lay.platforms| ==> IsAirKind(lay.platforms[i].kind)
  {
    ghost var before := lay.platforms;
    k := TryGenerateAirLayer(lay, gs, centerX, floorY, prefer, rand, k0);
    GrowPlatforms(ps0, ds0, before, lay.decorations, lay.platforms, floorY);
  }
}
