// The spacing rules of the platformer's level generator: where the last
// clock, air conditioner, electric box and cooler went, and whether the next
// one may go at a given x.

module Level2GenState {
  import opened Common

  /** The position every tracker starts from, far left of the level. */
  const FAR_LEFT: real := -2000.0

  const CLOCK_SPACING: real := 800.0
  const CLOCK_WALL_CLEARANCE: real := 120.0
  const AC_SPACING: real := 600.0
  const AC_CLOCK_CLEARANCE: real := 150.0
  const AC_EBOX_CLEARANCE: real := 400.0
  const COOLER_SPACING: real := 800.0

  class GeneratorState {
    var lastClockX: real
    var lastAcX: real
    var lastEboxX: real
    var lastCoolerX: real

    constructor ()
      ensures lastClockX == FAR_LEFT && lastAcX == FAR_LEFT && lastEboxX == FAR_LEFT && lastCoolerX == FAR_LEFT
    {
      lastClockX := FAR_LEFT;
      lastAcX := FAR_LEFT;
      lastEboxX := FAR_LEFT;
      lastCoolerX := FAR_LEFT;
    }

    /** reset: every tracker back to the far left. */
    method Reset()
      modifies this
      ensures lastClockX == FAR_LEFT && lastAcX == FAR_LEFT && lastEboxX == FAR_LEFT && lastCoolerX == FAR_LEFT
    {
      lastClockX := FAR_LEFT;
      lastAcX := FAR_LEFT;
      lastEboxX := FAR_LEFT;
      lastCoolerX := FAR_LEFT;
    }

    /** A clock 800 past the last one and 120 clear of the last AC and E-box. */
    predicate CanPlaceClock(x: real)
      reads this
    {
      x - lastClockX > CLOCK_SPACING && Abs(x - lastAcX) > CLOCK_WALL_CLEARANCE && Abs(x - lastEboxX) > CLOCK_WALL_CLEARANCE
    }

    method RegisterClock(x: real)
      modifies this`lastClockX
      ensures lastClockX == x
    {
      lastClockX := x;
    }

    /** An AC 600 past the last one, 150 clear of the last clock, 400 clear of the last E-box. */
    predicate CanPlaceAc(x: real)
      reads this
    {
      x - lastAcX > AC_SPACING && Abs(x - lastClockX) > AC_CLOCK_CLEARANCE && Abs(x - lastEboxX) > AC_EBOX_CLEARANCE
    }

    method RegisterAc(x: real)
      modifies this`lastAcX
      ensures lastAcX == x
    {
      lastAcX := x;
    }

    /** The mirror rule of CanPlaceAc for electric boxes. */
    predicate CanPlaceEbox(x: real)
      reads this
    {
      x - lastEboxX > AC_SPACING && Abs(x - lastClockX) > AC_CLOCK_CLEARANCE && Abs(x - lastAcX) > AC_EBOX_CLEARANCE
    }

    method RegisterEbox(x: real)
      modifies this`lastEboxX
      ensures lastEboxX == x
    {
      lastEboxX := x;
    }

    predicate CanPlaceCooler(x: real)
      reads this
    {
      x - lastCoolerX > COOLER_SPACING
    }

    method RegisterCooler(x: real)
      modifies this`lastCoolerX
      ensures lastCoolerX == x
    {
      lastCoolerX := x;
    }
  }

  /**
   * An AC and an E-box exclude each other within 400 px: once one is
   * registered at x, the other cannot go anywhere within 400 of x.
   */
  lemma AcAndEboxExclusive(g: GeneratorState, x: real, y: real)
    requires Abs(y - x) <= AC_EBOX_CLEARANCE
    ensures g.lastAcX == x ==> !g.CanPlaceEbox(y)
    ensures g.lastEboxX == x ==> !g.CanPlaceAc(y)
  {
  }

  /** Right after a reset every placement right of x = -1200 is allowed. */
  lemma FreshStateAllowsAll(g: GeneratorState, x: real)
    requires g.lastClockX == FAR_LEFT && g.lastAcX == FAR_LEFT && g.lastEboxX == FAR_LEFT && g.lastCoolerX == FAR_LEFT
    requires x > FAR_LEFT + CLOCK_SPACING
    ensures g.CanPlaceClock(x) && g.CanPlaceAc(x) && g.CanPlaceEbox(x) && g.CanPlaceCooler(x)
  {
  }

  /** Two objects of one kind, each allowed by the last register, stand farther apart than the spacing. */
  lemma ClockSpacingHolds(g: GeneratorState, x: real, prior: real)
    requires prior <= g.lastClockX && g.CanPlaceClock(x)
    ensures x - prior > CLOCK_SPACING
  {
  }
}
