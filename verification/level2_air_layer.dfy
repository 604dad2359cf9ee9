// The air-layer placer: a platform, air conditioner or electric box 260 px
// above the floor (tier 3), or a wider platform 360 px above it (tier 4),
// added only where it keeps clear of what already hangs at that height.

module Level2AirLayer {
  import opened Common
  import opened Level2Types
  import opened Level2GenState
  import opened Level2Entities

  datatype TierPreference = PreferTier3 | PreferTier4 | Mixed

  /** Free space kept between two platforms of one tier. */
  const AIR_BUFFER: real := 10.0
  /** Platforms this close in height count as the same tier. */
  const TIER_TOLERANCE: real := 10.0

  function IsTier3(prefer: TierPreference, tierRoll: real): bool
  {
    prefer == PreferTier3 || (prefer == Mixed && tierRoll < 0.6)
  }

  /** The tier-3 candidates: a plain platform always, an AC or E-box when the spacing rules allow. */
  function Tier3Candidates(canAc: bool, canEbox: bool): (cs: seq<PlatformKind>)
    ensures |cs| > 0 && cs[0] == PlainPlatform
    ensures AirConditioner in cs <==> canAc
    ensures ElectricBox in cs <==> canEbox
    ensures forall k :: k in cs ==> k in {PlainPlatform, AirConditioner, ElectricBox}
  {
    [PlainPlatform] + (if canAc then [AirConditioner] else []) + (if canEbox then [ElectricBox] else [])
  }

  /**
   * The proposed platform, centred on centerX: `tierRoll` picks the tier
   * under the mixed preference, `pickRoll` the tier-3 candidate or the
   * tier-4 width.
   */
  function AirProposal(canAc: bool, canEbox: bool, centerX: real, floorY: real,
                       prefer: TierPreference, tierRoll: real, pickRoll: real): (p: Platform)
    requires 0.0 <= pickRoll < 1.0
    ensures p.x == centerX - p.width / 2.0
    ensures IsTier3(prefer, tierRoll) ==> p.y == floorY - TIER3_RISE && p.kind in {PlainPlatform, AirConditioner, ElectricBox}
    ensures !IsTier3(prefer, tierRoll) ==> (p.y == floorY - TIER4_RISE && p.kind == PlainPlatform && p.height == PLATFORM_HEIGHT
      && (p.width == PLATFORM_MEDIUM_WIDTH || p.width == PLATFORM_LARGE_WIDTH))
    ensures p.kind == AirConditioner ==> canAc && p.width == AC_WIDTH && p.height == AC_HEIGHT
    ensures p.kind == ElectricBox ==> canEbox && p.width == EBOX_WIDTH && p.height == EBOX_HEIGHT
    ensures IsTier3(prefer, tierRoll) && p.kind == PlainPlatform ==> p.width == PLATFORM_WIDTH && p.height == PLATFORM_HEIGHT
  {
    if IsTier3(prefer, tierRoll) then
      var kind := RandomItem(Tier3Candidates(canAc, canEbox), pickRoll);
      var w := if kind == AirConditioner then AC_WIDTH else if kind == ElectricBox then EBOX_WIDTH else PLATFORM_WIDTH;
      var h := if kind == AirConditioner then AC_HEIGHT else if kind == ElectricBox then EBOX_HEIGHT else PLATFORM_HEIGHT;
      Platform(centerX - w / 2.0, floorY - TIER3_RISE, w, h, kind)
    else
      var w := if pickRoll < 0.4 then PLATFORM_LARGE_WIDTH else PLATFORM_MEDIUM_WIDTH;
      Platform(centerX - w / 2.0, floorY - TIER4_RISE, w, PLATFORM_HEIGHT, PlainPlatform)
  }

  /** The tier preference decides the tier outright unless it is mixed. */
  lemma PreferenceDecidesTier(tierRoll: real)
    ensures IsTier3(PreferTier3, tierRoll) && !IsTier3(PreferTier4, tierRoll)
  {
  }

  /** `q` blocks `p`: same tier within 10 px, and the two overlap horizontally with a 10 px buffer. */
  predicate Blocks(q: Platform, p: Platform)
  {
    Abs(q.y - p.y) <= TIER_TOLERANCE && p.x < q.x + q.width + AIR_BUFFER && p.x + p.width + AIR_BUFFER > q.x
  }

  /** platforms.some(...): some existing platform blocks the proposal. */
  predicate HasOverlap(ps: seq<Platform>, p: Platform)
  {
    exists i :: 0 <= i < |ps| && Blocks(ps[i], p)
  }

  /** A platform keeps 10 px clear of every platform of its tier in `ps`. */
  predicate ClearOfTier(ps: seq<Platform>, p: Platform)
  {
    forall i :: 0 <= i < |ps| && Abs(ps[i].y - p.y) <= TIER_TOLERANCE ==>
      p.x >= ps[i].x + ps[i].width + AIR_BUFFER || p.x + p.width + AIR_BUFFER <= ps[i].x
  }

  /** No overlap is exactly being clear of the tier. */
  lemma NoOverlapIsClear(ps: seq<Platform>, p: Platform)
    ensures !HasOverlap(ps, p) <==> ClearOfTier(ps, p)
  {
  }

  /** The kinds an air layer can add. */
  predicate IsAirKind(k: PlatformKind)
  {
    k in {PlainPlatform, AirConditioner, ElectricBox}
  }

  /**
   * tryGenerateAirLayer: draws the tier and the candidate (two Math.random()
   * calls), and appends the proposal unless something on its tier is in
   * the way. Only an AC or E-box actually appended is registered.
   */
  method TryGenerateAirLayer(lay: Layout, gs: GeneratorState, centerX: real, floorY: real,
                             prefer: TierPreference, rand: nat -> real, k0: nat) returns (k: nat)
    requires IsRandomStream(rand)
    modifies lay`platforms, gs`lastAcX, gs`lastEboxX
    ensures k == k0 + 2
    ensures old(lay.platforms) <= lay.platforms && |lay.platforms| <= |old(lay.platforms)| + 1
    ensures forall i :: |old(lay.platforms)| <= i < |lay.platforms| ==>
      IsAirKind(lay.platforms[i].kind) && WellBuilt(lay.platforms[i], floorY)
    ensures forall kd :: !IsAirKind(kd) ==> CountKind(lay.platforms, kd) == CountKind(old(lay.platforms), kd)
    ensures gs.lastClockX == old(gs.lastClockX) && gs.lastCoolerX == old(gs.lastCoolerX)
    ensures var p := AirProposal(old(gs.CanPlaceAc(centerX)), old(gs.CanPlaceEbox(centerX)), centerX, floorY, prefer, rand(k0), rand(k0 + 1));
      if HasOverlap(old(lay.platforms), p) then
        lay.platforms == old(lay.platforms) && gs.lastAcX == old(gs.lastAcX) && gs.lastEboxX == old(gs.lastEboxX)
      else
        lay.platforms == old(lay.platforms) + [p] && ClearOfTier(old(lay.platforms), p) &&
        gs.lastAcX == (if p.kind == AirConditioner then centerX else old(gs.lastAcX)) &&
        gs.lastEboxX == (if p.kind == ElectricBox then centerX else old(gs.lastEboxX))
  {
    var tierRoll := rand(k0);
    var pickRoll := rand(k0 + 1);
    k := k0 + 2;
    var p := AirProposal(gs.CanPlaceAc(centerX), gs.CanPlaceEbox(centerX), centerX, floorY, prefer, tierRoll, pickRoll);
    var overlap := exists i :: 0 <= i < |lay.platforms| && Blocks(lay.platforms[i], p);
    if overlap {
      return;
    }
    NoOverlapIsClear(lay.platforms, p);
    forall kd | !IsAirKind(kd)
      ensures CountKind(lay.platforms + [p], kd) == CountKind(lay.platforms, kd)
    {
      CountAppend(lay.platforms, p, kd);
    }
    lay.platforms := lay.platforms + [p];
    if IsTier3(prefer, tierRoll) {
      if p.kind == AirConditioner {
        gs.RegisterAc(centerX);
      }
      if p.kind == ElectricBox {
        gs.RegisterEbox(centerX);
      }
    }
  }

  /** An air layer only ever adds a plain platform, an AC or an E-box. */
  lemma AirLayerKinds(canAc: bool, canEbox: bool, centerX: real, floorY: real,
                      prefer: TierPreference, tierRoll: real, pickRoll: real)
    requires 0.0 <= pickRoll < 1.0
    ensures IsAirKind(AirProposal(canAc, canEbox, centerX, floorY, prefer, tierRoll, pickRoll).kind)
  {
  }
}
