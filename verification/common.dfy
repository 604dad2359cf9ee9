// Helpers shared by every level: an optional value, the oracle that stands
// for Math.random(), and the few Math.* functions the game uses on numbers.

module Common {

  datatype Option<T> = None | Some(value: T)

  /** Every draw of a Math.random() stream lies in [0, 1). */
  ghost predicate IsRandomStream(rand: nat -> real)
  {
    forall i: nat :: 0.0 <= rand(i) < 1.0
  }

  /** A per-cell pseudo-random value in [0, 1), as the renderer derives from Math.sin. */
  ghost predicate IsCellHash(hash: (int, int) -> real)
  {
    forall c: int, r: int :: 0.0 <= hash(c, r) < 1.0
  }

  /** Math.floor(roll * n) for a roll in [0, 1): a valid index into n > 0 items. */
  function PickIndex(roll: real, n: nat): (i: nat)
    requires 0.0 <= roll < 1.0 && n > 0
    ensures i < n
    ensures i as real <= roll * n as real < i as real + 1.0
  {
    assert 0.0 <= roll * n as real < n as real by {
      assert roll * n as real <= roll * n as real;
    }
    (roll * n as real).Floor
  }

  /** lo + Math.floor(roll * n): a draw from lo..lo+n-1. */
  function PickFrom(roll: real, lo: int, n: nat): (v: int)
    requires 0.0 <= roll < 1.0 && n > 0
    ensures lo <= v < lo + n
  {
    lo + PickIndex(roll, n)
  }

  function Abs(x: real): (r: real)
    ensures r >= 0.0 && (r == x || r == -x)
  {
    if x < 0.0 then -x else x
  }

  function AbsInt(x: int): (r: nat)
    ensures r == x || r == -x
  {
    if x < 0 then -x else x
  }

  /** Math.sign */
  function Sign(x: real): (r: real)
    ensures r * x == Abs(x)
    ensures r == 0.0 <==> x == 0.0
  {
    if x > 0.0 then 1.0 else if x < 0.0 then -1.0 else 0.0
  }

  function Min(a: real, b: real): (r: real)
    ensures r <= a && r <= b && (r == a || r == b)
  {
    if a <= b then a else b
  }

  function Max(a: real, b: real): (r: real)
    ensures r >= a && r >= b && (r == a || r == b)
  {
    if a >= b then a else b
  }

  /**
   * A re-centring step of at most maxStep toward a target that is diff away:
   * Math.sign(diff) * Math.min(Math.abs(diff), maxStep). It never overshoots.
   */
  function BoundedStep(diff: real, maxStep: real): (r: real)
    requires maxStep >= 0.0
    ensures Abs(r) <= maxStep && Abs(r) <= Abs(diff)
    ensures diff >= 0.0 ==> 0.0 <= r <= diff
    ensures diff <= 0.0 ==> diff <= r <= 0.0
    ensures Abs(diff) <= maxStep ==> r == diff
  {
    Sign(diff) * Min(Abs(diff), maxStep)
  }

  /** The same step written as the player code writes it; both formulas agree. */
  lemma ClampedStepAgrees(diff: real, maxStep: real)
    requires maxStep >= 0.0
    ensures (if Abs(diff) < maxStep then diff else Sign(diff) * maxStep) == BoundedStep(diff, maxStep)
  {
  }
}
