// The generator's two small factories: a uniform pick from a list and a
// decoration with its default variant.

module Level2Entities {
  import opened Common
  import opened Level2Types

  /** getRandomItem: the element at Math.floor(roll * length). */
  function RandomItem<T>(items: seq<T>, roll: real): (r: T)
    requires |items| > 0 && 0.0 <= roll < 1.0
    ensures r in items
  {
    items[PickIndex(roll, |items|)]
  }

  /** The variants a decoration of each kind may carry when left to chance. */
  predicate DefaultVariantOk(kind: DecorationKind, v: int)
  {
    match kind
    case Papers => 0 <= v < 4
    case FloorPlant => 0 <= v < 4
    case Plant => 0 <= v < 3
    case Computer => 0 <= v < 3
    case Trashcan => v == 1 || v == 3
    case Clock => 0 <= v < 12
    case _ => v == 0
  }

  /** The kinds whose default variant is drawn at random. */
  predicate DrawsVariant(kind: DecorationKind)
  {
    kind in {Papers, Plant, FloorPlant, Computer, Trashcan, Clock}
  }

  /** How many Math.random() draws createDecoration makes. */
  function VariantDraws(kind: DecorationKind, variant: Option<int>): (n: nat)
    ensures n <= 1
    ensures n == 1 <==> variant.None? && DrawsVariant(kind)
  {
    if variant.None? && DrawsVariant(kind) then 1 else 0
  }

  /**
   * createDecoration: position and kind as given; an explicit variant is
   * kept, otherwise a default one is picked (by `roll` for the kinds that
   * draw one, 0 for the rest).
   */
  function CreateDecoration(x: real, y: real, kind: DecorationKind, variant: Option<int>, roll: real): (d: Decoration)
    requires 0.0 <= roll < 1.0
    ensures d.x == x && d.y == y && d.kind == kind
    ensures variant.Some? ==> d.variant == variant.value
    ensures variant.None? ==> DefaultVariantOk(kind, d.variant)
  {
    var v :=
      if variant.Some? then variant.value
      else match kind
        case Papers => PickIndex(roll, 4)
        case Plant => PickIndex(roll, 3)
        case FloorPlant => PickIndex(roll, 4)
        case Computer => PickIndex(roll, 3)
        case Trashcan => if roll > 0.5 then 1 else 3
        case Clock => PickIndex(roll, 12)
        case _ => 0;
    Decoration(x, y, kind, v)
  }

  /**
   * createDecoration called inside a generator: makes the decoration with
   * the next draw of the stream as its roll and moves the stream past the
   * draws it made.
   */
  method Decorate(x: real, y: real, kind: DecorationKind, variant: Option<int>, rand: nat -> real, k0: nat)
    returns (d: Decoration, k: nat)
    requires IsRandomStream(rand)
    ensures d == CreateDecoration(x, y, kind, variant, rand(k0))
    ensures k == k0 + VariantDraws(kind, variant)
  {
    d := CreateDecoration(x, y, kind, variant, rand(k0));
    k := k0 + VariantDraws(kind, variant);
  }

  /** A kind that draws nothing ignores the roll: its default variant is 0. */
  lemma UndrawnVariantIsZero(x: real, y: real, kind: DecorationKind, roll: real)
    requires 0.0 <= roll < 1.0 && !DrawsVariant(kind)
    ensures CreateDecoration(x, y, kind, None, roll).variant == 0
  {
  }
}
