// The fixed opening of the platformer level: a silver trashcan, a desk with
// a computer and a stack of papers, a book cabinet, a cooler and a file
// cabinet, always in that order and at the same spacing.

module StartBiome {
  import opened Common
  import opened Level2Types
  import opened Level2Entities
  import opened Level2BiomeRules

  /** How far the start biome reaches past its start. */
  const START_BIOME_LENGTH: real := 560.0

  /** The desk, the book cabinet and the file cabinet of the opening. */
  function StartPlatforms(startX: real, floorY: real): (ps: seq<Platform>)
    ensures |ps| == 3
    ensures ps[0].kind == Desk && ps[1].kind == BookCabinet && ps[2].kind == FileCabinet
    ensures forall i :: 0 <= i < 3 ==> WellBuilt(ps[i], floorY) && RestsOnFloor(ps[i], floorY)
    ensures ps[0].x + ps[0].width < ps[1].x && ps[1].x + ps[1].width < ps[2].x
    ensures startX < ps[0].x && ps[2].x + ps[2].width == startX + START_BIOME_LENGTH
  {
    [ Platform(startX + 80.0, floorY - DESK_HEIGHT, DESK_WIDTH, DESK_HEIGHT, Desk),
      Platform(startX + 240.0, floorY - BOOK_CABINET_HEIGHT, BOOK_CABINET_WIDTH, BOOK_CABINET_HEIGHT, BookCabinet),
      Platform(startX + 480.0, floorY - FILE_CABINET_HEIGHT, FILE_CABINET_WIDTH, FILE_CABINET_HEIGHT, FileCabinet) ]
  }

  /** The trashcan, the two desk items on the desk top and the cooler of the opening. */
  function StartDecorations(startX: real, floorY: real): (ds: seq<Decoration>)
    ensures |ds| == 4
    ensures ds[0].kind == Trashcan && ds[1].kind == Computer && ds[2].kind == Papers && ds[3].kind == Cooler
    ensures ds[1].y == floorY - DESK_HEIGHT && ds[2].y == floorY - DESK_HEIGHT
    ensures forall i :: 0 <= i < 4 ==> DefaultVariantOk(ds[i].kind, ds[i].variant)
  {
    [ Decoration(startX, floorY, Trashcan, 3),
      Decoration(startX + 105.0, floorY - DESK_HEIGHT, Computer, 0),
      Decoration(startX + 160.0, floorY - DESK_HEIGHT, Papers, 2),
      Decoration(startX + 380.0, floorY, Cooler, 0) ]
  }

  /**
   * generateStartBiome: pushes the opening's decorations and platforms in
   * order and returns the x just past the file cabinet. Every variant is
   * given, so no Math.random() draw is made.
   */
  method GenerateStartBiome(lay: Layout, startX: real, floorY: real) returns (x: real)
    modifies lay
    ensures x == startX + START_BIOME_LENGTH
    ensures lay.platforms == old(lay.platforms) + StartPlatforms(startX, floorY)
    ensures lay.decorations == old(lay.decorations) + StartDecorations(startX, floorY)
  {
    var currentX := startX;
    lay.decorations := lay.decorations + [CreateDecoration(currentX, floorY, Trashcan, Some(3), 0.0)];
    currentX := currentX + 80.0;

    lay.platforms := lay.platforms + [Platform(currentX, floorY - DESK_HEIGHT, DESK_WIDTH, DESK_HEIGHT, Desk)];
    lay.decorations := lay.decorations + [CreateDecoration(currentX + 25.0, floorY - DESK_HEIGHT, Computer, Some(0), 0.0)];
    lay.decorations := lay.decorations + [CreateDecoration(currentX + 80.0, floorY - DESK_HEIGHT, Papers, Some(2), 0.0)];
    currentX := currentX + DESK_WIDTH + 40.0;

    lay.platforms := lay.platforms + [Platform(currentX, floorY - BOOK_CABINET_HEIGHT, BOOK_CABINET_WIDTH, BOOK_CABINET_HEIGHT, BookCabinet)];
    currentX := currentX + BOOK_CABINET_WIDTH + 60.0;

    lay.decorations := lay.decorations + [CreateDecoration(currentX, floorY, Cooler, Some(0), 0.0)];
    currentX := currentX + 60.0 + 40.0;

    lay.platforms := lay.platforms + [Platform(currentX, floorY - FILE_CABINET_HEIGHT, FILE_CABINET_WIDTH, FILE_CABINET_HEIGHT, FileCabinet)];
    currentX := currentX + FILE_CABINET_WIDTH;
    x := currentX;
  }

  /** The opening keeps the generator's invariants: it only appends catalogue shapes and in-range variants. */
  lemma StartKeepsRules(ps: seq<Platform>, ds: seq<Decoration>, startX: real, floorY: real)
    ensures Extends(ps, ds, ps + StartPlatforms(startX, floorY), ds + StartDecorations(startX, floorY), floorY)
  {
    var ps' := ps + StartPlatforms(startX, floorY);
    var ds' := ds + StartDecorations(startX, floorY);
    forall i | |ps| <= i < |ps'|
      ensures WellBuilt(ps'[i], floorY)
    {
      assert ps'[i] == StartPlatforms(startX, floorY)[i - |ps|];
    }
    forall i | |ds| <= i < |ds'|
      ensures DefaultVariantOk(ds'[i].kind, ds'[i].variant)
    {
      assert ds'[i] == StartDecorations(startX, floorY)[i - |ds|];
    }
  }
}
