// The city views behind the office windows: one window every 400 px along
// the level, each with a skyline of buildings whose windows are lit at
// random, and maybe clouds.

module Level2Background {
  import opened Common

  datatype Building = Building(x: real, width: real, height: real, litWindows: seq<seq<bool>>)

  datatype BackgroundElement = BackgroundElement(
    x: real, y: real, width: real, height: real, hasClouds: bool, cloudSeed: real, buildings: seq<Building>)

  const WINDOW_SPACING: real := 400.0
  const VIEW_X_OFFSET: real := 100.0
  const VIEW_Y: real := 100.0
  const VIEW_WIDTH: real := 150.0
  const VIEW_HEIGHT: real := 200.0

  /** Math.ceil */
  function Ceil(x: real): (c: int)
    ensures x <= c as real < x + 1.0
  {
    -((-x).Floor)
  }

  /**
   * How many of start, start + step, start + 2 step, ... lie below limit:
   * the least n whose value start + n step reaches the limit.
   */
  function StepCount(start: real, step: real, limit: real): (n: nat)
    requires step > 0.0
    ensures start + n as real * step >= limit
    ensures n > 0 ==> start + (n - 1) as real * step < limit
  {
    if limit <= start then 0
    else
      var q := (limit - start) / step;
      var c := Ceil(q);
      assert q * step == limit - start;
      assert c as real * step >= q * step;
      assert (c - 1) as real * step < q * step;
      assert start + (c - 1) as real * step < limit;
      c
  }

  /** The window rows of a building of height h: one every 16 px from 10 px up, 5 px short of the top. */
  function WindowRows(h: real): nat
  {
    StepCount(10.0, 16.0, h - 5.0)
  }

  /** The window columns of a building of width w: one every 10 px from 6 px in, 6 px short of the far side. */
  function WindowColumns(w: real): nat
  {
    StepCount(6.0, 10.0, w - 6.0)
  }

  /** Dividing both sides of an inequality by a positive step. */
  lemma CancelStep(x: real, y: real, step: real)
    requires step > 0.0 && x * step < y * step
    ensures x < y
  {
  }

  /** A count whose last value is below the limit is at most any count that reaches it. */
  lemma StepCountBelow(start: real, step: real, limit: real, reaching: nat, below: nat)
    requires step > 0.0
    requires start + reaching as real * step >= limit
    requires below > 0 ==> start + (below - 1) as real * step < limit
    ensures below <= reaching
  {
    if below > 0 {
      CancelStep((below - 1) as real, reaching as real, step);
    }
  }

  /** A stepping loop that stopped after n steps made exactly StepCount steps. */
  lemma StepCountUnique(start: real, step: real, limit: real, n: nat)
    requires step > 0.0
    requires start + n as real * step >= limit
    requires n > 0 ==> start + (n - 1) as real * step < limit
    ensures n == StepCount(start, step, limit)
  {
    var m := StepCount(start, step, limit);
    StepCountBelow(start, step, limit, m, n);
    StepCountBelow(start, step, limit, n, m);
  }

  /** One row of windows: each lit when its own draw falls below litProb. */
  method WindowRow(bWidth: real, litProb: real, rand: nat -> real, k0: nat) returns (row: seq<bool>, k: nat)
    ensures |row| == WindowColumns(bWidth)
    ensures forall c :: 0 <= c < |row| ==> row[c] == (rand(k0 + c) < litProb)
    ensures k == k0 + |row|
  {
    row := [];
    k := k0;
    var winX := 6.0;
    while winX < bWidth - 6.0
      invariant winX == 6.0 + |row| as real * 10.0
      invariant |row| > 0 ==> 6.0 + (|row| - 1) as real * 10.0 < bWidth - 6.0
      invariant k == k0 + |row|
      invariant forall c :: 0 <= c < |row| ==> row[c] == (rand(k0 + c) < litProb)
      decreases (bWidth - winX).Floor
    {
      row := row + [rand(k) < litProb];
      k := k + 1;
      winX := winX + 10.0;
    }
    StepCountUnique(6.0, 10.0, bWidth - 6.0, |row|);
  }

  /** The lit-window grid of one building, row by row. */
  method LitWindows(bWidth: real, bHeight: real, litProb: real, rand: nat -> real, k0: nat)
    returns (grid: seq<seq<bool>>, k: nat)
    ensures |grid| == WindowRows(bHeight)
    ensures forall r :: 0 <= r < |grid| ==> |grid[r]| == WindowColumns(bWidth)
    ensures k >= k0
  {
    grid := [];
    k := k0;
    var winY := 10.0;
    while winY < bHeight - 5.0
      invariant winY == 10.0 + |grid| as real * 16.0
      invariant |grid| > 0 ==> 10.0 + (|grid| - 1) as real * 16.0 < bHeight - 5.0
      invariant forall r :: 0 <= r < |grid| ==> |grid[r]| == WindowColumns(bWidth)
      invariant k >= k0
      decreases (bHeight - winY).Floor
    {
      var row;
      row, k := WindowRow(bWidth, litProb, rand, k);
      grid := grid + [row];
      winY := winY + 16.0;
    }
    StepCountUnique(10.0, 16.0, bHeight - 5.0, |grid|);
  }

  /** A building of the skyline as the generator draws it. */
  predicate WellFormedBuilding(b: Building)
  {
    10.0 <= b.x < VIEW_WIDTH && 40.0 <= b.width < 90.0 && 50.0 <= b.height < 190.0 &&
    |b.litWindows| == WindowRows(b.height) &&
    forall r :: 0 <= r < |b.litWindows| ==> |b.litWindows[r]| == WindowColumns(b.width)
  }

  /** Buildings left to right, each starting 10 to 30 px past the previous one's end. */
  ghost predicate Skyline(bs: seq<Building>)
  {
    (forall i :: 0 <= i < |bs| ==> WellFormedBuilding(bs[i])) &&
    (forall i, j :: 0 <= i < j < |bs| ==> bs[i].x + bs[i].width + 10.0 <= bs[j].x) &&
    (|bs| > 0 ==> bs[0].x < 30.0) &&
    (forall i :: 0 < i < |bs| ==> bs[i].x < bs[i - 1].x + bs[i - 1].width + 30.0)
  }

  /** A building placed 10 to 30 px past the end of the skyline so far extends it. */
  lemma SkylineExtends(bs: seq<Building>, end: real, b: Building)
    requires Skyline(bs) && WellFormedBuilding(b)
    requires forall i :: 0 <= i < |bs| ==> bs[i].x + bs[i].width <= end
    requires if |bs| == 0 then end == 0.0 else end == bs[|bs| - 1].x + bs[|bs| - 1].width
    requires end + 10.0 <= b.x < end + 30.0
    ensures Skyline(bs + [b])
    ensures forall i :: 0 <= i < |bs + [b]| ==> (bs + [b])[i].x + (bs + [b])[i].width <= b.x + b.width
  {
    var bs' := bs + [b];
    forall i, j | 0 <= i < j < |bs'|
      ensures bs'[i].x + bs'[i].width + 10.0 <= bs'[j].x
    {
      if j == |bs| {
        assert bs'[i] == bs[i];
      }
    }
  }

  /**
   * The skyline of one window: a step of 10 to 30 px, then a building 40 to
   * 90 wide and 50 to 190 tall, until a step lands past the window's width.
   */
  method GenerateSkyline(rand: nat -> real, k0: nat) returns (bs: seq<Building>, k: nat)
    requires IsRandomStream(rand)
    ensures Skyline(bs)
    ensures k > k0
  {
    bs := [];
    k := k0;
    var localX := 0.0;
    while localX < VIEW_WIDTH
      invariant Skyline(bs)
      invariant forall i :: 0 <= i < |bs| ==> bs[i].x + bs[i].width <= localX
      invariant if |bs| == 0 then localX == 0.0 else localX == bs[|bs| - 1].x + bs[|bs| - 1].width
      invariant localX >= 0.0 && k >= k0
      invariant (localX >= VIEW_WIDTH || |bs| > 0) ==> k > k0
      decreases (VIEW_WIDTH - localX).Floor
    {
      ghost var end := localX;
      localX := localX + 10.0 + rand(k) * 20.0;
      k := k + 1;
      if localX >= VIEW_WIDTH {
        break;
      }
      var bWidth := 40.0 + rand(k) * 50.0;
      var bHeight := 50.0 + rand(k + 1) * 140.0;
      var litProb := if rand(k + 2) < 0.5 then 0.2 else 0.8;
      var lit;
      lit, k := LitWindows(bWidth, bHeight, litProb, rand, k + 3);
      SkylineExtends(bs, end, Building(localX, bWidth, bHeight, lit));
      bs := bs + [Building(localX, bWidth, bHeight, lit)];
      localX := localX + bWidth;
    }
  }

  /** Math.ceil(levelLength / 400) + 2 windows, none when that is not positive. */
  function ViewCount(levelLength: real): (n: nat)
    ensures n as int >= Ceil(levelLength / WINDOW_SPACING) + 2
  {
    var c := Ceil(levelLength / WINDOW_SPACING) + 2;
    if c < 0 then 0 else c
  }

  /** The window views are spread past the level's end: the last one starts more than 400 px beyond it. */
  lemma ViewsCoverLevel(levelLength: real)
    requires levelLength >= 0.0
    ensures (ViewCount(levelLength) - 1) as real * WINDOW_SPACING + VIEW_X_OFFSET > levelLength + WINDOW_SPACING
  {
    var c := Ceil(levelLength / WINDOW_SPACING);
    assert c as real * WINDOW_SPACING >= levelLength;
  }

  /** One window view, as every view of the level is shaped. */
  predicate ViewAt(e: BackgroundElement, i: nat)
  {
    e.x == i as real * WINDOW_SPACING + VIEW_X_OFFSET && e.y == VIEW_Y &&
    e.width == VIEW_WIDTH && e.height == VIEW_HEIGHT && 0.0 <= e.cloudSeed < 1.0
  }

  /**
   * generateBackground: the views in order along the level, each with its
   * skyline, then a 40% chance of clouds and a cloud seed.
   */
  method GenerateBackground(levelLength: real, rand: nat -> real, k0: nat) returns (elements: seq<BackgroundElement>, k: nat)
    requires IsRandomStream(rand)
    ensures |elements| == ViewCount(levelLength)
    ensures forall i :: 0 <= i < |elements| ==> ViewAt(elements[i], i) && Skyline(elements[i].buildings)
    ensures k >= k0
  {
    var count := ViewCount(levelLength);
    elements := [];
    k := k0;
    var i := 0;
    while i < count
      invariant 0 <= i <= count && |elements| == i && k >= k0
      invariant forall j :: 0 <= j < i ==> ViewAt(elements[j], j) && Skyline(elements[j].buildings)
    {
      var buildings;
      buildings, k := GenerateSkyline(rand, k);
      var hasClouds := rand(k) < 0.4;
      var cloudSeed := rand(k + 1);
      k := k + 2;
      elements := elements + [BackgroundElement(i as real * WINDOW_SPACING + VIEW_X_OFFSET, VIEW_Y, VIEW_WIDTH, VIEW_HEIGHT, hasClouds, cloudSeed, buildings)];
      i := i + 1;
    }
  }
}
