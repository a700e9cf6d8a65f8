/** `drawLightning`: a jagged white path from the top edge down past the
    bottom edge, one random horizontal jitter and one random descent per
    segment. */
module LightningBolt {
  import opened Common

  /** The longest path the loop can draw on a canvas of positive height. */
  const MaxSegments: nat := 13

  /** `drawLightning` sets its own `globalAlpha`, whatever alpha its caller set. */
  const BoltAlpha: real := 0.95

  datatype Point = Point(x: real, y: real)

  /** The stroked path: its line width and its points, `moveTo` the first and
      `lineTo` every later one. */
  datatype Bolt = Bolt(lineWidth: real, path: seq<Point>)

  /** The random values one call consumes: the line width, the start position,
      then one jitter and one descent per segment (the model is given enough
      for the longest path). */
  datatype BoltRolls = BoltRolls(lineWidth: Roll, start: Roll, jitter: seq<Roll>, descent: seq<Roll>)

  predicate Supplied(rolls: BoltRolls) {
    |rolls.jitter| >= MaxSegments && |rolls.descent| >= MaxSegments
  }

  /** Bounds on `a * r` for a random `r`, the one non-linear step below. */
  lemma ScaleBounds(a: real, r: Roll)
    requires a >= 0.0
    ensures 0.0 <= a * r <= a
    ensures a > 0.0 ==> a * r < a
  {
  }

  /** The distance covered by `k` steps of length `step`, written as a sum so
      that the loop's bounds stay linear. */
  function Reach(step: real, k: nat): real {
    if k == 0 then 0.0 else Reach(step, k - 1) + step
  }

  lemma {:induction false} ReachIsProduct(step: real, k: nat)
    ensures Reach(step, k) == step * k as real
  {
    if k > 0 {
      ReachIsProduct(step, k - 1);
    }
  }

  /** A path still above the bottom edge after `k` segments of at least 8% of
      the height each has `k <= 12`. */
  lemma FewSegments(H: real, k: nat, y: real)
    requires H > 0.0 && Reach(0.08 * H, k) <= y < H
    ensures k < MaxSegments
  {
    ReachIsProduct(0.08 * H, k);
  }

  /** After at most 5 segments of less than 20% of the height each, the path
      is still above the bottom edge. */
  lemma ManySegments(H: real, k: nat, y: real)
    requires H > 0.0 && k <= 5 && y < Reach(0.2 * H, k)
    ensures y < H
  {
    ReachIsProduct(0.2 * H, k);
    assert (0.2 * H) * k as real <= (0.2 * H) * 5.0;
  }

  /** `3 + Math.random() * 2` */
  function LineWidth(r: Roll): (lw: real)
    ensures 3.0 <= lw < 5.0
  {
    3.0 + r * 2.0
  }

  /** `width * (0.2 + 0.6 * Math.random())`: inside the middle 60% of the width. */
  function StartX(width: nat, r: Roll): (x: real)
    ensures 0.2 * width as real <= x <= 0.8 * width as real
    ensures width > 0 ==> x < 0.8 * width as real
  {
    ScaleBounds(width as real, r);
    width as real * (0.2 + 0.6 * r)
  }

  /** `(Math.random() - 0.5) * width * 0.08`: at most 4% of the width either way. */
  function Jitter(width: nat, r: Roll): (dx: real)
    ensures -0.04 * width as real <= dx <= 0.04 * width as real
    ensures width > 0 ==> dx < 0.04 * width as real
  {
    ScaleBounds(width as real, r);
    (r - 0.5) * width as real * 0.08
  }

  /** `height * (0.08 + Math.random() * 0.12)`: between 8% and 20% of the height. */
  function Descent(height: nat, r: Roll): (dy: real)
    ensures 0.08 * height as real <= dy <= 0.2 * height as real
    ensures height > 0 ==> dy < 0.2 * height as real
  {
    ScaleBounds(height as real, r);
    height as real * (0.08 + r * 0.12)
  }

  /** The point after segment `k` of a path whose previous point is `p`. */
  function NextPoint(width: nat, height: nat, rolls: BoltRolls, p: Point, k: nat): Point
    requires k < |rolls.jitter| && k < |rolls.descent|
  {
    Point(p.x + Jitter(width, rolls.jitter[k]), p.y + Descent(height, rolls.descent[k]))
  }

  /** `bolt` is what `drawLightning` strokes for these random values: it starts
      at the top edge, every segment follows from the previous point, every
      point but the last lies above the bottom edge and the last does not. */
  ghost predicate IsBolt(width: nat, height: nat, rolls: BoltRolls, bolt: Bolt) {
    var path := bolt.path;
    bolt.lineWidth == LineWidth(rolls.lineWidth)
    && 1 <= |path| && |path| - 1 <= |rolls.jitter| && |path| - 1 <= |rolls.descent|
    && path[0] == Point(StartX(width, rolls.start), 0.0)
    && (forall k :: 0 <= k < |path| - 1 ==> path[k + 1] == NextPoint(width, height, rolls, path[k], k))
    && (forall k :: 0 <= k < |path| - 1 ==> path[k].y < height as real)
    && path[|path| - 1].y >= height as real
  }

  /** The `while (y < height)` loop of `drawLightning`. It always stops: every
      segment descends at least 8% of the height, so a canvas of positive
      height gets between 6 and 13 segments (each descends less than 20%, so
      five segments never reach the bottom) and one of height 0 gets none. */
  method DrawLightning(width: nat, height: nat, rolls: BoltRolls) returns (bolt: Bolt)
    requires Supplied(rolls)
    ensures IsBolt(width, height, rolls, bolt)
    ensures height == 0 ==> |bolt.path| == 1
    ensures height > 0 ==> 6 <= |bolt.path| - 1 <= MaxSegments
    ensures height > 0 ==> bolt.path[|bolt.path| - 1].y < 1.2 * height as real
  {
    var H := height as real;
    var x := StartX(width, rolls.start);
    var y := 0.0;
    var path := [Point(x, y)];
    var k := 0;
    while y < H
      invariant k == |path| - 1 <= MaxSegments
      invariant path[0] == Point(StartX(width, rolls.start), 0.0)
      invariant path[k] == Point(x, y)
      invariant forall j :: 0 <= j < k ==> path[j + 1] == NextPoint(width, height, rolls, path[j], j)
      invariant forall j :: 0 <= j < k ==> path[j].y < H
      invariant Reach(0.08 * H, k) <= y
      invariant y <= Reach(0.2 * H, k) && (k > 0 ==> y < Reach(0.2 * H, k))
      invariant 0.0 <= y && (k > 0 ==> y < 1.2 * H)
      decreases MaxSegments - k
    {
      if H > 0.0 {
        FewSegments(H, k, y);
      }
      var dy := Descent(height, rolls.descent[k]);
      x := x + Jitter(width, rolls.jitter[k]);
      y := y + dy;
      path := path + [Point(x, y)];
      k := k + 1;
    }
    if height > 0 && k <= 5 {
      ManySegments(H, k, y);
    }
    bolt := Bolt(LineWidth(rolls.lineWidth), path);
  }
}
