/** The slider's integer line drawing: the path it walks, how close the path stays to
    the ideal segment, and what it paints. */
module DrawLine {

  datatype Point = Point(x: int, y: int)

  function Abs(n: int): nat { if n < 0 then -n else n }
  function Max(a: int, b: int): int { if a < b then b else a }
  function Sign(from: int, to: int): int { if from < to then 1 else -1 }

  /** Twice the distance, in units of the longer side, of step counts (X, Y) from the line. */
  function Drift(a: nat, b: nat, X: int, Y: int): int { a * Y - b * X }

  /** Within half a pixel of the ideal segment. */
  predicate Near(a: nat, b: nat, X: int, Y: int) { 2 * Abs(Drift(a, b, X, Y)) <= Max(a, b) }

  /** A walk that is `steps` moves in: near the line, in the box, one move per unit of the
      longer side. */
  predicate OnWalk(a: nat, b: nat, X: int, Y: int, steps: nat) {
    && Near(a, b, X, Y) && 0 <= X <= a && 0 <= Y <= b
    && (a >= b ==> X == steps) && (b >= a ==> Y == steps)
  }

  /** The next counts: a move in x when the doubled error is at least -b, in y when it is
      at most a. */
  function NextX(a: nat, b: nat, err: int, X: int): int { if 2 * err >= -(b as int) then X + 1 else X }
  function NextY(a: nat, b: nat, err: int, Y: int): int { if 2 * err <= a as int then Y + 1 else Y }

  lemma DriftMoves(a: nat, b: nat, X: int, Y: int)
    ensures Drift(a, b, X + 1, Y) == Drift(a, b, X, Y) - b
    ensures Drift(a, b, X, Y + 1) == Drift(a, b, X, Y) + a
    ensures Drift(a, b, X + 1, Y + 1) == Drift(a, b, X, Y) + a - b
  {
  }

  lemma MulMonotone(a: nat, x: int, y: int)
    requires x <= y
    ensures a * x <= a * y
  {
    assert a * y - a * x == a * (y - x);
  }

  lemma BeyondTheBox(a: nat, b: nat, X: int, Y: int)
    requires a > 0 && X <= a && Y >= b + 1
    ensures Drift(a, b, X, Y) >= a
  {
    MulMonotone(a, b + 1, Y);
    MulMonotone(b, X, a);
    assert a * (b + 1) == a * b + a && b * a == a * b;
  }

  lemma ShortOfTheEnd(a: nat, b: nat, Y: int)
    requires a > 0 && Y <= b - 1
    ensures Drift(a, b, a, Y) + a <= 0
  {
    MulMonotone(a, Y, b - 1);
    assert a * (b - 1) == a * b - a && b * a == a * b;
  }

  /** The longer side decides the walk: when it is used up, so is the shorter one. */
  lemma LongSideDecides(a: nat, b: nat, X: int, Y: int)
    requires a >= b && 0 <= X <= a && 2 * Abs(Drift(a, b, X, Y)) <= a && Y >= 0
    ensures a > 0 ==> Y <= b && (X == a ==> Y == b)
  {
    hide Drift;
    if a > 0 {
      if Y >= b + 1 { BeyondTheBox(a, b, X, Y); }
      if X == a && Y <= b - 1 { ShortOfTheEnd(a, b, Y); }
    }
  }

  lemma DriftFlips(a: nat, b: nat, X: int, Y: int)
    ensures Drift(b, a, Y, X) == -Drift(a, b, X, Y)
  {
  }

  lemma WalkEnds(a: nat, b: nat, X: int, Y: int, steps: nat)
    requires OnWalk(a, b, X, Y, steps)
    ensures steps <= Max(a, b)
    ensures steps == Max(a, b) <==> X == a && Y == b
  {
    hide Drift;
    if a >= b {
      LongSideDecides(a, b, X, Y);
    } else {
      DriftFlips(a, b, X, Y);
      LongSideDecides(b, a, Y, X);
    }
  }

  /** One iteration stays on the walk. */
  lemma WalkSteps(a: nat, b: nat, X: int, Y: int, steps: nat, err: int)
    requires OnWalk(a, b, X, Y, steps) && err == Drift(a, b, X, Y) + a - b
    requires !(X == a && Y == b)
    ensures OnWalk(a, b, NextX(a, b, err, X), NextY(a, b, err, Y), steps + 1)
    ensures Drift(a, b, NextX(a, b, err, X), NextY(a, b, err, Y)) + a - b
         == err - (if 2 * err >= -(b as int) then b else 0) + (if 2 * err <= a as int then a else 0)
  {
    WalkEnds(a, b, X, Y, steps);
    DriftMoves(a, b, X, Y);
    hide Drift;
    var X', Y' := NextX(a, b, err, X), NextY(a, b, err, Y);
    if a >= b {
      LongSideDecides(a, b, X', Y');
    } else {
      DriftFlips(a, b, X', Y');
      LongSideDecides(b, a, Y', X');
    }
  }

  // ----- the path

  /** The point reached with X moves towards x1 and Y moves towards y1. */
  function At(from: Point, to: Point, X: int, Y: int): Point {
    Point(from.x + Sign(from.x, to.x) * X, from.y + Sign(from.y, to.y) * Y)
  }

  predicate InBox(p: Point, from: Point, to: Point) {
    && (from.x <= p.x <= to.x || to.x <= p.x <= from.x)
    && (from.y <= p.y <= to.y || to.y <= p.y <= from.y)
  }

  /** Point number i of the path from `from` to `to`, reached with X and Y moves. */
  predicate PathPoint(from: Point, to: Point, i: nat, p: Point, X: int, Y: int) {
    var a, b := Abs(to.x - from.x), Abs(to.y - from.y);
    OnWalk(a, b, X, Y, i) && p == At(from, to, X, Y)
  }

  ghost predicate IsPathPoint(from: Point, to: Point, i: nat, p: Point) {
    exists X, Y :: PathPoint(from, to, i, p, X, Y)
  }

  lemma PathStaysInBox(from: Point, to: Point, i: nat, p: Point)
    requires IsPathPoint(from, to, i, p)
    ensures InBox(p, from, to)
    ensures 2 * Abs(Drift(Abs(to.x - from.x), Abs(to.y - from.y), Abs(p.x - from.x), Abs(p.y - from.y)))
         <= Max(Abs(to.x - from.x), Abs(to.y - from.y))
  {
    var X, Y :| PathPoint(from, to, i, p, X, Y);
    hide Drift;
    assert Abs(p.x - from.x) == X && Abs(p.y - from.y) == Y;
  }

  /** The major coordinate counts the steps, so a path never visits a pixel twice. */
  lemma PathPointsDiffer(from: Point, to: Point, i: nat, j: nat, p: Point, q: Point)
    requires IsPathPoint(from, to, i, p) && IsPathPoint(from, to, j, q) && i != j
    ensures p != q
  {
    hide Near;
    var X, Y :| PathPoint(from, to, i, p, X, Y);
    var X', Y' :| PathPoint(from, to, j, q, X', Y');
  }

  ghost predicate IsPath(path: seq<Point>, from: Point, to: Point) {
    forall i: nat | i < |path| :: IsPathPoint(from, to, i, path[i])
  }

  lemma PathIsFresh(path: seq<Point>, from: Point, to: Point, p: Point)
    requires IsPath(path, from, to) && IsPathPoint(from, to, |path|, p)
    ensures p !in path
  {
    hide IsPathPoint;
    forall i: nat | i < |path|
      ensures path[i] != p
    {
      PathPointsDiffer(from, to, i, |path|, path[i], p);
    }
  }

  lemma PathGrows(path: seq<Point>, from: Point, to: Point, p: Point, X: int, Y: int)
    requires IsPath(path, from, to) && PathPoint(from, to, |path|, p, X, Y)
    ensures IsPath(path + [p], from, to) && p !in path
  {
    assert IsPathPoint(from, to, |path|, p);
    hide IsPathPoint;
    PathIsFresh(path, from, to, p);
  }

  // ----- drawing

  predicate Inside<P>(img: array2<P>, corner: Point, p: Point) {
    0 <= p.x - corner.x < img.Length0 && 0 <= p.y - corner.y < img.Length1
  }

  method Over<P>(img: array2<P>, corner: Point, p: Point, blend: P -> P)
    modifies img
    ensures forall i, j | 0 <= i < img.Length0 && 0 <= j < img.Length1 ::
      img[i, j] == if Point(corner.x + i, corner.y + j) == p then blend(old(img[i, j])) else old(img[i, j])
  {
    if Inside(img, corner, p) {
      img[p.x - corner.x, p.y - corner.y] := blend(img[p.x - corner.x, p.y - corner.y]);
    }
  }

  /** Walks from (x0, y0) to (x1, y1), blending each pixel of the path that lies inside the
      image, whose corner (0, 0) sits at `corner`. */
  method Draw<P>(img: array2<P>, corner: Point, from: Point, to: Point, blend: P -> P) returns (path: seq<Point>)
    modifies img
    ensures |path| == Max(Abs(to.x - from.x), Abs(to.y - from.y)) + 1
    ensures path[0] == from && path[|path| - 1] == to && IsPath(path, from, to)
    ensures forall i, j | 0 <= i < img.Length0 && 0 <= j < img.Length1 ::
      img[i, j] == if Point(corner.x + i, corner.y + j) in path then blend(old(img[i, j])) else old(img[i, j])
  {
    hide Near, Drift, IsPath;
    var dx, dy := Abs(to.x - from.x) as int, -(Abs(to.y - from.y) as int);
    var sx, sy := Sign(from.x, to.x), Sign(from.y, to.y);
    var x, y, err := from.x, from.y, dx + dy;
    ghost var X, Y := 0, 0;
    ghost var a, b := Abs(to.x - from.x), Abs(to.y - from.y);
    StartsOnWalk(a, b);
    path := [];
    NoPath(from, to);
    while true
      invariant IsPath(path, from, to) && OnWalk(a, b, X, Y, |path|)
      invariant Point(x, y) == At(from, to, X, Y) && err == Drift(a, b, X, Y) + a - b
      invariant path != [] ==> path[0] == from
      invariant path == [] ==> Point(x, y) == from
      invariant forall i, j | 0 <= i < img.Length0 && 0 <= j < img.Length1 ::
        img[i, j] == if Point(corner.x + i, corner.y + j) in path then blend(old(img[i, j])) else old(img[i, j])
      decreases Max(a, b) - |path|
    {
      WalkEnds(a, b, X, Y, |path|);
      PathGrows(path, from, to, Point(x, y), X, Y);
      Over(img, corner, Point(x, y), blend);
      path := path + [Point(x, y)];
      if x == to.x && y == to.y {
        return;
      }
      WalkSteps(a, b, X, Y, |path| - 1, err);
      var e2 := 2 * err;
      X, Y := NextX(a, b, err, X), NextY(a, b, err, Y);
      if e2 >= dy {
        err := err + dy;
        x := x + sx;
      }
      if e2 <= dx {
        err := err + dx;
        y := y + sy;
      }
    }
  }

  lemma NoPath(from: Point, to: Point)
    ensures IsPath([], from, to)
  {
  }

  lemma StartsOnWalk(a: nat, b: nat)
    ensures OnWalk(a, b, 0, 0, 0) && Drift(a, b, 0, 0) == 0
  {
  }
}
