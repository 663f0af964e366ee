/** Points of the arena and the "nearest so far" scan the game uses for
    walls, enemies and repairs. Phaser.Math.Distance.Between takes a square
    root; every use compares distances with `<`, so the model compares
    squared distances, which orders points the same way. */
module Geometry {
  import opened Common

  datatype Point = Point(x: real, y: real)

  function Dist2(a: Point, b: Point): (d: real)
    ensures d >= 0.0
  {
    (a.x - b.x) * (a.x - b.x) + (a.y - b.y) * (a.y - b.y)
  }

  /** The starting value of the running minimum: `Infinity`, or a finite
      bound (a turret's range + 1, the repair search's 9999). */
  datatype Bound = Unbounded | Below(limit: real)

  predicate Within(d: real, b: Bound) {
    b.Unbounded? || d < b.limit
  }

  /** The index a left-to-right scan `if (d < nd) { nd = d; best = i }`
      ends with, starting from `nd = b`: the first point of least distance
      to `p`, provided that distance is within `b`. */
  function Nearest(pts: seq<Point>, p: Point, b: Bound): (r: Option<nat>)
    ensures r.Some? ==> r.value < |pts| && Within(Dist2(pts[r.value], p), b)
    ensures r.Some? ==> forall j :: 0 <= j < |pts| ==> Dist2(pts[r.value], p) <= Dist2(pts[j], p)
    ensures r.Some? ==> forall j :: 0 <= j < r.value ==> Dist2(pts[r.value], p) < Dist2(pts[j], p)
    ensures r.None? <==> forall j :: 0 <= j < |pts| ==> !Within(Dist2(pts[j], p), b)
  {
    if |pts| == 0 then None
    else
      var last := |pts| - 1;
      var best := Nearest(pts[..last], p, b);
      var nd := if best.Some? then Below(Dist2(pts[best.value], p)) else b;
      if Within(Dist2(pts[last], p), nd) then Some(last) else best
  }
}
