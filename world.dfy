/** The world's start-up request pattern: one chunk for every integer point
    strictly inside the disc of `radius` around the origin, swept row by row
    (Z outer, X inner, both ascending). */
module World {

  /** A chunk coordinate `(x, z)`. */
  type Coord = (int, int)

  /** Inside the sweep's square and strictly inside the disc. */
  predicate InDisc(radius: int, p: Coord)
  {
    -radius <= p.0 <= radius && -radius <= p.1 <= radius && p.0 * p.0 + p.1 * p.1 < radius * radius
  }

  /** `p` comes before `q` in the sweep: an earlier row, or the same row
      further left. */
  predicate Before(p: Coord, q: Coord)
  {
    p.1 < q.1 || (p.1 == q.1 && p.0 < q.0)
  }

  /** Collects the coordinates `TestGenerate` passes to `GenerateChunk`, in
      the order it passes them. */
  method TestGenerate(radius: int) returns (requests: seq<Coord>)
    ensures forall p :: p in requests <==> InDisc(radius, p)
    ensures forall i, j :: 0 <= i < j < |requests| ==> Before(requests[i], requests[j])
    ensures forall i, j :: 0 <= i < j < |requests| ==> requests[i] != requests[j]
    ensures (radius, 0) !in requests
    ensures radius <= 0 ==> requests == []
  {
    requests := [];
    var zCircle := -radius;
    while zCircle <= radius
      invariant zCircle <= radius + 1 || radius < 0
      invariant forall p :: p in requests <==> InDisc(radius, p) && p.1 < zCircle
      invariant forall i, j :: 0 <= i < j < |requests| ==> Before(requests[i], requests[j])
      invariant forall i :: 0 <= i < |requests| ==> requests[i].1 < zCircle
      invariant radius <= 0 ==> requests == []
      decreases radius + 1 - zCircle
    {
      requests := SweepRow(radius, zCircle, requests);
      zCircle := zCircle + 1;
    }
  }

  /** The inner loop of `TestGenerate`: appends the disc's points in row
      `zCircle`, left to right. */
  method SweepRow(radius: int, zCircle: int, before: seq<Coord>) returns (requests: seq<Coord>)
    requires forall i, j :: 0 <= i < j < |before| ==> Before(before[i], before[j])
    requires -radius <= zCircle <= radius
    requires forall i :: 0 <= i < |before| ==> before[i].1 < zCircle
    ensures forall p :: p in requests <==> p in before || (InDisc(radius, p) && p.1 == zCircle)
    ensures forall i, j :: 0 <= i < j < |requests| ==> Before(requests[i], requests[j])
    ensures forall i :: 0 <= i < |requests| ==> requests[i].1 <= zCircle
    ensures radius <= 0 ==> requests == before
  {
    requests := before;
    var xCircle := -radius;
    while xCircle <= radius
      invariant -radius <= xCircle <= radius + 1
      invariant before <= requests
      invariant forall i :: |before| <= i < |requests| ==>
                  InDisc(radius, requests[i]) && requests[i].1 == zCircle && requests[i].0 < xCircle
      invariant forall p :: InDisc(radius, p) && p.1 == zCircle && p.0 < xCircle ==> p in requests
      invariant forall i, j :: 0 <= i < j < |requests| ==> Before(requests[i], requests[j])
      invariant forall i :: 0 <= i < |requests| ==> Before(requests[i], (xCircle, zCircle))
      invariant radius <= 0 ==> requests == before
      decreases radius + 1 - xCircle
    {
      if xCircle * xCircle + zCircle * zCircle < radius * radius {
        requests := requests + [(xCircle, zCircle)];
      }
      xCircle := xCircle + 1;
    }
  }
}
