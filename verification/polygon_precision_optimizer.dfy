/** The precision optimizer (`tools/polygon_precision_optimizer.py`): rounds
    a polygon's coordinates, removes consecutive duplicates, closes the ring
    and rebuilds the text; it also looks for vertices and edges of two
    polygons that nearly touch and measures the overlap of their bounding
    boxes. */
module PolygonPrecisionOptimizer {
  import opened Wrappers
  import opened Text
  import opened Decimal
  import opened Geometry

  /** The optimizer's constructor arguments. */
  datatype Settings = Settings(digits: nat, tolerance: real)

  /** `PolygonPrecisionOptimizer()`: 12 decimals, tolerance 1e-12. */
  const DefaultSettings: Settings := Settings(12, 0.000000000001)

  // ---------------------------------------------------------------------------
  // Consecutive-duplicate removal (`_remove_duplicate_points`)
  // ---------------------------------------------------------------------------

  /** The mask the numpy expression computes for position `k >= 1`: the step
      from input point `k - 1` to point `k` is longer than the tolerance. */
  predicate StepKept(c: seq<Point>, tol: real, k: nat)
    requires 1 <= k < |c|
  {
    !Near(c[k - 1], c[k], tol)
  }

  /** The points at positions `k..` that the mask keeps. */
  function KeepFrom(c: seq<Point>, tol: real, k: nat): seq<Point>
    requires 1 <= k <= |c|
    decreases |c| - k
  {
    if k == |c| then [] else (if StepKept(c, tol, k) then [c[k]] else []) + KeepFrom(c, tol, k + 1)
  }

  /** The positions `k..` that the mask keeps. */
  function KeptIndicesFrom(c: seq<Point>, tol: real, k: nat): seq<nat>
    requires 1 <= k <= |c|
    decreases |c| - k
  {
    if k == |c| then [] else (if StepKept(c, tol, k) then [k] else []) + KeptIndicesFrom(c, tol, k + 1)
  }

  /** `_remove_duplicate_points`: the first point, then every point whose step
      from the point before it in the input exceeds the tolerance. */
  function RemoveDuplicatePoints(c: seq<Point>, tol: real): (r: seq<Point>)
    ensures |c| <= 1 ==> r == c
    ensures |c| >= 1 ==> 1 <= |r| <= |c| && r[0] == c[0]
  {
    if |c| <= 1 then c
    else
      KeepFromShape(c, tol, 1);
      [c[0]] + KeepFrom(c, tol, 1)
  }

  /** The positions the whole mask keeps: 0, then the kept steps. */
  function KeptIndices(c: seq<Point>, tol: real): seq<nat>
    requires |c| >= 1
  {
    [0] + KeptIndicesFrom(c, tol, 1)
  }

  lemma {:induction false} KeepFromShape(c: seq<Point>, tol: real, k: nat)
    requires 1 <= k <= |c|
    ensures |KeepFrom(c, tol, k)| == |KeptIndicesFrom(c, tol, k)| <= |c| - k
    ensures forall t :: 0 <= t < |KeptIndicesFrom(c, tol, k)| ==>
      k <= KeptIndicesFrom(c, tol, k)[t] < |c| && KeepFrom(c, tol, k)[t] == c[KeptIndicesFrom(c, tol, k)[t]]
    decreases |c| - k
  {
    if k < |c| {
      KeepFromShape(c, tol, k + 1);
      var idx := KeptIndicesFrom(c, tol, k + 1);
      var pts := KeepFrom(c, tol, k + 1);
      if StepKept(c, tol, k) {
        assert KeptIndicesFrom(c, tol, k) == [k] + idx;
        assert KeepFrom(c, tol, k) == [c[k]] + pts;
      } else {
        assert KeptIndicesFrom(c, tol, k) == idx;
        assert KeepFrom(c, tol, k) == pts;
      }
    }
  }

  lemma {:induction false} KeptIndicesFromOrdered(c: seq<Point>, tol: real, k: nat)
    requires 1 <= k <= |c|
    ensures forall t :: 0 <= t < |KeptIndicesFrom(c, tol, k)| ==> k <= KeptIndicesFrom(c, tol, k)[t]
    ensures forall s, t :: 0 <= s < t < |KeptIndicesFrom(c, tol, k)| ==>
      KeptIndicesFrom(c, tol, k)[s] < KeptIndicesFrom(c, tol, k)[t]
    ensures forall j :: k <= j < |c| ==> (j in KeptIndicesFrom(c, tol, k) <==> StepKept(c, tol, j))
    ensures forall j :: j in KeptIndicesFrom(c, tol, k) ==> k <= j < |c|
    decreases |c| - k
  {
    if k < |c| {
      KeptIndicesFromOrdered(c, tol, k + 1);
      var idx := KeptIndicesFrom(c, tol, k + 1);
      if StepKept(c, tol, k) {
        assert KeptIndicesFrom(c, tol, k) == [k] + idx;
      } else {
        assert KeptIndicesFrom(c, tol, k) == idx;
      }
    }
  }

  /** The de-duplicated points are the input points at the positions the mask
      keeps, in increasing order: position 0, and each later position whose
      distance to the INPUT point before it (not to the last kept point)
      exceeds the tolerance. */
  lemma RemoveDuplicatePointsPicks(c: seq<Point>, tol: real)
    requires |c| >= 1
    ensures |RemoveDuplicatePoints(c, tol)| == |KeptIndices(c, tol)|
    ensures forall t :: 0 <= t < |KeptIndices(c, tol)| ==>
      KeptIndices(c, tol)[t] < |c| && RemoveDuplicatePoints(c, tol)[t] == c[KeptIndices(c, tol)[t]]
    ensures forall s, t :: 0 <= s < t < |KeptIndices(c, tol)| ==> KeptIndices(c, tol)[s] < KeptIndices(c, tol)[t]
    ensures forall j :: 0 <= j < |c| ==> (j in KeptIndices(c, tol) <==> j == 0 || StepKept(c, tol, j))
  {
    KeepFromShape(c, tol, 1);
    KeptIndicesFromOrdered(c, tol, 1);
    var idx := KeptIndicesFrom(c, tol, 1);
    assert KeptIndices(c, tol) == [0] + idx;
    assert forall t :: 1 <= t <= |idx| ==> ([0] + idx)[t] == idx[t - 1];
    assert forall j :: j in [0] + idx <==> j == 0 || j in idx;
    if |c| > 1 {
      var pts := KeepFrom(c, tol, 1);
      assert RemoveDuplicatePoints(c, tol) == [c[0]] + pts;
      assert forall t :: 1 <= t <= |pts| ==> ([c[0]] + pts)[t] == pts[t - 1];
    } else {
      assert idx == [];
    }
  }

  // ---------------------------------------------------------------------------
  // Ring closure, text rebuild, and the standard optimisation
  // ---------------------------------------------------------------------------

  /** A Python list of coordinates, which `_ensure_polygon_closure` appends to. */
  class PointList {
    var items: seq<Point>

    constructor(items0: seq<Point>)
      ensures items == items0
    {
      items := items0;
    }
  }

  /** `_ensure_polygon_closure`: appends the first point when three or more
      points are open; the list afterwards is `CloseRing` of the one before. */
  method EnsurePolygonClosure(coords: PointList)
    modifies coords
    ensures coords.items == CloseRing(old(coords.items))
  {
    if |coords.items| < 3 {
      return;
    }
    if coords.items[0] != coords.items[|coords.items| - 1] {
      coords.items := coords.items + [coords.items[0]];
    }
  }

  /** `_reconstruct_wkt`: fewer than four points raise `ValueError`; otherwise
      the polygon text with one `"x y"` pair per point, in order. */
  method ReconstructWkt(coords: seq<Point>, digits: nat) returns (r: Result<string, string>)
    ensures r.Failure? <==> |coords| < 4
    ensures r.Success? ==> r.value == PolygonText(coords, digits)
  {
    if |coords| < 4 {
      return Failure("坐标点数量不足以构成有效多边形");
    }
    var coordStrings := FormatPairs(coords, digits);
    r := Success("POLYGON ((" + Join(coordStrings, ", ") + "))");
  }

  /** The ring the standard optimisation builds from extracted coordinates. */
  function StandardRing(s: Settings, coords: seq<Point>): seq<Point> {
    CloseRing(RemoveDuplicatePoints(RoundPoints(coords, s.digits), s.tolerance))
  }

  /** What `optimize_polygon_wkt` returns: the input when no coordinates are
      extracted or the rebuilt ring is too short to be written. */
  function StandardOptimized(s: Settings, extract: string -> seq<Point>, wkt: string): string {
    var coords := extract(wkt);
    if |coords| == 0 then wkt
    else
      var ring := StandardRing(s, coords);
      if |ring| < 4 then wkt else PolygonText(ring, s.digits)
  }

  /** The standard optimisation returns its input, or the text of a closed
      ring of at least four points that starts at the first rounded point. */
  lemma StandardOptimizedShape(s: Settings, extract: string -> seq<Point>, wkt: string)
    ensures |extract(wkt)| == 0 ==> StandardOptimized(s, extract, wkt) == wkt
    ensures StandardOptimized(s, extract, wkt) == wkt
      || (|extract(wkt)| >= 1
          && var ring := StandardRing(s, extract(wkt));
             |ring| >= 4 && ring[0] == ring[|ring| - 1]
             && ring[0] == RoundPoint(extract(wkt)[0], s.digits)
             && StandardOptimized(s, extract, wkt) == PolygonText(ring, s.digits))
  {
  }

  /** `optimize_polygon_wkt`. */
  method OptimizePolygonWkt(s: Settings, extract: string -> seq<Point>, wkt: string) returns (r: string)
    ensures r == StandardOptimized(s, extract, wkt)
  {
    var coords := extract(wkt);
    if |coords| == 0 {
      return wkt;
    }
    var optimized := RoundPoints(coords, s.digits);
    var cleaned := RemoveDuplicatePoints(optimized, s.tolerance);
    var closed := new PointList(cleaned);
    EnsurePolygonClosure(closed);
    var rebuilt := ReconstructWkt(closed.items, s.digits);
    match rebuilt {
      case Failure(_) => r := wkt;
      case Success(text) => r := text;
    }
  }

  // ---------------------------------------------------------------------------
  // Overlap analysis
  // ---------------------------------------------------------------------------

  /** A vertex of the first polygon within tolerance of a vertex of the second. */
  datatype VertexOverlap = VertexOverlap(poly1Vertex: nat, poly2Vertex: nat, coord1: Point, coord2: Point)

  /** An edge of the first polygon within tolerance of an edge of the second. */
  datatype EdgeOverlap = EdgeOverlap(poly1Edge: nat, poly2Edge: nat)

  /** The vertex pairs `(i, j)` with `j >= from` found for vertex `i`. */
  function VertexRow(s: Settings, c1: seq<Point>, c2: seq<Point>, i: nat, from: nat): seq<VertexOverlap>
    requires i < |c1| && from <= |c2|
    decreases |c2| - from
  {
    if from == |c2| then []
    else
      (if Near(c1[i], c2[from], s.tolerance) then [VertexOverlap(i, from, c1[i], c2[from])] else [])
      + VertexRow(s, c1, c2, i, from + 1)
  }

  /** The vertex pairs found for vertices `i..` of the first polygon. */
  function VertexPairsFrom(s: Settings, c1: seq<Point>, c2: seq<Point>, i: nat): seq<VertexOverlap>
    requires i <= |c1|
    decreases |c1| - i
  {
    if i == |c1| then [] else VertexRow(s, c1, c2, i, 0) + VertexPairsFrom(s, c1, c2, i + 1)
  }

  /** `p` records a vertex pair lying within tolerance. */
  predicate IsVertexOverlap(s: Settings, c1: seq<Point>, c2: seq<Point>, p: VertexOverlap) {
    p.poly1Vertex < |c1| && p.poly2Vertex < |c2|
    && p.coord1 == c1[p.poly1Vertex] && p.coord2 == c2[p.poly2Vertex]
    && Near(p.coord1, p.coord2, s.tolerance)
  }

  lemma {:induction false} VertexRowExact(s: Settings, c1: seq<Point>, c2: seq<Point>, i: nat, from: nat)
    requires i < |c1| && from <= |c2|
    ensures forall p :: p in VertexRow(s, c1, c2, i, from) <==>
      p.poly1Vertex == i && from <= p.poly2Vertex && IsVertexOverlap(s, c1, c2, p)
    decreases |c2| - from
  {
    if from < |c2| {
      VertexRowExact(s, c1, c2, i, from + 1);
    }
  }

  lemma {:induction false} VertexPairsFromExact(s: Settings, c1: seq<Point>, c2: seq<Point>, i: nat)
    requires i <= |c1|
    ensures forall p :: p in VertexPairsFrom(s, c1, c2, i) <==> i <= p.poly1Vertex && IsVertexOverlap(s, c1, c2, p)
    decreases |c1| - i
  {
    if i < |c1| {
      VertexRowExact(s, c1, c2, i, 0);
      VertexPairsFromExact(s, c1, c2, i + 1);
    }
  }

  /** The reported vertex overlaps are exactly the pairs of vertices lying
      within tolerance of each other. */
  lemma VertexOverlapsExact(s: Settings, c1: seq<Point>, c2: seq<Point>)
    ensures forall p :: p in VertexPairsFrom(s, c1, c2, 0) <==> IsVertexOverlap(s, c1, c2, p)
  {
    VertexPairsFromExact(s, c1, c2, 0);
  }

  /** `_detect_vertex_overlaps`, scanning the second polygon's vertices in
      index order. */
  method DetectVertexOverlaps(s: Settings, c1: seq<Point>, c2: seq<Point>) returns (overlaps: seq<VertexOverlap>)
    ensures overlaps == VertexPairsFrom(s, c1, c2, 0)
  {
    overlaps := [];
    if |c1| == 0 || |c2| == 0 {
      if |c2| == 0 {
        VertexPairsEmpty(s, c1, c2, 0);
      }
      return;
    }
    var i := 0;
    while i < |c1|
      invariant 0 <= i <= |c1|
      invariant overlaps + VertexPairsFrom(s, c1, c2, i) == VertexPairsFrom(s, c1, c2, 0)
    {
      ghost var todo := VertexRow(s, c1, c2, i, 0) + VertexPairsFrom(s, c1, c2, i + 1);
      var j := 0;
      while j < |c2|
        invariant 0 <= j <= |c2|
        invariant todo == VertexRow(s, c1, c2, i, j) + VertexPairsFrom(s, c1, c2, i + 1)
        invariant overlaps + todo == VertexPairsFrom(s, c1, c2, 0)
      {
        ghost var next := VertexRow(s, c1, c2, i, j + 1) + VertexPairsFrom(s, c1, c2, i + 1);
        if Near(c1[i], c2[j], s.tolerance) {
          var o := VertexOverlap(i, j, c1[i], c2[j]);
          assert todo == [o] + next;
          assert (overlaps + [o]) + next == overlaps + todo;
          overlaps := overlaps + [o];
        } else {
          assert todo == next;
        }
        todo := next;
        j := j + 1;
      }
      assert todo == VertexPairsFrom(s, c1, c2, i + 1);
      i := i + 1;
    }
    assert overlaps == overlaps + VertexPairsFrom(s, c1, c2, i);
  }

  lemma {:induction false} VertexPairsEmpty(s: Settings, c1: seq<Point>, c2: seq<Point>, i: nat)
    requires i <= |c1| && |c2| == 0
    ensures VertexPairsFrom(s, c1, c2, i) == []
    decreases |c1| - i
  {
    if i < |c1| {
      VertexPairsEmpty(s, c1, c2, i + 1);
    }
  }

  /** The edge pairs `(i, j)` with `j >= from` found for edge `i`, given the
      abstract test `edgesNear(a, b, c, d)`: the distance between segments
      `ab` and `cd` is at most the tolerance. */
  function EdgeRow(edgesNear: (Point, Point, Point, Point) -> bool, c1: seq<Point>, c2: seq<Point>, i: nat, from: nat): seq<EdgeOverlap>
    requires i + 1 < |c1| && from + 1 <= |c2|
    decreases |c2| - from
  {
    if from + 1 == |c2| then []
    else
      (if edgesNear(c1[i], c1[i + 1], c2[from], c2[from + 1]) then [EdgeOverlap(i, from)] else [])
      + EdgeRow(edgesNear, c1, c2, i, from + 1)
  }

  /** The edge pairs found for edges `i..` of the first polygon. */
  function EdgePairsFrom(edgesNear: (Point, Point, Point, Point) -> bool, c1: seq<Point>, c2: seq<Point>, i: nat): seq<EdgeOverlap>
    requires i + 1 <= |c1| && |c2| >= 1
    decreases |c1| - i
  {
    if i + 1 == |c1| then [] else EdgeRow(edgesNear, c1, c2, i, 0) + EdgePairsFrom(edgesNear, c1, c2, i + 1)
  }

  /** All edge pairs reported; none when either polygon has fewer than two points. */
  function EdgePairs(edgesNear: (Point, Point, Point, Point) -> bool, c1: seq<Point>, c2: seq<Point>): seq<EdgeOverlap> {
    if |c1| < 2 || |c2| < 2 then [] else EdgePairsFrom(edgesNear, c1, c2, 0)
  }

  predicate IsEdgeOverlap(edgesNear: (Point, Point, Point, Point) -> bool, c1: seq<Point>, c2: seq<Point>, e: EdgeOverlap) {
    e.poly1Edge + 1 < |c1| && e.poly2Edge + 1 < |c2|
    && edgesNear(c1[e.poly1Edge], c1[e.poly1Edge + 1], c2[e.poly2Edge], c2[e.poly2Edge + 1])
  }

  lemma {:induction false} EdgeRowExact(edgesNear: (Point, Point, Point, Point) -> bool, c1: seq<Point>, c2: seq<Point>, i: nat, from: nat)
    requires i + 1 < |c1| && from + 1 <= |c2|
    ensures forall e :: e in EdgeRow(edgesNear, c1, c2, i, from) <==>
      e.poly1Edge == i && from <= e.poly2Edge && IsEdgeOverlap(edgesNear, c1, c2, e)
    decreases |c2| - from
  {
    if from + 1 < |c2| {
      EdgeRowExact(edgesNear, c1, c2, i, from + 1);
    }
  }

  lemma {:induction false} EdgePairsFromExact(edgesNear: (Point, Point, Point, Point) -> bool, c1: seq<Point>, c2: seq<Point>, i: nat)
    requires i + 1 <= |c1| && |c2| >= 1
    ensures forall e :: e in EdgePairsFrom(edgesNear, c1, c2, i) <==> i <= e.poly1Edge && IsEdgeOverlap(edgesNear, c1, c2, e)
    decreases |c1| - i
  {
    if i + 1 < |c1| {
      EdgeRowExact(edgesNear, c1, c2, i, 0);
      EdgePairsFromExact(edgesNear, c1, c2, i + 1);
    }
  }

  /** The reported edge overlaps are exactly the pairs of consecutive-point
      edges that lie within tolerance; there are none for a polygon of fewer
      than two points. */
  lemma EdgeOverlapsExact(edgesNear: (Point, Point, Point, Point) -> bool, c1: seq<Point>, c2: seq<Point>)
    ensures forall e :: e in EdgePairs(edgesNear, c1, c2) <==> IsEdgeOverlap(edgesNear, c1, c2, e)
  {
    if |c1| >= 2 && |c2| >= 2 {
      EdgePairsFromExact(edgesNear, c1, c2, 0);
    }
  }

  /** `_detect_edge_overlaps`, scanning the second polygon's edges in order. */
  method DetectEdgeOverlaps(edgesNear: (Point, Point, Point, Point) -> bool, c1: seq<Point>, c2: seq<Point>) returns (overlaps: seq<EdgeOverlap>)
    ensures overlaps == EdgePairs(edgesNear, c1, c2)
  {
    if |c1| < 2 || |c2| < 2 {
      return [];
    }
    overlaps := [];
    var i := 0;
    while i < |c1| - 1
      invariant 0 <= i <= |c1| - 1
      invariant overlaps + EdgePairsFrom(edgesNear, c1, c2, i) == EdgePairs(edgesNear, c1, c2)
    {
      ghost var todo := EdgeRow(edgesNear, c1, c2, i, 0) + EdgePairsFrom(edgesNear, c1, c2, i + 1);
      var j := 0;
      while j < |c2| - 1
        invariant 0 <= j <= |c2| - 1
        invariant todo == EdgeRow(edgesNear, c1, c2, i, j) + EdgePairsFrom(edgesNear, c1, c2, i + 1)
        invariant overlaps + todo == EdgePairs(edgesNear, c1, c2)
      {
        ghost var next := EdgeRow(edgesNear, c1, c2, i, j + 1) + EdgePairsFrom(edgesNear, c1, c2, i + 1);
        if edgesNear(c1[i], c1[i + 1], c2[j], c2[j + 1]) {
          var e := EdgeOverlap(i, j);
          assert todo == [e] + next;
          assert (overlaps + [e]) + next == overlaps + todo;
          overlaps := overlaps + [e];
        } else {
          assert todo == next;
        }
        todo := next;
        j := j + 1;
      }
      assert todo == EdgePairsFrom(edgesNear, c1, c2, i + 1);
      i := i + 1;
    }
    assert overlaps == overlaps + EdgePairsFrom(edgesNear, c1, c2, i);
  }

  // ---------------------------------------------------------------------------
  // Bounding boxes (`_calculate_bbox_overlap`)
  // ---------------------------------------------------------------------------

  function Min(a: real, b: real): real { if a <= b then a else b }
  function Max(a: real, b: real): real { if a >= b then a else b }

  /** An axis-aligned box `[xMin, xMax] x [yMin, yMax]`. */
  datatype Box = Box(xMin: real, yMin: real, xMax: real, yMax: real)

  /** The smallest box holding every point. */
  function BoundingBox(c: seq<Point>): (b: Box)
    requires |c| >= 1
    ensures b.xMin <= b.xMax && b.yMin <= b.yMax
    ensures forall i :: 0 <= i < |c| ==> b.xMin <= c[i].x <= b.xMax && b.yMin <= c[i].y <= b.yMax
    ensures exists i :: 0 <= i < |c| && c[i].x == b.xMin
    ensures exists i :: 0 <= i < |c| && c[i].x == b.xMax
    ensures exists i :: 0 <= i < |c| && c[i].y == b.yMin
    ensures exists i :: 0 <= i < |c| && c[i].y == b.yMax
  {
    if |c| == 1 then Box(c[0].x, c[0].y, c[0].x, c[0].y)
    else
      var b := BoundingBox(c[..|c| - 1]);
      var p := c[|c| - 1];
      var r := Box(Min(b.xMin, p.x), Min(b.yMin, p.y), Max(b.xMax, p.x), Max(b.yMax, p.y));
      assert forall i :: 0 <= i < |c| - 1 ==> c[..|c| - 1][i] == c[i];
      r
  }

  function BoxArea(b: Box): real {
    (b.xMax - b.xMin) * (b.yMax - b.yMin)
  }

  /** The returned dictionary. */
  datatype BboxOverlap = BboxOverlap(overlapArea: real, poly1Area: real, poly2Area: real, overlapRatio1: real, overlapRatio2: real)

  /** The overlap of two boxes: the area of their intersection when it has
      positive extent on both axes, else 0, and each box's share of it. */
  function BoxOverlap(b1: Box, b2: Box): BboxOverlap {
    var xLo := Max(b1.xMin, b2.xMin);
    var xHi := Min(b1.xMax, b2.xMax);
    var yLo := Max(b1.yMin, b2.yMin);
    var yHi := Min(b1.yMax, b2.yMax);
    var overlap := if xLo < xHi && yLo < yHi then (xHi - xLo) * (yHi - yLo) else 0.0;
    var area1 := BoxArea(b1);
    var area2 := BoxArea(b2);
    BboxOverlap(overlap, area1, area2,
      if area1 > 0.0 then overlap / area1 else 0.0,
      if area2 > 0.0 then overlap / area2 else 0.0)
  }

  /** `_calculate_bbox_overlap`; the numpy minimum raises on an empty list,
      which its only caller rules out. */
  function CalculateBboxOverlap(c1: seq<Point>, c2: seq<Point>): BboxOverlap
    requires |c1| >= 1 && |c2| >= 1
  {
    BoxOverlap(BoundingBox(c1), BoundingBox(c2))
  }

  lemma ProductMonotone(a: real, b: real, c: real, d: real)
    requires 0.0 <= a <= b && 0.0 <= c <= d
    ensures a * c <= b * d
  {
    assert a * c <= b * c;
    assert b * c <= b * d;
  }

  lemma RatioAtMostOne(x: real, y: real)
    requires 0.0 <= x <= y && y > 0.0
    ensures 0.0 <= x / y <= 1.0
  {
  }

  predicate WellFormed(b: Box) {
    b.xMin <= b.xMax && b.yMin <= b.yMax
  }

  /** Swapping the boxes swaps the per-box fields and keeps the overlap. */
  lemma BoxOverlapSymmetric(b1: Box, b2: Box)
    ensures var o := BoxOverlap(b1, b2);
      var o' := BoxOverlap(b2, b1);
      o'.overlapArea == o.overlapArea && o'.poly1Area == o.poly2Area && o'.poly2Area == o.poly1Area
      && o'.overlapRatio1 == o.overlapRatio2 && o'.overlapRatio2 == o.overlapRatio1
  {
    assert Max(b1.xMin, b2.xMin) == Max(b2.xMin, b1.xMin);
    assert Min(b1.xMax, b2.xMax) == Min(b2.xMax, b1.xMax);
    assert Max(b1.yMin, b2.yMin) == Max(b2.yMin, b1.yMin);
    assert Min(b1.yMax, b2.yMax) == Min(b2.yMax, b1.yMax);
  }

  /** The overlap area is 0 unless the boxes overlap with positive extent on
      both axes, and lies between 0 and the area of the first box. */
  lemma BoxOverlapBounded(b1: Box, b2: Box)
    requires WellFormed(b1)
    ensures var o := BoxOverlap(b1, b2);
      && (o.overlapArea != 0.0 ==>
            Max(b1.xMin, b2.xMin) < Min(b1.xMax, b2.xMax) && Max(b1.yMin, b2.yMin) < Min(b1.yMax, b2.yMax))
      && 0.0 <= o.overlapArea <= o.poly1Area
  {
    var xLo := Max(b1.xMin, b2.xMin);
    var xHi := Min(b1.xMax, b2.xMax);
    var yLo := Max(b1.yMin, b2.yMin);
    var yHi := Min(b1.yMax, b2.yMax);
    ProductMonotone(0.0, b1.xMax - b1.xMin, 0.0, b1.yMax - b1.yMin);
    if xLo < xHi && yLo < yHi {
      ProductMonotone(0.0, xHi - xLo, 0.0, yHi - yLo);
      ProductMonotone(xHi - xLo, b1.xMax - b1.xMin, yHi - yLo, b1.yMax - b1.yMin);
    }
  }

  /** The first ratio is 0 for a box of zero area and lies in [0, 1]. */
  lemma BoxOverlapRatio(b1: Box, b2: Box)
    requires WellFormed(b1)
    ensures var o := BoxOverlap(b1, b2);
      (o.poly1Area == 0.0 ==> o.overlapRatio1 == 0.0) && 0.0 <= o.overlapRatio1 <= 1.0
  {
    BoxOverlapBounded(b1, b2);
    var o := BoxOverlap(b1, b2);
    if o.poly1Area > 0.0 {
      RatioAtMostOne(o.overlapArea, o.poly1Area);
    }
  }

  /** For two coordinate lists: the overlap is symmetric; it is 0 unless the
      bounding boxes overlap with positive extent on both axes, never negative
      and never larger than either box; each ratio is 0 for a box of zero area
      and lies in [0, 1] otherwise. */
  lemma BboxOverlapProperties(c1: seq<Point>, c2: seq<Point>)
    requires |c1| >= 1 && |c2| >= 1
    ensures var o := CalculateBboxOverlap(c1, c2);
      var o' := CalculateBboxOverlap(c2, c1);
      o'.overlapArea == o.overlapArea && o'.poly1Area == o.poly2Area && o'.poly2Area == o.poly1Area
      && o'.overlapRatio1 == o.overlapRatio2 && o'.overlapRatio2 == o.overlapRatio1
    ensures var o := CalculateBboxOverlap(c1, c2);
      var b1 := BoundingBox(c1);
      var b2 := BoundingBox(c2);
      && (o.overlapArea != 0.0 ==>
            Max(b1.xMin, b2.xMin) < Min(b1.xMax, b2.xMax) && Max(b1.yMin, b2.yMin) < Min(b1.yMax, b2.yMax))
      && 0.0 <= o.overlapArea <= o.poly1Area && o.overlapArea <= o.poly2Area
      && (o.poly1Area == 0.0 ==> o.overlapRatio1 == 0.0)
      && (o.poly2Area == 0.0 ==> o.overlapRatio2 == 0.0)
      && 0.0 <= o.overlapRatio1 <= 1.0 && 0.0 <= o.overlapRatio2 <= 1.0
  {
    var b1 := BoundingBox(c1);
    var b2 := BoundingBox(c2);
    BoxOverlapSymmetric(b1, b2);
    BoxOverlapBounded(b1, b2);
    BoxOverlapBounded(b2, b1);
    BoxOverlapRatio(b1, b2);
    BoxOverlapRatio(b2, b1);
  }

  // ---------------------------------------------------------------------------
  // Analysis and the two optimisation paths
  // ---------------------------------------------------------------------------

  /** What `analyze_polygon_overlap` returns. */
  datatype Analysis =
    | ExtractionFailed
    | Analysis(vertexOverlaps: seq<VertexOverlap>, edgeOverlaps: seq<EdgeOverlap>, bbox: BboxOverlap, hasPotentialIssues: bool)

  /** `analyze_polygon_overlap`. */
  method AnalyzePolygonOverlap(s: Settings, extract: string -> seq<Point>, edgesNear: (Point, Point, Point, Point) -> bool,
                               wkt1: string, wkt2: string) returns (a: Analysis)
    ensures a.ExtractionFailed? <==> |extract(wkt1)| == 0 || |extract(wkt2)| == 0
    ensures a.Analysis? ==>
      && a.vertexOverlaps == VertexPairsFrom(s, extract(wkt1), extract(wkt2), 0)
      && a.edgeOverlaps == EdgePairs(edgesNear, extract(wkt1), extract(wkt2))
      && a.bbox == CalculateBboxOverlap(extract(wkt1), extract(wkt2))
      && (a.hasPotentialIssues <==> |a.vertexOverlaps| > 0 || |a.edgeOverlaps| > 0)
  {
    var coords1 := extract(wkt1);
    var coords2 := extract(wkt2);
    if |coords1| == 0 || |coords2| == 0 {
      return ExtractionFailed;
    }
    var vertexOverlaps := DetectVertexOverlaps(s, coords1, coords2);
    var edgeOverlaps := DetectEdgeOverlaps(edgesNear, coords1, coords2);
    var bbox := CalculateBboxOverlap(coords1, coords2);
    a := Analysis(vertexOverlaps, edgeOverlaps, bbox, |vertexOverlaps| > 0 || |edgeOverlaps| > 0);
  }

  /** A point shifted by its own offset (`offsetOf`, which the source draws
      from a generator seeded with the point) and rounded. */
  function Jittered(s: Settings, offsetOf: Point -> Point, p: Point): Point {
    RoundPoint(Point(p.x + offsetOf(p).x, p.y + offsetOf(p).y), s.digits)
  }

  /** The ring the anti-overlap path builds: every point jittered, then
      de-duplicated and closed. */
  function JitteredRing(s: Settings, offsetOf: Point -> Point, coords: seq<Point>): seq<Point> {
    var shifted := seq(|coords|, i requires 0 <= i < |coords| => Jittered(s, offsetOf, coords[i]));
    CloseRing(RemoveDuplicatePoints(shifted, s.tolerance))
  }

  /** What `_apply_anti_overlap_optimization` returns. */
  function AntiOverlapOptimized(s: Settings, extract: string -> seq<Point>, offsetOf: Point -> Point, wkt: string): string {
    var coords := extract(wkt);
    if |coords| == 0 then wkt
    else
      var ring := JitteredRing(s, offsetOf, coords);
      if |ring| < 4 then wkt else PolygonText(ring, s.digits)
  }

  /** `_apply_anti_overlap_optimization`. */
  method ApplyAntiOverlapOptimization(s: Settings, extract: string -> seq<Point>, offsetOf: Point -> Point, wkt: string)
    returns (r: string)
    ensures r == AntiOverlapOptimized(s, extract, offsetOf, wkt)
  {
    var coords := extract(wkt);
    if |coords| == 0 {
      return wkt;
    }
    var optimizedCoords: seq<Point> := [];
    var n := 0;
    while n < |coords|
      invariant 0 <= n <= |coords| && |optimizedCoords| == n
      invariant forall t :: 0 <= t < n ==> optimizedCoords[t] == Jittered(s, offsetOf, coords[t])
    {
      var p := coords[n];
      var shift := offsetOf(p);
      optimizedCoords := optimizedCoords + [RoundPoint(Point(p.x + shift.x, p.y + shift.y), s.digits)];
      n := n + 1;
    }
    assert optimizedCoords == seq(|coords|, i requires 0 <= i < |coords| => Jittered(s, offsetOf, coords[i]));
    var cleaned := RemoveDuplicatePoints(optimizedCoords, s.tolerance);
    var closed := new PointList(cleaned);
    EnsurePolygonClosure(closed);
    var rebuilt := ReconstructWkt(closed.items, s.digits);
    match rebuilt {
      case Failure(_) => r := wkt;
      case Success(text) => r := text;
    }
  }

  /** `optimize_for_clipping`: the anti-overlap path for both texts when the
      analysis finds a near-touching vertex or edge, the standard path
      otherwise (including when extraction failed). */
  method OptimizeForClipping(s: Settings, extract: string -> seq<Point>, edgesNear: (Point, Point, Point, Point) -> bool,
                             offsetOf: Point -> Point, wkt1: string, wkt2: string) returns (r1: string, r2: string)
    ensures var c1 := extract(wkt1);
      var c2 := extract(wkt2);
      var issues := |c1| > 0 && |c2| > 0
        && (|VertexPairsFrom(s, c1, c2, 0)| > 0 || |EdgePairs(edgesNear, c1, c2)| > 0);
      (issues ==> r1 == AntiOverlapOptimized(s, extract, offsetOf, wkt1) && r2 == AntiOverlapOptimized(s, extract, offsetOf, wkt2))
      && (!issues ==> r1 == StandardOptimized(s, extract, wkt1) && r2 == StandardOptimized(s, extract, wkt2))
  {
    var overlapInfo := AnalyzePolygonOverlap(s, extract, edgesNear, wkt1, wkt2);
    if overlapInfo.Analysis? && overlapInfo.hasPotentialIssues {
      r1 := ApplyAntiOverlapOptimization(s, extract, offsetOf, wkt1);
      r2 := ApplyAntiOverlapOptimization(s, extract, offsetOf, wkt2);
    } else {
      r1 := OptimizePolygonWkt(s, extract, wkt1);
      r2 := OptimizePolygonWkt(s, extract, wkt2);
    }
  }
}
