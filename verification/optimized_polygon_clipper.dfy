/** The clipper of `tools/optimized_polygon_clipper.py`: parses two polygons,
    cleans their coordinates, looks for shared vertices and shared edges, and
    clips either directly or after a small negative-then-positive buffer when
    such near-coincidences are found. */
module OptimizedPolygonClipper {
  import opened Wrappers
  import opened Text
  import opened Decimal
  import opened Geometry

  /** The shapely operations this tool needs beyond the shared kernel. */
  datatype Shapes = Shapes(
    exterior: Geom -> Option<seq<Point>>,                 // `.exterior.coords`; None when it raises
    interiors: Geom -> seq<seq<Point>>,                   // `.interiors`, as coordinate lists
    makePolygon: (seq<Point>, seq<seq<Point>>) -> Option<Geom>, // `Polygon(shell, holes)`; None when it raises
    buffer: (Geom, real) -> Geom,                         // `g.buffer(d)`
    boundaryNear: (Geom, Point, real) -> bool,            // `g.boundary.distance(p) <= tol`
    edgeOnBoundary: (Point, Point, Geom) -> Option<real>  // length of `LineString([a, b]).intersection(g.boundary)`
                                                          // when that is a non-empty LineString
  )

  /** The clipper's default tolerance. */
  const DefaultTolerance: real := 0.0000000001

  /** The rounding the precision step applies (`round(x, 12)`). */
  const Precision: nat := 12

  // ---------------------------------------------------------------------------
  // Parsing (`_parse_and_validate_geometry`)
  // ---------------------------------------------------------------------------

  /** White space collapsed, parsed, repaired, and a MultiPolygon merged with
      `unary_union`; `None` when parsing or merging raises. */
  function ParseAndValidate(k: Kernel, text: string): (r: Option<Geom>)
    ensures k.loads(NormalizeSpace(text)).None? ==> r.None?
    ensures k.loads(NormalizeSpace(text)).Some? ==>
      var valid := Repair(k, k.loads(NormalizeSpace(text)).value);
      if k.kind(valid) == MultiPolygonKind then r == k.unaryUnion(k.parts(valid)) else r == Some(valid)
    ensures r.Some? && RepairLaws(k)
            && k.kind(Repair(k, k.loads(NormalizeSpace(text)).value)) != MultiPolygonKind ==>
      k.isValid(r.value)
  {
    match k.loads(NormalizeSpace(text))
    case None => None
    case Some(g) =>
      var valid := Repair(k, g);
      if k.kind(valid) == MultiPolygonKind then k.unaryUnion(k.parts(valid)) else Some(valid)
  }

  // ---------------------------------------------------------------------------
  // Coordinate precision (`_optimize_geometry_precision`)
  // ---------------------------------------------------------------------------

  /** `p` and `q` differ by more than `tol` on the x axis or on the y axis. */
  predicate AxisApart(p: Point, q: Point, tol: real) {
    Abs(p.x - q.x) > tol || Abs(p.y - q.y) > tol
  }

  /** Appends to `kept` each point of `rest` that is axis-apart from the last
      point kept so far. */
  function KeepAxisApart(kept: seq<Point>, rest: seq<Point>, tol: real): (r: seq<Point>)
    requires |kept| >= 1
    ensures |kept| <= |r| <= |kept| + |rest|
    ensures r[..|kept|] == kept
    decreases |rest|
  {
    if |rest| == 0 then kept
    else if AxisApart(rest[0], kept[|kept| - 1], tol) then
      var r := KeepAxisApart(kept + [rest[0]], rest[1..], tol);
      assert r[..|kept|] == r[..|kept| + 1][..|kept|];
      r
    else KeepAxisApart(kept, rest[1..], tol)
  }

  /** Consecutive points are axis-apart. */
  predicate AxisSpaced(pts: seq<Point>, tol: real) {
    forall t :: 1 <= t < |pts| ==> AxisApart(pts[t - 1], pts[t], tol)
  }

  lemma {:induction false} KeepAxisApartSpaced(kept: seq<Point>, rest: seq<Point>, tol: real)
    requires |kept| >= 1 && AxisSpaced(kept, tol)
    ensures AxisSpaced(KeepAxisApart(kept, rest, tol), tol)
    decreases |rest|
  {
    if |rest| > 0 {
      if AxisApart(rest[0], kept[|kept| - 1], tol) {
        var next := kept + [rest[0]];
        assert AxisSpaced(next, tol) by {
          forall t | 1 <= t < |next| ensures AxisApart(next[t - 1], next[t], tol) {
            if t == |kept| {
              assert next[t - 1] == kept[|kept| - 1] && next[t] == rest[0];
              assert Abs(rest[0].x - kept[|kept| - 1].x) == Abs(kept[|kept| - 1].x - rest[0].x);
              assert Abs(rest[0].y - kept[|kept| - 1].y) == Abs(kept[|kept| - 1].y - rest[0].y);
            } else {
              assert next[t - 1] == kept[t - 1] && next[t] == kept[t];
            }
          }
        }
        KeepAxisApartSpaced(next, rest[1..], tol);
      } else {
        KeepAxisApartSpaced(kept, rest[1..], tol);
      }
    }
  }

  /** The shell the precision step builds: coordinates rounded to 12 decimals,
      the first kept, each later one kept when axis-apart from the last kept
      one, and the first appended when the result is open. */
  function CleanedShell(coords: seq<Point>, tol: real): (r: seq<Point>)
    requires |coords| >= 1
    ensures |r| >= 1 && r[0] == RoundPoint(coords[0], Precision) && r[0] == r[|r| - 1]
    ensures AxisSpaced(r[..|r| - 1], tol) || AxisSpaced(r, tol)
  {
    var rounded := RoundPoints(coords, Precision);
    KeepAxisApartSpaced([rounded[0]], rounded[1..], tol);
    var kept := KeepAxisApart([rounded[0]], rounded[1..], tol);
    if kept[0] != kept[|kept| - 1] then
      assert (kept + [kept[0]])[..|kept|] == kept;
      kept + [kept[0]]
    else kept
  }

  /** The holes, every coordinate rounded to 12 decimals. */
  function RoundedHoles(holes: seq<seq<Point>>): (r: seq<seq<Point>>)
    ensures |r| == |holes|
    ensures forall h :: 0 <= h < |holes| ==> r[h] == RoundPoints(holes[h], Precision)
  {
    seq(|holes|, h requires 0 <= h < |holes| => RoundPoints(holes[h], Precision))
  }

  /** What the precision step returns: the rebuilt polygon, repaired, or the
      input when its shell cannot be read or a polygon cannot be built. */
  function PrecisionOptimized(k: Kernel, sh: Shapes, tol: real, g: Geom): Geom {
    match sh.exterior(g)
    case None => g
    case Some(coords) =>
      if |coords| == 0 then g
      else
        var shell := CleanedShell(coords, tol);
        match sh.makePolygon(shell, [])
        case None => g
        case Some(plain) =>
          if |sh.interiors(g)| > 0 then
            match sh.makePolygon(shell, RoundedHoles(sh.interiors(g)))
            case None => g
            case Some(holed) => Repair(k, holed)
          else Repair(k, plain)
  }

  /** The precision step returns its input unless the shell was read and a
      polygon was built; a rebuilt result is the repaired polygon whose shell
      is closed, starts at the rounded first coordinate and keeps
      consecutive points axis-apart; under the repair laws it is valid. */
  lemma PrecisionOptimizedShape(k: Kernel, sh: Shapes, tol: real, g: Geom)
    ensures var r := PrecisionOptimized(k, sh, tol, g);
      r == g
      || (sh.exterior(g).Some? && |sh.exterior(g).value| >= 1
          && var shell := CleanedShell(sh.exterior(g).value, tol);
             shell[0] == shell[|shell| - 1]
             && (exists holes :: sh.makePolygon(shell, holes).Some? && r == Repair(k, sh.makePolygon(shell, holes).value)))
    ensures RepairLaws(k) && PrecisionOptimized(k, sh, tol, g) != g ==> k.isValid(PrecisionOptimized(k, sh, tol, g))
  {
    var r := PrecisionOptimized(k, sh, tol, g);
    if r != g {
      var coords := sh.exterior(g).value;
      var shell := CleanedShell(coords, tol);
      if |sh.interiors(g)| > 0 {
        var holes := RoundedHoles(sh.interiors(g));
        assert sh.makePolygon(shell, holes).Some? && r == Repair(k, sh.makePolygon(shell, holes).value);
      } else {
        assert sh.makePolygon(shell, []).Some? && r == Repair(k, sh.makePolygon(shell, []).value);
      }
    }
  }

  /** The rounding loop: every vertex rounded to `Precision` digits. */
  method RoundVertices(coords: seq<Point>) returns (rounded: seq<Point>)
    ensures rounded == RoundPoints(coords, Precision)
  {
    rounded := [];
    var n := 0;
    while n < |coords|
      invariant 0 <= n <= |coords| && |rounded| == n
      invariant forall t :: 0 <= t < n ==> rounded[t] == RoundPoint(coords[t], Precision)
    {
      rounded := rounded + [RoundPoint(coords[n], Precision)];
      n := n + 1;
    }
  }

  /** The cleaning loop: a vertex is kept when it lies more than `tol` from
      the last kept one along either axis. */
  method KeepApartVertices(rounded: seq<Point>, tol: real) returns (cleaned: seq<Point>)
    requires |rounded| >= 1
    ensures cleaned == KeepAxisApart([rounded[0]], rounded[1..], tol)
  {
    cleaned := [rounded[0]];
    var i := 1;
    while i < |rounded|
      invariant 1 <= i <= |rounded| && |cleaned| >= 1
      invariant KeepAxisApart(cleaned, rounded[i..], tol) == KeepAxisApart([rounded[0]], rounded[1..], tol)
    {
      assert rounded[i..][1..] == rounded[i + 1..];
      if AxisApart(rounded[i], cleaned[|cleaned| - 1], tol) {
        cleaned := cleaned + [rounded[i]];
      }
      i := i + 1;
    }
    assert rounded[i..] == [];
  }

  /** The hole loop: every interior ring rounded. */
  method RoundInteriors(interiors: seq<seq<Point>>) returns (holes: seq<seq<Point>>)
    ensures holes == RoundedHoles(interiors)
  {
    holes := [];
    var h := 0;
    while h < |interiors|
      invariant 0 <= h <= |interiors| && |holes| == h
      invariant forall t :: 0 <= t < h ==> holes[t] == RoundPoints(interiors[t], Precision)
    {
      holes := holes + [RoundPoints(interiors[h], Precision)];
      h := h + 1;
    }
  }

  /** `_optimize_geometry_precision`. */
  method OptimizeGeometryPrecision(k: Kernel, sh: Shapes, tol: real, g: Geom) returns (r: Geom)
    ensures r == PrecisionOptimized(k, sh, tol, g)
  {
    var exterior := sh.exterior(g);
    if exterior.None? {
      return g;
    }
    var coords := exterior.value;
    var optimizedCoords := RoundVertices(coords);
    if |optimizedCoords| == 0 {
      return g;
    }
    var cleanedCoords := KeepApartVertices(optimizedCoords, tol);
    if cleanedCoords[0] != cleanedCoords[|cleanedCoords| - 1] {
      cleanedCoords := cleanedCoords + [cleanedCoords[0]];
    }
    assert cleanedCoords == CleanedShell(coords, tol);
    var optimizedGeom := sh.makePolygon(cleanedCoords, []);
    if optimizedGeom.None? {
      return g;
    }
    var interiors := sh.interiors(g);
    if |interiors| > 0 {
      var holes := RoundInteriors(interiors);
      optimizedGeom := sh.makePolygon(cleanedCoords, holes);
      if optimizedGeom.None? {
        return g;
      }
    }
    r := Repair(k, optimizedGeom.value);
  }

  // ---------------------------------------------------------------------------
  // Overlap analysis
  // ---------------------------------------------------------------------------

  /** `p` and `q` agree within `tol` on both axes. */
  predicate AxisClose(p: Point, q: Point, tol: real) {
    Abs(p.x - q.x) <= tol && Abs(p.y - q.y) <= tol
  }

  /** A `vertex_overlaps` record: a shared vertex, or a vertex of the first
      geometry on the boundary of the second. */
  datatype VertexHit =
    | SharedVertex(geom1Index: nat, geom2Index: nat, coord: Point)
    | OnBoundary(geom1Index: nat, coord: Point)

  /** `coords[:-1]`: the ring without its closing point. */
  function DropLast(coords: seq<Point>): (r: seq<Point>)
    ensures |r| == if |coords| == 0 then 0 else |coords| - 1
    ensures forall t :: 0 <= t < |r| ==> r[t] == coords[t]
  {
    if |coords| == 0 then [] else coords[..|coords| - 1]
  }

  /** The records written for vertex `i` of `c1` against vertices `j..` of
      `c2`: a shared vertex when the two agree within tolerance, otherwise a
      boundary record whenever vertex `i` lies on the second boundary. */
  function VertexRow(sh: Shapes, tol: real, g2: Geom, c1: seq<Point>, c2: seq<Point>, i: nat, j: nat): seq<VertexHit>
    requires i < |c1| && j <= |c2|
    decreases |c2| - j
  {
    if j == |c2| then []
    else
      (if AxisClose(c1[i], c2[j], tol) then [SharedVertex(i, j, c1[i])]
       else if sh.boundaryNear(g2, c1[i], tol) then [OnBoundary(i, c1[i])]
       else [])
      + VertexRow(sh, tol, g2, c1, c2, i, j + 1)
  }

  function VertexHitsFrom(sh: Shapes, tol: real, g2: Geom, c1: seq<Point>, c2: seq<Point>, i: nat): seq<VertexHit>
    requires i <= |c1|
    decreases |c1| - i
  {
    if i == |c1| then [] else VertexRow(sh, tol, g2, c1, c2, i, 0) + VertexHitsFrom(sh, tol, g2, c1, c2, i + 1)
  }

  /** What `_detect_vertex_overlaps` returns; none when either shell cannot be read. */
  function VertexHits(sh: Shapes, tol: real, g1: Geom, g2: Geom): seq<VertexHit> {
    match (sh.exterior(g1), sh.exterior(g2))
    case (Some(e1), Some(e2)) => VertexHitsFrom(sh, tol, g2, DropLast(e1), DropLast(e2), 0)
    case _ => []
  }

  lemma {:induction false} VertexRowExact(sh: Shapes, tol: real, g2: Geom, c1: seq<Point>, c2: seq<Point>, i: nat, j: nat)
    requires i < |c1| && j <= |c2|
    ensures forall m: nat, c :: SharedVertex(i, m, c) in VertexRow(sh, tol, g2, c1, c2, i, j) <==>
      j <= m < |c2| && c == c1[i] && AxisClose(c1[i], c2[m], tol)
    ensures forall v :: v in VertexRow(sh, tol, g2, c1, c2, i, j) ==> v.geom1Index == i && v.coord == c1[i]
    ensures OnBoundary(i, c1[i]) in VertexRow(sh, tol, g2, c1, c2, i, j) <==>
      sh.boundaryNear(g2, c1[i], tol) && exists m :: j <= m < |c2| && !AxisClose(c1[i], c2[m], tol)
    ensures sh.boundaryNear(g2, c1[i], tol) ==> |VertexRow(sh, tol, g2, c1, c2, i, j)| == |c2| - j
    decreases |c2| - j
  {
    if j < |c2| {
      VertexRowExact(sh, tol, g2, c1, c2, i, j + 1);
      if !AxisClose(c1[i], c2[j], tol) && sh.boundaryNear(g2, c1[i], tol) {
        assert OnBoundary(i, c1[i]) in VertexRow(sh, tol, g2, c1, c2, i, j);
      }
    }
  }

  lemma {:induction false} VertexHitsFromExact(sh: Shapes, tol: real, g2: Geom, c1: seq<Point>, c2: seq<Point>, i: nat)
    requires i <= |c1|
    ensures forall n: nat, m: nat, c :: SharedVertex(n, m, c) in VertexHitsFrom(sh, tol, g2, c1, c2, i) <==>
      i <= n < |c1| && m < |c2| && c == c1[n] && AxisClose(c1[n], c2[m], tol)
    ensures forall n :: i <= n < |c1| ==>
      (OnBoundary(n, c1[n]) in VertexHitsFrom(sh, tol, g2, c1, c2, i) <==>
         sh.boundaryNear(g2, c1[n], tol) && exists m :: 0 <= m < |c2| && !AxisClose(c1[n], c2[m], tol))
    ensures forall v :: v in VertexHitsFrom(sh, tol, g2, c1, c2, i) ==> i <= v.geom1Index < |c1| && v.coord == c1[v.geom1Index]
    decreases |c1| - i
  {
    if i < |c1| {
      VertexRowExact(sh, tol, g2, c1, c2, i, 0);
      VertexHitsFromExact(sh, tol, g2, c1, c2, i + 1);
      var row := VertexRow(sh, tol, g2, c1, c2, i, 0);
      var rest := VertexHitsFrom(sh, tol, g2, c1, c2, i + 1);
      assert forall n :: i < n < |c1| ==> OnBoundary(n, c1[n]) !in row;
    }
  }

  /** A shared-vertex record is written for exactly the vertex pairs (closing
      points excluded) that agree within tolerance on both axes; a boundary
      record for vertex `n` exactly when it lies on the second boundary and
      some vertex of the second ring does not match it. Because the boundary
      test sits in the inner loop, a vertex on the boundary that matches no
      vertex is recorded once per vertex of the second ring. */
  lemma VertexHitsExact(sh: Shapes, tol: real, g1: Geom, g2: Geom)
    requires sh.exterior(g1).Some? && sh.exterior(g2).Some?
    ensures var c1 := DropLast(sh.exterior(g1).value);
      var c2 := DropLast(sh.exterior(g2).value);
      && (forall n: nat, m: nat, c :: SharedVertex(n, m, c) in VertexHits(sh, tol, g1, g2) <==>
            n < |c1| && m < |c2| && c == c1[n] && AxisClose(c1[n], c2[m], tol))
      && (forall n :: 0 <= n < |c1| ==>
            (OnBoundary(n, c1[n]) in VertexHits(sh, tol, g1, g2) <==>
               sh.boundaryNear(g2, c1[n], tol) && exists m :: 0 <= m < |c2| && !AxisClose(c1[n], c2[m], tol)))
      && (forall n :: 0 <= n < |c1| && sh.boundaryNear(g2, c1[n], tol) ==>
            |VertexRow(sh, tol, g2, c1, c2, n, 0)| == |c2|)
  {
    var c1 := DropLast(sh.exterior(g1).value);
    var c2 := DropLast(sh.exterior(g2).value);
    VertexHitsFromExact(sh, tol, g2, c1, c2, 0);
    forall n | 0 <= n < |c1| && sh.boundaryNear(g2, c1[n], tol)
      ensures |VertexRow(sh, tol, g2, c1, c2, n, 0)| == |c2|
    {
      VertexRowExact(sh, tol, g2, c1, c2, n, 0);
    }
  }

  /** The inner loop of `_detect_vertex_overlaps` for vertex `i`. */
  method ScanVertexRow(sh: Shapes, tol: real, g2: Geom, coords1: seq<Point>, coords2: seq<Point>, i: nat)
    returns (row: seq<VertexHit>)
    requires i < |coords1|
    ensures row == VertexRow(sh, tol, g2, coords1, coords2, i, 0)
  {
    row := [];
    var j := 0;
    while j < |coords2|
      invariant 0 <= j <= |coords2|
      invariant row + VertexRow(sh, tol, g2, coords1, coords2, i, j) == VertexRow(sh, tol, g2, coords1, coords2, i, 0)
    {
      var hit: seq<VertexHit> := [];
      if AxisClose(coords1[i], coords2[j], tol) {
        hit := [SharedVertex(i, j, coords1[i])];
      } else if sh.boundaryNear(g2, coords1[i], tol) {
        hit := [OnBoundary(i, coords1[i])];
      }
      AppendAssoc(row, hit, VertexRow(sh, tol, g2, coords1, coords2, i, j + 1));
      row := row + hit;
      j := j + 1;
    }
    assert row + [] == row;
  }

  /** `_detect_vertex_overlaps`. */
  method DetectVertexOverlaps(sh: Shapes, tol: real, g1: Geom, g2: Geom) returns (hits: seq<VertexHit>)
    ensures hits == VertexHits(sh, tol, g1, g2)
  {
    var e1 := sh.exterior(g1);
    var e2 := sh.exterior(g2);
    if e1.None? || e2.None? {
      return [];
    }
    var coords1 := DropLast(e1.value);
    var coords2 := DropLast(e2.value);
    hits := [];
    var i := 0;
    while i < |coords1|
      invariant 0 <= i <= |coords1|
      invariant hits + VertexHitsFrom(sh, tol, g2, coords1, coords2, i) == VertexHits(sh, tol, g1, g2)
    {
      var row := ScanVertexRow(sh, tol, g2, coords1, coords2, i);
      AppendAssoc(hits, row, VertexHitsFrom(sh, tol, g2, coords1, coords2, i + 1));
      hits := hits + row;
      i := i + 1;
    }
    assert hits + [] == hits;
  }

  /** An `edge_overlaps` record: edge `geom1Index` of the first ring shares a
      stretch of length `overlapLength` with the second boundary. */
  datatype EdgeHit = EdgeHit(geom1Index: nat, overlapLength: real)

  /** The record, if any, for the edge from `a` to `b` numbered `i`. */
  function EdgeRecord(sh: Shapes, tol: real, g2: Geom, a: Point, b: Point, i: nat): (r: seq<EdgeHit>)
    ensures forall n: nat, len :: EdgeHit(n, len) in r <==> n == i && sh.edgeOnBoundary(a, b, g2) == Some(len) && len > tol
  {
    match sh.edgeOnBoundary(a, b, g2)
    case Some(len) => if len > tol then [EdgeHit(i, len)] else []
    case None => []
  }

  /** The records for edges `i..` of the ring `c1`. */
  function EdgeHitsFrom(sh: Shapes, tol: real, g2: Geom, c1: seq<Point>, i: nat): seq<EdgeHit>
    requires i <= |c1|
    decreases |c1| - i
  {
    if i + 1 >= |c1| then []
    else EdgeRecord(sh, tol, g2, c1[i], c1[i + 1], i) + EdgeHitsFrom(sh, tol, g2, c1, i + 1)
  }

  /** What `_detect_edge_overlaps` returns; none when either shell cannot be read. */
  function EdgeHits(sh: Shapes, tol: real, g1: Geom, g2: Geom): seq<EdgeHit> {
    match (sh.exterior(g1), sh.exterior(g2))
    case (Some(e1), Some(_)) => EdgeHitsFrom(sh, tol, g2, e1, 0)
    case _ => []
  }

  /** Edge `n` of `c1` shares a stretch longer than `tol`, of length `len`,
      with the boundary of `g2`. */
  predicate IsEdgeHit(sh: Shapes, tol: real, g2: Geom, c1: seq<Point>, n: nat, len: real) {
    n + 1 < |c1| && sh.edgeOnBoundary(c1[n], c1[n + 1], g2) == Some(len) && len > tol
  }

  lemma {:induction false} EdgeHitsFromExact(sh: Shapes, tol: real, g2: Geom, c1: seq<Point>, i: nat)
    requires i <= |c1|
    ensures forall n: nat, len :: EdgeHit(n, len) in EdgeHitsFrom(sh, tol, g2, c1, i) <==>
      i <= n && IsEdgeHit(sh, tol, g2, c1, n, len)
    decreases |c1| - i
  {
    if i + 1 < |c1| {
      EdgeHitsFromExact(sh, tol, g2, c1, i + 1);
      var head := EdgeRecord(sh, tol, g2, c1[i], c1[i + 1], i);
      var rest := EdgeHitsFrom(sh, tol, g2, c1, i + 1);
      assert EdgeHitsFrom(sh, tol, g2, c1, i) == head + rest;
      forall n: nat, len
        ensures EdgeHit(n, len) in head + rest <==> i <= n && IsEdgeHit(sh, tol, g2, c1, n, len)
      {
        assert EdgeHit(n, len) in head + rest <==> EdgeHit(n, len) in head || EdgeHit(n, len) in rest;
      }
    }
  }

  /** An edge is recorded exactly when its intersection with the second
      boundary is a line longer than the tolerance. */
  lemma EdgeHitsExact(sh: Shapes, tol: real, g1: Geom, g2: Geom)
    requires sh.exterior(g1).Some? && sh.exterior(g2).Some?
    ensures var c1 := sh.exterior(g1).value;
      forall n: nat, len :: EdgeHit(n, len) in EdgeHits(sh, tol, g1, g2) <==> IsEdgeHit(sh, tol, g2, c1, n, len)
  {
    EdgeHitsFromExact(sh, tol, g2, sh.exterior(g1).value, 0);
  }

  /** `_detect_edge_overlaps`. */
  method DetectEdgeOverlaps(sh: Shapes, tol: real, g1: Geom, g2: Geom) returns (hits: seq<EdgeHit>)
    ensures hits == EdgeHits(sh, tol, g1, g2)
  {
    var e1 := sh.exterior(g1);
    var e2 := sh.exterior(g2);
    if e1.None? || e2.None? {
      return [];
    }
    var coords1 := e1.value;
    hits := [];
    var i := 0;
    while i + 1 < |coords1|
      invariant 0 <= i <= |coords1|
      invariant hits + EdgeHitsFrom(sh, tol, g2, coords1, i) == EdgeHits(sh, tol, g1, g2)
    {
      var hit: seq<EdgeHit> := [];
      var overlap := sh.edgeOnBoundary(coords1[i], coords1[i + 1], g2);
      if overlap.Some? && overlap.value > tol {
        hit := [EdgeHit(i, overlap.value)];
      }
      assert hit == EdgeRecord(sh, tol, g2, coords1[i], coords1[i + 1], i);
      hits := hits + hit;
      i := i + 1;
    }
  }

  /** The `overlap_info` dictionary. */
  datatype OverlapInfo = OverlapInfo(
    hasIntersection: bool, hasVertexOverlap: bool, hasEdgeOverlap: bool,
    intersectionArea: real, vertexOverlaps: seq<VertexHit>, edgeOverlaps: seq<EdgeHit>)

  /** `_analyze_overlap`: the searches run only when the geometries meet. */
  method AnalyzeOverlap(k: Kernel, sh: Shapes, tol: real, g1: Geom, g2: Geom) returns (info: OverlapInfo)
    ensures !k.intersects(g1, g2) ==> info == OverlapInfo(false, false, false, 0.0, [], [])
    ensures k.intersects(g1, g2) ==>
      && info.hasIntersection
      && info.intersectionArea == k.area(k.intersection(g1, g2))
      && info.vertexOverlaps == VertexHits(sh, tol, g1, g2)
      && info.edgeOverlaps == EdgeHits(sh, tol, g1, g2)
    ensures info.hasVertexOverlap <==> |info.vertexOverlaps| > 0
    ensures info.hasEdgeOverlap <==> |info.edgeOverlaps| > 0
  {
    info := OverlapInfo(false, false, false, 0.0, [], []);
    if k.intersects(g1, g2) {
      info := info.(hasIntersection := true, intersectionArea := k.area(k.intersection(g1, g2)));
      var vertexOverlaps := DetectVertexOverlaps(sh, tol, g1, g2);
      if |vertexOverlaps| > 0 {
        info := info.(hasVertexOverlap := true, vertexOverlaps := vertexOverlaps);
      }
      var edgeOverlaps := DetectEdgeOverlaps(sh, tol, g1, g2);
      if |edgeOverlaps| > 0 {
        info := info.(hasEdgeOverlap := true, edgeOverlaps := edgeOverlaps);
      }
    }
  }

  // ---------------------------------------------------------------------------
  // Operations and clipping
  // ---------------------------------------------------------------------------

  /** `_execute_operation`: `difference` is the second geometry (the target)
      minus the first (the boundary); an unknown name raises `ValueError`, and
      a GEOS error is a failure too. */
  function ExecuteOperation(k: Kernel, g1: Geom, g2: Geom, operation: string): (r: Result<Geom, string>)
    ensures operation == "difference" ==>
      (r.Success? <==> k.difference(g2, g1).Some?) && (r.Success? ==> r.value == k.difference(g2, g1).value)
    ensures operation == "intersection" ==> r == Success(k.intersection(g1, g2))
    ensures operation == "union" ==>
      (r.Success? <==> k.union(g1, g2).Some?) && (r.Success? ==> r.value == k.union(g1, g2).value)
    ensures operation !in {"difference", "intersection", "union"} ==> r.Failure?
  {
    if operation == "difference" then
      match k.difference(g2, g1)
      case Some(d) => Success(d)
      case None => Failure("GEOS")
    else if operation == "intersection" then Success(k.intersection(g1, g2))
    else if operation == "union" then
      match k.union(g1, g2)
      case Some(u) => Success(u)
      case None => Failure("GEOS")
    else Failure("不支持的操作类型: " + operation)
  }

  /** `_post_process_result`: repaired; a MultiPolygon of one part becomes
      that part, one of several parts is merged, and a merge that is still a
      MultiPolygon gives its largest part; the precision step then runs. When
      the merge raises, or the merged MultiPolygon has no part, the geometry
      reached so far is returned without the precision step. */
  function PostProcessResult(k: Kernel, sh: Shapes, tol: real, g: Geom): (r: Geom)
    ensures k.kind(Repair(k, g)) != MultiPolygonKind ==> r == PrecisionOptimized(k, sh, tol, Repair(k, g))
    ensures var v := Repair(k, g);
      k.kind(v) == MultiPolygonKind && |k.parts(v)| == 1 ==> r == PrecisionOptimized(k, sh, tol, k.parts(v)[0])
    ensures var v := Repair(k, g);
      k.kind(v) == MultiPolygonKind && |k.parts(v)| != 1 && k.unaryUnion(k.parts(v)).None? ==> r == v
    ensures var v := Repair(k, g);
      k.kind(v) == MultiPolygonKind && |k.parts(v)| != 1 && k.unaryUnion(k.parts(v)).Some? ==>
        var u := k.unaryUnion(k.parts(v)).value;
        (k.kind(u) != MultiPolygonKind ==> r == PrecisionOptimized(k, sh, tol, u))
        && (k.kind(u) == MultiPolygonKind && |k.parts(u)| > 0 ==>
              r == PrecisionOptimized(k, sh, tol, k.parts(u)[ArgMaxArea(k, k.parts(u))]))
        && (k.kind(u) == MultiPolygonKind && |k.parts(u)| == 0 ==> r == u)
  {
    var v := Repair(k, g);
    if k.kind(v) != MultiPolygonKind then PrecisionOptimized(k, sh, tol, v)
    else if |k.parts(v)| == 1 then PrecisionOptimized(k, sh, tol, k.parts(v)[0])
    else match k.unaryUnion(k.parts(v))
      case None => v
      case Some(u) =>
        if k.kind(u) != MultiPolygonKind then PrecisionOptimized(k, sh, tol, u)
        else if |k.parts(u)| == 0 then u
        else PrecisionOptimized(k, sh, tol, k.parts(u)[ArgMaxArea(k, k.parts(u))])
  }

  /** Which path produced a result. */
  datatype Method = SpecialOverlapHandling | StandardClipping

  /** The dictionary `clip_polygons` returns. */
  datatype ClipResult =
    | ClipFailed(error: string)
    | ClipDone(geometry: Geom, wkt: Option<string>, area: real, overlapInfo: Option<OverlapInfo>, path: Method)

  /** The result entry for a computed geometry: post-processed when not
      empty, and without text or area when empty. */
  function Report(k: Kernel, sh: Shapes, tol: real, g: Geom, info: Option<OverlapInfo>, m: Method): (r: ClipResult)
    ensures r.ClipDone? && r.path == m && r.overlapInfo == info
    ensures r.wkt.None? <==> k.isEmpty(r.geometry)
    ensures k.isEmpty(r.geometry) ==> r.area == 0.0
    ensures !k.isEmpty(r.geometry) ==> r.wkt == Some(k.toWkt(r.geometry)) && r.area == k.area(r.geometry)
  {
    var result := if k.isEmpty(g) then g else PostProcessResult(k, sh, tol, g);
    if k.isEmpty(result) then ClipDone(result, None, 0.0, info, m)
    else ClipDone(result, Some(k.toWkt(result)), k.area(result), info, m)
  }

  /** `_standard_clip`: the operation, reported; a raised error is a failure. */
  function StandardClip(k: Kernel, sh: Shapes, tol: real, g1: Geom, g2: Geom, operation: string): (r: ClipResult)
    ensures r.ClipFailed? <==> ExecuteOperation(k, g1, g2, operation).Failure?
    ensures r.ClipDone? ==> r.path == StandardClipping && r.overlapInfo.None?
  {
    match ExecuteOperation(k, g1, g2, operation)
    case Failure(e) => ClipFailed(e)
    case Success(g) => Report(k, sh, tol, g, None, StandardClipping)
  }

  /** The buffered stand-in for `g`: shrunk and regrown by ten tolerances,
      repaired, and replaced by `g` itself when it vanished. */
  function Buffered(k: Kernel, sh: Shapes, tol: real, g: Geom): (r: Geom)
    ensures k.isEmpty(r) ==> r == g
  {
    var d := tol * 10.0;
    var b := Repair(k, sh.buffer(sh.buffer(g, -d), d));
    if k.isEmpty(b) then g else b
  }

  /** `_handle_special_overlap`: the operation on the buffered stand-ins;
      when it raises, the standard clip of the unbuffered geometries. */
  function HandleSpecialOverlap(k: Kernel, sh: Shapes, tol: real, g1: Geom, g2: Geom, operation: string, info: OverlapInfo): (r: ClipResult)
    ensures ExecuteOperation(k, Buffered(k, sh, tol, g1), Buffered(k, sh, tol, g2), operation).Success? ==>
      r.ClipDone? && r.path == SpecialOverlapHandling && r.overlapInfo == Some(info)
    ensures ExecuteOperation(k, Buffered(k, sh, tol, g1), Buffered(k, sh, tol, g2), operation).Failure? ==>
      r == StandardClip(k, sh, tol, g1, g2, operation)
  {
    match ExecuteOperation(k, Buffered(k, sh, tol, g1), Buffered(k, sh, tol, g2), operation)
    case Failure(_) => StandardClip(k, sh, tol, g1, g2, operation)
    case Success(g) => Report(k, sh, tol, g, Some(info), SpecialOverlapHandling)
  }

  /** `clip_polygons`: never raises; a text that does not parse gives a
      failure; the special path runs exactly when the analysis of the cleaned
      geometries found a shared vertex or edge, which needs them to meet. */
  method ClipPolygons(k: Kernel, sh: Shapes, tol: real, polygon1Wkt: string, polygon2Wkt: string, operation: string)
    returns (r: ClipResult)
    ensures ParseAndValidate(k, polygon1Wkt).None? || ParseAndValidate(k, polygon2Wkt).None? ==>
      r == ClipFailed("几何体解析失败")
    ensures ParseAndValidate(k, polygon1Wkt).Some? && ParseAndValidate(k, polygon2Wkt).Some? ==>
      var g1 := PrecisionOptimized(k, sh, tol, ParseAndValidate(k, polygon1Wkt).value);
      var g2 := PrecisionOptimized(k, sh, tol, ParseAndValidate(k, polygon2Wkt).value);
      var special := k.intersects(g1, g2) && (|VertexHits(sh, tol, g1, g2)| > 0 || |EdgeHits(sh, tol, g1, g2)| > 0);
      (!special ==> r == StandardClip(k, sh, tol, g1, g2, operation))
      && (special ==> exists info :: r == HandleSpecialOverlap(k, sh, tol, g1, g2, operation, info))
    ensures r.ClipDone? && r.path == SpecialOverlapHandling ==>
      r.overlapInfo.Some? && r.overlapInfo.value.hasIntersection
      && (r.overlapInfo.value.hasVertexOverlap || r.overlapInfo.value.hasEdgeOverlap)
  {
    var geom1 := ParseAndValidate(k, polygon1Wkt);
    var geom2 := ParseAndValidate(k, polygon2Wkt);
    if geom1.None? || geom2.None? {
      return ClipFailed("几何体解析失败");
    }
    var geom1Optimized := OptimizeGeometryPrecision(k, sh, tol, geom1.value);
    var geom2Optimized := OptimizeGeometryPrecision(k, sh, tol, geom2.value);
    var overlapInfo := AnalyzeOverlap(k, sh, tol, geom1Optimized, geom2Optimized);
    if overlapInfo.hasVertexOverlap || overlapInfo.hasEdgeOverlap {
      r := HandleSpecialOverlap(k, sh, tol, geom1Optimized, geom2Optimized, operation, overlapInfo);
    } else {
      r := StandardClip(k, sh, tol, geom1Optimized, geom2Optimized, operation);
    }
  }
}
