/** The polygon tool (`tools/polygon_merger.py`): intersection report, merge,
    single-geometry parsing and unification, the precision clean-up of a WKT
    text, the pairwise split, the ordered chain clip, and the de-overlap pass
    run over the chain's output. */
module PolygonMerger {
  import opened Wrappers
  import opened Text
  import opened Decimal
  import opened Geometry

  /** The clean-up keeps coordinates to 12 decimals and treats points closer
      than 1e-12 as one. */
  const Digits: nat := 12
  const Tolerance: real := 0.000000000001

  // ---------------------------------------------------------------------------
  // All-pairs intersection report
  // ---------------------------------------------------------------------------

  /** One line of the report's `details`. */
  datatype Detail =
    | NeedTwo                                        // fewer than two polygons
    | PairIntersects(first: nat, second: nat, area: real)
    | NoIntersection(count: nat)                     // summary when no pair meets

  /** The report; `pairs` is absent when fewer than two polygons were given. */
  datatype IntersectionReport =
    IntersectionReport(hasIntersection: bool, details: seq<Detail>, pairs: Option<seq<(nat, nat)>>)

  /** The 1-based pairs `(i+1, j'+1)` with `j <= j'` whose polygons meet, by `j'`. */
  function RowPairs(k: Kernel, ps: seq<Geom>, i: nat, j: nat): seq<(nat, nat)>
    requires i < |ps| && j <= |ps|
    decreases |ps| - j
  {
    if j == |ps| then []
    else (if k.intersects(ps[i], ps[j]) then [(i + 1, j + 1)] else []) + RowPairs(k, ps, i, j + 1)
  }

  /** The rows `i, i+1, ...` of the pair scan, concatenated. */
  function PairsFrom(k: Kernel, ps: seq<Geom>, i: nat): seq<(nat, nat)>
    requires i <= |ps|
    decreases |ps| - i
  {
    if i == |ps| then [] else RowPairs(k, ps, i, i + 1) + PairsFrom(k, ps, i + 1)
  }

  /** The pairs the nested scan collects, in scan order. */
  function IntersectingPairs(k: Kernel, ps: seq<Geom>): seq<(nat, nat)> {
    PairsFrom(k, ps, 0)
  }

  /** `p` names, 1-based, two distinct polygons in increasing order that meet. */
  predicate IsIntersectingPair(k: Kernel, ps: seq<Geom>, p: (nat, nat)) {
    1 <= p.0 < p.1 <= |ps| && k.intersects(ps[p.0 - 1], ps[p.1 - 1])
  }

  predicate LexBefore(p: (nat, nat), q: (nat, nat)) {
    p.0 < q.0 || (p.0 == q.0 && p.1 < q.1)
  }

  lemma {:induction false} RowPairsMembers(k: Kernel, ps: seq<Geom>, i: nat, j: nat)
    requires i < j <= |ps|
    ensures forall p :: p in RowPairs(k, ps, i, j) <==> p.0 == i + 1 && j < p.1 && IsIntersectingPair(k, ps, p)
    decreases |ps| - j
  {
    if j == |ps| {
      assert RowPairs(k, ps, i, j) == [];
    } else {
      RowPairsMembers(k, ps, i, j + 1);
      var head: seq<(nat, nat)> := if k.intersects(ps[i], ps[j]) then [(i + 1, j + 1)] else [];
      assert RowPairs(k, ps, i, j) == head + RowPairs(k, ps, i, j + 1);
      forall p ensures p in RowPairs(k, ps, i, j) <==> p.0 == i + 1 && j < p.1 && IsIntersectingPair(k, ps, p) {
        if p.0 == i + 1 && p.1 == j + 1 && IsIntersectingPair(k, ps, p) {
          assert p in head;
        }
      }
    }
  }

  lemma {:induction false} RowPairsOrdered(k: Kernel, ps: seq<Geom>, i: nat, j: nat)
    requires i < j <= |ps|
    ensures forall s, t :: 0 <= s < t < |RowPairs(k, ps, i, j)| ==>
      RowPairs(k, ps, i, j)[s].0 == i + 1 && RowPairs(k, ps, i, j)[s].1 < RowPairs(k, ps, i, j)[t].1
    decreases |ps| - j
  {
    if j == |ps| {
      assert RowPairs(k, ps, i, j) == [];
    } else {
      RowPairsOrdered(k, ps, i, j + 1);
      RowPairsMembers(k, ps, i, j + 1);
      var head: seq<(nat, nat)> := if k.intersects(ps[i], ps[j]) then [(i + 1, j + 1)] else [];
      var rest := RowPairs(k, ps, i, j + 1);
      assert RowPairs(k, ps, i, j) == head + rest;
      forall s, t | 0 <= s < t < |head + rest|
        ensures (head + rest)[s].0 == i + 1 && (head + rest)[s].1 < (head + rest)[t].1
      {
        if s < |head| {
          assert (head + rest)[t] in rest;
        } else {
          assert (head + rest)[s] == rest[s - |head|] && (head + rest)[t] == rest[t - |head|];
        }
      }
    }
  }

  lemma {:induction false} PairsFromExact(k: Kernel, ps: seq<Geom>, i: nat)
    requires i <= |ps|
    ensures forall p :: p in PairsFrom(k, ps, i) <==> i < p.0 && IsIntersectingPair(k, ps, p)
    ensures forall s, t :: 0 <= s < t < |PairsFrom(k, ps, i)| ==>
      LexBefore(PairsFrom(k, ps, i)[s], PairsFrom(k, ps, i)[t])
    decreases |ps| - i
  {
    if i < |ps| {
      PairsFromExact(k, ps, i + 1);
      RowPairsMembers(k, ps, i, i + 1);
      RowPairsOrdered(k, ps, i, i + 1);
      var row := RowPairs(k, ps, i, i + 1);
      var rest := PairsFrom(k, ps, i + 1);
      forall p | IsIntersectingPair(k, ps, p) && p.0 == i + 1
        ensures p in row
      {
      }
      forall s, t | 0 <= s < t < |row + rest|
        ensures LexBefore((row + rest)[s], (row + rest)[t])
      {
        if t < |row| {
        } else if s < |row| {
          assert (row + rest)[t] in rest;
        }
      }
    }
  }

  /** The collected pairs are exactly the meeting pairs, in i-then-j order. */
  lemma IntersectingPairsExact(k: Kernel, ps: seq<Geom>)
    ensures forall p :: p in IntersectingPairs(k, ps) <==> IsIntersectingPair(k, ps, p)
    ensures forall s, t :: 0 <= s < t < |IntersectingPairs(k, ps)| ==>
      LexBefore(IntersectingPairs(k, ps)[s], IntersectingPairs(k, ps)[t])
  {
    PairsFromExact(k, ps, 0);
  }

  /** The detail line written for the meeting pair `p`. */
  function PairDetail(k: Kernel, ps: seq<Geom>, p: (nat, nat)): Detail
    requires 1 <= p.0 <= |ps| && 1 <= p.1 <= |ps|
  {
    PairIntersects(p.0, p.1, k.area(k.intersection(ps[p.0 - 1], ps[p.1 - 1])))
  }

  /** `details` holds one line per pair of `pairs`, in the same order. */
  predicate DescribesPairs(k: Kernel, ps: seq<Geom>, pairs: seq<(nat, nat)>, details: seq<Detail>) {
    |details| == |pairs|
    && forall t :: 0 <= t < |pairs| ==>
      1 <= pairs[t].0 <= |ps| && 1 <= pairs[t].1 <= |ps| && details[t] == PairDetail(k, ps, pairs[t])
  }

  lemma DescribesAppend(k: Kernel, ps: seq<Geom>, pairs: seq<(nat, nat)>, details: seq<Detail>, p: (nat, nat))
    requires DescribesPairs(k, ps, pairs, details)
    requires 1 <= p.0 <= |ps| && 1 <= p.1 <= |ps|
    ensures DescribesPairs(k, ps, pairs + [p], details + [PairDetail(k, ps, p)])
  {
  }

  /** The inner loop of `_check_intersections` for polygon `i`: the pairs of
      row `i` are appended, each with its detail line, and `has` is set when
      one is found. */
  method ScanRow(k: Kernel, ps: seq<Geom>, i: nat, has0: bool, pairs0: seq<(nat, nat)>, details0: seq<Detail>)
    returns (has: bool, pairs: seq<(nat, nat)>, details: seq<Detail>)
    requires i < |ps| && DescribesPairs(k, ps, pairs0, details0)
    ensures pairs == pairs0 + RowPairs(k, ps, i, i + 1)
    ensures has <==> has0 || |pairs| > |pairs0|
    ensures DescribesPairs(k, ps, pairs, details)
  {
    has, pairs, details := has0, pairs0, details0;
    var j := i + 1;
    while j < |ps|
      invariant i + 1 <= j <= |ps| && |pairs0| <= |pairs|
      invariant pairs + RowPairs(k, ps, i, j) == pairs0 + RowPairs(k, ps, i, i + 1)
      invariant has <==> has0 || |pairs| > |pairs0|
      invariant DescribesPairs(k, ps, pairs, details)
    {
      if k.intersects(ps[i], ps[j]) {
        var p := (i + 1, j + 1);
        assert RowPairs(k, ps, i, j) == [p] + RowPairs(k, ps, i, j + 1);
        AppendAssoc(pairs, [p], RowPairs(k, ps, i, j + 1));
        has := true;
        DescribesAppend(k, ps, pairs, details, p);
        pairs := pairs + [p];
        details := details + [PairDetail(k, ps, p)];
      } else {
        assert RowPairs(k, ps, i, j) == RowPairs(k, ps, i, j + 1);
      }
      j := j + 1;
    }
    assert pairs + [] == pairs;
  }

  /** The nested loops of `_check_intersections`: every meeting pair, in scan
      order, each with its detail line, and whether one was found. */
  method ScanAll(k: Kernel, ps: seq<Geom>) returns (has: bool, pairs: seq<(nat, nat)>, details: seq<Detail>)
    ensures pairs == IntersectingPairs(k, ps)
    ensures has <==> |pairs| > 0
    ensures DescribesPairs(k, ps, pairs, details)
  {
    has := false;
    details := [];
    pairs := [];
    var i := 0;
    while i < |ps|
      invariant 0 <= i <= |ps|
      invariant pairs + PairsFrom(k, ps, i) == IntersectingPairs(k, ps)
      invariant has <==> |pairs| > 0
      invariant DescribesPairs(k, ps, pairs, details)
    {
      ghost var before := pairs;
      has, pairs, details := ScanRow(k, ps, i, has, pairs, details);
      assert PairsFrom(k, ps, i) == RowPairs(k, ps, i, i + 1) + PairsFrom(k, ps, i + 1);
      AppendAssoc(before, RowPairs(k, ps, i, i + 1), PairsFrom(k, ps, i + 1));
      i := i + 1;
    }
    assert PairsFrom(k, ps, i) == [];
    assert pairs + [] == pairs;
  }

  /** `_check_intersections`. */
  method CheckIntersections(k: Kernel, ps: seq<Geom>) returns (report: IntersectionReport)
    ensures |ps| < 2 ==> report == IntersectionReport(false, [NeedTwo], None)
    ensures |ps| >= 2 ==> report.pairs == Some(IntersectingPairs(k, ps))
    ensures |ps| >= 2 ==> (report.hasIntersection <==> |IntersectingPairs(k, ps)| > 0)
    ensures |ps| >= 2 && report.hasIntersection ==>
      DescribesPairs(k, ps, IntersectingPairs(k, ps), report.details)
    ensures |ps| >= 2 && !report.hasIntersection ==> report.details == [NoIntersection(|ps|)]
  {
    if |ps| < 2 {
      return IntersectionReport(false, [NeedTwo], None);
    }
    var has, pairs, details := ScanAll(k, ps);
    if !has {
      details := details + [NoIntersection(|ps|)];
    }
    report := IntersectionReport(has, details, Some(pairs));
  }

  // ---------------------------------------------------------------------------
  // Merge, unify and single-geometry parsing
  // ---------------------------------------------------------------------------

  /** `_merge_polygons`; a failure is the exception it re-raises. */
  function MergePolygons(k: Kernel, ps: seq<Geom>): (r: Result<Option<Geom>, string>)
    ensures |ps| == 0 ==> r == Success(None)
    ensures |ps| == 1 ==> r == Success(Some(ps[0]))
    ensures |ps| >= 2 && r.Success? ==> r.value.Some?
    ensures |ps| >= 2 && k.unaryUnion(ps).Some? && HasParts(k, k.unaryUnion(ps).value)
            && |k.parts(k.unaryUnion(ps).value)| > 1 ==>
      r == Success(Some(k.hull(k.unaryUnion(ps).value)))
    ensures |ps| >= 2 && k.unaryUnion(ps).Some? && HasParts(k, k.unaryUnion(ps).value)
            && |k.parts(k.unaryUnion(ps).value)| == 1 ==>
      r == Success(Some(Repair(k, k.parts(k.unaryUnion(ps).value)[0])))
    ensures |ps| >= 2 && k.unaryUnion(ps).Some? && !HasParts(k, k.unaryUnion(ps).value) ==>
      r == Success(Some(Repair(k, k.unaryUnion(ps).value)))
    ensures |ps| >= 2 && r.Success? && RepairLaws(k) ==> k.isValid(r.value.value)
    ensures r.Failure? <==>
      (|ps| >= 2 && (k.unaryUnion(ps).None?
        || (HasParts(k, k.unaryUnion(ps).value) && |k.parts(k.unaryUnion(ps).value)| == 0)))
  {
    if |ps| == 0 then Success(None)
    else if |ps| == 1 then Success(Some(ps[0]))
    else match k.unaryUnion(ps)
      case None => Failure("合并失败")
      case Some(merged) =>
        if HasParts(k, merged) then
          if |k.parts(merged)| > 1 then Success(Some(k.hull(merged)))
          else if |k.parts(merged)| == 0 then Failure("合并失败")
          else Success(Some(Repair(k, k.parts(merged)[0])))
        else Success(Some(Repair(k, merged)))
  }

  /** `_unify_geometry`; `None` is the exception raised by `unary_union` or by
      taking the first part of an empty MultiPolygon. */
  function Unify(k: Kernel, g: Geom): (r: Option<Geom>)
    ensures k.kind(g) == PolygonKind ==> r == Some(g)
    ensures k.kind(g) == MultiPolygonKind ==>
      r == (if |k.parts(g)| > 1 then k.unaryUnion(k.parts(g))
            else if |k.parts(g)| == 1 then Some(k.parts(g)[0])
            else None)
    ensures k.kind(g) == OtherMultiKind || k.kind(g) == OtherKind ==> r == Some(k.hull(g))
  {
    match k.kind(g)
    case MultiPolygonKind =>
      if |k.parts(g)| > 1 then k.unaryUnion(k.parts(g))
      else if |k.parts(g)| == 1 then Some(k.parts(g)[0])
      else None
    case PolygonKind => Some(g)
    case _ => Some(k.hull(g))
  }

  /** `_parse_single_geometry`: white space collapsed, blank text is nothing,
      otherwise the parsed geometry, repaired when invalid. */
  function ParseSingle(k: Kernel, text: string): (r: Option<Geom>)
    ensures AllSpace(text) ==> r == None
    ensures !AllSpace(text) && k.loads(NormalizeSpace(text)).Some? ==>
      r == Some(Repair(k, k.loads(NormalizeSpace(text)).value))
    ensures r.Some? ==>
      (k.loads(NormalizeSpace(text)).Some? && r.value == Repair(k, k.loads(NormalizeSpace(text)).value))
    ensures r.Some? && RepairLaws(k) ==> k.isValid(r.value)
  {
    var cleaned := NormalizeSpace(text);
    if cleaned == "" then None
    else match k.loads(cleaned)
      case None => None
      case Some(g) =>
        assert RepairLaws(k) ==> k.isValid(Repair(k, g)) by {
          if RepairLaws(k) {
            RepairIsValid(k, g);
          }
        }
        Some(Repair(k, g))
  }

  // ---------------------------------------------------------------------------
  // Precision clean-up of a WKT text (inner `optimize_wkt_precision`)
  // ---------------------------------------------------------------------------

  /** Appends to `kept` each point of `rest` lying farther than `tol` from the
      last point kept so far. */
  function KeepApart(kept: seq<Point>, rest: seq<Point>, tol: real): (r: seq<Point>)
    requires |kept| >= 1
    ensures |kept| <= |r| <= |kept| + |rest|
    ensures r[..|kept|] == kept
    decreases |rest|
  {
    if |rest| == 0 then kept
    else if Near(rest[0], kept[|kept| - 1], tol) then KeepApart(kept, rest[1..], tol)
    else
      var r := KeepApart(kept + [rest[0]], rest[1..], tol);
      assert r[..|kept|] == r[..|kept| + 1][..|kept|];
      r
  }

  /** Consecutive points lie farther than `tol` apart. */
  predicate Spaced(pts: seq<Point>, tol: real) {
    forall t :: 1 <= t < |pts| ==> !Near(pts[t - 1], pts[t], tol)
  }

  lemma {:induction false} KeepApartSpaced(kept: seq<Point>, rest: seq<Point>, tol: real)
    requires |kept| >= 1 && Spaced(kept, tol)
    ensures Spaced(KeepApart(kept, rest, tol), tol)
    decreases |rest|
  {
    if |rest| > 0 {
      if Near(rest[0], kept[|kept| - 1], tol) {
        KeepApartSpaced(kept, rest[1..], tol);
      } else {
        var next := kept + [rest[0]];
        assert Spaced(next, tol) by {
          forall t | 1 <= t < |next| ensures !Near(next[t - 1], next[t], tol) {
            if t == |kept| {
              assert next[t - 1] == kept[|kept| - 1] && next[t] == rest[0];
              assert SqDist(kept[|kept| - 1], rest[0]) == SqDist(rest[0], kept[|kept| - 1]);
            } else {
              assert next[t - 1] == kept[t - 1] && next[t] == kept[t];
            }
          }
        }
        KeepApartSpaced(next, rest[1..], tol);
      }
    }
  }

  /** The points kept when the first is kept and each later one is kept only if
      it lies farther than `tol` from the last kept point. */
  function DedupeAgainstKept(pts: seq<Point>, tol: real): (r: seq<Point>)
    requires |pts| >= 1
    ensures 1 <= |r| <= |pts| && r[0] == pts[0]
    ensures Spaced(r, tol)
  {
    KeepApartSpaced([pts[0]], pts[1..], tol);
    KeepApart([pts[0]], pts[1..], tol)
  }

  /** The coordinates after rounding, de-duplication and closing. */
  function CleanedRing(pts: seq<Point>): seq<Point> {
    var rounded := RoundPoints(pts, Digits);
    if |rounded| > 1 then CloseRing(DedupeAgainstKept(rounded, Tolerance)) else rounded
  }

  /** What the clean-up returns for `wkt`, given the coordinates the regular
      expression finds in it. */
  function OptimizedWkt(coordsOf: string -> seq<Point>, wkt: string): string {
    var ring := CleanedRing(coordsOf(wkt));
    if |ring| >= 4 then PolygonText(ring, Digits) else wkt
  }

  /** The clean-up either returns its input, or the text of a closed ring of at
      least four points that starts at the first rounded coordinate and whose
      points, the closing one aside, lie more than 1e-12 apart. */
  lemma OptimizedWktShape(coordsOf: string -> seq<Point>, wkt: string)
    ensures var ring := CleanedRing(coordsOf(wkt));
      OptimizedWkt(coordsOf, wkt) == wkt
      || (|ring| >= 4 && OptimizedWkt(coordsOf, wkt) == PolygonText(ring, Digits)
          && ring[0] == RoundPoint(coordsOf(wkt)[0], Digits) && ring[0] == ring[|ring| - 1]
          && Spaced(ring[..|ring| - 1], Tolerance))
  {
    CleanedRingShape(coordsOf(wkt));
  }

  /** A cleaned ring of at least four points starts at the first rounded
      coordinate, is closed, and its points before the closing one lie more
      than 1e-12 apart. */
  lemma CleanedRingShape(pts: seq<Point>)
    ensures var ring := CleanedRing(pts);
      |ring| >= 4 ==>
        |pts| > 0 && ring[0] == RoundPoint(pts[0], Digits) && ring[0] == ring[|ring| - 1]
        && Spaced(ring[..|ring| - 1], Tolerance)
  {
    var ring := CleanedRing(pts);
    if |ring| >= 4 {
      var rounded := RoundPoints(pts, Digits);
      assert |rounded| > 1;
      var kept := DedupeAgainstKept(rounded, Tolerance);
      assert ring == CloseRing(kept);
      if |ring| == |kept| {
        assert ring[..|ring| - 1] == kept[..|kept| - 1];
        SpacedPrefix(kept, |kept| - 1, Tolerance);
      } else {
        assert ring[..|ring| - 1] == kept;
      }
    }
  }

  /** A prefix of spaced points is spaced. */
  lemma SpacedPrefix(pts: seq<Point>, n: nat, tol: real)
    requires n <= |pts| && Spaced(pts, tol)
    ensures Spaced(pts[..n], tol)
  {
    forall t | 1 <= t < n
      ensures !Near(pts[..n][t - 1], pts[..n][t], tol)
    {
      assert pts[..n][t - 1] == pts[t - 1] && pts[..n][t] == pts[t];
    }
  }

  /** `optimize_wkt_precision`: rounds, drops points within 1e-12 of the last
      kept one, closes the ring and rebuilds the text, or keeps the input when
      fewer than four points remain. */
  method OptimizeWktPrecision(coordsOf: string -> seq<Point>, wkt: string) returns (r: string)
    ensures r == OptimizedWkt(coordsOf, wkt)
  {
    var coords := coordsOf(wkt);
    var optimized := RoundCoords(coords);
    if |optimized| > 1 {
      var cleaned := DropNearPoints(optimized);
      if |cleaned| >= 3 && cleaned[0] != cleaned[|cleaned| - 1] {
        cleaned := cleaned + [cleaned[0]];
      }
      optimized := cleaned;
    }
    assert optimized == CleanedRing(coords);
    if |optimized| >= 4 {
      var texts := FormatPairs(optimized, Digits);
      r := "POLYGON ((" + Join(texts, ", ") + "))";
    } else {
      r := wkt;
    }
  }

  /** The first loop of `optimize_wkt_precision`: every coordinate rounded to
      12 decimals. */
  method RoundCoords(coords: seq<Point>) returns (optimized: seq<Point>)
    ensures optimized == RoundPoints(coords, Digits)
  {
    optimized := [];
    var n := 0;
    while n < |coords|
      invariant 0 <= n <= |coords|
      invariant optimized == RoundPoints(coords, Digits)[..n]
    {
      PrefixExtend(RoundPoints(coords, Digits), n);
      optimized := optimized + [RoundPoint(coords[n], Digits)];
      n := n + 1;
    }
    assert RoundPoints(coords, Digits)[..n] == RoundPoints(coords, Digits);
  }

  /** The second loop of `optimize_wkt_precision`: the first point, then each
      point farther than 1e-12 from the last one kept. */
  method DropNearPoints(optimized: seq<Point>) returns (cleaned: seq<Point>)
    requires |optimized| > 1
    ensures cleaned == DedupeAgainstKept(optimized, Tolerance)
  {
    cleaned := [optimized[0]];
    var i := 1;
    while i < |optimized|
      invariant 1 <= i <= |optimized|
      invariant |cleaned| >= 1
      invariant KeepApart(cleaned, optimized[i..], Tolerance) == DedupeAgainstKept(optimized, Tolerance)
    {
      var current := optimized[i];
      var previous := cleaned[|cleaned| - 1];
      assert optimized[i..][1..] == optimized[i + 1..];
      if !Near(current, previous, Tolerance) {
        cleaned := cleaned + [current];
      }
      i := i + 1;
    }
    assert optimized[i..] == [];
  }


  /** `_optimize_polygons_for_clipping`: both texts cleaned independently. */
  function OptimizePair(coordsOf: string -> seq<Point>, wkt1: string, wkt2: string): (string, string) {
    (OptimizedWkt(coordsOf, wkt1), OptimizedWkt(coordsOf, wkt2))
  }

  /** The re-optimisation both the chain clip and the de-overlap pass apply to
      a pair of meeting geometries: when cleaning changed either text and both
      cleaned texts parse to non-empty geometries, both are replaced by their
      unified re-parses. `None` is an exception raised while unifying. */
  function Reoptimized(k: Kernel, coordsOf: string -> seq<Point>, current: Geom, previous: Geom): Option<(Geom, Geom)> {
    var cw := k.toWkt(current);
    var pw := k.toWkt(previous);
    var (oc, op) := OptimizePair(coordsOf, cw, pw);
    if oc == cw && op == pw then Some((current, previous))
    else
      var gc := ParseSingle(k, oc);
      var gp := ParseSingle(k, op);
      if gc.Some? && !k.isEmpty(gc.value) && gp.Some? && !k.isEmpty(gp.value) then
        match Unify(k, gc.value)
        case None => None
        case Some(uc) =>
          match Unify(k, gp.value)
          case None => None
          case Some(up) => Some((uc, up))
      else Some((current, previous))
  }

  // ---------------------------------------------------------------------------
  // Pairwise split (`_process_polygon_split`)
  // ---------------------------------------------------------------------------

  /** A geometry as output: itself when a Polygon, otherwise its convex hull. */
  function SinglePart(k: Kernel, g: Geom): Geom {
    if k.kind(g) == PolygonKind then g else k.hull(g)
  }

  /** What the pairwise split shows: an error, a warning, or the clipped
      polygon and its text. */
  datatype SplitOutcome =
    | FirstUnparsed | SecondUnparsed | SplitDisjoint | SplitCovered | SplitFailed
    | SplitDone(polygon: Geom, wkt: string)

  /** The text printed for the split result. */
  function SplitWkt(k: Kernel, g: Geom): string {
    var w := if k.kind(g) == MultiPolygonKind then k.toWkt(k.hull(g)) else k.toWkt(g);
    if StartsWith(w, "MULTIPOLYGON") then
      if k.kind(g) == MultiPolygonKind && |k.parts(g)| > 0 then k.toWkt(k.parts(g)[0]) else k.toWkt(k.hull(g))
    else w
  }

  /** The split of the parsed `g2` by the parsed `g1` (`geom2 - geom1`): output
      only when both unify, they meet, and the repaired difference is not empty;
      the output is a single valid polygon under the repair laws. */
  function SplitGeoms(k: Kernel, g1: Geom, g2: Geom): (r: SplitOutcome)
    ensures r.SplitDone? <==>
      (Unify(k, g1).Some? && Unify(k, g2).Some?
       && k.intersects(Unify(k, g1).value, Unify(k, g2).value)
       && k.difference(Unify(k, g2).value, Unify(k, g1).value).Some?
       && !k.isEmpty(Repair(k, k.difference(Unify(k, g2).value, Unify(k, g1).value).value)))
    ensures r == SplitDisjoint <==>
      (Unify(k, g1).Some? && Unify(k, g2).Some? && !k.intersects(Unify(k, g1).value, Unify(k, g2).value))
    ensures r.SplitDone? ==>
      r.polygon == SinglePart(k, Repair(k, k.difference(Unify(k, g2).value, Unify(k, g1).value).value))
      && r.wkt == SplitWkt(k, r.polygon)
    ensures r == SplitCovered <==>
      (Unify(k, g1).Some? && Unify(k, g2).Some?
       && k.intersects(Unify(k, g1).value, Unify(k, g2).value)
       && k.difference(Unify(k, g2).value, Unify(k, g1).value).Some?
       && k.isEmpty(Repair(k, k.difference(Unify(k, g2).value, Unify(k, g1).value).value)))
    ensures r.SplitDone? && RepairLaws(k) ==> k.isValid(r.polygon)
  {
    match Unify(k, g1)
    case None => SplitFailed
    case Some(u1) =>
      match Unify(k, g2)
      case None => SplitFailed
      case Some(u2) =>
        if !k.intersects(u1, u2) then SplitDisjoint
        else
          match k.difference(u2, u1)
          case None => SplitFailed
          case Some(d) =>
            var split := Repair(k, d);
            if k.isEmpty(split) then SplitCovered
            else
              RepairIsValidWhen(k, d);
              var single := SinglePart(k, split);
              SplitDone(single, SplitWkt(k, single))
  }

  lemma RepairIsValidWhen(k: Kernel, g: Geom)
    ensures RepairLaws(k) ==> k.isValid(Repair(k, g)) && forall h :: k.isValid(k.hull(h))
  {
  }

  /** `_process_polygon_split`: both texts are cleaned and parsed; a text that
      does not parse is reported, the first before the second. */
  function SplitPair(k: Kernel, coordsOf: string -> seq<Point>, text1: string, text2: string): (r: SplitOutcome)
    ensures r == FirstUnparsed <==> ParseSingle(k, OptimizedWkt(coordsOf, text1)).None?
    ensures r == SecondUnparsed <==>
      (ParseSingle(k, OptimizedWkt(coordsOf, text1)).Some? && ParseSingle(k, OptimizedWkt(coordsOf, text2)).None?)
    ensures r.SplitDone? ==>
      r == SplitGeoms(k, ParseSingle(k, OptimizedWkt(coordsOf, text1)).value, ParseSingle(k, OptimizedWkt(coordsOf, text2)).value)
  {
    match ParseSingle(k, OptimizedWkt(coordsOf, text1))
    case None => FirstUnparsed
    case Some(g1) =>
      match ParseSingle(k, OptimizedWkt(coordsOf, text2))
      case None => SecondUnparsed
      case Some(g2) => SplitGeoms(k, g1, g2)
  }

  // ---------------------------------------------------------------------------
  // Ordered chain clip (`_process_batch_chain_split`)
  // ---------------------------------------------------------------------------

  /** A parsed input line: its 1-based line number, the unified geometry and
      that geometry's text. */
  datatype Parsed = Parsed(line: nat, original: Geom, originalWkt: string)

  /** The note attached to a chain-clip result. */
  datatype StepNote =
    | FirstKept | FirstHulled          // the first polygon, as is or as its hull
    | Disjoint                         // did not meet the previous result
    | Covered                          // the difference was empty
    | ClippedHulled | Clipped          // clipped, with or without a hull
    | StepFailed                       // an exception: the original is output

  /** A result entry: 1-based position, polygon, text and note. The de-overlap
      pass records in `overlapsRemoved` how many overlaps it cut away. */
  datatype Piece = Piece(index: nat, polygon: Geom, wkt: string, note: StepNote, overlapsRemoved: Option<nat>)

  /** What becomes of one input line: skipped (blank or unparsable), an
      exception raised by unification, or the unified geometry. */
  datatype LineParse = Skipped | LineRaised | Got(geom: Geom)

  function ParseLine(k: Kernel, line: string): (r: LineParse)
    ensures AllSpace(line) ==> r == Skipped
    ensures r.Got? ==> ParseSingle(k, Strip(line)).Some? && Unify(k, ParseSingle(k, Strip(line)).value) == Some(r.geom)
  {
    var t := Strip(line);
    if t == "" then Skipped
    else match ParseSingle(k, t)
      case None => Skipped
      case Some(g) =>
        match Unify(k, g)
        case None => LineRaised
        case Some(u) => Got(u)
  }

  /** The geometries of the lines whose fates are `fates`, numbered from
      `from`; skipped lines leave no entry, and `None` is an exception raised
      by unification, which aborts the whole run. */
  function Collect(k: Kernel, fates: seq<LineParse>, from: nat): (r: Option<seq<Parsed>>)
    ensures r.Some? ==> |r.value| <= |fates|
    decreases |fates|
  {
    if |fates| == 0 then Some([])
    else
      var rest := Collect(k, fates[1..], from + 1);
      match fates[0]
      case Skipped => rest
      case LineRaised => None
      case Got(u) =>
        if rest.None? then None else Some([Parsed(from, u, k.toWkt(u))] + rest.value)
  }

  /** Parsing aborts exactly when some line raises; otherwise every entry
      carries the number of the line it came from, in increasing order, and
      that line's unified geometry. */
  lemma {:induction false} CollectExact(k: Kernel, fates: seq<LineParse>, from: nat)
    ensures Collect(k, fates, from).None? <==> LineRaised in fates
    ensures Collect(k, fates, from).Some? ==>
      var ps := Collect(k, fates, from).value;
      (forall t :: 0 <= t < |ps| ==>
        from <= ps[t].line < from + |fates| && fates[ps[t].line - from] == Got(ps[t].original))
      && (forall s, t :: 0 <= s < t < |ps| ==> ps[s].line < ps[t].line)
  {
    CollectFails(k, fates, from);
    CollectOrigins(k, fates, from);
    CollectOrdered(k, fates, from);
  }

  lemma {:induction false} CollectFails(k: Kernel, fates: seq<LineParse>, from: nat)
    ensures Collect(k, fates, from).None? <==> LineRaised in fates
    decreases |fates|
  {
    if |fates| > 0 {
      CollectFails(k, fates[1..], from + 1);
      assert fates == [fates[0]] + fates[1..];
      assert LineRaised in fates <==> fates[0] == LineRaised || LineRaised in fates[1..];
    }
  }

  /** Entry `p` came from line `p.line`, numbered from `from`, which parsed
      to `p.original`. */
  predicate FromLine(fates: seq<LineParse>, from: nat, p: Parsed) {
    from <= p.line < from + |fates| && fates[p.line - from] == Got(p.original)
  }

  lemma {:induction false} CollectOrigins(k: Kernel, fates: seq<LineParse>, from: nat)
    ensures Collect(k, fates, from).Some? ==>
      forall t :: 0 <= t < |Collect(k, fates, from).value| ==> FromLine(fates, from, Collect(k, fates, from).value[t])
    decreases |fates|
  {
    if |fates| > 0 {
      var tail := fates[1..];
      CollectOrigins(k, tail, from + 1);
      var rest := Collect(k, tail, from + 1);
      if rest.Some? {
        var qs := rest.value;
        forall t | 0 <= t < |qs|
          ensures FromLine(fates, from, qs[t])
        {
          assert FromLine(tail, from + 1, qs[t]);
          assert fates[qs[t].line - from] == tail[qs[t].line - (from + 1)];
        }
        if fates[0].Got? {
          var ps := [Parsed(from, fates[0].geom, k.toWkt(fates[0].geom))] + qs;
          assert Collect(k, fates, from) == Some(ps);
          assert forall t :: 1 <= t < |ps| ==> ps[t] == qs[t - 1];
        }
      }
    }
  }

  lemma {:induction false} CollectOrdered(k: Kernel, fates: seq<LineParse>, from: nat)
    ensures Collect(k, fates, from).Some? ==>
      forall s, t :: 0 <= s < t < |Collect(k, fates, from).value| ==>
        Collect(k, fates, from).value[s].line < Collect(k, fates, from).value[t].line
    decreases |fates|
  {
    if |fates| > 0 {
      var tail := fates[1..];
      CollectOrdered(k, tail, from + 1);
      CollectOrigins(k, tail, from + 1);
      var rest := Collect(k, tail, from + 1);
      if rest.Some? && fates[0].Got? {
        var qs := rest.value;
        var ps := [Parsed(from, fates[0].geom, k.toWkt(fates[0].geom))] + qs;
        assert Collect(k, fates, from) == Some(ps);
        forall s, t | 0 <= s < t < |ps|
          ensures ps[s].line < ps[t].line
        {
          assert ps[t] == qs[t - 1] && FromLine(tail, from + 1, qs[t - 1]);
          if s > 0 {
            assert ps[s] == qs[s - 1] && qs[s - 1].line < qs[t - 1].line;
          }
        }
      }
    }
  }

  /** Every input line's fate, in order. */
  function LineFates(k: Kernel, lines: seq<string>): (r: seq<LineParse>)
    ensures |r| == |lines|
    ensures forall t :: 0 <= t < |lines| ==> r[t] == ParseLine(k, lines[t])
  {
    seq(|lines|, t requires 0 <= t < |lines| => ParseLine(k, lines[t]))
  }

  /** The input lines, parsed and unified, numbered from 1. */
  function ParseLines(k: Kernel, lines: seq<string>): Option<seq<Parsed>> {
    Collect(k, LineFates(k, lines), 1)
  }

  /** The first result: the first polygon, replaced by its hull when it is a
      MultiPolygon or its text says it is one. */
  function FirstPiece(k: Kernel, first: Parsed): Piece {
    var g := first.original;
    if k.kind(g) == MultiPolygonKind || StartsWith(k.toWkt(g), "MULTIPOLYGON") then
      Piece(1, k.hull(g), k.toWkt(k.hull(g)), FirstHulled, None)
    else Piece(1, g, k.toWkt(g), FirstKept, None)
  }

  /** The text printed for a chain-clip result. */
  function ChainWkt(k: Kernel, g: Geom): string {
    var w := if StartsWith(k.toWkt(g), "MULTIPOLYGON") then k.toWkt(k.hull(g)) else k.toWkt(g);
    if !StartsWith(w, "POLYGON") then
      if k.kind(g) == MultiPolygonKind && |k.parts(g)| > 0 then k.toWkt(k.parts(g)[0]) else k.toWkt(k.hull(g))
    else w
  }

  /** A step's result: the geometry, replaced by its hull unless a Polygon. */
  function Finish(k: Kernel, g: Geom, note: StepNote, index: nat): Piece {
    var single := SinglePart(k, g);
    Piece(index, single, ChainWkt(k, single), note, None)
  }

  /** The result written when a step raises: the original polygon. */
  function FailedPiece(k: Kernel, cur: Parsed, index: nat): Piece {
    var g := cur.original;
    var w := if StartsWith(cur.originalWkt, "MULTIPOLYGON") then
      (if k.kind(g) == MultiPolygonKind && |k.parts(g)| > 0 then k.toWkt(k.parts(g)[0]) else k.toWkt(k.hull(g)))
    else cur.originalWkt;
    Piece(index, g, w, StepFailed, None)
  }

  /** One step of the chain: clip `cur` by the previous result `prev`. The
      second component is the new value of the accumulator. */
  function ClipStep(k: Kernel, coordsOf: string -> seq<Point>, prev: Geom, cur: Parsed, index: nat): (r: (Piece, Geom))
    ensures r.1 == r.0.polygon
    ensures r.0.index == index
    ensures r.0.note == Disjoint <==> !k.intersects(prev, cur.original)
    ensures r.0.note == StepFailed ==> r.0.polygon == cur.original
    ensures r.0.note == Disjoint ==> r.0.polygon == SinglePart(k, cur.original)
    ensures r.0.note == StepFailed <==>
      (k.intersects(prev, cur.original)
       && (Reoptimized(k, coordsOf, cur.original, prev).None?
           || k.difference(Reoptimized(k, coordsOf, cur.original, prev).value.0,
                           Reoptimized(k, coordsOf, cur.original, prev).value.1).None?))
    ensures r.0.note == Covered ==>
      var (current, previous) := Reoptimized(k, coordsOf, cur.original, prev).value;
      k.isEmpty(Repair(k, k.difference(current, previous).value)) && r.0.polygon == SinglePart(k, current)
    ensures r.0.note == ClippedHulled ==>
      var (current, previous) := Reoptimized(k, coordsOf, cur.original, prev).value;
      var clipped := Repair(k, k.difference(current, previous).value);
      !k.isEmpty(clipped) && k.kind(clipped) == MultiPolygonKind && r.0.polygon == SinglePart(k, k.hull(clipped))
    ensures r.0.note == Clipped ==>
      var (current, previous) := Reoptimized(k, coordsOf, cur.original, prev).value;
      var clipped := Repair(k, k.difference(current, previous).value);
      !k.isEmpty(clipped) && k.kind(clipped) != MultiPolygonKind && r.0.polygon == SinglePart(k, clipped)
    ensures r.0.note in {Disjoint, StepFailed, Covered, ClippedHulled, Clipped}
    ensures RepairLaws(k) && r.0.note in {ClippedHulled, Clipped} ==> k.isValid(r.0.polygon)
  {
    var c := cur.original;
    if !k.intersects(prev, c) then
      var piece := Finish(k, c, Disjoint, index);
      (piece, piece.polygon)
    else match Reoptimized(k, coordsOf, c, prev)
      case None => (FailedPiece(k, cur, index), cur.original)
      case Some((current, previous)) =>
        match k.difference(current, previous)
        case None => (FailedPiece(k, cur, index), cur.original)
        case Some(d) =>
          var clipped := Repair(k, d);
          var piece :=
            if k.isEmpty(clipped) then Finish(k, current, Covered, index)
            else if k.kind(clipped) == MultiPolygonKind then Finish(k, k.hull(clipped), ClippedHulled, index)
            else Finish(k, clipped, Clipped, index);
          (piece, piece.polygon)
  }

  /** The clip loop: one result per parsed polygon; each polygon after the
      first is clipped by the result of the step before it. */
  method ChainClip(k: Kernel, coordsOf: string -> seq<Point>, ps: seq<Parsed>) returns (out: seq<Piece>)
    requires |ps| >= 2
    ensures |out| == |ps|
    ensures out[0] == FirstPiece(k, ps[0])
    ensures forall i :: 1 <= i < |ps| ==> out[i] == ClipStep(k, coordsOf, out[i - 1].polygon, ps[i], i + 1).0
  {
    var first := FirstPiece(k, ps[0]);
    out := [first];
    var previousClipped := first.polygon;
    var i := 1;
    while i < |ps|
      invariant 1 <= i <= |ps|
      invariant |out| == i && out[0] == first
      invariant previousClipped == out[i - 1].polygon
      invariant forall t :: 1 <= t < i ==> out[t] == ClipStep(k, coordsOf, out[t - 1].polygon, ps[t], t + 1).0
    {
      var (piece, next) := ClipStep(k, coordsOf, previousClipped, ps[i], i + 1);
      out := out + [piece];
      previousClipped := next;
      i := i + 1;
    }
  }

  // ---------------------------------------------------------------------------
  // De-overlap pass (`_remove_overlaps_from_results`)
  // ---------------------------------------------------------------------------

  /** The fate of one entry cut against the entries kept before it. */
  datatype Trim = Raised | Dropped | Kept(polygon: Geom, overlaps: nat)

  /** Cuts `g` by each of `prevs` it meets, in order: an empty difference
      drops it, a MultiPolygon difference keeps its largest part. */
  function TrimAgainst(k: Kernel, coordsOf: string -> seq<Point>, g: Geom, prevs: seq<Geom>, count: nat): (r: Trim)
    ensures r.Kept? ==> count <= r.overlaps <= count + |prevs|
    decreases |prevs|
  {
    if |prevs| == 0 then Kept(g, count)
    else if !k.intersects(g, prevs[0]) then TrimAgainst(k, coordsOf, g, prevs[1..], count)
    else match Reoptimized(k, coordsOf, g, prevs[0])
      case None => Raised
      case Some((current, previous)) =>
        match k.difference(current, previous)
        case None => Raised
        case Some(d) =>
          var cut := Repair(k, d);
          if k.isEmpty(cut) then Dropped
          else if k.kind(cut) == MultiPolygonKind then
            if |k.parts(cut)| > 0 then
              TrimAgainst(k, coordsOf, k.parts(cut)[ArgMaxArea(k, k.parts(cut))], prevs[1..], count + 1)
            else Dropped
          else TrimAgainst(k, coordsOf, cut, prevs[1..], count + 1)
  }

  function Polygons(pieces: seq<Piece>): (r: seq<Geom>)
    ensures |r| == |pieces|
    ensures forall t :: 0 <= t < |pieces| ==> r[t] == pieces[t].polygon
  {
    seq(|pieces|, t requires 0 <= t < |pieces| => pieces[t].polygon)
  }

  /** The text printed for a de-overlapped entry. */
  function DeoverlapWkt(k: Kernel, g: Geom): string {
    if StartsWith(k.toWkt(g), "MULTIPOLYGON") then k.toWkt(k.hull(g)) else k.toWkt(g)
  }

  /** The entries from position `i` on, each cut against the entries kept in
      `acc`; `None` when any cut raised. */
  function Sweep(k: Kernel, coordsOf: string -> seq<Point>, rs: seq<Piece>, i: nat, acc: seq<Piece>): (r: Option<seq<Piece>>)
    requires i <= |rs|
    ensures r.Some? ==> |acc| <= |r.value| <= |acc| + |rs| - i && r.value[..|acc|] == acc
    decreases |rs| - i
  {
    if i == |rs| then Some(acc)
    else match TrimAgainst(k, coordsOf, rs[i].polygon, Polygons(acc), 0)
      case Raised => None
      case Dropped => Sweep(k, coordsOf, rs, i + 1, acc)
      case Kept(g, n) =>
        if k.isEmpty(g) then Sweep(k, coordsOf, rs, i + 1, acc)
        else
          var piece := Piece(rs[i].index, g, DeoverlapWkt(k, g), rs[i].note, Some(n));
          var r := Sweep(k, coordsOf, rs, i + 1, acc + [piece]);
          assert r.Some? ==> r.value[..|acc|] == r.value[..|acc| + 1][..|acc|];
          r
  }

  /** What the de-overlap pass returns: short lists unchanged, the swept list,
      or the input itself when a cut raised. */
  function DeOverlapped(k: Kernel, coordsOf: string -> seq<Point>, rs: seq<Piece>): seq<Piece> {
    if |rs| <= 1 then rs
    else match Sweep(k, coordsOf, rs, 1, [rs[0]])
      case None => rs
      case Some(out) => out
  }

  /** `a` is `b` after the pass: same position and step note. */
  predicate SameSource(a: Piece, b: Piece) {
    a.index == b.index && a.note == b.note
  }

  /** `out` comes from a subsequence of `rs`, entry by entry, in order. */
  predicate Thinned(out: seq<Piece>, rs: seq<Piece>)
    decreases |rs|
  {
    if |out| == 0 then true
    else if |rs| == 0 then false
    else
      (SameSource(out[|out| - 1], rs[|rs| - 1]) && Thinned(out[..|out| - 1], rs[..|rs| - 1]))
      || Thinned(out, rs[..|rs| - 1])
  }

  lemma {:induction false} ThinnedShorter(out: seq<Piece>, rs: seq<Piece>)
    requires Thinned(out, rs)
    ensures |out| <= |rs|
    decreases |rs|
  {
    if |out| > 0 {
      if SameSource(out[|out| - 1], rs[|rs| - 1]) && Thinned(out[..|out| - 1], rs[..|rs| - 1]) {
        ThinnedShorter(out[..|out| - 1], rs[..|rs| - 1]);
      } else {
        ThinnedShorter(out, rs[..|rs| - 1]);
      }
    }
  }

  lemma {:induction false} ThinnedSelf(rs: seq<Piece>)
    ensures Thinned(rs, rs)
    decreases |rs|
  {
    if |rs| > 0 {
      ThinnedSelf(rs[..|rs| - 1]);
    }
  }

  lemma {:induction false} SweepThinned(k: Kernel, coordsOf: string -> seq<Point>, rs: seq<Piece>, i: nat, acc: seq<Piece>)
    requires i <= |rs| && Thinned(acc, rs[..i])
    ensures Sweep(k, coordsOf, rs, i, acc).Some? ==> Thinned(Sweep(k, coordsOf, rs, i, acc).value, rs)
    decreases |rs| - i
  {
    if i == |rs| {
      assert rs[..i] == rs;
    } else {
      assert rs[..i + 1][..i] == rs[..i];
      match TrimAgainst(k, coordsOf, rs[i].polygon, Polygons(acc), 0)
      case Raised =>
      case Dropped =>
        assert Thinned(acc, rs[..i + 1]);
        SweepThinned(k, coordsOf, rs, i + 1, acc);
      case Kept(g, n) =>
        if k.isEmpty(g) {
          assert Thinned(acc, rs[..i + 1]);
          SweepThinned(k, coordsOf, rs, i + 1, acc);
        } else {
          var piece := Piece(rs[i].index, g, DeoverlapWkt(k, g), rs[i].note, Some(n));
          var next := acc + [piece];
          assert next[..|next| - 1] == acc;
          assert Thinned(next, rs[..i + 1]);
          SweepThinned(k, coordsOf, rs, i + 1, next);
        }
    }
  }

  /** The pass keeps lists of at most one entry as they are; otherwise it keeps
      the first entry, and every entry it outputs comes from an input entry of
      the same position and note, in input order, so it never grows the list. */
  lemma DeOverlappedThinned(k: Kernel, coordsOf: string -> seq<Point>, rs: seq<Piece>)
    ensures |rs| <= 1 ==> DeOverlapped(k, coordsOf, rs) == rs
    ensures Thinned(DeOverlapped(k, coordsOf, rs), rs)
    ensures |DeOverlapped(k, coordsOf, rs)| <= |rs|
    ensures |rs| >= 1 ==> |DeOverlapped(k, coordsOf, rs)| >= 1 && DeOverlapped(k, coordsOf, rs)[0] == rs[0]
  {
    var out := DeOverlapped(k, coordsOf, rs);
    if |rs| > 1 {
      var first := [rs[0]];
      assert rs[..1] == first;
      assert Thinned(first, rs[..1]) by {
        assert first[..0] == [] && rs[..1][..0] == [];
      }
      SweepThinned(k, coordsOf, rs, 1, first);
      if Sweep(k, coordsOf, rs, 1, first).None? {
        ThinnedSelf(rs);
      }
    } else {
      ThinnedSelf(rs);
    }
    ThinnedShorter(out, rs);
  }

  /** Cuts `g` against every entry of `prevs`, stopping when it drops or raises. */
  method TrimPiece(k: Kernel, coordsOf: string -> seq<Point>, g: Geom, prevs: seq<Geom>) returns (t: Trim)
    ensures t == TrimAgainst(k, coordsOf, g, prevs, 0)
  {
    var processed := g;
    var overlapsRemoved := 0;
    var j := 0;
    while j < |prevs|
      invariant 0 <= j <= |prevs|
      invariant TrimAgainst(k, coordsOf, processed, prevs[j..], overlapsRemoved) == TrimAgainst(k, coordsOf, g, prevs, 0)
    {
      assert prevs[j..][1..] == prevs[j + 1..];
      if k.intersects(processed, prevs[j]) {
        var reopt := Reoptimized(k, coordsOf, processed, prevs[j]);
        if reopt.None? {
          return Raised;
        }
        var (current, previous) := reopt.value;
        var difference := k.difference(current, previous);
        if difference.None? {
          return Raised;
        }
        var cut := Repair(k, difference.value);
        if k.isEmpty(cut) {
          return Dropped;
        }
        if k.kind(cut) == MultiPolygonKind {
          if |k.parts(cut)| > 0 {
            processed := k.parts(cut)[ArgMaxArea(k, k.parts(cut))];
          } else {
            return Dropped;
          }
        } else {
          processed := cut;
        }
        overlapsRemoved := overlapsRemoved + 1;
      }
      j := j + 1;
    }
    t := Kept(processed, overlapsRemoved);
  }

  /** `_remove_overlaps_from_results`. */
  method RemoveOverlaps(k: Kernel, coordsOf: string -> seq<Point>, rs: seq<Piece>) returns (out: seq<Piece>)
    ensures out == DeOverlapped(k, coordsOf, rs)
  {
    if |rs| <= 1 {
      return rs;
    }
    out := [rs[0]];
    var i := 1;
    while i < |rs|
      invariant 1 <= i <= |rs|
      invariant Sweep(k, coordsOf, rs, i, out) == Sweep(k, coordsOf, rs, 1, [rs[0]])
    {
      var t := TrimPiece(k, coordsOf, rs[i].polygon, Polygons(out));
      match t {
        case Raised =>
          return rs;
        case Dropped =>
        case Kept(g, n) =>
          if !k.isEmpty(g) {
            out := out + [Piece(rs[i].index, g, DeoverlapWkt(k, g), rs[i].note, Some(n))];
          }
      }
      i := i + 1;
    }
  }

  /** How a batch chain split ends. */
  datatype ChainOutcome =
    | ParseAborted                        // unification raised while parsing
    | NoPolygons                          // no line parsed
    | SinglePolygon                       // one line parsed: nothing to clip
    | ChainDone(chain: seq<Piece>, final: seq<Piece>)

  /** `_process_batch_chain_split`: parse, clip in order, then de-overlap. */
  method BatchChainSplit(k: Kernel, coordsOf: string -> seq<Point>, text: string) returns (o: ChainOutcome)
    ensures var parsed := ParseLines(k, Split(Strip(text), '\n'));
      && (parsed.None? <==> o == ParseAborted)
      && (parsed == Some([]) <==> o == NoPolygons)
      && (parsed.Some? && |parsed.value| == 1 <==> o == SinglePolygon)
      && (parsed.Some? && |parsed.value| >= 2 ==>
            o.ChainDone? && |o.chain| == |parsed.value|
            && o.final == DeOverlapped(k, coordsOf, o.chain) && 1 <= |o.final| <= |o.chain|)
  {
    var parsed := ParseLines(k, Split(Strip(text), '\n'));
    if parsed.None? {
      return ParseAborted;
    }
    if |parsed.value| == 0 {
      return NoPolygons;
    }
    if |parsed.value| == 1 {
      return SinglePolygon;
    }
    var chain := ChainClip(k, coordsOf, parsed.value);
    var final := RemoveOverlaps(k, coordsOf, chain);
    DeOverlappedThinned(k, coordsOf, chain);
    o := ChainDone(chain, final);
  }
}
