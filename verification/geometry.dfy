/** The geometry vocabulary shared by the polygon tools: an opaque shapely
    geometry with the kernel operations the tools call, planar points, the
    decimal rounding and fixed-point formatting applied to coordinates, and the
    `POLYGON ((x y, ...))` text of OGC 06-103r4 (Simple Features Access
    Part 1), clause 7. */
module Geometry {
  import opened Wrappers
  import opened Text
  import opened Decimal

  /** A shapely geometry; only the kernel below looks inside it. */
  type Geom(==, !new)

  /** The classes the tools test with `isinstance`: `Polygon`, `MultiPolygon`,
      any other multi-part geometry (it has `.geoms`), and everything else. */
  datatype Kind = PolygonKind | MultiPolygonKind | OtherMultiKind | OtherKind

  /** The shapely/GEOS operations, as uninterpreted total functions.
      The overlay operations may raise a GEOS error, which is `None`. */
  datatype Kernel = Kernel(
    kind: Geom -> Kind,
    parts: Geom -> seq<Geom>,                 // `.geoms` of a multi-part geometry
    intersects: (Geom, Geom) -> bool,         // `a.intersects(b)`
    intersection: (Geom, Geom) -> Geom,       // `a.intersection(b)`
    difference: (Geom, Geom) -> Option<Geom>, // `a.difference(b)`
    unaryUnion: seq<Geom> -> Option<Geom>,    // `unary_union(gs)`
    union: (Geom, Geom) -> Option<Geom>,      // `a.union(b)`
    hull: Geom -> Geom,                       // `.convex_hull`
    isValid: Geom -> bool,
    makeValid: Geom -> Geom,
    isEmpty: Geom -> bool,
    area: Geom -> real,
    toWkt: Geom -> string,                    // `.wkt`
    loads: string -> Option<Geom>             // `shapely.wkt.loads`; None when it raises
  )

  /** `g` if valid, else `make_valid(g)`: the repair step every tool applies. */
  function Repair(k: Kernel, g: Geom): Geom {
    if k.isValid(g) then g else k.makeValid(g)
  }

  /** What GEOS guarantees of its repair operations: `make_valid` and
      `convex_hull` return valid geometries. */
  ghost predicate RepairLaws(k: Kernel) {
    (forall g :: k.isValid(k.makeValid(g))) && (forall g :: k.isValid(k.hull(g)))
  }

  /** Under the repair laws a repaired geometry is valid. */
  lemma RepairIsValid(k: Kernel, g: Geom)
    requires RepairLaws(k)
    ensures k.isValid(Repair(k, g))
  {
  }

  /** A geometry with `.geoms` (`hasattr(g, 'geoms')`). */
  predicate HasParts(k: Kernel, g: Geom) {
    k.kind(g) == MultiPolygonKind || k.kind(g) == OtherMultiKind
  }

  /** Index of the first part of largest area (`max(gs, key=area)`). */
  function ArgMaxArea(k: Kernel, gs: seq<Geom>): (i: nat)
    requires |gs| > 0
    ensures i < |gs|
    ensures forall j :: 0 <= j < |gs| ==> k.area(gs[j]) <= k.area(gs[i])
    ensures forall j :: 0 <= j < i ==> k.area(gs[j]) < k.area(gs[i])
  {
    if |gs| == 1 then 0
    else
      var i := ArgMaxArea(k, gs[..|gs| - 1]);
      if k.area(gs[|gs| - 1]) > k.area(gs[i]) then |gs| - 1 else i
  }

  datatype Point = Point(x: real, y: real)

  function SqDist(p: Point, q: Point): real {
    (p.x - q.x) * (p.x - q.x) + (p.y - q.y) * (p.y - q.y)
  }

  /** The Euclidean distance of `p` and `q` is at most `tol`; the square root is
      avoided by comparing squares, which is exact for a non-negative `tol`. */
  predicate Near(p: Point, q: Point, tol: real) {
    tol >= 0.0 && SqDist(p, q) <= tol * tol
  }

  /** A ring of three or more points whose first and last points differ gets
      its first point appended; afterwards the ring is closed, and it grew by at
      most one point at its end. */
  function CloseRing(c: seq<Point>): (r: seq<Point>)
    ensures |r| == |c| || (|c| >= 3 && |r| == |c| + 1)
    ensures |c| >= 3 ==> r[0] == r[|r| - 1]
    ensures r[..|c|] == c
    ensures |c| < 3 ==> r == c
  {
    if |c| >= 3 && c[0] != c[|c| - 1] then c + [c[0]] else c
  }

  function RoundPoint(p: Point, d: nat): Point {
    Point(RoundTo(p.x, d), RoundTo(p.y, d))
  }

  /** Every coordinate rounded to `d` decimals. */
  function RoundPoints(pts: seq<Point>, d: nat): (r: seq<Point>)
    ensures |r| == |pts|
    ensures forall i :: 0 <= i < |pts| ==> r[i] == RoundPoint(pts[i], d)
  {
    seq(|pts|, i requires 0 <= i < |pts| => RoundPoint(pts[i], d))
  }

  /** A character `f"{x:.{d}f}"` may print. */
  predicate NumberChar(c: char) {
    IsDigit(c) || c == '-' || c == '.'
  }

  function Quotient(n: nat, p: nat): nat
    requires p >= 1
  {
    n / p
  }

  function Remainder(n: nat, p: nat): nat
    requires p >= 1
  {
    n % p
  }

  /** The digits of `n` scaled down by `10^d`: the whole part, then, when `d > 0`,
      a point and exactly `d` decimals. */
  function ScaledDigits(n: nat, d: nat): (r: string)
    ensures |r| >= 1
    ensures forall i :: 0 <= i < |r| ==> NumberChar(r[i])
  {
    var p := Pow10(d);
    var whole := NatToString(Quotient(n, p));
    if d == 0 then whole
    else
      var decimals := PadNat(Remainder(n, p), d);
      var r := whole + "." + decimals;
      assert forall i :: |whole| + 1 <= i < |r| ==> r[i] == decimals[i - |whole| - 1];
      r
  }

  /** `f"{x:.{d}f}"`: an optional minus sign, then `|x|` rounded to `d` decimals. */
  function FormatFixed(x: real, d: nat): (r: string)
    ensures |r| >= 1
    ensures forall i :: 0 <= i < |r| ==> NumberChar(r[i])
  {
    var m := RoundHalfEven(Abs(x) * Pow10(d) as real);
    var digits := ScaledDigits(if m < 0 then 0 else m, d);
    (if x < 0.0 then "-" else "") + digits
  }

  /** The text `"x y"` of one coordinate pair at `d` decimals. */
  function PairText(p: Point, d: nat): (r: string)
    ensures ',' !in r
  {
    var r := FormatFixed(p.x, d) + " " + FormatFixed(p.y, d);
    assert forall i :: 0 <= i < |r| ==> r[i] != ',';
    r
  }

  function PairTexts(pts: seq<Point>, d: nat): (r: seq<string>)
    ensures |r| == |pts|
    ensures forall i :: 0 <= i < |r| ==> r[i] == PairText(pts[i], d)
  {
    if |pts| == 0 then [] else [PairText(pts[0], d)] + PairTexts(pts[1..], d)
  }

  /** The `"x y"` texts of the points, one per point. */
  method FormatPairs(pts: seq<Point>, d: nat) returns (texts: seq<string>)
    ensures texts == PairTexts(pts, d)
  {
    texts := [];
    var j := 0;
    while j < |pts|
      invariant 0 <= j <= |pts|
      invariant texts == PairTexts(pts, d)[..j]
    {
      var pair := PairText(pts[j], d);
      PrefixExtend(PairTexts(pts, d), j);
      texts := texts + [pair];
      j := j + 1;
    }
    assert PairTexts(pts, d)[..j] == PairTexts(pts, d);
  }

  /** Taking one more element of a sequence extends its prefix by it. */
  lemma PrefixExtend<T>(s: seq<T>, j: nat)
    requires j < |s|
    ensures s[..j + 1] == s[..j] + [s[j]]
  {
  }

  /** Concatenation regroups freely. */
  lemma AppendAssoc<T>(a: seq<T>, b: seq<T>, c: seq<T>)
    ensures a + (b + c) == (a + b) + c
  {
  }

  /** `"POLYGON ((" + ", ".join(pairs) + "))"`: the single-ring polygon text. */
  function PolygonText(pts: seq<Point>, d: nat): string {
    "POLYGON ((" + Join(PairTexts(pts, d), ", ") + "))"
  }

  /** The pieces of the text a split at commas recovers: every pair but the
      first follows the blank after its comma. */
  function CommaPieces(pairs: seq<string>): (r: seq<string>)
    ensures |r| == |pairs|
  {
    seq(|pairs|, i requires 0 <= i < |pairs| => if i == 0 then pairs[0] else " " + pairs[i])
  }

  lemma {:induction false} JoinCommaBlank(pairs: seq<string>)
    ensures Join(pairs, ", ") == Join(CommaPieces(pairs), ",")
  {
    if |pairs| > 1 {
      JoinCommaBlank(pairs[1..]);
      var tail := CommaPieces(pairs[1..]);
      var pieces := CommaPieces(pairs);
      assert pieces[1..] == [" " + tail[0]] + tail[1..];
      if |tail| > 1 {
        assert Join(pieces[1..], ",") == " " + tail[0] + "," + Join(tail[1..], ",");
        assert Join(tail, ",") == tail[0] + "," + Join(tail[1..], ",");
      }
    }
  }

  /** The polygon text is `POLYGON ((` body `))`, and splitting its body at the
      commas yields the coordinate pairs one per point, in order. */
  lemma PolygonTextPairs(pts: seq<Point>, d: nat)
    requires |pts| >= 1
    ensures PolygonText(pts, d) == "POLYGON ((" + Join(PairTexts(pts, d), ", ") + "))"
    ensures Split(Join(PairTexts(pts, d), ", "), ',') == CommaPieces(PairTexts(pts, d))
  {
    var pairs := PairTexts(pts, d);
    JoinCommaBlank(pairs);
    CommaPiecesNoComma(pairs);
    SplitJoin(CommaPieces(pairs), ',');
  }

  lemma CommaPiecesNoComma(pairs: seq<string>)
    requires forall i :: 0 <= i < |pairs| ==> ',' !in pairs[i]
    ensures forall i :: 0 <= i < |pairs| ==> ',' !in CommaPieces(pairs)[i]
  {
    forall i | 0 <= i < |pairs| ensures ',' !in CommaPieces(pairs)[i] {
      if i > 0 {
        assert CommaPieces(pairs)[i] == " " + pairs[i];
      }
    }
  }
}
