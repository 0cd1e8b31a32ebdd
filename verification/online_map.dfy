/** The map helpers of `tools/online_map.py`: the sector beam and radius
    tables, the bounding box outside which no coordinate shift applies, the
    zoom level chosen from the extent of the loaded layers, the quick-locate
    check, and the layer panel whose display order the user rearranges. */
module OnlineMap {
  import opened Wrappers
  import opened Text
  import opened Decimal

  // ---------------------------------------------------------------------------
  // Sector drawing tables (`calculate_sector_beam`, `calculate_sector_radius`)
  // ---------------------------------------------------------------------------

  const IndoorSite: string := "室分"

  /** The beam width (degrees) of a sector: indoor sites are drawn as almost
      full circles; 5G and 4G cells by the first band name their band text
      contains; anything else 40. */
  function SectorBeam(siteType: string, zhishi: string, pinduan: string): (r: real)
    ensures r in {359.0, 40.0, 65.0, 70.0, 30.0, 50.0, 45.0, 60.0, 55.0}
    ensures Strip(siteType) == IndoorSite ==> r == 359.0
    ensures Strip(siteType) != IndoorSite && Strip(zhishi) !in {"5G", "4G"} ==> r == 40.0
    ensures Strip(siteType) != IndoorSite && Strip(zhishi) == "5G" ==>
      r == (if Contains(Strip(pinduan), "700M") then 40.0
            else if Contains(Strip(pinduan), "2.6G") then 65.0
            else if Contains(Strip(pinduan), "4.9G") then 70.0
            else 40.0)
    ensures Strip(siteType) != IndoorSite && Strip(zhishi) == "4G" ==>
      r == (if Contains(Strip(pinduan), "FDD900") then 30.0
            else if Contains(Strip(pinduan), "FDD1800") then 50.0
            else if Contains(Strip(pinduan), "F") then 45.0
            else if Contains(Strip(pinduan), "D") then 60.0
            else if Contains(Strip(pinduan), "A") then 55.0
            else 40.0)
  {
    var site := Strip(siteType);
    var system := Strip(zhishi);
    var band := Strip(pinduan);
    if site == IndoorSite then 359.0
    else if system == "5G" then
      if Contains(band, "700M") then 40.0
      else if Contains(band, "2.6G") then 65.0
      else if Contains(band, "4.9G") then 70.0
      else 40.0
    else if system == "4G" then
      if Contains(band, "FDD900") then 30.0
      else if Contains(band, "FDD1800") then 50.0
      else if Contains(band, "F") then 45.0
      else if Contains(band, "D") then 60.0
      else if Contains(band, "A") then 55.0
      else 40.0
    else 40.0
  }

  /** The radius (metres) of a sector, by the same precedence as the beam. */
  function SectorRadius(siteType: string, zhishi: string, pinduan: string): (r: real)
    ensures 30.0 <= r <= 50.0
    ensures Strip(siteType) == IndoorSite ==> r == 30.0
    ensures Strip(siteType) != IndoorSite && Strip(zhishi) !in {"5G", "4G"} ==> r == 40.0
    ensures Strip(siteType) != IndoorSite && Strip(zhishi) == "5G" ==>
      r == (if Contains(Strip(pinduan), "700M") then 50.0
            else if Contains(Strip(pinduan), "2.6G") then 40.0
            else if Contains(Strip(pinduan), "4.9G") then 30.0
            else 40.0)
    ensures Strip(siteType) != IndoorSite && Strip(zhishi) == "4G" ==>
      r == (if Contains(Strip(pinduan), "FDD900") then 47.0
            else if Contains(Strip(pinduan), "FDD1800") then 43.0
            else if Contains(Strip(pinduan), "F") then 39.0
            else if Contains(Strip(pinduan), "D") then 42.0
            else if Contains(Strip(pinduan), "A") then 38.0
            else 40.0)
  {
    var site := Strip(siteType);
    var system := Strip(zhishi);
    var band := Strip(pinduan);
    if site == IndoorSite then 30.0
    else if system == "5G" then
      if Contains(band, "700M") then 50.0
      else if Contains(band, "2.6G") then 40.0
      else if Contains(band, "4.9G") then 30.0
      else 40.0
    else if system == "4G" then
      if Contains(band, "FDD900") then 47.0
      else if Contains(band, "FDD1800") then 43.0
      else if Contains(band, "F") then 39.0
      else if Contains(band, "D") then 42.0
      else if Contains(band, "A") then 38.0
      else 40.0
    else 40.0
  }

  /** The row of the drawing tables a sector is drawn by. */
  datatype TableRow = IndoorRow | Nr700 | Nr2600 | Nr4900
                    | Fdd900 | Fdd1800 | BandF | BandD | BandA | DefaultRow

  /** The row of the first `(name, row)` pair whose name `band` contains,
      or the default row when it contains none. */
  function FirstContained(band: string, rows: seq<(string, TableRow)>): (r: TableRow)
    ensures r == DefaultRow || exists i :: 0 <= i < |rows| && rows[i].1 == r && Contains(band, rows[i].0)
  {
    if |rows| == 0 then DefaultRow
    else if Contains(band, rows[0].0) then rows[0].1
    else
      var r := FirstContained(band, rows[1..]);
      assert r != DefaultRow ==> exists i :: 1 <= i < |rows| && rows[i].1 == r && Contains(band, rows[i].0) by {
        if r != DefaultRow {
          var j :| 0 <= j < |rows[1..]| && rows[1..][j].1 == r && Contains(band, rows[1..][j].0);
          assert rows[j + 1] == rows[1..][j];
        }
      }
      r
  }

  /** The bands of each system, in the order the drawing code tries them. */
  const Rows5G: seq<(string, TableRow)> := [("700M", Nr700), ("2.6G", Nr2600), ("4.9G", Nr4900)]
  const Rows4G: seq<(string, TableRow)> :=
    [("FDD900", Fdd900), ("FDD1800", Fdd1800), ("F", BandF), ("D", BandD), ("A", BandA)]

  /** The table row a sector falls under. */
  function RowOf(siteType: string, zhishi: string, pinduan: string): TableRow {
    if Strip(siteType) == IndoorSite then IndoorRow
    else if Strip(zhishi) == "5G" then FirstContained(Strip(pinduan), Rows5G)
    else if Strip(zhishi) == "4G" then FirstContained(Strip(pinduan), Rows4G)
    else DefaultRow
  }

  /** Beam width and radius of each table row. */
  function RowBeam(t: TableRow): real {
    match t
    case IndoorRow => 359.0
    case Nr700 => 40.0  case Nr2600 => 65.0  case Nr4900 => 70.0
    case Fdd900 => 30.0  case Fdd1800 => 50.0
    case BandF => 45.0  case BandD => 60.0  case BandA => 55.0
    case DefaultRow => 40.0
  }

  function RowRadius(t: TableRow): real {
    match t
    case IndoorRow => 30.0
    case Nr700 => 50.0  case Nr2600 => 40.0  case Nr4900 => 30.0
    case Fdd900 => 47.0  case Fdd1800 => 43.0
    case BandF => 39.0  case BandD => 42.0  case BandA => 38.0
    case DefaultRow => 40.0
  }

  /** Beam and radius follow the same precedence: both are read off the one
      table row the sector's site type, system and band select. */
  lemma {:induction false} BeamAndRadiusShareRow(siteType: string, zhishi: string, pinduan: string)
    ensures SectorBeam(siteType, zhishi, pinduan) == RowBeam(RowOf(siteType, zhishi, pinduan))
    ensures SectorRadius(siteType, zhishi, pinduan) == RowRadius(RowOf(siteType, zhishi, pinduan))
  {
    var band := Strip(pinduan);
    if Strip(siteType) != IndoorSite && Strip(zhishi) == "5G" {
      FirstOf5G(band);
    } else if Strip(siteType) != IndoorSite && Strip(zhishi) == "4G" {
      FirstOf4G(band);
    }
  }

  lemma FirstOf5G(band: string)
    ensures FirstContained(band, Rows5G) ==
      (if Contains(band, "700M") then Nr700 else if Contains(band, "2.6G") then Nr2600
       else if Contains(band, "4.9G") then Nr4900 else DefaultRow)
  {
    FirstContainedCons(band, ("700M", Nr700), [("2.6G", Nr2600), ("4.9G", Nr4900)]);
    FirstContainedCons(band, ("2.6G", Nr2600), [("4.9G", Nr4900)]);
    FirstContainedCons(band, ("4.9G", Nr4900), []);
  }

  lemma FirstOf4G(band: string)
    ensures FirstContained(band, Rows4G) ==
      (if Contains(band, "FDD900") then Fdd900 else if Contains(band, "FDD1800") then Fdd1800
       else if Contains(band, "F") then BandF else if Contains(band, "D") then BandD
       else if Contains(band, "A") then BandA else DefaultRow)
  {
    FirstContainedCons(band, ("FDD900", Fdd900), [("FDD1800", Fdd1800), ("F", BandF), ("D", BandD), ("A", BandA)]);
    FirstContainedCons(band, ("FDD1800", Fdd1800), [("F", BandF), ("D", BandD), ("A", BandA)]);
    FirstContainedCons(band, ("F", BandF), [("D", BandD), ("A", BandA)]);
    FirstContainedCons(band, ("D", BandD), [("A", BandA)]);
    FirstContainedCons(band, ("A", BandA), []);
  }

  /** One unfolding of `FirstContained` on a list written as head and tail. */
  lemma FirstContainedCons(band: string, p: (string, TableRow), rest: seq<(string, TableRow)>)
    ensures FirstContained(band, [p] + rest) ==
      (if Contains(band, p.0) then p.1 else FirstContained(band, rest))
  {
    assert ([p] + rest)[1..] == rest;
  }

  /** A band text naming `FDD1800` also contains `F` and `D`. */
  lemma FddBandLetters(band: string)
    requires Contains(band, "FDD1800")
    ensures Contains(band, "F") && Contains(band, "D")
  {
    ContainsIff(band, "FDD1800");
    var i: nat :| OccursAt(band, "FDD1800", i);
    assert band[i] == 'F' by { assert band[i..i + 7][0] == band[i]; }
    assert band[i + 1] == 'D' by { assert band[i..i + 7][1] == band[i + 1]; }
    assert OccursAt(band, "F", i) by { assert band[i..i + 1] == [band[i]]; }
    assert OccursAt(band, "D", i + 1) by { assert band[i + 1..i + 2] == [band[i + 1]]; }
    ContainsIff(band, "F");
    ContainsIff(band, "D");
  }

  /** A 4G band named `FDD1800` also contains `F` and `D`; the order of the
      tests gives the FDD bands their own entries. */
  lemma FddBandsTakePrecedence(siteType: string, zhishi: string, pinduan: string)
    requires Strip(siteType) != IndoorSite && Strip(zhishi) == "4G"
    requires Contains(Strip(pinduan), "FDD1800") && !Contains(Strip(pinduan), "FDD900")
    ensures Contains(Strip(pinduan), "F") && Contains(Strip(pinduan), "D")
    ensures SectorBeam(siteType, zhishi, pinduan) == 50.0 && SectorRadius(siteType, zhishi, pinduan) == 43.0
  {
    FddBandLetters(Strip(pinduan));
  }

  // ---------------------------------------------------------------------------
  // Coordinates (`CoordinateConverter`)
  // ---------------------------------------------------------------------------

  /** Outside the box of longitudes 72.004 to 137.8347 and latitudes 0.8293 to
      55.8271 no shift to the GCJ-02 system applies. */
  predicate OutOfChina(lng: real, lat: real) {
    lng < 72.004 || lng > 137.8347 || lat < 0.8293 || lat > 55.8271
  }

  /** `wgs84_to_gcj02`; `shift` is the offset formula applied inside the box. */
  function Wgs84ToGcj02(lng: real, lat: real, shift: (real, real) -> (real, real)): (r: (real, real))
    ensures OutOfChina(lng, lat) ==> r == (lng, lat)
    ensures !OutOfChina(lng, lat) ==> r == shift(lng, lat)
  {
    if OutOfChina(lng, lat) then (lng, lat) else shift(lng, lat)
  }

  // ---------------------------------------------------------------------------
  // Zoom (`_render_map`)
  // ---------------------------------------------------------------------------

  /** The zoom level for the larger side (in degrees) of the layers' extent. */
  function AutoZoom(maxRange: real): (z: int)
    ensures 5 <= z <= 13
    ensures maxRange > 10.0 <==> z == 5
    ensures maxRange <= 0.05 <==> z == 13
  {
    if maxRange > 10.0 then 5
    else if maxRange > 5.0 then 6
    else if maxRange > 2.0 then 7
    else if maxRange > 1.0 then 8
    else if maxRange > 0.5 then 9
    else if maxRange > 0.2 then 10
    else if maxRange > 0.1 then 11
    else if maxRange > 0.05 then 12
    else 13
  }

  /** A larger extent never gets a closer zoom. */
  lemma AutoZoomMonotone(a: real, b: real)
    requires a <= b
    ensures AutoZoom(b) <= AutoZoom(a)
  {
  }

  // ---------------------------------------------------------------------------
  // Quick locate
  // ---------------------------------------------------------------------------

  datatype LocateOutcome = MissingInput | NotANumber | OutOfRange | Located(lat: real, lon: real)

  /** The quick-locate check: both texts must be given and parse (`parse` is
      Python's `float`), with the latitude in [-90, 90] and the longitude in
      [-180, 180]. */
  function Locate(latText: string, lonText: string, parse: string -> Option<real>): (r: LocateOutcome)
    ensures r.Located? <==>
      latText != "" && lonText != "" && parse(Strip(latText)).Some? && parse(Strip(lonText)).Some?
      && -90.0 <= parse(Strip(latText)).value <= 90.0 && -180.0 <= parse(Strip(lonText)).value <= 180.0
    ensures r.Located? ==> r == Located(parse(Strip(latText)).value, parse(Strip(lonText)).value)
    ensures r == MissingInput <==> latText == "" || lonText == ""
  {
    if latText == "" || lonText == "" then MissingInput
    else match (parse(Strip(latText)), parse(Strip(lonText)))
      case (Some(lat), Some(lon)) =>
        if -90.0 <= lat <= 90.0 && -180.0 <= lon <= 180.0 then Located(lat, lon) else OutOfRange
      case _ => NotANumber
  }

  // ---------------------------------------------------------------------------
  // Layer order as a sequence
  // ---------------------------------------------------------------------------

  predicate Distinct(s: seq<string>) {
    forall i, j :: 0 <= i < j < |s| ==> s[i] != s[j]
  }

  /** `[k for k in s if k in keys]`. */
  function KeepIn(s: seq<string>, keys: set<string>): (r: seq<string>)
    ensures forall k :: k in r <==> k in s && k in keys
    ensures |r| <= |s|
  {
    if |s| == 0 then []
    else KeepIn(s[..|s| - 1], keys) + if s[|s| - 1] in keys then [s[|s| - 1]] else []
  }

  lemma {:induction false} KeepInDistinct(s: seq<string>, keys: set<string>)
    requires Distinct(s)
    ensures Distinct(KeepIn(s, keys))
  {
    if |s| > 0 {
      var init := s[..|s| - 1];
      assert Distinct(init);
      KeepInDistinct(init, keys);
      assert s[|s| - 1] !in init;
    }
  }

  lemma {:induction false} KeepInAll(s: seq<string>, keys: set<string>)
    requires forall k :: k in s ==> k in keys
    ensures KeepIn(s, keys) == s
  {
    if |s| > 0 {
      KeepInAll(s[..|s| - 1], keys);
    }
  }

  lemma {:induction false} KeepInAppend(s: seq<string>, t: seq<string>, keys: set<string>)
    ensures KeepIn(s + t, keys) == KeepIn(s, keys) + KeepIn(t, keys)
    decreases |t|
  {
    if |t| > 0 {
      assert (s + t)[..|s + t| - 1] == s + t[..|t| - 1];
      KeepInAppend(s, t[..|t| - 1], keys);
    } else {
      assert s + t == s;
    }
  }

  /** The up button: entry `i` swaps with the one before it. */
  function MoveUp(s: seq<string>, i: nat): (r: seq<string>)
    requires 0 < i < |s|
    ensures |r| == |s| && r[i - 1] == s[i] && r[i] == s[i - 1]
    ensures forall j :: 0 <= j < |s| && j != i && j != i - 1 ==> r[j] == s[j]
    ensures multiset(r) == multiset(s)
  {
    s[i - 1 := s[i]][i := s[i - 1]]
  }

  /** The down button: entry `i` swaps with the one after it. */
  function MoveDown(s: seq<string>, i: nat): (r: seq<string>)
    requires 0 <= i < |s| - 1
    ensures |r| == |s| && r[i] == s[i + 1] && r[i + 1] == s[i]
    ensures forall j :: 0 <= j < |s| && j != i && j != i + 1 ==> r[j] == s[j]
    ensures multiset(r) == multiset(s)
  {
    s[i := s[i + 1]][i + 1 := s[i]]
  }

  /** The top button: entry `i` is taken out and put first. */
  function MoveToTop(s: seq<string>, i: nat): (r: seq<string>)
    requires i < |s|
    ensures |r| == |s| && r[0] == s[i]
    ensures r[1..] == s[..i] + s[i + 1..]
    ensures multiset(r) == multiset(s)
  {
    RemovedIsPermutation(s, i);
    [s[i]] + (s[..i] + s[i + 1..])
  }

  /** The bottom button: entry `i` is taken out and put last. */
  function MoveToBottom(s: seq<string>, i: nat): (r: seq<string>)
    requires i < |s|
    ensures |r| == |s| && r[|r| - 1] == s[i]
    ensures r[..|r| - 1] == s[..i] + s[i + 1..]
    ensures multiset(r) == multiset(s)
  {
    RemovedIsPermutation(s, i);
    (s[..i] + s[i + 1..]) + [s[i]]
  }

  /** Removing entry `i` leaves the others in order around it. */
  lemma RemovedIsPermutation(s: seq<string>, i: nat)
    requires i < |s|
    ensures multiset(s[..i] + s[i + 1..]) + multiset{s[i]} == multiset(s)
  {
    assert s == s[..i] + [s[i]] + s[i + 1..];
  }

  /** `list.remove(key)`: the first occurrence of `key` taken out. */
  function RemoveFirst(s: seq<string>, key: string): (r: seq<string>)
    requires key in s
    ensures |r| == |s| - 1
    ensures multiset(r) + multiset{key} == multiset(s)
    ensures Distinct(s) ==> key !in r && forall k :: k in r <==> k in s && k != key
  {
    var i := IndexOfKey(s, key);
    RemovedIsPermutation(s, i);
    assert s == s[..i] + [s[i]] + s[i + 1..];
    s[..i] + s[i + 1..]
  }

  /** Removing a key from a list without repeats leaves a list without repeats. */
  lemma RemoveFirstDistinct(s: seq<string>, key: string)
    requires key in s && Distinct(s)
    ensures Distinct(RemoveFirst(s, key))
  {
    var i := IndexOfKey(s, key);
    var r := s[..i] + s[i + 1..];
    assert RemoveFirst(s, key) == r;
    forall a, b | 0 <= a < b < |r| ensures r[a] != r[b] {
      var a' := if a < i then a else a + 1;
      var b' := if b < i then b else b + 1;
      assert r[a] == s[a'] && r[b] == s[b'];
    }
  }

  function IndexOfKey(s: seq<string>, key: string): (i: nat)
    requires key in s
    ensures i < |s| && s[i] == key && key !in s[..i]
  {
    if s[0] == key then 0
    else
      var j := IndexOfKey(s[1..], key);
      assert s[..1 + j] == [s[0]] + s[1..][..j];
      1 + j
  }

  // ---------------------------------------------------------------------------
  // Extent of the layers
  // ---------------------------------------------------------------------------

  /** `total_bounds` of a layer. */
  datatype Box = Box(minx: real, miny: real, maxx: real, maxy: real)

  /** A loaded layer: its name, its feature count and its bounds, which may be
      unavailable. */
  datatype Layer = Layer(name: string, featureCount: nat, bounds: Option<Box>)

  predicate Covers(b: Box, c: Box) {
    b.minx <= c.minx && b.miny <= c.miny && c.maxx <= b.maxx && c.maxy <= b.maxy
  }

  predicate Bounded(layers: map<string, Layer>, k: string) {
    k in layers && layers[k].bounds.Some?
  }

  /** `b` is the smallest box around the bounds of the layers `ks`: it
      covers each of them and each of its sides is the side of one of them. */
  ghost predicate UnionOf(b: Box, layers: map<string, Layer>, ks: set<string>) {
    && (forall k :: k in ks && Bounded(layers, k) ==> Covers(b, layers[k].bounds.value))
    && (exists k :: k in ks && Bounded(layers, k) && layers[k].bounds.value.minx == b.minx)
    && (exists k :: k in ks && Bounded(layers, k) && layers[k].bounds.value.miny == b.miny)
    && (exists k :: k in ks && Bounded(layers, k) && layers[k].bounds.value.maxx == b.maxx)
    && (exists k :: k in ks && Bounded(layers, k) && layers[k].bounds.value.maxy == b.maxy)
  }

  /** The union box is determined by the layers: two boxes that are both
      the union of the same layers are equal, so the view a redraw computes
      does not depend on the order the layers are visited in. */
  lemma UnionOfUnique(b1: Box, b2: Box, layers: map<string, Layer>, ks: set<string>)
    requires UnionOf(b1, layers, ks) && UnionOf(b2, layers, ks)
    ensures b1 == b2
  {
    var x1 :| x1 in ks && Bounded(layers, x1) && layers[x1].bounds.value.minx == b1.minx;
    var x2 :| x2 in ks && Bounded(layers, x2) && layers[x2].bounds.value.minx == b2.minx;
    assert Covers(b1, layers[x2].bounds.value) && Covers(b2, layers[x1].bounds.value);
    var y1 :| y1 in ks && Bounded(layers, y1) && layers[y1].bounds.value.miny == b1.miny;
    var y2 :| y2 in ks && Bounded(layers, y2) && layers[y2].bounds.value.miny == b2.miny;
    assert Covers(b1, layers[y2].bounds.value) && Covers(b2, layers[y1].bounds.value);
    var u1 :| u1 in ks && Bounded(layers, u1) && layers[u1].bounds.value.maxx == b1.maxx;
    var u2 :| u2 in ks && Bounded(layers, u2) && layers[u2].bounds.value.maxx == b2.maxx;
    assert Covers(b1, layers[u2].bounds.value) && Covers(b2, layers[u1].bounds.value);
    var v1 :| v1 in ks && Bounded(layers, v1) && layers[v1].bounds.value.maxy == b1.maxy;
    var v2 :| v2 in ks && Bounded(layers, v2) && layers[v2].bounds.value.maxy == b2.maxy;
    assert Covers(b1, layers[v2].bounds.value) && Covers(b2, layers[v1].bounds.value);
  }

  function Min(a: real, b: real): real { if a <= b then a else b }
  function Max(a: real, b: real): real { if a >= b then a else b }

  function Merge(b: Box, c: Box): (r: Box)
    ensures Covers(r, b) && Covers(r, c)
  {
    Box(Min(b.minx, c.minx), Min(b.miny, c.miny), Max(b.maxx, c.maxx), Max(b.maxy, c.maxy))
  }

  /** The box around all layers' bounds; none when no layer has bounds. */
  method UnionBounds(layers: map<string, Layer>) returns (r: Option<Box>)
    ensures r.None? <==> forall k :: k in layers ==> layers[k].bounds.None?
    ensures r.Some? ==> UnionOf(r.value, layers, layers.Keys)
  {
    r := None;
    var remaining := layers.Keys;
    while remaining != {}
      invariant remaining <= layers.Keys
      invariant r.None? <==> forall k :: k in layers.Keys - remaining ==> layers[k].bounds.None?
      invariant r.Some? ==> UnionOf(r.value, layers, layers.Keys - remaining)
      decreases |remaining|
    {
      var k :| k in remaining;
      var done := layers.Keys - remaining;
      assert layers.Keys - (remaining - {k}) == done + {k};
      match layers[k].bounds {
        case None =>
        case Some(c) =>
          match r {
            case None =>
              r := Some(c);
            case Some(b) =>
              r := Some(Merge(b, c));
              assert UnionOf(Merge(b, c), layers, done + {k}) by {
                MergeIsUnion(b, c, layers, done, k);
              }
          }
      }
      remaining := remaining - {k};
    }
  }

  lemma MergeIsUnion(b: Box, c: Box, layers: map<string, Layer>, done: set<string>, k: string)
    requires UnionOf(b, layers, done) && Bounded(layers, k) && layers[k].bounds.value == c
    ensures UnionOf(Merge(b, c), layers, done + {k})
  {
    var m := Merge(b, c);
    forall j | j in done + {k} && Bounded(layers, j) ensures Covers(m, layers[j].bounds.value) {
      if j in done {
        assert Covers(b, layers[j].bounds.value);
      }
    }
    var x1 :| x1 in done && Bounded(layers, x1) && layers[x1].bounds.value.minx == b.minx;
    var y1 :| y1 in done && Bounded(layers, y1) && layers[y1].bounds.value.miny == b.miny;
    var x2 :| x2 in done && Bounded(layers, x2) && layers[x2].bounds.value.maxx == b.maxx;
    var y2 :| y2 in done && Bounded(layers, y2) && layers[y2].bounds.value.maxy == b.maxy;
    assert k in done + {k};
    if m.minx == b.minx { assert x1 in done + {k}; }
    if m.miny == b.miny { assert y1 in done + {k}; }
    if m.maxx == b.maxx { assert x2 in done + {k}; }
    if m.maxy == b.maxy { assert y2 in done + {k}; }
  }

  /** The map view for a box: its centre rounded to 6 decimals and the zoom
      for its larger side. */
  datatype View = View(centerLat: real, centerLon: real, zoom: int)

  function ViewOf(b: Box): (v: View)
    ensures 5 <= v.zoom <= 13
  {
    View(RoundTo((b.miny + b.maxy) / 2.0, 6), RoundTo((b.minx + b.maxx) / 2.0, 6),
         AutoZoom(Max(b.maxy - b.miny, b.maxx - b.minx)))
  }

  /** Filtering an order list extended with the missing keys leaves the
      surviving entries first, in their old order, and names exactly `keys`. */
  lemma ReconciledOrder(order: seq<string>, extended: seq<string>, keys: set<string>)
    requires |extended| >= |order| && extended[..|order|] == order
    requires forall k :: k in extended <==> k in order || k in keys
    requires Distinct(order) ==> Distinct(extended)
    ensures forall k :: k in KeepIn(extended, keys) <==> k in keys
    ensures Distinct(order) ==> Distinct(KeepIn(extended, keys))
    ensures |KeepIn(order, keys)| <= |KeepIn(extended, keys)|
    ensures KeepIn(extended, keys)[..|KeepIn(order, keys)|] == KeepIn(order, keys)
  {
    var added := extended[|order|..];
    assert extended == order + added;
    KeepInAppend(order, added, keys);
    forall k | k in added ensures k in keys || k in order {
      assert k in extended;
    }
    if Distinct(order) {
      KeepInDistinct(extended, keys);
    }
  }

  // ---------------------------------------------------------------------------
  // The layer panel (session state)
  // ---------------------------------------------------------------------------

  /** The layer panel's session state: the loaded layers, their display order
      (`layer_order`, absent until first drawn), the saved map view and the
      quick-locate marker. `loadOrder` is the order in which the layers
      dictionary lists its keys, the order they were loaded in. */
  class LayerPanel {
    var layers: map<string, Layer>
    var loadOrder: seq<string>
    var layerOrder: seq<string>
    var orderSaved: bool
    var view: Option<View>
    var marker: Option<(real, real)>

    /** The load order names each loaded layer exactly once. */
    ghost predicate Valid()
      reads this
    {
      Distinct(loadOrder) && forall k :: k in loadOrder <==> k in layers
    }

    constructor (layers0: map<string, Layer>, loadOrder0: seq<string>)
      requires Distinct(loadOrder0) && forall k :: k in loadOrder0 <==> k in layers0
      ensures Valid()
      ensures layers == layers0 && loadOrder == loadOrder0
      ensures layerOrder == [] && !orderSaved && view.None? && marker.None?
    {
      layers := layers0;
      loadOrder := loadOrder0;
      layerOrder := [];
      orderSaved := false;
      view := None;
      marker := None;
    }

    /** The keys of a set appended, in any order, to `order` when missing
        from it (`for key in current_layers: ... append(key)`). */
    static method AppendMissing(order: seq<string>, keys: set<string>) returns (r: seq<string>)
      ensures |r| >= |order| && r[..|order|] == order
      ensures forall k :: k in r <==> k in order || k in keys
      ensures Distinct(order) ==> Distinct(r)
    {
      r := order;
      var remaining := keys;
      while remaining != {}
        invariant remaining <= keys
        invariant |r| >= |order| && r[..|order|] == order
        invariant forall k :: k in r <==> k in order || k in keys - remaining
        invariant Distinct(order) ==> Distinct(r)
        decreases |remaining|
      {
        var k :| k in remaining;
        if k !in r {
          assert (r + [k])[..|order|] == r[..|order|];
          r := r + [k];
        }
        remaining := remaining - {k};
      }
    }

    /** The order list reconciled with the loaded layers `current`, which
        `loaded` lists in load order: a first drawing lists them in that
        order; afterwards missing layers are appended, in the unspecified
        order of a set, and stale ones dropped, the survivors keeping their
        relative order. */
    static method ReconciledWith(order: seq<string>, saved: bool, current: set<string>, loaded: seq<string>)
      returns (r: seq<string>)
      requires Distinct(loaded) && forall k :: k in loaded <==> k in current
      ensures forall k :: k in r <==> k in current
      ensures !saved ==> r == loaded && Distinct(r)
      ensures saved && Distinct(order) ==> Distinct(r)
      ensures saved ==> |KeepIn(order, current)| <= |r| && r[..|KeepIn(order, current)|] == KeepIn(order, current)
    {
      if !saved {
        r := loaded;
        return;
      }
      if (set k | k in order) != current {
        var extended := AppendMissing(order, current);
        ReconciledOrder(order, extended, current);
        r := KeepIn(extended, current);
      } else {
        r := order;
        KeepInAll(order, current);
      }
    }

    /** Makes the order list name exactly the loaded layers. Without layers
        the panel is not drawn and nothing changes. */
    method ReconcileOrder()
      requires Valid()
      modifies this
      ensures Valid()
      ensures layers == old(layers) && loadOrder == old(loadOrder) && view == old(view) && marker == old(marker)
      ensures |layers| == 0 ==> layerOrder == old(layerOrder) && orderSaved == old(orderSaved)
      ensures |layers| > 0 ==> orderSaved && forall k :: k in layerOrder <==> k in layers
      ensures |layers| > 0 && !old(orderSaved) ==> layerOrder == loadOrder && Distinct(layerOrder)
      ensures |layers| > 0 && old(orderSaved) && Distinct(old(layerOrder)) ==> Distinct(layerOrder)
      ensures |layers| > 0 && old(orderSaved) ==>
        |KeepIn(old(layerOrder), layers.Keys)| <= |layerOrder|
        && layerOrder[..|KeepIn(old(layerOrder), layers.Keys)|] == KeepIn(old(layerOrder), layers.Keys)
    {
      if |layers| == 0 {
        return;
      }
      layerOrder := ReconciledWith(layerOrder, orderSaved, layers.Keys, loadOrder);
      orderSaved := true;
    }

    method Up(idx: nat)
      requires 0 < idx < |layerOrder|
      modifies this
      ensures layerOrder == MoveUp(old(layerOrder), idx)
      ensures layers == old(layers) && loadOrder == old(loadOrder)
      ensures orderSaved == old(orderSaved) && view == old(view) && marker == old(marker)
    {
      layerOrder := layerOrder[idx := layerOrder[idx - 1]][idx - 1 := layerOrder[idx]];
    }

    method Down(idx: nat)
      requires idx < |layerOrder| - 1
      modifies this
      ensures layerOrder == MoveDown(old(layerOrder), idx)
      ensures layers == old(layers) && loadOrder == old(loadOrder)
      ensures orderSaved == old(orderSaved) && view == old(view) && marker == old(marker)
    {
      layerOrder := layerOrder[idx := layerOrder[idx + 1]][idx + 1 := layerOrder[idx]];
    }

    method Top(idx: nat)
      requires 0 < idx < |layerOrder|
      modifies this
      ensures layerOrder == MoveToTop(old(layerOrder), idx)
      ensures layers == old(layers) && loadOrder == old(loadOrder)
      ensures orderSaved == old(orderSaved) && view == old(view) && marker == old(marker)
    {
      var layerKey := layerOrder[idx];
      layerOrder := layerOrder[..idx] + layerOrder[idx + 1..];
      layerOrder := [layerKey] + layerOrder;
    }

    method Bottom(idx: nat)
      requires idx < |layerOrder| - 1
      modifies this
      ensures layerOrder == MoveToBottom(old(layerOrder), idx)
      ensures layers == old(layers) && loadOrder == old(loadOrder)
      ensures orderSaved == old(orderSaved) && view == old(view) && marker == old(marker)
    {
      var layerKey := layerOrder[idx];
      layerOrder := layerOrder[..idx] + layerOrder[idx + 1..];
      layerOrder := layerOrder + [layerKey];
    }

    /** The delete button of row `idx`: the layer leaves the map and the
        order; the view is recomputed from the remaining layers' bounds,
        kept when none has bounds, and cleared when no layer remains. */
    method Delete(idx: nat)
      requires Valid()
      requires idx < |layerOrder| && layerOrder[idx] in layers
      modifies this
      ensures Valid()
      ensures layers == old(layers) - {old(layerOrder)[idx]}
      ensures loadOrder == RemoveFirst(old(loadOrder), old(layerOrder)[idx])
      ensures layerOrder == RemoveFirst(old(layerOrder), old(layerOrder)[idx])
      ensures orderSaved == old(orderSaved) && marker == old(marker)
      ensures |layers| == 0 ==> view.None?
      ensures |layers| > 0 && (forall k :: k in layers ==> layers[k].bounds.None?) ==> view == old(view)
      ensures |layers| > 0 && view != old(view) ==>
        exists b :: UnionOf(b, layers, layers.Keys) && view == Some(ViewOf(b))
      ensures (exists k :: k in layers && layers[k].bounds.Some?) ==>
        exists b :: UnionOf(b, layers, layers.Keys) && view == Some(ViewOf(b))
    {
      var layerKey := layerOrder[idx];
      var remaining := layers - {layerKey};
      var newView := RedrawnView(remaining, view);
      assert layerKey in loadOrder;
      var newLoadOrder := RemoveFirst(loadOrder, layerKey);
      RemoveFirstDistinct(loadOrder, layerKey);
      assert forall k :: k in newLoadOrder <==> k in remaining;
      layers, loadOrder, layerOrder, view := remaining, newLoadOrder, RemoveFirst(layerOrder, layerKey), newView;
    }

    /** The view after the layers became `remaining`: cleared when none is
        left, the view of their union box when one has bounds, else `current`. */
    static method RedrawnView(remaining: map<string, Layer>, current: Option<View>) returns (v: Option<View>)
      ensures |remaining| == 0 ==> v.None?
      ensures |remaining| > 0 && (forall k :: k in remaining ==> remaining[k].bounds.None?) ==> v == current
      ensures (exists k :: k in remaining && remaining[k].bounds.Some?) ==>
        exists b :: UnionOf(b, remaining, remaining.Keys) && v == Some(ViewOf(b))
    {
      v := current;
      if |remaining| > 0 {
        var allBounds := UnionBounds(remaining);
        if allBounds.Some? {
          v := Some(ViewOf(allBounds.value));
        }
      } else {
        v := None;
      }
    }

    /** The locate button: a located point becomes the marker and the view's
        centre at zoom 15; any other outcome changes nothing. */
    method QuickLocate(latText: string, lonText: string, parse: string -> Option<real>) returns (outcome: LocateOutcome)
      modifies this
      ensures outcome == Locate(latText, lonText, parse)
      ensures outcome.Located? ==>
        view == Some(View(outcome.lat, outcome.lon, 15)) && marker == Some((outcome.lat, outcome.lon))
      ensures !outcome.Located? ==> view == old(view) && marker == old(marker)
      ensures layers == old(layers) && loadOrder == old(loadOrder)
      ensures layerOrder == old(layerOrder) && orderSaved == old(orderSaved)
    {
      outcome := Locate(latText, lonText, parse);
      if outcome.Located? {
        marker := Some((outcome.lat, outcome.lon));
        view := Some(View(outcome.lat, outcome.lon, 15));
      }
    }

    /** The clear button: the marker goes, the view stays. */
    method ClearMarker()
      modifies this
      ensures marker.None?
      ensures layers == old(layers) && loadOrder == old(loadOrder)
      ensures layerOrder == old(layerOrder) && orderSaved == old(orderSaved) && view == old(view)
    {
      marker := None;
    }
  }
}
