/** `utils/grid_matcher.py`: matching a cell's coordinates to the grid
    polygons, plainly and with a 500 m buffer, and naming the matched grids'
    labels. Whether a polygon contains a point is a parameter. */
module GridMatcher {
  import opened Wrappers
  import opened Text

  /** One polygon row: its id and name texts and an opaque handle for its
      geometry. */
  datatype Grid = Grid(id: string, name: string, shape: nat)

  /** The six entries of the result dictionary; `None` where nothing was
      found. */
  datatype MatchResult = MatchResult(
    idNoBuffer: Option<string>, nameNoBuffer: Option<string>, labelNoBuffer: Option<string>,
    idBuffer: Option<string>, nameBuffer: Option<string>, labelBuffer: Option<string>)

  const NoMatch: MatchResult := MatchResult(None, None, None, None, None, None)

  const Comma: string := ","

  // ---------------------------------------------------------------------------
  // Label table (`_load_label_mapping`)
  // ---------------------------------------------------------------------------

  /** One table row, already stripped: a new id takes the label; a known id
      gets the label appended with a comma unless it is already one of its
      comma-separated labels; rows with an empty id or label are skipped. */
  function AddLabel(mapping: map<string, string>, gridId: string, tag: string): (r: map<string, string>)
    ensures r.Keys == mapping.Keys + (if gridId != "" && tag != "" then {gridId} else {})
    ensures forall k :: k in mapping && k != gridId ==> r[k] == mapping[k]
  {
    if gridId != "" && tag != "" then
      if gridId in mapping then
        var existing := Split(mapping[gridId], ',');
        if tag !in existing then mapping[gridId := Join(existing + [tag], Comma)] else mapping
      else mapping[gridId := tag]
    else mapping
  }

  /** The (id, label) cell texts of the table, stripped. */
  function Cleaned(rows: seq<(string, string)>): (r: seq<(string, string)>)
    ensures |r| == |rows|
  {
    if |rows| == 0 then []
    else Cleaned(rows[..|rows| - 1]) + [(Strip(rows[|rows| - 1].0), Strip(rows[|rows| - 1].1))]
  }

  /** Reading row `i` adds its stripped pair to the table. */
  lemma NextRow(rows: seq<(string, string)>, i: nat)
    requires i < |rows|
    ensures LabelMappingOf(Cleaned(rows[..i + 1]))
         == AddLabel(LabelMappingOf(Cleaned(rows[..i])), Strip(rows[i].0), Strip(rows[i].1))
  {
    assert rows[..i + 1][..i] == rows[..i];
  }

  /** The table built from the stripped (id, label) pairs, in order. */
  function LabelMappingOf(pairs: seq<(string, string)>): (r: map<string, string>)
    ensures forall k :: k in r ==> k != ""
  {
    if |pairs| == 0 then map[]
    else
      var p := pairs[|pairs| - 1];
      AddLabel(LabelMappingOf(pairs[..|pairs| - 1]), p.0, p.1)
  }

  /** The pairs before the last one, and the last one. */
  lemma LastPair(pairs: seq<(string, string)>)
    requires |pairs| > 0
    ensures pairs == pairs[..|pairs| - 1] + [pairs[|pairs| - 1]]
    ensures forall q :: q in pairs <==> q in pairs[..|pairs| - 1] || q == pairs[|pairs| - 1]
  {
  }

  /** An id has an entry exactly when some pair gives it a non-empty label. */
  lemma {:induction false} LabelMappingKeys(pairs: seq<(string, string)>)
    ensures forall k :: k in LabelMappingOf(pairs) <==> k != "" && exists l :: l != "" && (k, l) in pairs
  {
    if |pairs| > 0 {
      var init := pairs[..|pairs| - 1];
      var gridId, tag := pairs[|pairs| - 1].0, pairs[|pairs| - 1].1;
      LabelMappingKeys(init);
      LastPair(pairs);
      var before := LabelMappingOf(init);
      assert LabelMappingOf(pairs) == AddLabel(before, gridId, tag);
      forall k ensures k in LabelMappingOf(pairs) <==> k != "" && exists l :: l != "" && (k, l) in pairs {
        if k in LabelMappingOf(pairs) {
          if k in before {
            var l :| l != "" && (k, l) in init;
            assert (k, l) in pairs;
          } else {
            assert (k, tag) in pairs;
          }
        }
        if k != "" && exists l :: l != "" && (k, l) in pairs {
          var l :| l != "" && (k, l) in pairs;
          if (k, l) in init {
            assert k in before;
          }
        }
      }
    }
  }

  predicate DistinctStrings(s: seq<string>) {
    forall i, j :: 0 <= i < j < |s| ==> s[i] != s[j]
  }

  /** Each entry lists, once each, exactly the labels the pairs give its id. */
  ghost predicate Collected(m: map<string, string>, pairs: seq<(string, string)>) {
    forall k :: k in m ==> EntryCollected(m, pairs, k)
  }

  ghost predicate EntryCollected(m: map<string, string>, pairs: seq<(string, string)>, k: string)
    requires k in m
  {
    DistinctStrings(Split(m[k], ','))
    && forall l :: l in Split(m[k], ',') <==> l != "" && (k, l) in pairs
  }

  /** The entries of the ids that the last pair leaves alone. */
  lemma CollectedOther(pairs: seq<(string, string)>, k: string)
    requires |pairs| > 0
    requires k in LabelMappingOf(pairs[..|pairs| - 1])
    requires EntryCollected(LabelMappingOf(pairs[..|pairs| - 1]), pairs[..|pairs| - 1], k)
    requires k != pairs[|pairs| - 1].0 || pairs[|pairs| - 1].1 == ""
    ensures LabelMappingOf(pairs)[k] == LabelMappingOf(pairs[..|pairs| - 1])[k]
    ensures DistinctStrings(Split(LabelMappingOf(pairs)[k], ','))
    ensures forall l :: l in Split(LabelMappingOf(pairs)[k], ',') <==> l != "" && (k, l) in pairs
  {
    var before := LabelMappingOf(pairs[..|pairs| - 1]);
    assert LabelMappingOf(pairs)[k] == before[k];
    LastPair(pairs);
    forall l ensures l in Split(before[k], ',') <==> l != "" && (k, l) in pairs {
      assert (k, l) in pairs ==> (k, l) in pairs[..|pairs| - 1] || (k, l) == pairs[|pairs| - 1];
    }
  }

  /** A known id given a label it already has. */
  lemma CollectedRepeat(pairs: seq<(string, string)>)
    requires |pairs| > 0
    requires pairs[|pairs| - 1].0 in LabelMappingOf(pairs[..|pairs| - 1]) && pairs[|pairs| - 1].1 != ""
    requires EntryCollected(LabelMappingOf(pairs[..|pairs| - 1]), pairs[..|pairs| - 1], pairs[|pairs| - 1].0)
    requires pairs[|pairs| - 1].1 in Split(LabelMappingOf(pairs[..|pairs| - 1])[pairs[|pairs| - 1].0], ',')
    ensures var k := pairs[|pairs| - 1].0;
      DistinctStrings(Split(LabelMappingOf(pairs)[k], ','))
      && forall l :: l in Split(LabelMappingOf(pairs)[k], ',') <==> l != "" && (k, l) in pairs
  {
    LastPair(pairs);
  }

  lemma AppendDistinct(xs: seq<string>, x: string)
    requires DistinctStrings(xs) && x !in xs
    ensures DistinctStrings(xs + [x])
  {
  }

  /** A known id given a new label: the label is appended. */
  lemma CollectedAppend(pairs: seq<(string, string)>)
    requires |pairs| > 0 && ',' !in pairs[|pairs| - 1].1
    requires pairs[|pairs| - 1].0 in LabelMappingOf(pairs[..|pairs| - 1]) && pairs[|pairs| - 1].1 != ""
    requires EntryCollected(LabelMappingOf(pairs[..|pairs| - 1]), pairs[..|pairs| - 1], pairs[|pairs| - 1].0)
    requires pairs[|pairs| - 1].1 !in Split(LabelMappingOf(pairs[..|pairs| - 1])[pairs[|pairs| - 1].0], ',')
    ensures var k := pairs[|pairs| - 1].0;
      DistinctStrings(Split(LabelMappingOf(pairs)[k], ','))
      && forall l :: l in Split(LabelMappingOf(pairs)[k], ',') <==> l != "" && (k, l) in pairs
  {
    var k, tag := pairs[|pairs| - 1].0, pairs[|pairs| - 1].1;
    var existing := Split(LabelMappingOf(pairs[..|pairs| - 1])[k], ',');
    assert Split(LabelMappingOf(pairs)[k], ',') == existing + [tag] by {
      assert LabelMappingOf(pairs)[k] == Join(existing + [tag], Comma);
      SplitJoin(existing + [tag], ',');
    }
    AppendDistinct(existing, tag);
    forall l ensures l in existing + [tag] <==> l != "" && (k, l) in pairs {
      LastPair(pairs);
    }
  }

  /** A new id: its entry is the label alone. */
  lemma CollectedFirst(pairs: seq<(string, string)>)
    requires |pairs| > 0 && ',' !in pairs[|pairs| - 1].1
    requires pairs[|pairs| - 1].0 !in LabelMappingOf(pairs[..|pairs| - 1])
    requires pairs[|pairs| - 1].0 != "" && pairs[|pairs| - 1].1 != ""
    ensures var k := pairs[|pairs| - 1].0;
      DistinctStrings(Split(LabelMappingOf(pairs)[k], ','))
      && forall l :: l in Split(LabelMappingOf(pairs)[k], ',') <==> l != "" && (k, l) in pairs
  {
    var k, tag := pairs[|pairs| - 1].0, pairs[|pairs| - 1].1;
    assert Split(LabelMappingOf(pairs)[k], ',') == [tag] by {
      assert LabelMappingOf(pairs)[k] == tag;
    }
    LabelMappingKeys(pairs[..|pairs| - 1]);
    LastPair(pairs);
  }

  /** One more pair keeps the table collected. */
  lemma CollectedStep(pairs: seq<(string, string)>, k: string)
    requires |pairs| > 0 && ',' !in pairs[|pairs| - 1].1
    requires Collected(LabelMappingOf(pairs[..|pairs| - 1]), pairs[..|pairs| - 1])
    requires k in LabelMappingOf(pairs)
    ensures DistinctStrings(Split(LabelMappingOf(pairs)[k], ','))
    ensures forall l :: l in Split(LabelMappingOf(pairs)[k], ',') <==> l != "" && (k, l) in pairs
  {
    var before := LabelMappingOf(pairs[..|pairs| - 1]);
    var gridId, tag := pairs[|pairs| - 1].0, pairs[|pairs| - 1].1;
    if k in before {
      assert EntryCollected(before, pairs[..|pairs| - 1], k);
    }
    if k != gridId || tag == "" {
      CollectedOther(pairs, k);
    } else if k !in before {
      CollectedFirst(pairs);
    } else if tag in Split(before[k], ',') {
      CollectedRepeat(pairs);
    } else {
      CollectedAppend(pairs);
    }
  }

  /** With labels that hold no comma, each id's entry lists its labels once
      each, every label given for it and nothing else. */
  lemma {:induction false} LabelMappingCollects(pairs: seq<(string, string)>)
    requires forall p :: p in pairs ==> ',' !in p.1
    ensures Collected(LabelMappingOf(pairs), pairs)
  {
    if |pairs| > 0 {
      LastPair(pairs);
      LabelMappingCollects(pairs[..|pairs| - 1]);
      forall k | k in LabelMappingOf(pairs)
        ensures DistinctStrings(Split(LabelMappingOf(pairs)[k], ','))
        ensures forall l :: l in Split(LabelMappingOf(pairs)[k], ',') <==> l != "" && (k, l) in pairs
      {
        CollectedStep(pairs, k);
      }
    }
  }

  // ---------------------------------------------------------------------------
  // Matching one point
  // ---------------------------------------------------------------------------

  /** The rough extent of China the coordinates must fall in. */
  predicate InChina(lon: real, lat: real) {
    70.0 <= lon <= 140.0 && 15.0 <= lat <= 55.0
  }

  /** The rows whose polygon contains the point. */
  function Hits(grids: seq<Grid>, lon: real, lat: real, contains: (Grid, real, real) -> bool): (r: seq<Grid>)
    ensures forall g :: g in r <==> g in grids && contains(g, lon, lat)
  {
    if |grids| == 0 then []
    else Hits(grids[..|grids| - 1], lon, lat, contains)
         + if contains(grids[|grids| - 1], lon, lat) then [grids[|grids| - 1]] else []
  }

  /** The ids of `rows` not in `exclude` and not empty, in order. */
  function IdsOf(rows: seq<Grid>, exclude: set<string>): (r: seq<string>)
    ensures forall id :: id in r <==> id != "" && id !in exclude && exists g :: g in rows && g.id == id
  {
    if |rows| == 0 then []
    else
      var g := rows[|rows| - 1];
      IdsOf(rows[..|rows| - 1], exclude) + if g.id != "" && g.id !in exclude then [g.id] else []
  }

  /** The non-empty names of the plainly matched rows. */
  function PlainNames(rows: seq<Grid>): (r: seq<string>)
    ensures forall n :: n in r <==> n != "" && exists g :: g in rows && g.name == n
  {
    if |rows| == 0 then []
    else
      var g := rows[|rows| - 1];
      PlainNames(rows[..|rows| - 1]) + if g.name != "" then [g.name] else []
  }

  /** The non-empty names of the buffered rows whose id is kept. */
  function BufferNames(rows: seq<Grid>, exclude: set<string>): (r: seq<string>)
    ensures forall n :: n in r ==> n != "" && exists g :: g in rows && g.name == n && g.id != "" && g.id !in exclude
    ensures forall g :: g in rows && g.id != "" && g.id !in exclude && g.name != "" ==> g.name in r
  {
    if |rows| == 0 then []
    else
      var g := rows[|rows| - 1];
      BufferNames(rows[..|rows| - 1], exclude) + if g.id != "" && g.id !in exclude && g.name != "" then [g.name] else []
  }

  /** The labels of `ids` in the table, each once, in first-seen order. */
  function LabelsFor(ids: seq<string>, mapping: map<string, string>): (r: seq<string>)
    ensures DistinctStrings(r)
    ensures forall l :: l in r <==> l != "" && exists id :: id in ids && id in mapping && mapping[id] == l
  {
    if |ids| == 0 then []
    else
      var prior := LabelsFor(ids[..|ids| - 1], mapping);
      var id := ids[|ids| - 1];
      assert forall x :: x in ids[..|ids| - 1] ==> x in ids;
      if id in mapping && mapping[id] != "" && mapping[id] !in prior then prior + [mapping[id]] else prior
  }

  /** `','.join(xs)` when `xs` is non-empty, else `None`. */
  function Joined(xs: seq<string>): (r: Option<string>)
    ensures r.None? <==> xs == []
    ensures xs != [] ==> r == Some(Join(xs, Comma))
  {
    if xs == [] then None else Some(Join(xs, Comma))
  }

  /** A joined list reads back as its elements when split at the commas,
      provided none of them holds a comma. */
  lemma JoinedSplits(xs: seq<string>)
    requires forall i :: 0 <= i < |xs| ==> ',' !in xs[i]
    ensures Joined(xs).Some? ==> Split(Joined(xs).value, ',') == xs
  {
    if xs != [] {
      SplitJoin(xs, ',');
    }
  }

  /** The ids already matched without buffer, as the buffered pass reads
      them back: `set(result['grid_id_no_buffer'].split(','))`. */
  function MatchedIds(idNoBuffer: Option<string>): set<string> {
    if idNoBuffer.Some? && idNoBuffer.value != "" then set p | p in Split(idNoBuffer.value, ',') else {}
  }

  /** The buffered pass excludes exactly the ids of the plain pass, when no
      id holds a comma. */
  lemma MatchedIdsAreIds(hits: seq<Grid>)
    requires forall g :: g in hits ==> ',' !in g.id
    ensures MatchedIds(Joined(IdsOf(hits, {}))) == set id | id in IdsOf(hits, {})
  {
    var ids := IdsOf(hits, {});
    forall i | 0 <= i < |ids| ensures ',' !in ids[i] && ids[i] != "" {
      assert ids[i] in ids;
    }
    JoinedSplits(ids);
  }

  /** The result for a point inside the extent. */
  function Matched(grids: seq<Grid>, buffered: seq<Grid>, mapping: map<string, string>,
                   lon: real, lat: real, contains: (Grid, real, real) -> bool): MatchResult
  {
    var hits := Hits(grids, lon, lat, contains);
    var ids := IdsOf(hits, {});
    var idNoBuffer := Joined(ids);
    var exclude := MatchedIds(idNoBuffer);
    var bufferHits := Hits(buffered, lon, lat, contains);
    var bufferIds := IdsOf(bufferHits, exclude);
    MatchResult(idNoBuffer, Joined(PlainNames(hits)), Joined(LabelsFor(ids, mapping)),
                Joined(bufferIds), Joined(BufferNames(bufferHits, exclude)), Joined(LabelsFor(bufferIds, mapping)))
  }

  /** `match_point`: nothing for a missing or non-numeric coordinate, for a
      point outside the extent, or when no grids are loaded. */
  function PointMatch(grids: seq<Grid>, buffered: seq<Grid>, mapping: map<string, string>,
                      lon: Option<string>, lat: Option<string>, parse: string -> Option<real>,
                      contains: (Grid, real, real) -> bool): (r: MatchResult)
    ensures lon.None? || lat.None? ==> r == NoMatch
    ensures lon.Some? && lat.Some? && (parse(lon.value).None? || parse(lat.value).None?) ==> r == NoMatch
    ensures (lon.Some? && lat.Some? && parse(lon.value).Some? && parse(lat.value).Some?
             && !InChina(parse(lon.value).value, parse(lat.value).value)) ==> r == NoMatch
    ensures |grids| == 0 ==> r == NoMatch
  {
    if lon.None? || lat.None? then NoMatch
    else
      var x, y := parse(lon.value), parse(lat.value);
      if x.None? || y.None? then NoMatch
      else if !InChina(x.value, y.value) then NoMatch
      else if |grids| == 0 then NoMatch
      else Matched(grids, buffered, mapping, x.value, y.value, contains)
  }

  /** A grid matched without buffer is never reported again as matched
      within the buffer, when grid ids hold no comma. */
  lemma BufferedExcludesPlainMatches(grids: seq<Grid>, buffered: seq<Grid>, mapping: map<string, string>,
                                     lon: real, lat: real, contains: (Grid, real, real) -> bool)
    requires forall g :: g in grids ==> ',' !in g.id
    ensures var hits := Hits(grids, lon, lat, contains);
      var bufferIds := IdsOf(Hits(buffered, lon, lat, contains), MatchedIds(Joined(IdsOf(hits, {}))));
      forall id :: id in bufferIds ==> id !in IdsOf(hits, {})
  {
    var hits := Hits(grids, lon, lat, contains);
    var ids := IdsOf(hits, {});
    if ids != [] {
      forall i | 0 <= i < |ids| ensures ',' !in ids[i] {
        assert ids[i] in ids;
      }
      SplitJoin(ids, ',');
      assert forall id :: id in ids ==> id in MatchedIds(Joined(ids));
    }
  }

  // ---------------------------------------------------------------------------
  // The matcher
  // ---------------------------------------------------------------------------

  class Matcher {
    /** The grid polygons, and the same grids widened by 500 m (empty when
        the file could not be read). */
    var grids: seq<Grid>
    var bufferedGrids: seq<Grid>
    /** Grid id to its comma-separated labels. */
    var labelMapping: map<string, string>

    constructor (grids: seq<Grid>, bufferedGrids: seq<Grid>)
      ensures this.grids == grids && this.bufferedGrids == bufferedGrids && labelMapping == map[]
    {
      this.grids := grids;
      this.bufferedGrids := bufferedGrids;
      labelMapping := map[];
    }

    /** `_load_label_mapping`: `table` holds the (id, label) cell texts, or
        `None` when the file or one of its two columns is missing, in which
        case the table is left as it was. */
    method LoadLabelMapping(table: Option<seq<(string, string)>>)
      modifies this
      ensures table.None? ==> labelMapping == old(labelMapping)
      ensures table.Some? ==> labelMapping == LabelMappingOf(Cleaned(table.value))
      ensures grids == old(grids) && bufferedGrids == old(bufferedGrids)
    {
      if table.None? {
        return;
      }
      var rows := table.value;
      labelMapping := map[];
      var i := 0;
      while i < |rows|
        invariant 0 <= i <= |rows|
        invariant labelMapping == LabelMappingOf(Cleaned(rows[..i]))
        invariant grids == old(grids) && bufferedGrids == old(bufferedGrids)
      {
        var gridId := Strip(rows[i].0);
        var tag := Strip(rows[i].1);
        NextRow(rows, i);
        if gridId != "" && tag != "" {
          if gridId in labelMapping {
            var existingLabels := Split(labelMapping[gridId], ',');
            if tag !in existingLabels {
              labelMapping := labelMapping[gridId := Join(existingLabels + [tag], Comma)];
            }
          } else {
            labelMapping := labelMapping[gridId := tag];
          }
        }
        i := i + 1;
      }
      assert rows[..i] == rows;
    }

    /** The ids/names loop over the plainly matched rows. */
    static method CollectPlain(rows: seq<Grid>) returns (ids: seq<string>, names: seq<string>)
      ensures ids == IdsOf(rows, {}) && names == PlainNames(rows)
    {
      ids, names := [], [];
      var i := 0;
      while i < |rows|
        invariant 0 <= i <= |rows|
        invariant ids == IdsOf(rows[..i], {}) && names == PlainNames(rows[..i])
      {
        assert rows[..i + 1][..i] == rows[..i];
        var gridId, gridName := rows[i].id, rows[i].name;
        if gridId != "" {
          ids := ids + [gridId];
        }
        if gridName != "" {
          names := names + [gridName];
        }
        i := i + 1;
      }
      assert rows[..i] == rows;
    }

    /** The ids/names loop over the buffered matches, skipping the grids
        already matched plainly. */
    static method CollectBuffered(rows: seq<Grid>, exclude: set<string>) returns (ids: seq<string>, names: seq<string>)
      ensures ids == IdsOf(rows, exclude) && names == BufferNames(rows, exclude)
    {
      ids, names := [], [];
      var i := 0;
      while i < |rows|
        invariant 0 <= i <= |rows|
        invariant ids == IdsOf(rows[..i], exclude) && names == BufferNames(rows[..i], exclude)
      {
        assert rows[..i + 1][..i] == rows[..i];
        var gridId, gridName := rows[i].id, rows[i].name;
        if gridId != "" && gridId !in exclude {
          ids := ids + [gridId];
          if gridName != "" {
            names := names + [gridName];
          }
        }
        i := i + 1;
      }
      assert rows[..i] == rows;
    }

    /** The label loop: each id's label once, in first-seen order. */
    method CollectLabels(ids: seq<string>) returns (labels: seq<string>)
      ensures labels == LabelsFor(ids, labelMapping)
    {
      labels := [];
      var i := 0;
      while i < |ids|
        invariant 0 <= i <= |ids|
        invariant labels == LabelsFor(ids[..i], labelMapping)
      {
        assert ids[..i + 1][..i] == ids[..i];
        if ids[i] in labelMapping {
          var tag := labelMapping[ids[i]];
          if tag != "" && tag !in labels {
            labels := labels + [tag];
          }
        }
        i := i + 1;
      }
      assert ids[..i] == ids;
    }

    /** `match_point`. */
    method MatchPoint(lon: Option<string>, lat: Option<string>, parse: string -> Option<real>,
                      contains: (Grid, real, real) -> bool) returns (r: MatchResult)
      ensures r == PointMatch(grids, bufferedGrids, labelMapping, lon, lat, parse, contains)
    {
      if lon.None? || lat.None? {
        return NoMatch;
      }
      var x, y := parse(lon.value), parse(lat.value);
      if x.None? || y.None? {
        return NoMatch;
      }
      if !InChina(x.value, y.value) {
        return NoMatch;
      }
      if |grids| == 0 {
        return NoMatch;
      }
      var hits := Hits(grids, x.value, y.value, contains);
      var ids, names := CollectPlain(hits);
      var labels := CollectLabels(ids);
      var idNoBuffer := Joined(ids);
      var exclude := MatchedIds(idNoBuffer);
      var bufferHits := Hits(bufferedGrids, x.value, y.value, contains);
      var bufferIds, bufferNames := CollectBuffered(bufferHits, exclude);
      var bufferLabels := CollectLabels(bufferIds);
      r := MatchResult(idNoBuffer, Joined(names), Joined(labels),
                       Joined(bufferIds), Joined(bufferNames), Joined(bufferLabels));
    }

    /** `match_batch`: one result per point, in order. */
    method MatchBatch(points: seq<(Option<string>, Option<string>)>, parse: string -> Option<real>,
                      contains: (Grid, real, real) -> bool) returns (results: seq<MatchResult>)
      ensures |results| == |points|
      ensures forall i :: 0 <= i < |points| ==>
        results[i] == PointMatch(grids, bufferedGrids, labelMapping, points[i].0, points[i].1, parse, contains)
    {
      results := [];
      var i := 0;
      while i < |points|
        invariant 0 <= i <= |points|
        invariant |results| == i
        invariant forall j :: 0 <= j < i ==>
          results[j] == PointMatch(grids, bufferedGrids, labelMapping, points[j].0, points[j].1, parse, contains)
      {
        var result := MatchPoint(points[i].0, points[i].1, parse, contains);
        results := results + [result];
        i := i + 1;
      }
    }
  }
}
