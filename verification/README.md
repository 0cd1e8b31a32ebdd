# Optimization toolbox: a Dafny model of its decision logic

The optimization toolbox is a Streamlit application for radio-network
optimisation work. Most of it draws screens, reads spreadsheets and runs SQLite
queries, but several pieces of it decide things on their own. This project models
those pieces and proves what they promise:

- **Polygon tools.** These are `tools/polygon_merger.py`,
  `tools/polygon_precision_optimizer.py` and `tools/optimized_polygon_clipper.py`.
  They cover the intersection report, merging and unifying, the pairwise split,
  the ordered chain clip and its de-overlap pass, and the coordinate clean-up
  (rounding, de-duplication, ring closure and rebuilding the
  `POLYGON ((x y, ...))` text of OGC 06-103r4, Simple Features Access Part 1,
  clause 7). They also cover the near-vertex and near-edge detection, the
  bounding-box overlap measure, and the clipper's choice between a direct clip
  and a buffered one. Shapely/GEOS is an abstract kernel (`Geometry.Kernel`): an
  opaque geometry type plus the operations the tools call, passed in as function
  values.
- **Grid evaluation** (`tools/panel_reader.py`): the scheme-type classifier, the
  per-grid process score with its counters, its accuracy and timeliness terms
  and the weighted ratio, the CSV row filter, and the remark that lists lost
  points.
- **Traffic analysis** (`tools/traffic_monitor.py`): the 4G/5G classifier, the
  two-pass sliding-window drop detector, the figures reported after a drop, the
  sector drop type and antenna status, and the joining of grid fields.
- **Map helpers** (`tools/online_map.py`): the beam and radius tables, the China
  bounding box, the zoom ladder, the quick-locate check, and the layer panel. The
  layer panel is a class whose display order the user rearranges in place.
- **Interference import** (`tools/interference_monitor.py`):
  - recognising a 4G or 5G export;
  - mapping each row to a record, with error counting;
  - the range query and the list of summary days;
  - the reading of a stored value.
- **Search and SQL builders.** These cover:
  - `tools/gc_organizer.py`: the three-pass site search, the parameter query, paging and the export guard;
  - `database.py`: the Chinese/English column names, the panel search query, chunked batches, the exclusion list and the score counters;
  - `utils/field_mapper.py`: the field-name translations;
  - `utils/grid_matcher.py`: the label table and point matching;
  - `optimization_toolboxV3.21.py`, the controller script: tool discovery, the dependency check, the menu loop and the SQL statement guard.

Each source file is one Dafny module. Shared vocabulary sits in `Wrappers`
(Option/Result), `Text` (the `str` operations used), `Sql` (a statement with its
`?` parameters, and the balance between them), `Decimal` (Python's `round`) and
`Geometry`. Loops and in-place updates in the source are methods with loop
invariants, proved against specification functions. The lemmas beside them state
the properties the code promises.

## Model

| member | source | states |
|---|---|---|
| ToolDiscovery.ModuleName | optimization_toolboxV3.21.py:86 | the module name is the file name with its `.py` suffix removed |
| ToolDiscovery.PyFiles | optimization_toolboxV3.21.py:78 | the files looked at are exactly the listed entries the `*.py` pattern matches |
| ToolDiscovery.Registry | optimization_toolboxV3.21.py:86-88 | every registered name maps to `tools.` followed by that name |
| ToolDiscovery.RegistryKeys | optimization_toolboxV3.21.py:80-88 | a name is registered exactly when some listed file that is neither `__init__.py` nor `_`-prefixed has it as its module name |
| ToolDiscovery.DiscoverTools | optimization_toolboxV3.21.py:69-90 | without a `tools` directory the registry is empty; otherwise it is the registry built from the `.py` files in listing order |
| ToolDiscovery.DiscoveredTools | optimization_toolboxV3.21.py:80-88 | every registered name is non-empty, does not start with `_`, is the stem of a listed `.py` file and maps to `tools.<name>`; and a name is registered exactly when a tool file has it |
| ToolDependencies.LessThanIrreflexive | optimization_toolboxV3.21.py:157 | no version text is below itself |
| ToolDependencies.FindGe | optimization_toolboxV3.21.py:152-153 | the first position of `>=`, and none exactly when the spec has no `>=` |
| ToolDependencies.SpecMissing | optimization_toolboxV3.21.py:150-164 | a spec fails with the unpacking error exactly when text after its first `>=` holds another `>=`; a spec without `>=` is missing exactly when the package is not installed |
| ToolDependencies.Missing | optimization_toolboxV3.21.py:150-164 | a failed check carries the unpacking error |
| ToolDependencies.RequiredMissing | optimization_toolboxV3.21.py:167-170 | a missing spec is reported exactly when its text contains a required or base package name |
| ToolDependencies.CheckDependencies | optimization_toolboxV3.21.py:127-177 | returns (or raises) what the dependency report says for the base, required and optional specs, an absent list counting as empty |
| ToolDependencies.CheckAll | optimization_toolboxV3.21.py:150-164 | the loop yields the specs found missing in order, or the error of the first spec holding `>=` twice |
| ToolDependencies.CheckSpec | optimization_toolboxV3.21.py:151-164 | one spec's `try` block agrees with the spec's verdict |
| ToolDependencies.MissingNext | optimization_toolboxV3.21.py:150-164 | checking one more spec that raises nothing appends it exactly when it is missing |
| ToolDependencies.MissingFailsOnlyOnBadSpec | optimization_toolboxV3.21.py:150-164 | the check fails exactly when some spec holds `>=` twice |
| ToolDependencies.MissingMembers | optimization_toolboxV3.21.py:150-164 | the missing list holds exactly the checked specs found missing |
| ToolDependencies.ReportMeaning | optimization_toolboxV3.21.py:167-177 | the flag is true exactly when the list is empty, and the list holds exactly the checked, missing specs naming a required or base package |
| ToolDependencies.SpecOfParts | optimization_toolboxV3.21.py:152-157 | `name>=v` looks up the stripped name and is missing when it is not installed or its version is below the stripped `v` as text |
| ToolDependencies.ExactVersionSatisfies | optimization_toolboxV3.21.py:155-157 | a spec is satisfied by exactly the version it names |
| ToolDependencies.VersionsComparedAsText | optimization_toolboxV3.21.py:155-157 | versions compare as text: numpy 10.0 installed leaves `numpy>=9.0` missing |
| ToolMenu.ActionOf | optimization_toolboxV3.21.py:244-246 | an action is found exactly when an entry has the key and an action, and it is that entry's action |
| ToolMenu.Dispatch | optimization_toolboxV3.21.py:244-251 | the `for ... else` returns the action of the first entry whose key is the choice, which is the menu read key by key: "1" status, "2" backup, "3" cleanup of 30 days, "4" SQL, "5" verbose listing, "6" tool run, anything else invalid |
| ToolMenu.MenuKeys | optimization_toolboxV3.21.py:220-228 | keys "1" to "6" run something; every other choice, "0" included, runs nothing |
| ToolMenu.MenuActions | optimization_toolboxV3.21.py:223-225 | entry "3" cleans logs older than 30 days and entry "5" lists tools verbosely |
| ToolMenu.MenuTable | optimization_toolboxV3.21.py:220-228 | scanning the menu list for the choice gives the same action as reading the keys one by one |
| ToolMenu.PromptingKeys | optimization_toolboxV3.21.py:254-265 | the entries that read a further line (the SQL statement, the tool to run) are exactly "4" and "6" |
| ToolMenu.RunInteractiveCli | optimization_toolboxV3.21.py:218-265 | the events are the rounds of the stripped lines: each choice is dispatched or reported invalid until a "0" choice; "4" and "6" take the line after them as their answer (or meet the end of input), and that line is never read as a choice; the loop exits exactly when a "0" choice is reached before the input ends |
| ToolMenu.RoundsWithoutPrompts | optimization_toolboxV3.21.py:218-252 | when no line chooses "4" or "6", every line up to the first "0" is a choice answered by its own round, and the loop stops right after them |
| ToolMenu.SqlAnswerIsNotAChoice | optimization_toolboxV3.21.py:254-258 | a "0" typed as the SQL statement after "4" is executed as SQL and does not end the loop |
| ToolDatabase.AgeModifier | optimization_toolboxV3.21.py:349 | the bound parameter is `-`, the day count, then ` days` |
| ToolDatabase.CleanupQuery | optimization_toolboxV3.21.py:348-349 | the statement has one placeholder, bound to the age modifier, so the day count never enters the text |
| ToolDatabase.RouteByKeyword | optimization_toolboxV3.21.py:362-370 | on the stripped, lower-cased text: queries are exactly the `select`/`explain` statements, updates exactly the `insert`/`update`/`delete` ones, and everything else is refused |
| ToolDatabase.RouteIgnoresSurroundingSpace | optimization_toolboxV3.21.py:362 | surrounding white space does not change where a statement goes |
| ToolDatabase.ExecuteSql | optimization_toolboxV3.21.py:359-386 | a refused statement reaches no database call; a query reports the row count of the query run, an update the success of the update run, a database error is reported |
| PolygonMerger.RowPairsMembers | tools/polygon_merger.py:1601-1607 | the inner scan of polygon `i` from `j` on records exactly the 1-based pairs `(i+1, j'+1)`, `j <= j'`, whose polygons meet |
| PolygonMerger.RowPairsOrdered | tools/polygon_merger.py:1601-1607 | the inner scan records its pairs in increasing order of the second index |
| PolygonMerger.PairsFromExact | tools/polygon_merger.py:1600-1607 | the rows from `i` on record exactly the meeting pairs whose first index exceeds `i`, in i-then-j order |
| PolygonMerger.IntersectingPairsExact | tools/polygon_merger.py:1599-1607 | the collected pairs are exactly the 1-based pairs `i < j` of meeting polygons, in i-then-j order |
| PolygonMerger.ScanRow | tools/polygon_merger.py:1601-1609 | the inner loop appends the row's pairs, one detail line each, and sets the flag exactly when it found one |
| PolygonMerger.ScanAll | tools/polygon_merger.py:1599-1609 | the nested loops collect exactly the meeting pairs in scan order with one detail line each, and the flag is set exactly when there is one |
| PolygonMerger.CheckIntersections | tools/polygon_merger.py:1587-1618 | fewer than two polygons: no intersection, one message, no pair list; otherwise the pair list is exactly the meeting pairs in order, the flag says it is non-empty, and the details are one line per pair or the single "no intersection" line |
| PolygonMerger.MergePolygons | tools/polygon_merger.py:1620-1646 | no polygons give nothing and one polygon is returned unchanged; for two or more, the union's hull when it has several parts, its repaired single part when it has one, the repaired union when it has no part list; it fails exactly when the union raises or has an empty part list; under the repair laws the result is valid |
| PolygonMerger.Unify | tools/polygon_merger.py:357-370 | a Polygon is itself; a MultiPolygon of several parts is their union, of one part that part; anything else its hull |
| PolygonMerger.ParseSingle | tools/polygon_merger.py:336-355 | blank text gives nothing; otherwise the result is present exactly when the white-space-collapsed text parses, and it is the repaired parse, valid under the repair laws |
| PolygonMerger.KeepApart | tools/polygon_merger.py:405-415 | the kept points grow from the points already kept by at most the points still to look at |
| PolygonMerger.KeepApartSpaced | tools/polygon_merger.py:405-415 | the kept points stay more than the tolerance apart, each from the one before |
| PolygonMerger.DedupeAgainstKept | tools/polygon_merger.py:403-415 | the result starts at the first point, is no longer than the input, and its consecutive points lie more than the tolerance apart |
| PolygonMerger.OptimizedWktShape | tools/polygon_merger.py:387-430 | the clean-up returns its input, or the text of a closed ring of at least four points that starts at the first rounded coordinate and whose points before the closing one lie more than 1e-12 apart |
| PolygonMerger.CleanedRingShape | tools/polygon_merger.py:403-420 | a cleaned ring of at least four points starts at the first rounded coordinate, is closed, and is spaced before its closing point |
| PolygonMerger.OptimizeWktPrecision | tools/polygon_merger.py:387-430 | the loops compute the clean-up of the text |
| PolygonMerger.RoundCoords | tools/polygon_merger.py:398-401 | every coordinate is rounded to 12 decimals, in order |
| PolygonMerger.DropNearPoints | tools/polygon_merger.py:403-415 | the first point is kept and then each point farther than 1e-12 from the last kept one |
| PolygonMerger.SplitGeoms | tools/polygon_merger.py:196-264 | both geometries are unified first; the split yields a polygon exactly when they meet and the repaired difference of the second minus the first is not empty, and that polygon is the difference reduced to one part (its hull unless already a polygon) with its text; disjoint inputs are reported exactly when both unify and do not meet, a covered second polygon exactly when the difference is empty; the polygon is valid under the repair laws |
| PolygonMerger.SplitPair | tools/polygon_merger.py:174-194 | a first text that does not parse after cleaning is reported first, a second one next; any output is the split of the two parsed geometries |
| PolygonMerger.ParseLine | tools/polygon_merger.py:724-739 | a blank line is skipped; a parsed line yields the unified parse of the stripped line |
| PolygonMerger.Collect | tools/polygon_merger.py:723-739 | no more entries than lines |
| PolygonMerger.CollectExact | tools/polygon_merger.py:723-739 | parsing aborts exactly when some line raises; otherwise every entry carries the number of the line it came from, in increasing order, and that line's unified geometry |
| PolygonMerger.CollectFails | tools/polygon_merger.py:733-734 | parsing aborts exactly when some line raises while unifying |
| PolygonMerger.CollectOrigins | tools/polygon_merger.py:723-739 | every entry came from the line it is numbered with, which parsed to its geometry |
| PolygonMerger.CollectOrdered | tools/polygon_merger.py:723-739 | entries keep the order of their lines |
| PolygonMerger.LineFates | tools/polygon_merger.py:723-731 | one fate per input line, in order |
| PolygonMerger.ClipStep | tools/polygon_merger.py:787-882 | the accumulator becomes the step's output polygon; the step is disjoint exactly when the previous result does not meet the polygon (which is then kept, reduced to one part), fails exactly when they meet and re-optimising or the difference raises (the original polygon is output), is covered when the repaired difference is empty, and otherwise outputs that difference, through its hull when it is a MultiPolygon, valid under the repair laws |
| PolygonMerger.ChainClip | tools/polygon_merger.py:757-882 | one result per parsed polygon; the first is the first polygon, and each later one is the step clipping that polygon by the result before it |
| PolygonMerger.TrimAgainst | tools/polygon_merger.py:472-506 | a kept entry has removed between none and all of the earlier overlaps |
| PolygonMerger.Polygons | tools/polygon_merger.py:467 | the geometries of the kept entries, in order |
| PolygonMerger.Sweep | tools/polygon_merger.py:462-527 | the sweep extends the entries kept so far by at most the entries still to look at |
| PolygonMerger.ThinnedShorter | tools/polygon_merger.py:462-527 | an output drawn from a subsequence of the input is no longer than it |
| PolygonMerger.ThinnedSelf | tools/polygon_merger.py:452-453 | returning the list unchanged draws every entry from itself |
| PolygonMerger.SweepThinned | tools/polygon_merger.py:462-527 | every entry the sweep outputs comes from an input entry of the same position and note, in input order |
| PolygonMerger.DeOverlappedThinned | tools/polygon_merger.py:442-536 | lists of at most one entry are returned unchanged; otherwise the first entry is kept, every output entry comes from an input entry of the same position and note, in order, and the list never grows |
| PolygonMerger.TrimPiece | tools/polygon_merger.py:470-506 | the inner loop cuts the entry against each earlier kept entry it meets, stopping when it drops or raises |
| PolygonMerger.RemoveOverlaps | tools/polygon_merger.py:442-536 | the loop computes the de-overlap pass, returning the input when a cut raises |
| PolygonMerger.BatchChainSplit | tools/polygon_merger.py:643-898 | aborts when unification raises; stops with no or one parsed polygon; otherwise the clip yields one result per parsed polygon and the de-overlap pass keeps between one and all of them |
| PolygonPrecisionOptimizer.RemoveDuplicatePoints | tools/polygon_precision_optimizer.py:164-175 | lists of at most one point are returned unchanged; otherwise the first point is kept and the result is no longer than the input |
| PolygonPrecisionOptimizer.KeepFromShape | tools/polygon_precision_optimizer.py:173-175 | the masked points from position `k` on are the input points at the kept positions, all at or after `k` |
| PolygonPrecisionOptimizer.KeptIndicesFromOrdered | tools/polygon_precision_optimizer.py:173-175 | the kept positions increase strictly, and a position at or after `k` is kept exactly when its step from the input point before it exceeds the tolerance |
| PolygonPrecisionOptimizer.RemoveDuplicatePointsPicks | tools/polygon_precision_optimizer.py:164-175 | the result is the input points at the masked positions in increasing order: position 0 and each position whose step from the previous input point (not the last kept one) exceeds the tolerance |
| PolygonPrecisionOptimizer.PointList.constructor | tools/polygon_precision_optimizer.py:177 | a mutable list holding the given points |
| PolygonPrecisionOptimizer.EnsurePolygonClosure | tools/polygon_precision_optimizer.py:177-186 | the list is closed in place: the first point is appended when there are at least three points and the ends differ, otherwise it is left as it was |
| PolygonPrecisionOptimizer.ReconstructWkt | tools/polygon_precision_optimizer.py:188-197 | fewer than four points raise; otherwise the polygon text with one formatted pair per point, in order |
| PolygonPrecisionOptimizer.StandardOptimizedShape | tools/polygon_precision_optimizer.py:33-65 | the optimisation returns its input when no coordinates are extracted, and otherwise either its input or the text of a closed ring of at least four points starting at the first rounded coordinate |
| PolygonPrecisionOptimizer.OptimizePolygonWkt | tools/polygon_precision_optimizer.py:33-65 | extract, round, de-duplicate, close and rebuild, falling back to the input when extraction gives nothing or the ring is too short |
| PolygonPrecisionOptimizer.VertexRowExact | tools/polygon_precision_optimizer.py:212-228 | the scan of vertex `i` from `from` on records exactly the near vertices of the second polygon at or after `from` |
| PolygonPrecisionOptimizer.VertexPairsFromExact | tools/polygon_precision_optimizer.py:208-228 | the rows from vertex `i` on record exactly the near vertex pairs whose first vertex is at or after `i` |
| PolygonPrecisionOptimizer.VertexOverlapsExact | tools/polygon_precision_optimizer.py:199-229 | a vertex pair is reported exactly when its two vertices lie within the tolerance, with their indices and coordinates |
| PolygonPrecisionOptimizer.DetectVertexOverlaps | tools/polygon_precision_optimizer.py:199-229 | the nested loops report the vertex pairs row by row |
| PolygonPrecisionOptimizer.VertexPairsEmpty | tools/polygon_precision_optimizer.py:202-203 | an empty second polygon gives no vertex pair |
| PolygonPrecisionOptimizer.EdgeRowExact | tools/polygon_precision_optimizer.py:243-259 | the scan of edge `i` from `from` on records exactly the near edges of the second polygon at or after `from` |
| PolygonPrecisionOptimizer.EdgePairsFromExact | tools/polygon_precision_optimizer.py:243-259 | the rows from edge `i` on record exactly the near edge pairs whose first edge is at or after `i` |
| PolygonPrecisionOptimizer.EdgeOverlapsExact | tools/polygon_precision_optimizer.py:231-260 | an edge pair is reported exactly when both edges exist and lie within the tolerance; a polygon of fewer than two points has no edge |
| PolygonPrecisionOptimizer.DetectEdgeOverlaps | tools/polygon_precision_optimizer.py:231-260 | the nested loops report the edge pairs row by row |
| PolygonPrecisionOptimizer.BoundingBox | tools/polygon_precision_optimizer.py:299-302 | the box holds every point and each of its four sides is reached by some point |
| PolygonPrecisionOptimizer.BoxOverlapSymmetric | tools/polygon_precision_optimizer.py:304-326 | swapping the boxes keeps the overlap and swaps the areas and ratios |
| PolygonPrecisionOptimizer.BoxOverlapBounded | tools/polygon_precision_optimizer.py:304-317 | the overlap is 0 unless the boxes overlap with positive extent on both axes, and lies between 0 and the first box's area |
| PolygonPrecisionOptimizer.BoxOverlapRatio | tools/polygon_precision_optimizer.py:321-325 | the first ratio is 0 for a box of zero area and lies in [0, 1] |
| PolygonPrecisionOptimizer.BboxOverlapProperties | tools/polygon_precision_optimizer.py:295-326 | for two coordinate lists the overlap is symmetric, 0 unless the boxes overlap on both axes, at most either box's area, and both ratios lie in [0, 1] and are 0 for a box of zero area |
| PolygonPrecisionOptimizer.AnalyzePolygonOverlap | tools/polygon_precision_optimizer.py:67-103 | extraction failure is reported exactly when either list is empty; otherwise the vertex pairs, edge pairs and box overlap, with the issue flag set exactly when some vertex or edge pair was found |
| PolygonPrecisionOptimizer.ApplyAntiOverlapOptimization | tools/polygon_precision_optimizer.py:328-358 | every point is shifted by its own offset and rounded, then de-duplicated, closed and rebuilt, falling back to the input when extraction gives nothing or the ring is too short |
| PolygonPrecisionOptimizer.OptimizeForClipping | tools/polygon_precision_optimizer.py:105-133 | both texts take the anti-overlap path when the analysis finds a near vertex or edge pair, and the standard path otherwise, including when extraction fails |
| OptimizedPolygonClipper.ParseAndValidate | tools/optimized_polygon_clipper.py:76-95 | a text that does not parse gives nothing; a parsed geometry is repaired, and a repaired MultiPolygon is replaced by the union of its parts, anything else kept as repaired, which is valid under the repair laws |
| OptimizedPolygonClipper.KeepAxisApart | tools/optimized_polygon_clipper.py:110-116 | the points already kept stay as a prefix, and at most the remaining points are added |
| OptimizedPolygonClipper.KeepAxisApartSpaced | tools/optimized_polygon_clipper.py:113-116 | every kept point differs from the one before it by more than the tolerance on some axis |
| OptimizedPolygonClipper.CleanedShell | tools/optimized_polygon_clipper.py:101-120 | the cleaned shell starts at the rounded first coordinate, is closed, and keeps consecutive points axis-apart before the closing point |
| OptimizedPolygonClipper.RoundedHoles | tools/optimized_polygon_clipper.py:126-132 | one hole per input hole, each with every coordinate rounded to 12 decimals |
| OptimizedPolygonClipper.PrecisionOptimizedShape | tools/optimized_polygon_clipper.py:97-143 | the precision step returns its input, or the repaired polygon built on a closed cleaned shell; under the repair laws a rebuilt result is valid |
| OptimizedPolygonClipper.RoundVertices | tools/optimized_polygon_clipper.py:103-107 | every shell vertex is rounded to 12 decimals, in order |
| OptimizedPolygonClipper.KeepApartVertices | tools/optimized_polygon_clipper.py:110-116 | the first vertex is kept, then each vertex axis-apart from the last kept one |
| OptimizedPolygonClipper.RoundInteriors | tools/optimized_polygon_clipper.py:126-132 | every hole is rounded |
| OptimizedPolygonClipper.OptimizeGeometryPrecision | tools/optimized_polygon_clipper.py:97-143 | the loops compute the precision step |
| OptimizedPolygonClipper.DropLast | tools/optimized_polygon_clipper.py:185-186 | the ring without its closing point |
| OptimizedPolygonClipper.VertexRowExact | tools/optimized_polygon_clipper.py:191-210 | the inner scan of vertex `i` records a shared vertex for each later vertex agreeing within the tolerance on both axes, a boundary record for each other one when the vertex lies on the second boundary, and nothing else |
| OptimizedPolygonClipper.VertexHitsFromExact | tools/optimized_polygon_clipper.py:189-210 | the rows from vertex `i` on hold exactly the shared-vertex and boundary records of those vertices |
| OptimizedPolygonClipper.VertexHitsExact | tools/optimized_polygon_clipper.py:181-215 | shared vertices are exactly the vertex pairs, closing points excluded, that agree within the tolerance; a vertex gets boundary records exactly when it lies on the second boundary and some vertex does not match it, once per vertex of the second ring |
| OptimizedPolygonClipper.ScanVertexRow | tools/optimized_polygon_clipper.py:191-210 | the inner loop computes the row of vertex `i` |
| OptimizedPolygonClipper.DetectVertexOverlaps | tools/optimized_polygon_clipper.py:181-215 | the nested loops compute the vertex records, none when a shell cannot be read |
| OptimizedPolygonClipper.EdgeRecord | tools/optimized_polygon_clipper.py:228-240 | an edge is recorded, with its shared length, exactly when it meets the second boundary in a line longer than the tolerance |
| OptimizedPolygonClipper.EdgeHitsFromExact | tools/optimized_polygon_clipper.py:226-240 | the edges from `i` on are recorded exactly when they are edge hits |
| OptimizedPolygonClipper.EdgeHitsExact | tools/optimized_polygon_clipper.py:217-246 | an edge is recorded exactly when its intersection with the second boundary is a line longer than the tolerance |
| OptimizedPolygonClipper.DetectEdgeOverlaps | tools/optimized_polygon_clipper.py:217-246 | the loop computes the edge records, none when a shell cannot be read |
| OptimizedPolygonClipper.AnalyzeOverlap | tools/optimized_polygon_clipper.py:145-179 | geometries that do not meet give the empty analysis; otherwise the intersection area and both record lists, each flag set exactly when its list is non-empty |
| OptimizedPolygonClipper.ExecuteOperation | tools/optimized_polygon_clipper.py:311-320 | `difference` subtracts the first geometry from the second, `intersection` and `union` combine them, and any other name fails |
| OptimizedPolygonClipper.PostProcessResult | tools/optimized_polygon_clipper.py:322-350 | the repaired result, a single-part MultiPolygon reduced to its part and a merged one to its largest part, then the precision step; a failed merge returns what was reached |
| OptimizedPolygonClipper.Report | tools/optimized_polygon_clipper.py:274-287 | an empty result has no text and area 0; any other has its text and area |
| OptimizedPolygonClipper.StandardClip | tools/optimized_polygon_clipper.py:291-309 | fails exactly when the operation fails; otherwise a standard-path report without analysis |
| OptimizedPolygonClipper.Buffered | tools/optimized_polygon_clipper.py:255-268 | a buffered stand-in that vanished is replaced by the original geometry |
| OptimizedPolygonClipper.HandleSpecialOverlap | tools/optimized_polygon_clipper.py:248-289 | a successful operation on the stand-ins is a special-path report carrying the analysis; a failure falls back to the standard clip of the originals |
| OptimizedPolygonClipper.ClipPolygons | tools/optimized_polygon_clipper.py:35-74 | an unparsable text fails with the parse message; otherwise the special path runs exactly when the cleaned geometries meet and share a vertex or edge, and the standard clip otherwise |
| Decimal.RoundHalfEven | tools/polygon_merger.py:398-399 | the nearest integer: never more than one half away |
| Decimal.RoundTo | tools/polygon_merger.py:398-399 | `round(x, d)` lies within half a unit of the `d`-th decimal of `x` |
| Geometry.ArgMaxArea | tools/polygon_merger.py:505 | `max(parts, key=area)`: the first part whose area no other part exceeds |
| Geometry.CloseRing | tools/polygon_merger.py:416-418 | a ring of three or more points ends where it starts, growing by at most its first point; shorter rings are unchanged |
| Geometry.RoundPoints | tools/optimized_polygon_clipper.py:105-109 | each point's coordinates rounded, one point per point |
| Geometry.FormatFixed | tools/polygon_merger.py:424-426 | a non-empty text of digits, sign and decimal point only |
| Geometry.PairText | tools/polygon_merger.py:426 | the `"x y"` text of a point never holds a comma |
| Geometry.FormatPairs | tools/polygon_merger.py:424-426 | the loop yields one `"x y"` text per point, in order |
| Geometry.JoinCommaBlank | tools/polygon_merger.py:428 | joining with `", "` equals joining with `","` the pieces that carry the blank |
| Geometry.PolygonTextPairs | tools/polygon_merger.py:428 | the polygon text is `POLYGON ((`…`))`, and splitting its body at commas gives back one piece per point, in order |
| PanelReader.JudgeSchemeType | tools/panel_reader.py:1963-1979 | every input gets exactly one of six types, each characterised by an if-and-only-if on the category and measure; `非无线` is never produced |
| PanelReader.Bump | tools/panel_reader.py:1843-1847 | a counted scheme adds one to the total, and one to the successes when it succeeded |
| PanelReader.CountWhere | tools/panel_reader.py:1820-1847 | a count over schemes never exceeds their number |
| PanelReader.TallyOfWellCounted | tools/panel_reader.py:1841-1847 | every type's successes never exceed its total |
| PanelReader.TallyOfTotals | tools/panel_reader.py:1841-1845 | a scored type's total is the number of non-replacement, non-removed schemes of that type |
| PanelReader.TallyOfSuccesses | tools/panel_reader.py:1846-1847 | a scored type's successes are the number of those schemes that succeeded or were completed offline |
| PanelReader.TallyOfCounts | tools/panel_reader.py:1810-1847 | totals and successes count exactly the qualifying schemes, and successes never exceed totals |
| PanelReader.TypeTerm | tools/panel_reader.py:1868-1886 | a type with schemes contributes its full weight and its success share of it, between 0 and the weight, all of it when every scheme succeeded and none when none did; a type without schemes contributes nothing |
| PanelReader.AccuracyPoints | tools/panel_reader.py:1888-1902 | 10 below 15% removed, 0 above 30%, and in between the linear drop from 10 to 0; always between 0 and 10 |
| PanelReader.TimelinessPoints | tools/panel_reader.py:1923-1933 | 10 below 20% late, 0 above 60%, and in between the linear drop from 10 to 0; always between 0 and 10 |
| PanelReader.AccuracyPointsNonIncreasing | tools/panel_reader.py:1888-1902 | a larger removed share never earns more accuracy points |
| PanelReader.TimelinessPointsNonIncreasing | tools/panel_reader.py:1923-1933 | a larger late share never earns more timeliness points |
| PanelReader.GridProcessScoreBounds | tools/panel_reader.py:1800-1961 | the score lies in [0, 1]; a grid without sub-orders scores 0 with the short details; otherwise accuracy and timeliness lie in [0, 10] and are 0 for a grid that is not a 2025 grid, which any 2024 label rules out; such a grid's weight is the survey's plus its types' weights |
| PanelReader.GridScoreBounds | tools/panel_reader.py:1849-1961 | the same bounds, from any well-counted counters |
| PanelReader.CountSchemes | tools/panel_reader.py:1820-1847 | the first loop computes the four types' counters and the number of sub-orders |
| PanelReader.CountActive | tools/panel_reader.py:1910-1921 | the second loop counts the non-replacement schemes that are not removed |
| PanelReader.CalculateGridProcessScore | tools/panel_reader.py:1800-1961 | the loops compute the grid's process score and details |
| PanelReader.Deductions | tools/panel_reader.py:2802-2818 | process, timeliness, accuracy in that order, at most one each; the process deduction appears exactly when the grid is scored, has a process weight and its rounded score is below it, for the difference; timeliness and accuracy exactly for 2025 grids whose rounded points are below 10, for the difference to 10; none for a grid without sub-orders |
| PanelReader.DeductionText | tools/panel_reader.py:2805-2818 | the deduction's label, its points as printed, then `分`; never empty, and free of the list separator `，` when the printed points are |
| PanelReader.DeductionTexts | tools/panel_reader.py:2805-2818 | one text per deduction, in order |
| PanelReader.RemarkOf | tools/panel_reader.py:2820-2827 | empty exactly without deductions; one deduction's text alone; several are `多项，` followed by their texts joined with `，` |
| PanelReader.RemarkListsDeductions | tools/panel_reader.py:2820-2827 | splitting a several-deduction remark after `多项，` at `，` gives back the deduction texts, in order |
| PanelReader.BuildRemark | tools/panel_reader.py:2802-2827 | the appends build the remark of the grid's deductions |
| PanelReader.RemarkOfGrid | tools/panel_reader.py:2802-2827 | a grid without sub-orders gets an empty remark, and one that is not a 2025 grid at most one deduction |
| PanelReader.GetScore | tools/panel_reader.py:914-920 | a missing or null key gives the default; a number is itself; a text is what `float` makes of it, or the default when it refuses |
| PanelReader.KeptRowsExact | tools/panel_reader.py:1472-1566 | the imported rows are exactly the rows that pass the label, step, grid-code, scheme-id and exclusion filters, and never more than the input |
| PanelReader.ProcessCsvData | tools/panel_reader.py:1381-1573 | the loop keeps exactly the filtered rows in file order |
| TrafficMonitor.NetworkType | tools/traffic_monitor.py:21-47 | a cell is 5G exactly when its band is 4.9GHz, 2.6GHz or 700M or its system is `5G`, and 4G otherwise |
| TrafficMonitor.FirstDropExact | tools/traffic_monitor.py:1487-1540 | a scan from day `i` finds the first day at or after `i` that passes the test, and finds nothing exactly when no such day passes |
| TrafficMonitor.StrictFirstExact | tools/traffic_monitor.py:1487-1515 | the first pass finds the first day, after the first window, whose day and following window both drop |
| TrafficMonitor.LooseFirstExact | tools/traffic_monitor.py:1519-1533 | the second pass finds the first day, after the first window, whose traffic drops below the earlier mean |
| TrafficMonitor.DropIndexExact | tools/traffic_monitor.py:1469-1539 | a series shorter than `2w + 1` days has no drop; otherwise the drop day is the first strict drop, or, only when no day drops strictly, the first loose drop; when none is found no day drops loosely |
| TrafficMonitor.FindTrafficDropDate | tools/traffic_monitor.py:1469-1539 | the detector computes the drop index |
| TrafficMonitor.StrictPass | tools/traffic_monitor.py:1487-1515 | the first loop finds the first strict drop day |
| TrafficMonitor.LoosePass | tools/traffic_monitor.py:1519-1533 | the second loop finds the first loose drop day |
| TrafficMonitor.StrictTest | tools/traffic_monitor.py:1488-1515 | the first loop's body computes the two window means and the strict test |
| TrafficMonitor.LooseTest | tools/traffic_monitor.py:1520-1533 | the second loop's body computes the earlier mean and the loose test |
| TrafficMonitor.WeekMean | tools/traffic_monitor.py:1995-1996 | a week of fewer than seven days has mean 0 |
| TrafficMonitor.Tail | tools/traffic_monitor.py:1994 | `tail(n)` keeps up to the last `n` days |
| TrafficMonitor.Head | tools/traffic_monitor.py:1998 | `head(n)` keeps up to the first `n` days |
| TrafficMonitor.SumNonNegative | tools/traffic_monitor.py:1995-2007 | traffic that is never negative sums to a non-negative total |
| TrafficMonitor.FiguresProperties | tools/traffic_monitor.py:1993-2014 | the means are 0 without seven days on their side; the ratio is 0 without an earlier mean; a cell is recovered exactly when its latest week reaches half the earlier mean; with non-negative traffic the drop is at most 100% |
| TrafficMonitor.FiguresShortWeeks | tools/traffic_monitor.py:1994-2007 | a side with fewer than seven days has mean 0 |
| TrafficMonitor.FiguresNonNegative | tools/traffic_monitor.py:2001-2014 | with non-negative traffic the drop is at most 100% and a cell with no earlier mean counts as recovered |
| TrafficMonitor.WeekMeanNonNegative | tools/traffic_monitor.py:1995-2007 | the mean of non-negative traffic is not negative |
| TrafficMonitor.SpikeRowsExact | tools/traffic_monitor.py:1977-2024 | at most one row per cell; every row belongs to a cell whose series drops at the row's day with that day's figures; every cell that drops has its row, placed after the rows of the cells before it, so rows follow the cells' order |
| TrafficMonitor.SpikeRowsSound | tools/traffic_monitor.py:1977-2024 | no more rows than cells, and each row is the drop row of some cell |
| TrafficMonitor.SpikeRowsComplete | tools/traffic_monitor.py:1977-2024 | a cell that drops has its row in the result, right after the rows of the cells before it |
| TrafficMonitor.SpikeRowsOrdered | tools/traffic_monitor.py:1977-2024 | a dropping cell adds a row before any later cell is looked at, so rows keep the cells' order |
| TrafficMonitor.AnalyzeSpikes | tools/traffic_monitor.py:1977-2024 | the loop appends exactly the spike rows |
| TrafficMonitor.SectorDropType | tools/traffic_monitor.py:2292-2303 | whole sector exactly when every cell of a non-empty sector dropped; part of the sector when some but not all did; no drop otherwise |
| TrafficMonitor.RatioIsHundred | tools/traffic_monitor.py:2295-2301 | the percentage is 100 exactly when the counts agree, and positive exactly when some cell dropped |
| TrafficMonitor.Distinct | tools/traffic_monitor.py:2306-2307 | the distinct antenna names, blanks left out |
| TrafficMonitor.AntennaStatus | tools/traffic_monitor.py:2309-2315 | shared exactly when both the dropped cells and the sector name one antenna; shared by the dropped cells when only they do; separate otherwise |
| TrafficMonitor.OneAntennaShared | tools/traffic_monitor.py:2306-2315 | a sector on one antenna with a dropped cell naming an antenna shares its antenna |
| TrafficMonitor.JoinGridField | tools/traffic_monitor.py:2053-2080 | the no-buffer and 500 m values, each when not empty, joined with `,`; empty exactly when both are |
| OnlineMap.SectorBeam | tools/online_map.py:224-259 | indoor sites get 359 degrees; a 5G cell gets 40, 65 or 70 for the first of 700M, 2.6G, 4.9G its band text contains, a 4G cell 30, 50, 45, 60 or 55 for the first of FDD900, FDD1800, F, D, A; otherwise 40 |
| OnlineMap.SectorRadius | tools/online_map.py:262-297 | indoor sites get 30 m; a 5G cell gets 50, 40 or 30 m for the first of 700M, 2.6G, 4.9G its band text contains, a 4G cell 47, 43, 39, 42 or 38 m for the first of FDD900, FDD1800, F, D, A; otherwise 40 m; always between 30 and 50 m |
| OnlineMap.BeamAndRadiusShareRow | tools/online_map.py:224-297 | the beam and the radius are read from the same table row: both functions test the same band names in the same order |
| OnlineMap.FddBandLetters | tools/online_map.py:243-252 | a band text naming `FDD1800` also contains `F` and `D` |
| OnlineMap.FddBandsTakePrecedence | tools/online_map.py:243-252 | a 4G `FDD1800` band, which also contains `F` and `D`, still gets its own 50 degrees and 43 m |
| OnlineMap.Wgs84ToGcj02 | tools/online_map.py:111-145 | coordinates outside the box of China are returned unchanged; inside it the offset formula applies |
| OnlineMap.AutoZoom | tools/online_map.py:1772-1789 | the zoom lies between 5 and 13; it is 5 exactly for an extent over 10 degrees and 13 exactly for one of at most 0.05 |
| OnlineMap.AutoZoomMonotone | tools/online_map.py:1772-1789 | a larger extent never gets a closer zoom |
| OnlineMap.Locate | tools/online_map.py:1626-1649 | a point is located exactly when both texts are given, parse after stripping, and lie in [-90, 90] and [-180, 180]; missing input is reported exactly when either text is empty |
| OnlineMap.KeepIn | tools/online_map.py:1679-1682 | the filtered list holds exactly the entries that are keys, and is no longer than the list |
| OnlineMap.KeepInDistinct | tools/online_map.py:1679-1682 | filtering a list without repeats gives one without repeats |
| OnlineMap.KeepInAll | tools/online_map.py:1679-1682 | filtering a list whose entries are all keys leaves it unchanged |
| OnlineMap.KeepInAppend | tools/online_map.py:1679-1682 | filtering distributes over concatenation |
| OnlineMap.MoveUp | tools/online_map.py:1701-1707 | entry `i` swaps with the one before it; the others stay and the entries are a permutation of the old ones |
| OnlineMap.MoveDown | tools/online_map.py:1712-1718 | entry `i` swaps with the one after it; the others stay; a permutation |
| OnlineMap.MoveToTop | tools/online_map.py:1723-1729 | entry `i` comes first and the others follow in their old order; a permutation |
| OnlineMap.MoveToBottom | tools/online_map.py:1734-1740 | entry `i` comes last after the others in their old order; a permutation |
| OnlineMap.RemovedIsPermutation | tools/online_map.py:1747-1749 | taking an entry out removes exactly one occurrence of it |
| OnlineMap.RemoveFirst | tools/online_map.py:1748-1749 | `list.remove` shortens the list by one occurrence of the key; on a list without repeats the key is gone and every other entry stays |
| OnlineMap.IndexOfKey | tools/online_map.py:1748-1749 | the position of the first occurrence of the key |
| OnlineMap.Merge | tools/online_map.py:1762-1765 | the merged box covers both boxes |
| OnlineMap.UnionBounds | tools/online_map.py:1754-1765 | none exactly when no layer has bounds; otherwise the smallest box covering every layer's bounds, each side reached by some layer |
| OnlineMap.MergeIsUnion | tools/online_map.py:1762-1765 | merging one more layer's bounds gives the union over one more layer |
| OnlineMap.ViewOf | tools/online_map.py:1766-1797 | the view of a box has a zoom between 5 and 13 |
| OnlineMap.ReconciledOrder | tools/online_map.py:1671-1682 | appending the missing keys and filtering leaves exactly the keys, the survivors first in their old order, and no repeats when there were none |
| OnlineMap.LayerPanel.constructor | tools/online_map.py:1663-1668 | a panel over the loaded layers with no saved order, no view and no marker |
| OnlineMap.LayerPanel.AppendMissing | tools/online_map.py:1675-1677 | the missing keys are appended after the old order, which stays a prefix, without introducing repeats |
| OnlineMap.LayerPanel.ReconciledWith | tools/online_map.py:1666-1682 | the reconciled order names exactly the loaded layers; a first drawing takes the layers in loading order, without repeats; afterwards the old surviving entries come first in their order, and an old order without repeats stays without repeats |
| OnlineMap.LayerPanel.ReconcileOrder | tools/online_map.py:1663-1682 | with layers loaded, the order names exactly them and is saved; a first drawing takes the loading order, later ones keep the survivors first and in order; without layers nothing changes; the loading order always names exactly the layers |
| OnlineMap.LayerPanel.Up | tools/online_map.py:1701-1707 | the order becomes the up move of entry `idx`; nothing else changes |
| OnlineMap.LayerPanel.Down | tools/online_map.py:1712-1718 | the order becomes the down move of entry `idx`; nothing else changes |
| OnlineMap.LayerPanel.Top | tools/online_map.py:1723-1729 | the order becomes the move of entry `idx` to the top; nothing else changes |
| OnlineMap.LayerPanel.Bottom | tools/online_map.py:1734-1740 | the order becomes the move of entry `idx` to the bottom; nothing else changes |
| OnlineMap.LayerPanel.Delete | tools/online_map.py:1745-1808 | the layer leaves the map and its first occurrence leaves the display and loading orders; the view is cleared when no layer remains, kept when no remaining layer has bounds, and otherwise becomes the view of the remaining layers' union box |
| OnlineMap.LayerPanel.RedrawnView | tools/online_map.py:1750-1805 | no layers: no view; layers without bounds: the view stays; otherwise the view of the union box of the remaining layers' bounds |
| OnlineMap.UnionOfUnique | tools/online_map.py:1762-1765 | the union box of a set of layers is unique |
| OnlineMap.LayerPanel.QuickLocate | tools/online_map.py:1626-1649 | a located point becomes the marker and the view's centre at zoom 15; any other outcome changes nothing |
| OnlineMap.LayerPanel.ClearMarker | tools/online_map.py:1651-1658 | the marker goes and everything else stays |
| InterferenceMonitor.DetectTech | tools/interference_monitor.py:258-262 | a 5G export exactly when the lower-cased name contains `_nr_cel`; a 4G export exactly when it contains `_lte_cel` and not `_nr_cel`; refused exactly when it contains neither |
| InterferenceMonitor.RequiredColumns | tools/interference_monitor.py:264-272 | the date, CGI and cell-name columns, then the full-band mean for 5G or the average level for 4G |
| InterferenceMonitor.MissingColumns | tools/interference_monitor.py:273 | exactly the required columns the file lacks, in order |
| InterferenceMonitor.DaysInMonth | tools/interference_monitor.py:438 | a month has 28 to 31 days |
| InterferenceMonitor.NextDay | tools/interference_monitor.py:438 | the next day is a valid date whose day number is one more |
| InterferenceMonitor.DaysBeforeDecember | tools/interference_monitor.py:438 | the days before December plus its 31 make the year |
| InterferenceMonitor.MonthsBefore | tools/interference_monitor.py:436 | the days before a month grow with the month, by at least each month's length |
| InterferenceMonitor.YearsBefore | tools/interference_monitor.py:436 | the days before a year grow by at least each year's length |
| InterferenceMonitor.WithinYear | tools/interference_monitor.py:436 | a date's day number stays within its year |
| InterferenceMonitor.NotAfterIsOrdinal | tools/interference_monitor.py:436 | comparing dates field by field is comparing their day numbers |
| InterferenceMonitor.Yyyymmdd | tools/interference_monitor.py:437 | the date text has at least eight characters, all digits |
| InterferenceMonitor.ConsecutiveSnoc | tools/interference_monitor.py:436-438 | appending the next day keeps the days consecutive |
| InterferenceMonitor.ConsecutiveAscending | tools/interference_monitor.py:436-438 | consecutive dates are ascending days one apart |
| InterferenceMonitor.DateRange | tools/interference_monitor.py:431-438 | every day from start to end inclusive, in order, as text; none when the start is later |
| InterferenceMonitor.OrdinalInjective | tools/interference_monitor.py:436-438 | distinct valid dates have distinct day numbers, so the list has no repeated day |
| InterferenceMonitor.FirstParse | tools/interference_monitor.py:284-300 | nothing exactly when no format accepts the text; otherwise the parse in the first format that accepts it |
| InterferenceMonitor.Without | tools/interference_monitor.py:282 | the text with every occurrence of the character removed |
| InterferenceMonitor.IfRip | tools/interference_monitor.py:319-322 | `1` exactly for a number above -107, `0` exactly for a number at or below it, `n/a` exactly when the text is no number |
| InterferenceMonitor.MapRow | tools/interference_monitor.py:280-324 | a row is rejected exactly when its tab-free, stripped date matches no format; otherwise its record carries the first parsed date written as `YYYYMMDD`, the stripped CGI and cell name, the system, the band (700M for a 5G cell named `CBN`), the level text and its interference flag |
| InterferenceMonitor.YyyymmddRoundTrip | tools/interference_monitor.py:432-437 | a valid date of a four-digit year is written as eight digits that read back as the same date |
| InterferenceMonitor.Kept | tools/interference_monitor.py:279-324 | no more records than rows |
| InterferenceMonitor.Dropped | tools/interference_monitor.py:279-328 | no more rejected rows than rows |
| InterferenceMonitor.KeptOrDropped | tools/interference_monitor.py:279-328 | every row is either stored or counted as an error |
| InterferenceMonitor.KeptValues | tools/interference_monitor.py:279-324 | a record is stored exactly when some row maps to it |
| InterferenceMonitor.MapRows | tools/interference_monitor.py:279-328 | the loop collects the records of the mapped rows in order and counts the others |
| InterferenceMonitor.ImportInterferenceData | tools/interference_monitor.py:253-351 | an unrecognised name or a missing column refuses the file; with no records the counts are 0 and the errors; otherwise the stored count and the errors when the insert succeeds, a failure when it does not; counts add up to the rows |
| InterferenceMonitor.QueryInterferenceRange | tools/interference_monitor.py:393-419 | the query has one parameter per placeholder: the two dates, then the CGI and cell-name patterns when given |
| InterferenceMonitor.ConvertToNumeric | tools/interference_monitor.py:665-675 | missing values, the no-data marker and empty text give nothing; numbers pass; other text is what `float` makes of it |
| GcOrganizer.PassHits | tools/gc_organizer.py:221-234 | a pass keeps exactly the names that answer the query in that pass and were not found before, in list order |
| GcOrganizer.RunPass | tools/gc_organizer.py:221-234 | each list comprehension computes its pass |
| GcOrganizer.SmartSearch | tools/gc_organizer.py:213-236 | a blank query gives nothing; otherwise the first 50 answers to the stripped, lower-cased query: exact matches, then new prefix matches, then new substring matches |
| GcOrganizer.RankedAreContaining | tools/gc_organizer.py:221-234 | the ranked answers are exactly the names whose lower-cased form contains the query |
| GcOrganizer.PassHitsDistinct | tools/gc_organizer.py:221-234 | a pass over names without repeats gives answers without repeats |
| GcOrganizer.DistinctConcat | tools/gc_organizer.py:224-234 | joining lists without repeats and without common names gives a list without repeats |
| GcOrganizer.RankedDistinct | tools/gc_organizer.py:221-234 | a site list without repeats gives answers without repeats |
| GcOrganizer.RankedInPassOrder | tools/gc_organizer.py:221-234 | exact matches come first, then prefix matches, then the other substring matches |
| GcOrganizer.QueryEngineeringParams | tools/gc_organizer.py:506-567 | the query has one parameter per placeholder: the site and CGI patterns and the exact system, each only when its filter is given |
| GcOrganizer.TotalPages | tools/gc_organizer.py:102-103 | the fewest pages of 50 that hold every site |
| GcOrganizer.PageOf | tools/gc_organizer.py:105-109 | every page of the selector shows between 1 and 50 sites |
| GcOrganizer.PagesCover | tools/gc_organizer.py:102-109 | the first `k` pages show the first `50 k` sites, or all of them |
| GcOrganizer.AllPages | tools/gc_organizer.py:102-109 | all pages together show every site once, in order |
| GcOrganizer.RowsOfSites | tools/gc_organizer.py:288 | exactly the rows of the selected sites |
| GcOrganizer.ExportRows | tools/gc_organizer.py:285-291 | the export fails exactly when no row belongs to a selected site; otherwise it writes exactly those rows |
| Database.Invert | database.py:34 | inverting a map without shared values swaps keys and values: each value maps back to its key |
| Database.MappingInjective | database.py:23-31 | no two Chinese grid names share an English name |
| Database.GridFieldReverseMapping | database.py:34 | the reverse map's keys are the English names, each mapped back to its Chinese name |
| Database.MappingValues | database.py:23-31 | the English grid names are the six listed |
| Database.AllowedAreMappedNames | database.py:37-52 | the whitelist is exactly the Chinese and English grid names |
| Database.GetFieldName | database.py:1970-1990 | a Chinese grid name becomes English when English is preferred, an English one Chinese when it is not, and anything else is returned unchanged |
| Database.FieldNameRoundTrip | database.py:1970-1990 | asking for the English name of a Chinese grid name and back gives the Chinese name again |
| Database.FieldsToUpdate | database.py:2041-2059 | the key comes first; a name outside the mapping is updated alone |
| Database.Whitelisted | database.py:2062-2065 | exactly the names on the whitelist, in order |
| Database.UpdateGridFieldWithMapping | database.py:2028-2072 | the loop runs an update for exactly the whitelisted names of the columns to update, in order |
| Database.UpdatesOnlyGridColumns | database.py:2041-2065 | some column is updated exactly when the key is a whitelisted grid name |
| Database.WhitelistedPair | database.py:2062-2065 | two whitelisted names are both updated, in order |
| Database.UpdatesBothNames | database.py:2044-2047 | a Chinese grid name with both wanted updates it and its English name |
| Database.NamesDisjoint | database.py:23-34 | no name is both a Chinese and an English grid name |
| Database.UpdatesBothNamesFromEnglish | database.py:2053-2057 | an English grid name with both wanted updates it and its Chinese name |
| Database.PlaceholdersSnoc | database.py:1442-1496 | appending a condition adds its placeholders |
| Database.JoinPlaceholders | database.py:1512-1513 | joining conditions with a separator free of placeholders keeps their placeholders |
| Database.PlaceholdersAppend | database.py:1442-1496 | the placeholders of two condition lists add up |
| Database.AppendIfGiven | database.py:1450-1452 | a given filter appends its condition and its value; otherwise nothing changes |
| Database.AppendIfGivenOrNull | database.py:1462-1467 | a given value appends its condition and value; otherwise a given null flag appends the `IS NULL` condition alone |
| Database.PanelConditions | database.py:1441-1496 | the condition and parameter lists in the order the blocks build them, with one parameter per placeholder |
| Database.CondBalanced | database.py:1450-1496 | each block has as many placeholders as parameters |
| Database.AppendPiece | database.py:1441-1496 | appending balanced blocks keeps the lists balanced |
| Database.PanelBalanced | database.py:1441-1496 | every placeholder of the conditions has its parameter; the `IS NULL` conditions bring none |
| Database.CondExcludes | database.py:1450-1496 | a block of `?` conditions holds no placeholder-free condition |
| Database.ImplementNullOverridden | database.py:1462-1467 | the `implement_results IS NULL` condition is present exactly when its flag is given and no value is |
| Database.VcisvailNullOverridden | database.py:1485-1490 | likewise for `vcisvail` |
| Database.AndWhere | database.py:1512-1513 | adding the conditions keeps the query balanced and appends their parameters; no conditions leave the text unchanged |
| Database.SearchPanelData | database.py:1439-1519 | the query is balanced and its parameters are the conditions' parameters, then the limit when given |
| Database.ExecuteMany | database.py:929-957 | an empty list succeeds with nothing run; otherwise success is the database's; the batches are non-empty, together give the list in order, and no batch exceeds a positive chunk size the list is longer than |
| Database.IsSchemeExcluded | database.py:868-883 | excluded exactly when the id is not empty and on the stored list |
| Database.IdsFrom | database.py:846-849 | no id read is empty or the header name |
| Database.IdsAreStripped | database.py:846-849 | every id read is stripped |
| Database.IdsComeFromLines | database.py:846-849 | every id read is the stripped text of some line |
| Database.ParseExclusionList | database.py:836-849 | a first line naming the header is skipped; every other line is stripped and kept unless empty or the header name |
| Database.CountWhere | database.py:1631-1714 | a count never exceeds the number of rows |
| Database.CountWhereMonotone | database.py:1631-1714 | a weaker condition counts at least as many rows |
| Database.InsertGridResultScores | database.py:1613-1720 | no rows or a failed connection give `(0, 0)`; otherwise the inserted-or-updated and the updated counts, updated never above total and total never above the rows |
| FieldMapper.ChineseToEnglish | utils/field_mapper.py:31-41 | nothing exactly for a name that is not a Chinese grid name; otherwise its English name |
| FieldMapper.EnglishToChinese | utils/field_mapper.py:44-54 | nothing exactly for a name that is not an English grid name; otherwise the Chinese name that maps to it |
| FieldMapper.TranslationsRoundTrip | utils/field_mapper.py:15-54 | the two translations undo each other, in both directions |
| FieldMapper.GetFieldDescription | utils/field_mapper.py:57-77 | an English name's description, else the description of a Chinese name's English form, else the name itself |
| FieldMapper.DescriptionsCoverEnglishNames | utils/field_mapper.py:21-28 | the descriptions are keyed by exactly the English names |
| FieldMapper.SameDescriptionForBothNames | utils/field_mapper.py:57-77 | both names of a grid column get the same description |
| FieldMapper.IsGridField | utils/field_mapper.py:80-91 | a name is a grid field exactly when it is on either side of the mapping, which is exactly the database's whitelist |
| FieldMapper.AllChineseFields | utils/field_mapper.py:120-127 | exactly the names that translate to English |
| FieldMapper.AllEnglishFields | utils/field_mapper.py:130-137 | exactly the names that translate to Chinese |
| FieldMapper.MappingPairs | utils/field_mapper.py:140-147 | exactly the pairs of a Chinese name and its English name |
| FieldMapper.GetPreferredFieldName | utils/field_mapper.py:179-199 | only a name of the other language is translated; every other name is returned unchanged |
| FieldMapper.PreferredNameStable | utils/field_mapper.py:179-199 | asking again for the preferred name changes nothing, and the answer agrees with the database's `get_field_name` |
| FieldMapper.NewKey | utils/field_mapper.py:167-173 | a grid name of the source language is translated; any other key is kept |
| FieldMapper.NonEmptyNames | utils/field_mapper.py:167-173 | a translated name is never empty, so `or key` never falls back for a grid name |
| FieldMapper.Converted | utils/field_mapper.py:150-176 | the converted dictionary's keys are exactly the converted keys of the items |
| FieldMapper.ConvertDictKeys | utils/field_mapper.py:150-176 | the loop builds the converted dictionary; an empty input gives an empty one |
| FieldMapper.ConvertedKeepsValues | utils/field_mapper.py:166-174 | a value survives under its converted key unless a later item has the same converted key |
| FieldMapper.KeysCollideOnlyForOneColumn | utils/field_mapper.py:166-174 | two different keys collide only when they are the two names of one grid column |
| FieldMapper.ValidateFieldMapping | utils/field_mapper.py:202-238 | each check holds exactly when its condition does: every English name reversed, every Chinese name mapped, every English name described, and the two maps of equal size |
| FieldMapper.ValuesCovered | utils/field_mapper.py:217-227 | the loop succeeds exactly when every value is a key of the other map |
| FieldMapper.KeysCovered | utils/field_mapper.py:229-233 | the loop succeeds exactly when every key is a key of the other map |
| FieldMapper.InvertSameSize | utils/field_mapper.py:18 | inverting a map without shared values keeps its size |
| FieldMapper.ImageSize | utils/field_mapper.py:18 | a map without shared values sends distinct keys to distinct values |
| FieldMapper.ShippedMappingValid | utils/field_mapper.py:202-238 | the shipped mapping passes all four checks |
| GridMatcher.AddLabel | utils/grid_matcher.py:161-169 | one row adds its id to the table when id and label are both non-empty and leaves every other id's entry as it was |
| GridMatcher.Cleaned | utils/grid_matcher.py:158-159 | one stripped pair per table row |
| GridMatcher.NextRow | utils/grid_matcher.py:157-169 | reading one more row is one more `AddLabel` step on the table built so far |
| GridMatcher.LabelMappingOf | utils/grid_matcher.py:156-169 | no entry is ever keyed by an empty id |
| GridMatcher.LabelMappingKeys | utils/grid_matcher.py:156-169 | an id has an entry exactly when some row gives it a non-empty label |
| GridMatcher.LabelMappingCollects | utils/grid_matcher.py:161-169 | with comma-free labels, each id's entry lists every label given for it, each once, and nothing else |
| GridMatcher.Hits | utils/grid_matcher.py:229-233 | exactly the grids whose polygon contains the point |
| GridMatcher.IdsOf | utils/grid_matcher.py:236-241 | exactly the non-empty ids of the rows that are not excluded |
| GridMatcher.PlainNames | utils/grid_matcher.py:236-243 | exactly the non-empty names of the plainly matched rows |
| GridMatcher.BufferNames | utils/grid_matcher.py:276-284 | exactly the non-empty names of buffered rows whose id is non-empty and not excluded |
| GridMatcher.LabelsFor | utils/grid_matcher.py:250-258 | every label of a matched id, each once, and nothing else |
| GridMatcher.Joined | utils/grid_matcher.py:245-248 | nothing exactly when there is nothing to join; otherwise the items joined by commas |
| GridMatcher.JoinedSplits | utils/grid_matcher.py:245-246 | ids without commas, once joined, split at commas back into the same list |
| GridMatcher.MatchedIdsAreIds | utils/grid_matcher.py:268-271 | the buffered pass excludes exactly the ids the plain pass matched, when no id holds a comma |
| GridMatcher.PointMatch | utils/grid_matcher.py:178-308 | nothing is matched for a missing or non-numeric coordinate, a point outside China's extent, or when no grids are loaded |
| GridMatcher.BufferedExcludesPlainMatches | utils/grid_matcher.py:268-282 | a grid matched without the buffer is never reported again among the buffered matches |
| GridMatcher.Matcher.constructor | utils/grid_matcher.py:23-51 | the matcher holds the given grids and buffered grids and an empty label table |
| GridMatcher.Matcher.LoadLabelMapping | utils/grid_matcher.py:128-176 | a missing file or column leaves the table as it was; otherwise the table is the one built from the stripped rows |
| GridMatcher.Matcher.CollectPlain | utils/grid_matcher.py:236-243 | the loop yields the plain ids and names |
| GridMatcher.Matcher.CollectBuffered | utils/grid_matcher.py:276-284 | the loop yields the buffered ids and names, skipping plainly matched grids |
| GridMatcher.Matcher.CollectLabels | utils/grid_matcher.py:250-256 | the loop yields each matched id's label once, in first-seen order |
| GridMatcher.Matcher.MatchPoint | utils/grid_matcher.py:178-308 | the method computes `PointMatch` on the matcher's state |
| GridMatcher.Matcher.MatchBatch | utils/grid_matcher.py:310-324 | one result per point, in order, each that point's match |

## Left out

- Streamlit screens, folium maps, matplotlib charts, Excel/CSV/GPKG reading and writing, session state and logging are not modelled; only the decisions they display or store are.
- SQLite is not modelled. Queries are modelled as statement text plus parameters. Whether a statement succeeds, and the rows it returns, are parameters.
- The shapely/GEOS kernel is abstract. This covers `unary_union`, `difference`, `intersection`, `make_valid`, `buffer`, `convex_hull`, `intersects`, `area`, `.wkt` and `wkt.loads`. Only the guarantee that a repair yields a valid geometry is assumed of it, and only as a hypothesis.
- The STRtree candidate query in `tools/polygon_precision_optimizer.py` is not modelled: candidates are visited in index order, which does not change the set of reported pairs. This follows Shapely 1.x, where `query` returns the candidate geometries themselves, so the `id()` lookup in the source finds them. Under Shapely 2.x `query` returns integer indices, the `id()` lookup finds nothing, and the source reports no overlapping pairs at all; the model does not capture that case.
- The regex salvage of polygon texts, `float()`, `strptime` and the regex coordinate extraction are parameters. Floating-point rounding is replaced by exact reals: `round` is ties-to-even on reals, and distances are compared as squares.
- The random jitter of the anti-overlap path is a parameter (`offsetOf`).
- The coordinate-shift formulas (`wgs84_to_gcj02`, `gcj02_to_bd09`) and the sector-polygon trigonometry are not modelled. Only the bounding box that decides whether a shift applies is modelled.
- Dates after year 9999 raise `OverflowError` in Python. This is not modelled; the date range is modelled as consecutive days.
- The pandas group-by aggregations of the traffic and interference summaries are not modelled, apart from the date-range loop, the drop detector and the figures computed from a series. The merge with engineering parameters in the sector analysis is also not modelled.
- TrafficMonitor.AnalyzeSpikes: takes each cell's daily series, not its raw rows. The source skips a cell with fewer than `2*window+1` raw rows. The model has no separate skip, because a daily series has no more entries than the raw rows and the detector repeats the same length test on it, so the results are the same.
- In `tools/panel_reader.py`, the sheet layout and cell styling of the grid detail sheet are not modelled. Only the remark text and its deductions are.
- In the controller script, `importlib`, `subprocess` and the printed menu text are not modelled. What an action does once dispatched is not part of the menu's events; the SQL guard it reaches is modelled in `ToolDatabase`. The `EOFError` of the menu's own `input()` at the end of the lines is modelled only as the loop not exiting through "0".
- `lower()` is modelled for ASCII letters only. This applies to the SQL guard of the controller script, to the site search of `tools/gc_organizer.py` and to `InterferenceMonitor.DetectTech`; non-ASCII letters are left unchanged by the model.
- The grid loader and the 500 m buffering of `utils/grid_matcher.py` are not modelled: the matcher is built from the grids and buffered grids it would hold. `is_loaded` is not modelled separately; it is the test that the grid list is non-empty, which `PointMatch` states.
- PanelReader.DeductionText: the printed points are a parameter (`show`). The source prints the process deduction from a float, but the timeliness and accuracy points start as the integer 0 in `tools/panel_reader.py` (lines 1900 and 1930), so a zero score prints as `失10分` rather than `失10.0分`. The model does not distinguish the two printings.
- OnlineMap.LayerPanel.ReconciledWith: layers missing from a saved order are appended in the iteration order of a Python set, which the source does not fix. The model appends them in some order and promises only that they come after the surviving entries.
- FieldMapper.AllChineseFields, FieldMapper.AllEnglishFields, FieldMapper.MappingPairs: the lists of all Chinese names, all English names and all name pairs are modelled as sets. The source returns ordered lists, so their order is not modelled.
- Where the documented behaviour differs from the code, the model follows the code:
  - merging a single polygon returns it unchanged;
  - the pairwise split returns no output when the inputs are disjoint or the difference is empty;
  - the chain clip returns no output for fewer than two parsed polygons.
