/** The traffic rules of `tools/traffic_monitor.py`: the 4G/5G classifier,
    the sliding-window detector of a sudden traffic drop in a cell's daily
    series, the figures reported after a drop is found, the sector-level
    drop type and antenna status, and the joining of grid fields. */
module TrafficMonitor {
  import opened Wrappers
  import opened Text

  // ---------------------------------------------------------------------------
  // Network type (`determine_network_type`)
  // ---------------------------------------------------------------------------

  /** The bands that only 5G cells use. */
  const Bands5G: seq<string> := ["4.9GHz", "2.6GHz", "700M"]

  /** A cell is 5G when its band is a 5G band or its system is `5G`. */
  function NetworkType(pinduan: string, zhishi: string): (r: string)
    ensures r == "5g" || r == "4g"
    ensures r == "5g" <==> pinduan in {"4.9GHz", "2.6GHz", "700M"} || zhishi == "5G"
  {
    if pinduan in Bands5G || zhishi == "5G" then "5g" else "4g"
  }

  // ---------------------------------------------------------------------------
  // Drop detection (`_find_traffic_drop_date`)
  // ---------------------------------------------------------------------------

  /** One day of a cell's series: its date and its traffic (GB). */
  datatype Day = Day(date: string, flow: real)

  function Sum(days: seq<Day>): real {
    if |days| == 0 then 0.0 else Sum(days[..|days| - 1]) + days[|days| - 1].flow
  }

  /** The mean traffic of `days[from..from + w]`. */
  function WindowMean(days: seq<Day>, from: nat, w: nat): real
    requires 0 < w && from + w <= |days|
  {
    Sum(days[from..from + w]) / w as real
  }

  /** Day `i` drops in the strict sense: the `w` days before it average over
      1 GB, day `i` is below that average by more than the threshold share
      `t`, and the `w` days from `i` on average below it by more than `1.5 t`.
      A window of zero days has no mean, so nothing drops. */
  predicate StrictDrop(days: seq<Day>, i: nat, w: nat, t: real) {
    && 0 < w <= i && i + w <= |days|
    && WindowMean(days, i - w, w) > 1.0
    && days[i].flow < WindowMean(days, i - w, w) * (1.0 - t)
    && WindowMean(days, i, w) < WindowMean(days, i - w, w) * (1.0 - t * 1.5)
  }

  /** Day `i` drops in the loose sense: only the first two conditions. */
  predicate LooseDrop(days: seq<Day>, i: nat, w: nat, t: real) {
    && 0 < w <= i < |days|
    && WindowMean(days, i - w, w) > 1.0
    && days[i].flow < WindowMean(days, i - w, w) * (1.0 - t)
  }

  /** The first index from `i` on where `strict` (or else loose) drop holds. */
  function FirstDrop(days: seq<Day>, w: nat, t: real, strict: bool, i: nat): Option<nat>
    decreases |days| - i
  {
    if i >= |days| then None
    else if (if strict then StrictDrop(days, i, w, t) else LooseDrop(days, i, w, t)) then Some(i)
    else FirstDrop(days, w, t, strict, i + 1)
  }

  predicate DropAt(days: seq<Day>, w: nat, t: real, strict: bool, i: nat) {
    if strict then StrictDrop(days, i, w, t) else LooseDrop(days, i, w, t)
  }

  lemma {:induction false} FirstDropExact(days: seq<Day>, w: nat, t: real, strict: bool, i: nat)
    ensures FirstDrop(days, w, t, strict, i).Some? ==>
      var j := FirstDrop(days, w, t, strict, i).value;
      i <= j < |days| && DropAt(days, w, t, strict, j)
      && forall k :: i <= k < j ==> !DropAt(days, w, t, strict, k)
    ensures FirstDrop(days, w, t, strict, i).None? ==>
      forall k :: i <= k < |days| ==> !DropAt(days, w, t, strict, k)
    decreases |days| - i
  {
    if i < |days| && !DropAt(days, w, t, strict, i) {
      FirstDropExact(days, w, t, strict, i + 1);
    }
  }

  /** `FirstDropExact` for the strict test alone. */
  lemma StrictFirstExact(days: seq<Day>, w: nat, t: real)
    ensures FirstDrop(days, w, t, true, w).Some? ==>
      var j := FirstDrop(days, w, t, true, w).value;
      w <= j < |days| && StrictDrop(days, j, w, t) && forall k :: w <= k < j ==> !StrictDrop(days, k, w, t)
    ensures FirstDrop(days, w, t, true, w).None? ==> forall k :: w <= k < |days| ==> !StrictDrop(days, k, w, t)
  {
    FirstDropExact(days, w, t, true, w);
    assert forall k :: DropAt(days, w, t, true, k) == StrictDrop(days, k, w, t);
  }

  /** `FirstDropExact` for the loose test alone. */
  lemma LooseFirstExact(days: seq<Day>, w: nat, t: real)
    ensures FirstDrop(days, w, t, false, w).Some? ==>
      var j := FirstDrop(days, w, t, false, w).value;
      w <= j < |days| && LooseDrop(days, j, w, t) && forall k :: w <= k < j ==> !LooseDrop(days, k, w, t)
    ensures FirstDrop(days, w, t, false, w).None? ==> forall k :: w <= k < |days| ==> !LooseDrop(days, k, w, t)
  {
    FirstDropExact(days, w, t, false, w);
    assert forall k :: DropAt(days, w, t, false, k) == LooseDrop(days, k, w, t);
  }

  /** The index of the drop day, for a threshold given in percent: none for a
      series shorter than `2 w + 1` days; else the first strict drop, or, when
      there is none, the first loose drop. */
  function DropIndex(days: seq<Day>, dropThreshold: real, w: nat): Option<nat> {
    if |days| < w * 2 + 1 then None
    else
      var t := dropThreshold / 100.0;
      match FirstDrop(days, w, t, true, w)
      case Some(i) => Some(i)
      case None => FirstDrop(days, w, t, false, w)
  }

  /** What the detector finds: nothing in a short series; otherwise the
      first strict drop day, at or after the first `w` days; and only when
      no day drops strictly, the first loose drop day. */
  lemma DropIndexExact(days: seq<Day>, dropThreshold: real, w: nat)
    ensures |days| < w * 2 + 1 ==> DropIndex(days, dropThreshold, w).None?
    ensures var t := dropThreshold / 100.0;
      DropIndex(days, dropThreshold, w).Some? ==>
        var j := DropIndex(days, dropThreshold, w).value;
        && w <= j < |days|
        && ((StrictDrop(days, j, w, t) && forall k :: w <= k < j ==> !StrictDrop(days, k, w, t))
            || ((forall k :: w <= k < |days| ==> !StrictDrop(days, k, w, t))
                && LooseDrop(days, j, w, t) && forall k :: w <= k < j ==> !LooseDrop(days, k, w, t)))
    ensures var t := dropThreshold / 100.0;
      DropIndex(days, dropThreshold, w).None? && |days| >= w * 2 + 1 ==>
        forall k :: w <= k < |days| ==> !LooseDrop(days, k, w, t)
  {
    var t := dropThreshold / 100.0;
    StrictFirstExact(days, w, t);
    LooseFirstExact(days, w, t);
  }

  /** `_find_traffic_drop_date`, giving the index of the drop day. */
  method FindTrafficDropDate(days: seq<Day>, dropThreshold: real, windowSize: nat) returns (r: Option<nat>)
    ensures r == DropIndex(days, dropThreshold, windowSize)
  {
    var minDays := windowSize * 2 + 1;
    if |days| < minDays {
      return None;
    }
    var thresholdRatio := dropThreshold / 100.0;
    r := StrictPass(days, thresholdRatio, windowSize);
    if r.None? {
      r := LoosePass(days, thresholdRatio, windowSize);
    }
  }

  /** The first loop of the detector: the first strict drop day. */
  method StrictPass(days: seq<Day>, thresholdRatio: real, windowSize: nat) returns (r: Option<nat>)
    ensures r == FirstDrop(days, windowSize, thresholdRatio, true, windowSize)
  {
    var i := windowSize;
    while i < |days|
      invariant windowSize <= i
      invariant FirstDrop(days, windowSize, thresholdRatio, true, i) == FirstDrop(days, windowSize, thresholdRatio, true, windowSize)
      decreases |days| - i
    {
      var found := StrictTest(days, i, thresholdRatio, windowSize);
      if found {
        return Some(i);
      }
      i := i + 1;
    }
    return None;
  }

  /** The second loop of the detector: the first loose drop day. */
  method LoosePass(days: seq<Day>, thresholdRatio: real, windowSize: nat) returns (r: Option<nat>)
    ensures r == FirstDrop(days, windowSize, thresholdRatio, false, windowSize)
  {
    var i := windowSize;
    while i < |days|
      invariant windowSize <= i
      invariant FirstDrop(days, windowSize, thresholdRatio, false, i) == FirstDrop(days, windowSize, thresholdRatio, false, windowSize)
      decreases |days| - i
    {
      var found := LooseTest(days, i, thresholdRatio, windowSize);
      if found {
        return Some(i);
      }
      i := i + 1;
    }
    return None;
  }

  /** The body of the first loop: the two window means around day `i` and
      the strict test on them. */
  method StrictTest(days: seq<Day>, i: nat, thresholdRatio: real, windowSize: nat) returns (found: bool)
    requires windowSize <= i < |days|
    ensures found == StrictDrop(days, i, windowSize, thresholdRatio)
  {
    found := false;
    if windowSize > 0 && i + windowSize <= |days| {
      var avgBefore := WindowMean(days, i - windowSize, windowSize);
      var avgAfter := WindowMean(days, i, windowSize);
      var dropRatio := 1.0 - thresholdRatio;
      var confirmRatio := 1.0 - thresholdRatio * 1.5;
      found := avgBefore > 1.0 && days[i].flow < avgBefore * dropRatio && avgAfter < avgBefore * confirmRatio;
    }
  }

  /** The body of the second loop: the window mean before day `i` and the
      loose test on it. */
  method LooseTest(days: seq<Day>, i: nat, thresholdRatio: real, windowSize: nat) returns (found: bool)
    requires windowSize <= i < |days|
    ensures found == LooseDrop(days, i, windowSize, thresholdRatio)
  {
    found := false;
    if windowSize > 0 {
      var avgBefore := WindowMean(days, i - windowSize, windowSize);
      var dropRatio := 1.0 - thresholdRatio;
      found := avgBefore > 1.0 && days[i].flow < avgBefore * dropRatio;
    }
  }

  // ---------------------------------------------------------------------------
  // After a drop is found (`_generate_traffic_spike_analysis`)
  // ---------------------------------------------------------------------------

  /** The mean of a week when seven days are available, else 0. */
  function WeekMean(week: seq<Day>): (r: real)
    ensures |week| < 7 ==> r == 0.0
  {
    if |week| >= 7 then Sum(week) / |week| as real else 0.0
  }

  /** The figures reported for a cell whose drop day has index `d`. */
  datatype SpikeFigures = SpikeFigures(avgBefore: real, avgAfter: real, dropRatio: real, latest7Day: real, recovered: bool)

  /** Up to the last `n` elements of `days` (`tail(n)`). */
  function Tail(days: seq<Day>, n: nat): (r: seq<Day>)
    ensures |r| == if |days| < n then |days| else n
  {
    if |days| <= n then days else days[|days| - n..]
  }

  /** Up to the first `n` elements of `days` (`head(n)`). */
  function Head(days: seq<Day>, n: nat): (r: seq<Day>)
    ensures |r| == if |days| < n then |days| else n
  {
    if |days| <= n then days else days[..n]
  }

  /** The week before the drop day, the week from it, the latest week, the
      drop in percent of the earlier mean, and whether the latest week
      regained half of the earlier mean. */
  function Figures(days: seq<Day>, d: nat): SpikeFigures
    requires d <= |days|
  {
    var avgBefore := WeekMean(Tail(days[..d], 7));
    var avgAfter := WeekMean(Head(days[d..], 7));
    var dropRatio := if avgBefore > 0.0 then (avgBefore - avgAfter) / avgBefore * 100.0 else 0.0;
    var latest := WeekMean(Tail(days, 7));
    SpikeFigures(avgBefore, avgAfter, dropRatio, latest, latest >= avgBefore * 0.5)
  }

  lemma {:induction false} SumNonNegative(days: seq<Day>)
    requires forall k :: 0 <= k < |days| ==> days[k].flow >= 0.0
    ensures Sum(days) >= 0.0
  {
    if |days| > 0 {
      SumNonNegative(days[..|days| - 1]);
    }
  }

  predicate NonNegative(days: seq<Day>) {
    forall k :: 0 <= k < |days| ==> days[k].flow >= 0.0
  }

  /** The means are zero without seven days on the relevant side, the drop
      ratio is zero without an earlier mean, and with traffic that is never
      negative the drop is at most 100% and a cell with no earlier mean counts
      as recovered. */
  lemma FiguresProperties(days: seq<Day>, d: nat)
    requires d <= |days|
    ensures d < 7 ==> Figures(days, d).avgBefore == 0.0 && Figures(days, d).dropRatio == 0.0
    ensures |days| - d < 7 ==> Figures(days, d).avgAfter == 0.0
    ensures |days| < 7 ==> Figures(days, d).latest7Day == 0.0
    ensures Figures(days, d).recovered <==> Figures(days, d).latest7Day >= Figures(days, d).avgBefore * 0.5
    ensures NonNegative(days) ==>
      Figures(days, d).dropRatio <= 100.0
      && (Figures(days, d).avgBefore == 0.0 ==> Figures(days, d).recovered)
  {
    FiguresShortWeeks(days, d);
    if NonNegative(days) {
      FiguresNonNegative(days, d);
    }
  }

  /** Without seven days on a side, that side's mean is zero. */
  lemma FiguresShortWeeks(days: seq<Day>, d: nat)
    requires d <= |days|
    ensures d < 7 ==> Figures(days, d).avgBefore == 0.0 && Figures(days, d).dropRatio == 0.0
    ensures |days| - d < 7 ==> Figures(days, d).avgAfter == 0.0
    ensures |days| < 7 ==> Figures(days, d).latest7Day == 0.0
  {
    assert |Tail(days[..d], 7)| <= d;
    assert |Head(days[d..], 7)| <= |days| - d;
  }

  /** With traffic that is never negative, the later means are not negative,
      so the drop is at most 100% and a cell with no earlier mean counts as
      recovered. */
  lemma FiguresNonNegative(days: seq<Day>, d: nat)
    requires d <= |days| && NonNegative(days)
    ensures Figures(days, d).dropRatio <= 100.0
    ensures Figures(days, d).avgBefore == 0.0 ==> Figures(days, d).recovered
  {
    var before := WeekMean(Tail(days[..d], 7));
    var after := WeekMean(Head(days[d..], 7));
    var latest := WeekMean(Tail(days, 7));
    assert after >= 0.0 by {
      WeekMeanNonNegative(Head(days[d..], 7));
    }
    assert latest >= 0.0 by {
      WeekMeanNonNegative(Tail(days, 7));
    }
    if before > 0.0 {
      RatioAtMostHundred(before, after);
    }
  }

  /** The mean of a week of traffic that is never negative is not negative. */
  lemma WeekMeanNonNegative(week: seq<Day>)
    requires NonNegative(week)
    ensures WeekMean(week) >= 0.0
  {
    SumNonNegative(week);
  }

  lemma RatioAtMostHundred(before: real, after: real)
    requires before > 0.0 && after >= 0.0
    ensures (before - after) / before * 100.0 <= 100.0
  {
    var x := (before - after) / before;
    assert x * before == before - after;
  }

  /** A cell's daily series and its result row. */
  datatype CellSeries = CellSeries(cgi: string, days: seq<Day>)
  datatype SpikeRow = SpikeRow(cgi: string, dropIndex: nat, figures: SpikeFigures)

  /** The rows of the spike analysis: one per cell with at least `2 w + 1`
      days in which a drop is found, in cell order. */
  function SpikeRows(cells: seq<CellSeries>, dropThreshold: real, w: nat): seq<SpikeRow> {
    if |cells| == 0 then []
    else
      var c := cells[|cells| - 1];
      SpikeRows(cells[..|cells| - 1], dropThreshold, w)
      + if |c.days| < w * 2 + 1 then []
        else match DropIndex(c.days, dropThreshold, w)
          case None => []
          case Some(d) =>
            DropIndexExact(c.days, dropThreshold, w);
            [SpikeRow(c.cgi, d, Figures(c.days, d))]
  }

  /** `row` is the result row of cell `c`. */
  predicate RowOf(c: CellSeries, row: SpikeRow, dropThreshold: real, w: nat) {
    && c.cgi == row.cgi && DropIndex(c.days, dropThreshold, w) == Some(row.dropIndex)
    && w <= row.dropIndex < |c.days| && row.figures == Figures(c.days, row.dropIndex)
  }

  /** The row of a cell whose series has a drop. */
  function RowFor(c: CellSeries, dropThreshold: real, w: nat): SpikeRow
    requires DropIndex(c.days, dropThreshold, w).Some?
  {
    var d := DropIndex(c.days, dropThreshold, w).value;
    DropIndexExact(c.days, dropThreshold, w);
    SpikeRow(c.cgi, d, Figures(c.days, d))
  }

  /** The rows of the first cells begin the rows of all of them. */
  lemma {:induction false} SpikeRowsPrefix(cells: seq<CellSeries>, dropThreshold: real, w: nat, m: nat)
    requires m <= |cells|
    ensures var rows := SpikeRows(cells, dropThreshold, w);
      var first := SpikeRows(cells[..m], dropThreshold, w);
      |first| <= |rows| && rows[..|first|] == first
    decreases |cells|
  {
    if m < |cells| {
      var init := cells[..|cells| - 1];
      assert init[..m] == cells[..m];
      SpikeRowsPrefix(init, dropThreshold, w, m);
    } else {
      assert cells[..m] == cells;
    }
  }

  /** A cell with a drop adds its row right after the rows of the cells
      before it. */
  lemma SpikeRowsStep(cells: seq<CellSeries>, dropThreshold: real, w: nat, i: nat)
    requires i < |cells| && DropIndex(cells[i].days, dropThreshold, w).Some?
    ensures SpikeRows(cells[..i + 1], dropThreshold, w)
         == SpikeRows(cells[..i], dropThreshold, w) + [RowFor(cells[i], dropThreshold, w)]
  {
    DropIndexExact(cells[i].days, dropThreshold, w);
    assert cells[..i + 1][..i] == cells[..i];
  }

  /** Every cell whose series has a drop gets its row, placed after the rows
      of the cells before it; so the rows follow the cells' order. */
  lemma SpikeRowsComplete(cells: seq<CellSeries>, dropThreshold: real, w: nat, i: nat)
    requires i < |cells| && DropIndex(cells[i].days, dropThreshold, w).Some?
    ensures var j := |SpikeRows(cells[..i], dropThreshold, w)|;
      j < |SpikeRows(cells, dropThreshold, w)| && SpikeRows(cells, dropThreshold, w)[j] == RowFor(cells[i], dropThreshold, w)
  {
    SpikeRowsStep(cells, dropThreshold, w, i);
    SpikeRowsPrefix(cells, dropThreshold, w, i + 1);
  }

  /** The rows of a cell with a drop come after those of every cell before it. */
  lemma SpikeRowsOrdered(cells: seq<CellSeries>, dropThreshold: real, w: nat, i: nat, i': nat)
    requires i < i' <= |cells| && DropIndex(cells[i].days, dropThreshold, w).Some?
    ensures |SpikeRows(cells[..i], dropThreshold, w)| < |SpikeRows(cells[..i'], dropThreshold, w)|
  {
    SpikeRowsStep(cells, dropThreshold, w, i);
    SpikeRowsPrefix(cells[..i'], dropThreshold, w, i + 1);
    assert cells[..i'][..i + 1] == cells[..i + 1];
  }

  /** Every row belongs to a cell of the input whose series has a drop at
      the row's index, at or after the first window, with the figures of
      that day; there is at most one row per cell; and every cell with a
      drop has its row, in the cells' order. */
  lemma {:induction false} SpikeRowsExact(cells: seq<CellSeries>, dropThreshold: real, w: nat)
    ensures |SpikeRows(cells, dropThreshold, w)| <= |cells|
    ensures forall row :: row in SpikeRows(cells, dropThreshold, w) ==>
      exists c :: c in cells && RowOf(c, row, dropThreshold, w)
    ensures forall i :: 0 <= i < |cells| && DropIndex(cells[i].days, dropThreshold, w).Some? ==>
      |SpikeRows(cells[..i], dropThreshold, w)| < |SpikeRows(cells, dropThreshold, w)|
      && SpikeRows(cells, dropThreshold, w)[|SpikeRows(cells[..i], dropThreshold, w)|] == RowFor(cells[i], dropThreshold, w)
    ensures forall i, i' :: 0 <= i < i' <= |cells| && DropIndex(cells[i].days, dropThreshold, w).Some? ==>
      |SpikeRows(cells[..i], dropThreshold, w)| < |SpikeRows(cells[..i'], dropThreshold, w)|
  {
    forall i | 0 <= i < |cells| && DropIndex(cells[i].days, dropThreshold, w).Some?
      ensures |SpikeRows(cells[..i], dropThreshold, w)| < |SpikeRows(cells, dropThreshold, w)|
      ensures SpikeRows(cells, dropThreshold, w)[|SpikeRows(cells[..i], dropThreshold, w)|] == RowFor(cells[i], dropThreshold, w)
    {
      SpikeRowsComplete(cells, dropThreshold, w, i);
    }
    forall i, i' | 0 <= i < i' <= |cells| && DropIndex(cells[i].days, dropThreshold, w).Some?
      ensures |SpikeRows(cells[..i], dropThreshold, w)| < |SpikeRows(cells[..i'], dropThreshold, w)|
    {
      SpikeRowsOrdered(cells, dropThreshold, w, i, i');
    }
    SpikeRowsSound(cells, dropThreshold, w);
  }

  /** Every row belongs to a cell of the input, at most one per cell. */
  lemma {:induction false} SpikeRowsSound(cells: seq<CellSeries>, dropThreshold: real, w: nat)
    ensures |SpikeRows(cells, dropThreshold, w)| <= |cells|
    ensures forall row :: row in SpikeRows(cells, dropThreshold, w) ==>
      exists c :: c in cells && RowOf(c, row, dropThreshold, w)
  {
    if |cells| > 0 {
      var init := cells[..|cells| - 1];
      var c := cells[|cells| - 1];
      SpikeRowsSound(init, dropThreshold, w);
      DropIndexExact(c.days, dropThreshold, w);
      forall row | row in SpikeRows(cells, dropThreshold, w)
        ensures exists c :: c in cells && RowOf(c, row, dropThreshold, w)
      {
        if row in SpikeRows(init, dropThreshold, w) {
          var c' :| c' in init && RowOf(c', row, dropThreshold, w);
          assert c' in cells;
        } else {
          assert c in cells && RowOf(c, row, dropThreshold, w);
        }
      }
    }
  }

  /** The spike analysis over the cells' series, appending one row per cell
      with a drop. */
  method AnalyzeSpikes(cells: seq<CellSeries>, dropThreshold: real, windowSize: nat) returns (results: seq<SpikeRow>)
    ensures results == SpikeRows(cells, dropThreshold, windowSize)
  {
    results := [];
    var n := 0;
    while n < |cells|
      invariant 0 <= n <= |cells|
      invariant results == SpikeRows(cells[..n], dropThreshold, windowSize)
    {
      assert cells[..n + 1][..n] == cells[..n];
      var c := cells[n];
      if |c.days| >= windowSize * 2 + 1 {
        var dropDate := FindTrafficDropDate(c.days, dropThreshold, windowSize);
        if dropDate.Some? {
          DropIndexExact(c.days, dropThreshold, windowSize);
          results := results + [SpikeRow(c.cgi, dropDate.value, Figures(c.days, dropDate.value))];
        }
      }
      n := n + 1;
    }
    assert cells[..n] == cells;
  }

  // ---------------------------------------------------------------------------
  // Sector level (`_generate_sector_level_analysis`)
  // ---------------------------------------------------------------------------

  const WholeSector: string := "扇区整体下降"
  const PartOfSector: string := "单个/部分小区下降"
  const NoDrop: string := "无突降"

  /** The sector's drop type from its dropped cells and all its cells. */
  function SectorDropType(dropCells: nat, totalCells: nat): (r: string)
    ensures r == WholeSector <==> totalCells > 0 && dropCells == totalCells
    ensures r == PartOfSector <==> totalCells > 0 && dropCells > 0 && dropCells != totalCells
    ensures r == NoDrop <==> totalCells == 0 || dropCells == 0
  {
    var dropRatio := if totalCells > 0 then dropCells as real / totalCells as real * 100.0 else 0.0;
    RatioIsHundred(dropCells, totalCells);
    if dropRatio == 100.0 then WholeSector
    else if dropRatio > 0.0 then PartOfSector
    else NoDrop
  }

  lemma RatioIsHundred(a: nat, b: nat)
    ensures b > 0 ==> (a as real / b as real * 100.0 == 100.0 <==> a == b)
    ensures b > 0 ==> (a as real / b as real * 100.0 > 0.0 <==> a > 0)
  {
    if b > 0 {
      var q := a as real / b as real;
      assert q * b as real == a as real;
      if q == 1.0 {
        assert a as real == b as real;
      }
    }
  }

  const SharedAntenna: string := "共天线"
  const DropCellsShareAntenna: string := "突降小区共天线"
  const SeparateAntennas: string := "不共天线"

  /** The distinct antennas named in a column, blanks (`NaN`) left out. */
  function Distinct(column: seq<Option<string>>): (r: set<string>)
    ensures forall a :: a in r <==> Some(a) in column
  {
    if |column| == 0 then {}
    else Distinct(column[..|column| - 1])
         + match column[|column| - 1] case Some(a) => {a} case None => {}
  }

  /** The antenna status of a sector from the antennas of its dropped cells
      and of all its cells. */
  function AntennaStatus(dropAntennas: set<string>, allAntennas: set<string>): (r: string)
    ensures r == SharedAntenna <==> |dropAntennas| == 1 && |allAntennas| == 1
    ensures r == DropCellsShareAntenna <==> |dropAntennas| == 1 && |allAntennas| != 1
    ensures r == SeparateAntennas <==> |dropAntennas| != 1
  {
    if |dropAntennas| == 1 && |allAntennas| == 1 then SharedAntenna
    else if |dropAntennas| == 1 then DropCellsShareAntenna
    else SeparateAntennas
  }

  lemma Singleton(s: set<string>)
    requires |s| == 1
    ensures exists x :: s == {x}
  {
    var x :| x in s;
    assert |s - {x}| == 0;
    assert s == {x};
  }

  /** When the sector's cells all hang on one antenna and some dropped cell
      names an antenna, the sector shares its antenna. */
  lemma OneAntennaShared(dropColumn: seq<Option<string>>, allColumn: seq<Option<string>>)
    requires forall x :: x in dropColumn ==> x in allColumn
    requires |Distinct(allColumn)| == 1
    requires exists a :: Some(a) in dropColumn
    ensures AntennaStatus(Distinct(dropColumn), Distinct(allColumn)) == SharedAntenna
  {
    var a :| Some(a) in dropColumn;
    Singleton(Distinct(allColumn));
    var only :| Distinct(allColumn) == {only};
    assert a in Distinct(dropColumn);
    assert Distinct(dropColumn) <= Distinct(allColumn);
    assert Distinct(dropColumn) == {only};
  }

  // ---------------------------------------------------------------------------
  // Grid fields
  // ---------------------------------------------------------------------------

  /** A grid field as the merge delivers it: missing, `NaN` from a cell
      without parameters, or a text. */
  datatype Field = Missing | NotANumber | Text(s: string)

  /** `str(v).strip() if v else ''`. */
  function FieldText(v: Field): string {
    match v
    case Missing => ""
    case NotANumber => "nan"
    case Text(s) => Strip(s)
  }

  /** The no-buffer value, then the 500 m buffer value, each when not empty,
      joined with `,`. */
  function JoinGridField(noBuffer: Field, buffer500m: Field): (r: string)
    ensures r == "" <==> FieldText(noBuffer) == "" && FieldText(buffer500m) == ""
    ensures FieldText(noBuffer) != "" && FieldText(buffer500m) != "" ==>
      r == FieldText(noBuffer) + "," + FieldText(buffer500m)
    ensures FieldText(noBuffer) == "" ==> r == FieldText(buffer500m)
    ensures FieldText(buffer500m) == "" ==> r == FieldText(noBuffer)
  {
    var a := FieldText(noBuffer);
    var b := FieldText(buffer500m);
    var parts := (if a != "" then [a] else []) + (if b != "" then [b] else []);
    assert |parts| == 2 ==> Join(parts, ",") == parts[0] + "," + Join(parts[1..], ",");
    if |parts| > 0 then Join(parts, ",") else ""
  }
}
