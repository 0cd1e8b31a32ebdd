/** The grid evaluation of `tools/panel_reader.py`: schemes are classified
    by type, counted per grid, and turned into a process score from a survey
    term, per-type completion rates and, for grids supervised in 2025,
    accuracy and timeliness terms; the imported CSV rows are filtered by
    label, and each grid's sheet row carries a remark listing lost points. */
module PanelReader {
  import opened Wrappers
  import opened Text
  import opened Decimal

  // ---------------------------------------------------------------------------
  // Scheme types (`_judge_scheme_type`)
  // ---------------------------------------------------------------------------

  const NonOptimization: string := "非优化"
  const Maintenance: string := "维护"
  const AntennaTuning: string := "天调"
  const Construction: string := "建设"
  const PlannedBuild: string := "规建"
  const Remediation: string := "整治"
  const Optimization: string := "优化"
  const NonWireless: string := "非无线"

  /** The measure that turns a maintenance scheme into an antenna adjustment. */
  const AntennaAdjustment: string := "天线方向角下倾角调整"
  const NewMacroSite: string := "新增宏微站建设"
  const NewIndoorSite: string := "新增室分建设"

  /** The type a scheme is counted under, from its category and measure. The
      rules are tried in order and the last one catches everything, so every
      input gets one of six types; `非无线` is never produced. */
  function JudgeSchemeType(category: string, measure: string): (r: string)
    ensures r in {NonOptimization, AntennaTuning, Maintenance, PlannedBuild, Remediation, Optimization}
    ensures r != NonWireless
    ensures r == NonOptimization <==> category == NonOptimization
    ensures r == AntennaTuning <==> category == Maintenance && measure == AntennaAdjustment
    ensures r == Maintenance <==> category == Maintenance && measure != AntennaAdjustment
    ensures r == PlannedBuild <==>
      category == Construction || (category == PlannedBuild && measure in {NewMacroSite, NewIndoorSite})
    ensures r == Remediation <==> category == PlannedBuild && measure !in {NewMacroSite, NewIndoorSite}
    ensures r == Optimization <==>
      category !in {NonOptimization, Maintenance, Construction, PlannedBuild}
  {
    if category == NonOptimization then NonOptimization
    else if category == Maintenance && measure == AntennaAdjustment then AntennaTuning
    else if category == Maintenance && measure != AntennaAdjustment then Maintenance
    else if category == Construction then PlannedBuild
    else if category == PlannedBuild then
      if measure in [NewMacroSite, NewIndoorSite] then PlannedBuild else Remediation
    else Optimization
  }

  // ---------------------------------------------------------------------------
  // Per-grid counting (`_calculate_grid_process_score`, first loop)
  // ---------------------------------------------------------------------------

  /** A scheme record; an absent or `None` column is the empty text. */
  datatype Scheme = Scheme(
    schemeId: string, currentActName: string,
    schemeCategory: string, schemeType: string,
    measures: string, scheme: string,
    vcisvail: string, implementResults: string)

  const SubOrderAct: string := "方案实施结果"
  const Succeeded: string := "成功"
  const CompletedOffline: string := "线下已完成"
  const Removed: string := "剔除"
  const SchemeRemoved: string := "方案剔除"

  /** A scheme of a replacement workflow, skipped by every count. */
  predicate IsReplacement(s: Scheme) {
    Contains(s.schemeId, "_FATH_")
  }

  /** A scheme marked as removed, left out of the process counts. */
  predicate IsRemoved(s: Scheme) {
    s.vcisvail in {Removed, SchemeRemoved}
  }

  /** The type of a scheme: its category, falling back to its scheme type,
      judged with its measures, falling back to its scheme text. */
  function TypeOf(s: Scheme): string {
    JudgeSchemeType(if s.schemeCategory != "" then s.schemeCategory else s.schemeType,
                    if s.measures != "" then s.measures else s.scheme)
  }

  predicate IsSuccess(s: Scheme) {
    s.implementResults == Succeeded || s.vcisvail == CompletedOffline
  }

  datatype Stats = Stats(total: nat, success: nat)

  /** The `scheme_types` counters of the four scored types. */
  datatype Tally = Tally(maintenance: Stats, planned: Stats, remediation: Stats, tuning: Stats)

  const EmptyTally: Tally := Tally(Stats(0, 0), Stats(0, 0), Stats(0, 0), Stats(0, 0))

  function Bump(st: Stats, success: bool): (r: Stats)
    ensures r.total == st.total + 1
    ensures r.success == st.success + (if success then 1 else 0)
  {
    Stats(st.total + 1, st.success + if success then 1 else 0)
  }

  /** The counters after one more scheme: a counted scheme of one of the four
      scored types adds one to its type's total, and one to its successes
      when it succeeded. */
  function Record(t: Tally, s: Scheme): Tally {
    if IsReplacement(s) || IsRemoved(s) then t
    else
      var ty := TypeOf(s);
      if ty == Maintenance then t.(maintenance := Bump(t.maintenance, IsSuccess(s)))
      else if ty == PlannedBuild then t.(planned := Bump(t.planned, IsSuccess(s)))
      else if ty == Remediation then t.(remediation := Bump(t.remediation, IsSuccess(s)))
      else if ty == AntennaTuning then t.(tuning := Bump(t.tuning, IsSuccess(s)))
      else t
  }

  /** The counters over a list of schemes. */
  function TallyOf(schemes: seq<Scheme>): Tally {
    if |schemes| == 0 then EmptyTally
    else Record(TallyOf(schemes[..|schemes| - 1]), schemes[|schemes| - 1])
  }

  /** How many schemes, replacement workflows aside, satisfy `p`. */
  function CountWhere(schemes: seq<Scheme>, p: Scheme -> bool): (r: nat)
    ensures r <= |schemes|
  {
    if |schemes| == 0 then 0
    else CountWhere(schemes[..|schemes| - 1], p)
         + if !IsReplacement(schemes[|schemes| - 1]) && p(schemes[|schemes| - 1]) then 1 else 0
  }

  /** Sub-orders: schemes whose workflow reached the implementation result. */
  function SubOrders(schemes: seq<Scheme>): nat {
    CountWhere(schemes, (s: Scheme) => s.currentActName == SubOrderAct)
  }

  /** Schemes not removed, of any type: the timeliness denominator. */
  function ActiveSchemes(schemes: seq<Scheme>): nat {
    CountWhere(schemes, (s: Scheme) => !IsRemoved(s))
  }

  /** The counters of one type. */
  function StatsOf(t: Tally, ty: string): Stats {
    if ty == Maintenance then t.maintenance
    else if ty == PlannedBuild then t.planned
    else if ty == Remediation then t.remediation
    else if ty == AntennaTuning then t.tuning
    else Stats(0, 0)
  }

  predicate WellCounted(st: Stats) {
    st.success <= st.total
  }

  predicate TallyWellCounted(t: Tally) {
    WellCounted(t.maintenance) && WellCounted(t.planned) && WellCounted(t.remediation) && WellCounted(t.tuning)
  }

  /** Successes never exceed totals. */
  lemma {:induction false} TallyOfWellCounted(schemes: seq<Scheme>)
    ensures TallyWellCounted(TallyOf(schemes))
  {
    if |schemes| > 0 {
      TallyOfWellCounted(schemes[..|schemes| - 1]);
    }
  }

  lemma {:induction false} TallyOfTotals(schemes: seq<Scheme>, ty: string)
    requires ty in {Maintenance, PlannedBuild, Remediation, AntennaTuning}
    ensures StatsOf(TallyOf(schemes), ty).total == CountWhere(schemes, (s: Scheme) => !IsRemoved(s) && TypeOf(s) == ty)
  {
    if |schemes| > 0 {
      TallyOfTotals(schemes[..|schemes| - 1], ty);
    }
  }

  lemma {:induction false} TallyOfSuccesses(schemes: seq<Scheme>, ty: string)
    requires ty in {Maintenance, PlannedBuild, Remediation, AntennaTuning}
    ensures StatsOf(TallyOf(schemes), ty).success
         == CountWhere(schemes, (s: Scheme) => !IsRemoved(s) && TypeOf(s) == ty && IsSuccess(s))
  {
    if |schemes| > 0 {
      TallyOfSuccesses(schemes[..|schemes| - 1], ty);
    }
  }

  /** Each type's total counts exactly its active schemes, and its successes
      are among them, so they never exceed the total. */
  lemma {:induction false} TallyOfCounts(schemes: seq<Scheme>, ty: string)
    requires ty in {Maintenance, PlannedBuild, Remediation, AntennaTuning}
    ensures StatsOf(TallyOf(schemes), ty).total == CountWhere(schemes, (s: Scheme) => !IsRemoved(s) && TypeOf(s) == ty)
    ensures StatsOf(TallyOf(schemes), ty).success
         == CountWhere(schemes, (s: Scheme) => !IsRemoved(s) && TypeOf(s) == ty && IsSuccess(s))
    ensures TallyWellCounted(TallyOf(schemes))
  {
    TallyOfTotals(schemes, ty);
    TallyOfSuccesses(schemes, ty);
    TallyOfWellCounted(schemes);
  }

  // ---------------------------------------------------------------------------
  // The process score
  // ---------------------------------------------------------------------------

  const Label2024Second: string := "2024年第二批督办微网格"
  const Label2024Legacy: string := "2024年遗留"
  const Label2024First: string := "2024年第一批督办重要场景所在网格"
  const Label2025: string := "2025年督办微网格"

  /** A grid carrying any of the 2024 labels is scored as a 2024 grid. */
  predicate Is2024Grid(gridLabel: string) {
    Contains(gridLabel, Label2024Second) || Contains(gridLabel, Label2024Legacy) || Contains(gridLabel, Label2024First)
  }

  /** A 2025 grid carries the 2025 label and none of the 2024 ones. */
  predicate Is2025Grid(gridLabel: string) {
    !Is2024Grid(gridLabel) && Contains(gridLabel, Label2025)
  }

  /** `success / total * weight` for a type with schemes, with the weight it
      contributes; nothing for a type without schemes. */
  function TypeTerm(st: Stats, weight: real): (r: (real, real))
    requires WellCounted(st) && weight >= 0.0
    ensures 0.0 <= r.0 <= r.1
    ensures r.1 == if st.total > 0 then weight else 0.0
    ensures st.total > 0 ==> r.0 == st.success as real / st.total as real * weight
    ensures st.success == st.total ==> r.0 == r.1
    ensures st.success == 0 ==> r.0 == 0.0
  {
    if st.total > 0 then
      var q := st.success as real / st.total as real;
      RatioBounded(st.success, st.total);
      ScaledRatioBounded(q, weight);
      assert st.success == st.total ==> q == 1.0;
      (q * weight, weight)
    else (0.0, 0.0)
  }

  lemma RatioBounded(s: nat, t: nat)
    requires 0 < t && s <= t
    ensures 0.0 <= s as real / t as real <= 1.0
  {
  }

  lemma ScaledRatioBounded(q: real, w: real)
    requires 0.0 <= q <= 1.0 && w >= 0.0
    ensures 0.0 <= q * w <= w
  {
    assert q * w <= 1.0 * w;
  }

  /** The accuracy points from the share of removed schemes: full marks below
      15%, none above 30%, linear between. */
  function AccuracyPoints(ratio: real): (r: real)
    ensures 0.0 <= r <= 10.0
    ensures ratio < 0.15 ==> r == 10.0
    ensures ratio > 0.3 ==> r == 0.0
    ensures 0.15 <= ratio <= 0.3 ==> r == (1.0 - (ratio - 0.15) / 0.15) * 10.0
  {
    if ratio < 0.15 then 10.0
    else if ratio > 0.3 then 0.0
    else (1.0 - (ratio - 0.15) / 0.15) * 10.0
  }

  /** The timeliness points from the share of late schemes: full marks below
      20%, none above 60%, linear between. */
  function TimelinessPoints(ratio: real): (r: real)
    ensures 0.0 <= r <= 10.0
    ensures ratio < 0.2 ==> r == 10.0
    ensures ratio > 0.6 ==> r == 0.0
    ensures 0.2 <= ratio <= 0.6 ==> r == (1.0 - (ratio - 0.2) / 0.4) * 10.0
  {
    if ratio < 0.2 then 10.0
    else if ratio > 0.6 then 0.0
    else (1.0 - (ratio - 0.2) / 0.4) * 10.0
  }

  /** A larger share of removed schemes never earns more accuracy points. */
  lemma {:induction false} AccuracyPointsNonIncreasing(a: real, b: real)
    requires a <= b
    ensures AccuracyPoints(b) <= AccuracyPoints(a)
  {
    if 0.15 <= a && b <= 0.3 {
      assert (b - 0.15) / 0.15 >= (a - 0.15) / 0.15 by {
        assert (b - 0.15) / 0.15 - (a - 0.15) / 0.15 == (b - a) / 0.15;
      }
    }
  }

  /** A larger share of late schemes never earns more timeliness points. */
  lemma {:induction false} TimelinessPointsNonIncreasing(a: real, b: real)
    requires a <= b
    ensures TimelinessPoints(b) <= TimelinessPoints(a)
  {
    if 0.2 <= a && b <= 0.6 {
      assert (b - 0.2) / 0.4 >= (a - 0.2) / 0.4 by {
        assert (b - 0.2) / 0.4 - (a - 0.2) / 0.4 == (b - a) / 0.4;
      }
    }
  }

  /** The details returned with the score; a grid without sub-orders returns
      the short form, which lacks the weights and the 2025 flag. */
  datatype Details =
    | NoSurvey(schemeTypes: Tally)
    | Scored(kcScore: real, schemeProcessScore: real, schemeProcessWeight: real,
             accuracyScore: real, timelinessScore: real, totalWeight: real,
             is2025Grid: bool, schemeTypes: Tally)

  /** The inputs of one grid's score besides its schemes. */
  datatype GridCounts = GridCounts(excludedCount: nat, offlineCompletedCount: nat, timeoutCount: nat, accuracyDenominator: nat)

  /** The score of a grid from its counters: the survey term (5 points), the
      four completion rates (25, 10, 15 and 25 points), and for 2025 grids the
      accuracy and timeliness terms (10 points each), as points earned over
      points available. */
  function GridScore(gridLabel: string, t: Tally, subOrders: nat, active: nat, c: GridCounts): (r: (real, Details))
    requires TallyWellCounted(t)
  {
    if subOrders == 0 then (0.0, NoSurvey(t))
    else
      var planned := TypeTerm(t.planned, 25.0);
      var maintenance := TypeTerm(t.maintenance, 10.0);
      var tuning := TypeTerm(t.tuning, 15.0);
      var remediation := TypeTerm(t.remediation, 25.0);
      var sp := planned.0 + maintenance.0 + tuning.0 + remediation.0;
      var spw := planned.1 + maintenance.1 + tuning.1 + remediation.1;
      var is2025 := Is2025Grid(gridLabel);
      var accuracyTotal := c.accuracyDenominator + c.excludedCount;
      var accuracy :=
        if is2025 && accuracyTotal > 0
        then (AccuracyPoints(c.excludedCount as real / accuracyTotal as real), 10.0)
        else (0.0, 0.0);
      var timeliness :=
        if is2025 && active > 0
        then (TimelinessPoints(c.timeoutCount as real / active as real), 10.0)
        else (0.0, 0.0);
      var totalScore := if is2025 then 5.0 + sp + accuracy.0 + timeliness.0 else 5.0 + sp;
      var totalWeight := if is2025 then 5.0 + spw + accuracy.1 + timeliness.1 else 5.0 + spw;
      (if totalWeight > 0.0 then totalScore / totalWeight else 0.0,
       Scored(5.0, sp, spw, accuracy.0, timeliness.0, totalWeight, is2025, t))
  }

  /** `_calculate_grid_process_score`, as a function of its inputs. */
  function GridProcessScore(schemes: seq<Scheme>, gridLabel: string, c: GridCounts): (real, Details) {
    TallyOfWellCounted(schemes);
    GridScore(gridLabel, TallyOf(schemes), SubOrders(schemes), ActiveSchemes(schemes), c)
  }

  /** The score lies between 0 and 1; a grid without sub-orders scores 0
      with the short details; otherwise the accuracy and timeliness points lie
      in [0, 10] and are zero unless the grid is a 2025 grid, which a 2024
      label rules out; a 2024 grid's weight is the survey plus the weights of
      the types it has schemes of. */
  lemma GridProcessScoreBounds(schemes: seq<Scheme>, gridLabel: string, c: GridCounts)
    ensures var (score, d) := GridProcessScore(schemes, gridLabel, c);
      && 0.0 <= score <= 1.0
      && (SubOrders(schemes) == 0 <==> d.NoSurvey?)
      && (d.NoSurvey? ==> score == 0.0 && d.schemeTypes == TallyOf(schemes))
      && (d.Scored? ==>
            && 0.0 <= d.accuracyScore <= 10.0 && 0.0 <= d.timelinessScore <= 10.0
            && 0.0 <= d.schemeProcessScore <= d.schemeProcessWeight <= 75.0
            && d.is2025Grid == Is2025Grid(gridLabel)
            && (Is2024Grid(gridLabel) ==> !d.is2025Grid)
            && (!d.is2025Grid ==> d.accuracyScore == 0.0 && d.timelinessScore == 0.0
                                  && d.totalWeight == 5.0 + d.schemeProcessWeight))
  {
    TallyOfWellCounted(schemes);
    GridScoreBounds(gridLabel, TallyOf(schemes), SubOrders(schemes), ActiveSchemes(schemes), c);
  }

  /** The bounds of the score, from the counters. */
  lemma GridScoreBounds(gridLabel: string, t: Tally, subOrders: nat, active: nat, c: GridCounts)
    requires TallyWellCounted(t)
    ensures var (score, d) := GridScore(gridLabel, t, subOrders, active, c);
      && 0.0 <= score <= 1.0
      && (subOrders == 0 <==> d.NoSurvey?)
      && (d.NoSurvey? ==> score == 0.0 && d.schemeTypes == t)
      && (d.Scored? ==>
            && 0.0 <= d.accuracyScore <= 10.0 && 0.0 <= d.timelinessScore <= 10.0
            && 0.0 <= d.schemeProcessScore <= d.schemeProcessWeight <= 75.0
            && d.is2025Grid == Is2025Grid(gridLabel)
            && (Is2024Grid(gridLabel) ==> !d.is2025Grid)
            && (!d.is2025Grid ==> d.accuracyScore == 0.0 && d.timelinessScore == 0.0
                                  && d.totalWeight == 5.0 + d.schemeProcessWeight))
  {
    if subOrders > 0 {
      var (score, d) := GridScore(gridLabel, t, subOrders, active, c);
      var totalScore := if d.is2025Grid then 5.0 + d.schemeProcessScore + d.accuracyScore + d.timelinessScore
                        else 5.0 + d.schemeProcessScore;
      assert 0.0 < totalScore <= d.totalWeight;
      assert score == totalScore / d.totalWeight;
      RatioAtMostOne(totalScore, d.totalWeight);
    }
  }

  lemma RatioAtMostOne(a: real, b: real)
    requires 0.0 <= a <= b && b > 0.0
    ensures 0.0 <= a / b <= 1.0
  {
  }

  /** The first loop of `_calculate_grid_process_score`: sub-orders and the
      four types' totals and successes. */
  method CountSchemes(schemes: seq<Scheme>) returns (schemeTypes: Tally, subOrderCount: nat)
    ensures schemeTypes == TallyOf(schemes) && subOrderCount == SubOrders(schemes)
  {
    schemeTypes := EmptyTally;
    subOrderCount := 0;
    var n := 0;
    while n < |schemes|
      invariant 0 <= n <= |schemes|
      invariant schemeTypes == TallyOf(schemes[..n])
      invariant subOrderCount == SubOrders(schemes[..n])
    {
      var scheme := schemes[n];
      assert schemes[..n + 1][..n] == schemes[..n];
      if !IsReplacement(scheme) {
        if scheme.currentActName == SubOrderAct {
          subOrderCount := subOrderCount + 1;
        }
        if !IsRemoved(scheme) {
          var schemeType := TypeOf(scheme);
          if schemeType == Maintenance {
            schemeTypes := schemeTypes.(maintenance := Bump(schemeTypes.maintenance, IsSuccess(scheme)));
          } else if schemeType == PlannedBuild {
            schemeTypes := schemeTypes.(planned := Bump(schemeTypes.planned, IsSuccess(scheme)));
          } else if schemeType == Remediation {
            schemeTypes := schemeTypes.(remediation := Bump(schemeTypes.remediation, IsSuccess(scheme)));
          } else if schemeType == AntennaTuning {
            schemeTypes := schemeTypes.(tuning := Bump(schemeTypes.tuning, IsSuccess(scheme)));
          }
        }
      }
      n := n + 1;
    }
    assert schemes[..n] == schemes;
  }

  /** The second loop: the schemes not removed. */
  method CountActive(schemes: seq<Scheme>) returns (totalSchemes: nat)
    ensures totalSchemes == ActiveSchemes(schemes)
  {
    totalSchemes := 0;
    var m := 0;
    while m < |schemes|
      invariant 0 <= m <= |schemes|
      invariant totalSchemes == ActiveSchemes(schemes[..m])
    {
      assert schemes[..m + 1][..m] == schemes[..m];
      if !IsReplacement(schemes[m]) && !IsRemoved(schemes[m]) {
        totalSchemes := totalSchemes + 1;
      }
      m := m + 1;
    }
    assert schemes[..m] == schemes;
  }

  /** `_calculate_grid_process_score`: one loop counts sub-orders and the
      four types' totals and successes; a second loop, run for 2025 grids
      only, counts the schemes not removed. */
  method CalculateGridProcessScore(schemes: seq<Scheme>, gridLabel: string, c: GridCounts)
    returns (processScore: real, details: Details)
    ensures (processScore, details) == GridProcessScore(schemes, gridLabel, c)
  {
    var is2024Grid := Contains(gridLabel, Label2024Second) || Contains(gridLabel, Label2024Legacy)
                      || Contains(gridLabel, Label2024First);
    var is2025Grid := !is2024Grid && Contains(gridLabel, Label2025);
    var schemeTypes, subOrderCount := CountSchemes(schemes);
    var totalSchemes := 0;
    if is2025Grid {
      totalSchemes := CountActive(schemes);
    }
    TallyOfWellCounted(schemes);
    var r := GridScore(gridLabel, schemeTypes, subOrderCount, if is2025Grid then totalSchemes else ActiveSchemes(schemes), c);
    assert r == GridProcessScore(schemes, gridLabel, c);
    processScore, details := r.0, r.1;
  }

  // ---------------------------------------------------------------------------
  // The sheet remark (`_create_grid_detail_sheet`)
  // ---------------------------------------------------------------------------

  /** A lost-points entry of the remark, with the points lost, rounded to two
      decimals. */
  datatype Deduction = ProcessLoss(points: real) | TimelinessLoss(points: real) | AccuracyLoss(points: real)

  /** The sheet reads the details with defaults, so a grid with the short
      details counts as not a 2025 grid and has process weight 0. */
  function SheetIs2025(d: Details): bool {
    d.Scored? && d.is2025Grid
  }

  /** The position of a deduction's kind in the remark. */
  function Rank(x: Deduction): nat {
    match x
    case ProcessLoss(_) => 0
    case TimelinessLoss(_) => 1
    case AccuracyLoss(_) => 2
  }

  /** The deductions of a grid's row, in order: process points when some
      type's points were lost, then, for 2025 grids, timeliness and accuracy
      points below 10. */
  function Deductions(d: Details): (r: seq<Deduction>)
    ensures |r| <= 3
    ensures d.NoSurvey? ==> r == []
    ensures !SheetIs2025(d) ==> forall i :: 0 <= i < |r| ==> r[i].ProcessLoss?
    ensures forall i, j :: 0 <= i < j < |r| ==> Rank(r[i]) < Rank(r[j])
    ensures (exists i :: 0 <= i < |r| && r[i].ProcessLoss?) <==>
      d.Scored? && d.schemeProcessWeight > 0.0 && RoundTo(d.schemeProcessScore, 2) < d.schemeProcessWeight
    ensures forall i :: 0 <= i < |r| && r[i].ProcessLoss? ==>
      r[i].points == RoundTo(d.schemeProcessWeight - RoundTo(d.schemeProcessScore, 2), 2)
    ensures (exists i :: 0 <= i < |r| && r[i].TimelinessLoss?) <==>
      SheetIs2025(d) && RoundTo(d.timelinessScore, 2) < 10.0
    ensures forall i :: 0 <= i < |r| && r[i].TimelinessLoss? ==>
      r[i].points == RoundTo(10.0 - RoundTo(d.timelinessScore, 2), 2)
    ensures (exists i :: 0 <= i < |r| && r[i].AccuracyLoss?) <==>
      SheetIs2025(d) && RoundTo(d.accuracyScore, 2) < 10.0
    ensures forall i :: 0 <= i < |r| && r[i].AccuracyLoss? ==>
      r[i].points == RoundTo(10.0 - RoundTo(d.accuracyScore, 2), 2)
  {
    var processScore := if d.Scored? then RoundTo(d.schemeProcessScore, 2) else 0.0;
    var processWeight := if d.Scored? then d.schemeProcessWeight else 0.0;
    var timeliness := if d.Scored? then RoundTo(d.timelinessScore, 2) else 0.0;
    var accuracy := if d.Scored? then RoundTo(d.accuracyScore, 2) else 0.0;
    var ps := if processWeight > 0.0 && processScore < processWeight then [ProcessLoss(RoundTo(processWeight - processScore, 2))] else [];
    var ts := if SheetIs2025(d) && timeliness < 10.0 then [TimelinessLoss(RoundTo(10.0 - timeliness, 2))] else [];
    var accs := if SheetIs2025(d) && accuracy < 10.0 then [AccuracyLoss(RoundTo(10.0 - accuracy, 2))] else [];
    var r := ps + ts + accs;
    assert forall i :: 0 <= i < |r| ==>
      (i < |ps| && r[i] == ps[0]) || (|ps| <= i < |ps| + |ts| && r[i] == ts[0]) || (|ps| + |ts| <= i && r[i] == accs[0]);
    assert |ps| == 1 ==> r[0] == ps[0];
    assert |ts| == 1 ==> r[|ps|] == ts[0];
    assert |accs| == 1 ==> r[|ps| + |ts|] == accs[0];
    r
  }

  /** The words that open a deduction's text. */
  function LossLabel(x: Deduction): string {
    match x
    case ProcessLoss(_) => "过程得分失"
    case TimelinessLoss(_) => "方案时效性失"
    case AccuracyLoss(_) => "方案准确性失"
  }

  /** The text of a deduction; `show` prints a float as Python's `str` does. */
  function DeductionText(x: Deduction, show: real -> string): (r: string)
    ensures |r| > 0
    ensures r == LossLabel(x) + show(x.points) + "分"
    ensures '，' !in show(x.points) ==> '，' !in r
  {
    match x
    case ProcessLoss(p) => "过程得分失" + show(p) + "分"
    case TimelinessLoss(p) => "方案时效性失" + show(p) + "分"
    case AccuracyLoss(p) => "方案准确性失" + show(p) + "分"
  }

  function DeductionTexts(xs: seq<Deduction>, show: real -> string): (r: seq<string>)
    ensures |r| == |xs|
    ensures forall i :: 0 <= i < |xs| ==> r[i] == DeductionText(xs[i], show)
  {
    seq(|xs|, i requires 0 <= i < |xs| => DeductionText(xs[i], show))
  }

  /** The remark: empty without deductions, the one deduction alone, or
      `多项，` followed by all of them joined with `，`. */
  function RemarkOf(xs: seq<Deduction>, show: real -> string): (r: string)
    ensures r == "" <==> |xs| == 0
    ensures |xs| == 1 ==> r == DeductionText(xs[0], show)
    ensures |xs| > 1 ==> StartsWith(r, "多项，")
    ensures |xs| > 1 ==> r == "多项，" + Join(DeductionTexts(xs, show), "，")
  {
    if |xs| == 0 then ""
    else if |xs| == 1 then DeductionText(xs[0], show)
    else
      var r := "多项，" + Join(DeductionTexts(xs, show), "，");
      assert r[..|"多项，"|] == "多项，";
      r
  }

  /** When no amount prints with a full-width comma, splitting a remark of
      several deductions after its `多项，` at the full-width commas gives back
      each deduction's text once, in order. */
  lemma RemarkListsDeductions(xs: seq<Deduction>, show: real -> string)
    requires |xs| > 1
    requires forall i :: 0 <= i < |xs| ==> '，' !in show(xs[i].points)
    ensures Split(RemarkOf(xs, show)[|"多项，"|..], '，') == DeductionTexts(xs, show)
  {
    var texts := DeductionTexts(xs, show);
    assert RemarkOf(xs, show)[|"多项，"|..] == Join(texts, "，");
    SplitJoin(texts, '，');
  }

  /** The remark of a grid's row, with its deductions gathered by appends. */
  method BuildRemark(d: Details, show: real -> string) returns (remark: string)
    ensures remark == RemarkOf(Deductions(d), show)
  {
    var processScore := if d.Scored? then RoundTo(d.schemeProcessScore, 2) else 0.0;
    var processWeight := if d.Scored? then d.schemeProcessWeight else 0.0;
    var is2025 := SheetIs2025(d);
    var timeliness := if d.Scored? then RoundTo(d.timelinessScore, 2) else 0.0;
    var accuracy := if d.Scored? then RoundTo(d.accuracyScore, 2) else 0.0;
    var deductionItems: seq<Deduction> := [];
    if processWeight > 0.0 && processScore < processWeight {
      deductionItems := deductionItems + [ProcessLoss(RoundTo(processWeight - processScore, 2))];
    }
    if is2025 && timeliness < 10.0 {
      deductionItems := deductionItems + [TimelinessLoss(RoundTo(10.0 - timeliness, 2))];
    }
    if is2025 && accuracy < 10.0 {
      deductionItems := deductionItems + [AccuracyLoss(RoundTo(10.0 - accuracy, 2))];
    }
    assert deductionItems == Deductions(d);
    remark := RemarkOf(deductionItems, show);
  }

  /** A grid without sub-orders gets an empty remark, and a grid that is not
      a 2025 grid is only ever charged process points. */
  lemma RemarkOfGrid(schemes: seq<Scheme>, gridLabel: string, c: GridCounts, show: real -> string)
    ensures var d := GridProcessScore(schemes, gridLabel, c).1;
      (SubOrders(schemes) == 0 ==> RemarkOf(Deductions(d), show) == "")
      && (!Is2025Grid(gridLabel) ==> |Deductions(d)| <= 1)
  {
    GridProcessScoreBounds(schemes, gridLabel, c);
    var d := GridProcessScore(schemes, gridLabel, c).1;
    if !Is2025Grid(gridLabel) && d.Scored? {
      assert !SheetIs2025(d);
    }
  }

  // ---------------------------------------------------------------------------
  // Reading scores (`_get_score`)
  // ---------------------------------------------------------------------------

  /** A value of the result JSON. */
  datatype JsonValue = JsonNull | JsonNumber(n: real) | JsonBool(b: bool) | JsonText(t: string) | JsonCompound

  /** `float(value)` when the key is present and not null, else the default;
      a value `float` refuses gives the default as well. `parseFloat` is
      Python's `float` on a text. */
  function GetScore(resultJson: map<string, JsonValue>, key: string, default: real, parseFloat: string -> Option<real>): (r: real)
    ensures key !in resultJson ==> r == default
    ensures key in resultJson ==>
      match resultJson[key]
      case JsonNull => r == default
      case JsonNumber(x) => r == x
      case JsonBool(b) => r == (if b then 1.0 else 0.0)
      case JsonText(t) => r == parseFloat(t).GetOr(default)
      case JsonCompound => r == default
  {
    if key !in resultJson then default
    else match resultJson[key]
      case JsonNull => default
      case JsonNumber(x) => x
      case JsonBool(b) => if b then 1.0 else 0.0
      case JsonText(t) => parseFloat(t).GetOr(default)
      case JsonCompound => default
  }

  // ---------------------------------------------------------------------------
  // CSV import filter (`_process_csv_data`)
  // ---------------------------------------------------------------------------

  /** One CSV row, its columns already stripped (`''` when missing or empty). */
  datatype CsvRow = CsvRow(labels: string, currentActName: string, updateLabel: string, gridCode: string, schemeId: string)

  /** The two layouts the import accepts. */
  datatype CsvFormat = TimeoutList | TotalExport(hasStatusColumns: bool)

  const CompletedIn2024: string := "24年年底已实施完成"

  /** Whether a row of the given layout is imported: the label must carry the
      2025 label (with or without a 2024 one); an export row must moreover be
      at the implementation-result step and not marked as completed in 2024,
      and come from a file with the status columns; every row needs a grid
      code and a scheme id, and the scheme must not be on the exclusion list. */
  predicate Keeps(f: CsvFormat, row: CsvRow, excluded: string -> bool) {
    && Contains(row.labels, Label2025)
    && (f.TotalExport? ==> f.hasStatusColumns && row.currentActName == SubOrderAct && row.updateLabel != CompletedIn2024)
    && row.gridCode != "" && row.schemeId != ""
    && !excluded(row.schemeId)
  }

  function KeptRows(f: CsvFormat, rows: seq<CsvRow>, excluded: string -> bool): seq<CsvRow> {
    if |rows| == 0 then []
    else KeptRows(f, rows[..|rows| - 1], excluded)
         + if Keeps(f, rows[|rows| - 1], excluded) then [rows[|rows| - 1]] else []
  }

  /** The imported rows are exactly the rows that pass the filter, in their
      file order. */
  lemma {:induction false} KeptRowsExact(f: CsvFormat, rows: seq<CsvRow>, excluded: string -> bool)
    ensures |KeptRows(f, rows, excluded)| <= |rows|
    ensures forall x :: x in KeptRows(f, rows, excluded) <==> x in rows && Keeps(f, x, excluded)
  {
    if |rows| > 0 {
      var init := rows[..|rows| - 1];
      KeptRowsExact(f, init, excluded);
      assert rows == init + [rows[|rows| - 1]];
    }
  }

  /** `_process_csv_data`'s filter over the rows of one file. */
  method ProcessCsvData(f: CsvFormat, rows: seq<CsvRow>, excluded: string -> bool) returns (processed: seq<CsvRow>)
    ensures processed == KeptRows(f, rows, excluded)
  {
    processed := [];
    var num := 0;
    while num < |rows|
      invariant 0 <= num <= |rows|
      invariant processed == KeptRows(f, rows[..num], excluded)
    {
      var row := rows[num];
      assert rows[..num + 1][..num] == rows[..num];
      var isGrid2024 := Contains(row.labels, Label2025) && Is2024Grid(row.labels);
      var isGrid2025 := Contains(row.labels, Label2025) && !Is2024Grid(row.labels);
      var selected := match f
        case TimeoutList => isGrid2024 || isGrid2025
        case TotalExport(hasColumns) =>
          hasColumns && row.currentActName == SubOrderAct && row.updateLabel != CompletedIn2024
          && (isGrid2024 || isGrid2025);
      if selected && row.gridCode != "" && row.schemeId != "" && !excluded(row.schemeId) {
        processed := processed + [row];
      }
      num := num + 1;
    }
    assert rows[..num] == rows;
  }
}
