/** The interference monitor of `tools/interference_monitor.py`: how an
    uploaded 4G or 5G interference export is recognised, how each of its rows
    becomes a stored record, the range query, the list of days a summary
    covers, and the reading of a stored interference value. */
module InterferenceMonitor {
  import opened Wrappers
  import opened Text
  import opened Sql

  // ---------------------------------------------------------------------------
  // File recognition
  // ---------------------------------------------------------------------------

  datatype Tech = NR | LTE

  /** A file is a 5G export when its lower-cased name contains `_nr_cel`, a
      4G export when it contains `_lte_cel` (and not `_nr_cel`), otherwise
      unrecognised. */
  function DetectTech(fileName: string): (r: Option<Tech>)
    ensures r == Some(NR) <==> Contains(Lower(fileName), "_nr_cel")
    ensures r == Some(LTE) <==> !Contains(Lower(fileName), "_nr_cel") && Contains(Lower(fileName), "_lte_cel")
    ensures r.None? <==> !Contains(Lower(fileName), "_nr_cel") && !Contains(Lower(fileName), "_lte_cel")
  {
    var name := Lower(fileName);
    if Contains(name, "_nr_cel") then Some(NR)
    else if Contains(name, "_lte_cel") then Some(LTE)
    else None
  }

  const DataTime: string := "数据时间"
  const CgiColumn: string := "CGI"
  const CellNameColumn: string := "小区名"
  const FullBandMean: string := "全频段均值"
  const AverageLevel: string := "平均干扰电平"

  /** The columns each kind of export must have. */
  function RequiredColumns(t: Tech): (r: seq<string>)
    ensures |r| == 4 && r[..3] == [DataTime, CgiColumn, CellNameColumn]
    ensures r[3] == (if t == NR then FullBandMean else AverageLevel)
  {
    [DataTime, CgiColumn, CellNameColumn, if t == NR then FullBandMean else AverageLevel]
  }

  /** `[c for c in required if c not in columns]`. */
  function MissingColumns(required: seq<string>, columns: set<string>): (r: seq<string>)
    ensures forall c :: c in r <==> c in required && c !in columns
    ensures |r| <= |required|
  {
    if |required| == 0 then []
    else (if required[0] in columns then [] else [required[0]]) + MissingColumns(required[1..], columns)
  }

  // ---------------------------------------------------------------------------
  // Dates
  // ---------------------------------------------------------------------------

  /** A calendar date of the proleptic Gregorian calendar. */
  datatype Date = Date(year: nat, month: nat, day: nat)

  predicate IsLeap(y: int) {
    (y % 4 == 0 && y % 100 != 0) || y % 400 == 0
  }

  function DaysInMonth(y: int, m: int): (n: int)
    ensures 28 <= n <= 31
  {
    if m == 2 then (if IsLeap(y) then 29 else 28)
    else if m in {4, 6, 9, 11} then 30
    else 31
  }

  function YearLength(y: int): int {
    if IsLeap(y) then 366 else 365
  }

  ghost predicate ValidDate(d: Date) {
    1 <= d.year && 1 <= d.month <= 12 && 1 <= d.day <= DaysInMonth(d.year, d.month)
  }

  /** The days of the years before `y`. */
  function DaysBeforeYear(y: int): (n: nat)
    requires y >= 1
    decreases y
  {
    if y == 1 then 0 else DaysBeforeYear(y - 1) + YearLength(y - 1)
  }

  /** The days of the months of year `y` before month `m`. */
  function DaysBeforeMonth(y: int, m: int): (n: nat)
    requires 1 <= m <= 13
    decreases m
  {
    if m == 1 then 0 else DaysBeforeMonth(y, m - 1) + DaysInMonth(y, m - 1)
  }

  /** The day number of a date, counting 1 January of year 1 as day 1
      (`date.toordinal`). */
  function Ordinal(d: Date): int
    requires d.year >= 1 && 1 <= d.month <= 12
  {
    DaysBeforeYear(d.year) + DaysBeforeMonth(d.year, d.month) + d.day
  }

  /** The date after `d` (`d + timedelta(days=1)`). */
  function NextDay(d: Date): (r: Date)
    requires ValidDate(d)
    ensures ValidDate(r) && Ordinal(r) == Ordinal(d) + 1
  {
    if d.day < DaysInMonth(d.year, d.month) then Date(d.year, d.month, d.day + 1)
    else if d.month < 12 then Date(d.year, d.month + 1, 1)
    else
      DaysBeforeDecember(d.year);
      Date(d.year + 1, 1, 1)
  }

  lemma DaysBeforeDecember(y: int)
    ensures DaysBeforeMonth(y, 12) + 31 == YearLength(y)
  {
    assert DaysBeforeMonth(y, 2) == 31;
    assert DaysBeforeMonth(y, 3) == 31 + DaysInMonth(y, 2);
    assert DaysBeforeMonth(y, 4) == 62 + DaysInMonth(y, 2);
    assert DaysBeforeMonth(y, 5) == 92 + DaysInMonth(y, 2);
    assert DaysBeforeMonth(y, 6) == 123 + DaysInMonth(y, 2);
    assert DaysBeforeMonth(y, 7) == 153 + DaysInMonth(y, 2);
    assert DaysBeforeMonth(y, 8) == 184 + DaysInMonth(y, 2);
    assert DaysBeforeMonth(y, 9) == 215 + DaysInMonth(y, 2);
    assert DaysBeforeMonth(y, 10) == 245 + DaysInMonth(y, 2);
    assert DaysBeforeMonth(y, 11) == 276 + DaysInMonth(y, 2);
  }

  /** `a <= b` on dates: by year, then month, then day. */
  predicate NotAfter(a: Date, b: Date) {
    a.year < b.year || (a.year == b.year && (a.month < b.month || (a.month == b.month && a.day <= b.day)))
  }

  lemma {:induction false} MonthsBefore(y: int, m: int, m': int)
    requires 1 <= m <= m' <= 13
    ensures DaysBeforeMonth(y, m) <= DaysBeforeMonth(y, m')
    ensures m < m' ==> DaysBeforeMonth(y, m) + DaysInMonth(y, m) <= DaysBeforeMonth(y, m')
    decreases m'
  {
    if m < m' {
      MonthsBefore(y, m, m' - 1);
    }
  }

  lemma {:induction false} YearsBefore(y: int, y': int)
    requires 1 <= y < y'
    ensures DaysBeforeYear(y) + YearLength(y) <= DaysBeforeYear(y')
    decreases y'
  {
    if y < y' - 1 {
      YearsBefore(y, y' - 1);
    }
  }

  /** A date's day number stays below the first day of the next year. */
  lemma WithinYear(d: Date)
    requires ValidDate(d)
    ensures Ordinal(d) <= DaysBeforeYear(d.year) + YearLength(d.year)
  {
    MonthsBefore(d.year, d.month, 13);
    DaysBeforeDecember(d.year);
  }

  /** Comparing dates field by field is comparing their day numbers. */
  lemma NotAfterIsOrdinal(a: Date, b: Date)
    requires ValidDate(a) && ValidDate(b)
    ensures NotAfter(a, b) <==> Ordinal(a) <= Ordinal(b)
  {
    if a.year < b.year {
      WithinYear(a);
      YearsBefore(a.year, b.year);
    } else if b.year < a.year {
      WithinYear(b);
      YearsBefore(b.year, a.year);
    } else if a.month < b.month {
      MonthsBefore(a.year, a.month, b.month);
    } else if b.month < a.month {
      MonthsBefore(b.year, b.month, a.month);
    }
  }

  /** `d.strftime("%Y%m%d")`. */
  function Yyyymmdd(d: Date): (r: string)
    ensures |r| >= 8
    ensures forall i :: 0 <= i < |r| ==> IsDigit(r[i])
  {
    PadNat(d.year, 4) + PadNat(d.month, 2) + PadNat(d.day, 2)
  }

  /** `datetime.strptime(s, "%Y%m%d")` on an eight-digit text. */
  function ParseYyyymmdd(s: string): Date
    requires |s| == 8 && forall i :: 0 <= i < |s| ==> IsDigit(s[i])
  {
    Date(DigitsValue(s[..4]), DigitsValue(s[4..6]), DigitsValue(s[6..]))
  }

  /** The date text of a date with a four-digit year reads back as that date. */
  lemma YyyymmddRoundTrip(d: Date)
    requires ValidDate(d) && d.year <= 9999
    ensures |Yyyymmdd(d)| == 8
    ensures ParseYyyymmdd(Yyyymmdd(d)) == d
  {
    assert Decimal.Pow10(4) == 10000 && Decimal.Pow10(2) == 100;
    PadNatValue(d.year, 4);
    PadNatValue(d.month, 2);
    PadNatValue(d.day, 2);
    var s := Yyyymmdd(d);
    assert s[..4] == PadNat(d.year, 4);
    assert s[4..6] == PadNat(d.month, 2);
    assert s[6..] == PadNat(d.day, 2);
  }

  /** Valid dates, each the day after the one before it. */
  ghost predicate Consecutive(days: seq<Date>) {
    && (forall i :: 0 <= i < |days| ==> ValidDate(days[i]))
    && (forall i :: 0 < i < |days| ==> days[i] == NextDay(days[i - 1]))
  }

  lemma ConsecutiveSnoc(days: seq<Date>, d: Date)
    requires Consecutive(days) && ValidDate(d) && (|days| > 0 ==> d == NextDay(days[|days| - 1]))
    ensures Consecutive(days + [d])
  {
  }

  /** Consecutive dates are ascending days, one apart. */
  lemma {:induction false} ConsecutiveAscending(days: seq<Date>)
    requires Consecutive(days)
    ensures forall i :: 0 <= i < |days| ==> Ordinal(days[i]) == Ordinal(days[0]) + i
  {
    if |days| > 1 {
      var init := days[..|days| - 1];
      assert Consecutive(init) by {
        assert forall i :: 0 <= i < |init| ==> init[i] == days[i];
      }
      ConsecutiveAscending(init);
      assert days[|days| - 1] == NextDay(days[|days| - 2]);
      assert forall i :: 0 <= i < |init| ==> init[i] == days[i];
    }
  }

  /** The summary's list of days: every day from `start` to `end` inclusive,
      one after the other; `days` are the dates the texts show. */
  method DateRange(start: Date, end: Date) returns (r: seq<string>, ghost days: seq<Date>)
    requires ValidDate(start) && ValidDate(end)
    ensures |r| == |days| == if Ordinal(start) <= Ordinal(end) then Ordinal(end) - Ordinal(start) + 1 else 0
    ensures |days| > 0 ==> days[0] == start && days[|days| - 1] == end
    ensures Consecutive(days)
    ensures forall i :: 0 <= i < |r| ==> r[i] == Yyyymmdd(days[i])
  {
    r, days := [], [];
    var current := start;
    NotAfterIsOrdinal(current, end);
    while NotAfter(current, end)
      invariant ValidDate(current) && Ordinal(current) == Ordinal(start) + |r|
      invariant |r| == |days|
      invariant |r| == 0 || Ordinal(current) <= Ordinal(end) + 1
      invariant NotAfter(current, end) <==> Ordinal(current) <= Ordinal(end)
      invariant Consecutive(days)
      invariant |days| == 0 ==> current == start
      invariant |days| > 0 ==> days[0] == start && ValidDate(days[|days| - 1]) && current == NextDay(days[|days| - 1])
      invariant forall i :: 0 <= i < |r| ==> r[i] == Yyyymmdd(days[i])
      decreases Ordinal(end) - Ordinal(current)
    {
      ConsecutiveSnoc(days, current);
      r, days := r + [Yyyymmdd(current)], days + [current];
      current := NextDay(current);
      NotAfterIsOrdinal(current, end);
    }
    if |days| > 0 {
      OrdinalInjective(days[|days| - 1], end);
    }
  }

  /** Distinct valid dates have distinct day numbers. */
  lemma OrdinalInjective(a: Date, b: Date)
    requires ValidDate(a) && ValidDate(b) && Ordinal(a) == Ordinal(b)
    ensures a == b
  {
    NotAfterIsOrdinal(a, b);
    NotAfterIsOrdinal(b, a);
  }

  /** The formats a row's date is tried against, in order. */
  const DateFormats: seq<string> := [
    "%Y-%m-%d %H:%M:%S", "%Y-%m-%d", "%Y/%m/%d %H:%M:%S", "%Y/%m/%d",
    "%Y%m%d", "%Y-%m-%d %H:%M", "%Y/%m/%d %H:%M"]

  /** The first format of `formats` that `strptime` accepts `text` in. */
  function FirstParse(text: string, formats: seq<string>, strptime: (string, string) -> Option<Date>): (r: Option<Date>)
    ensures r.None? <==> forall i :: 0 <= i < |formats| ==> strptime(text, formats[i]).None?
    ensures r.Some? ==> exists i :: (0 <= i < |formats| && r == strptime(text, formats[i])
                                     && forall j :: 0 <= j < i ==> strptime(text, formats[j]).None?)
  {
    if |formats| == 0 then None
    else if strptime(text, formats[0]).Some? then strptime(text, formats[0])
    else
      var r := FirstParse(text, formats[1..], strptime);
      assert forall i :: 1 <= i < |formats| ==> formats[i] == formats[1..][i - 1];
      r
  }

  // ---------------------------------------------------------------------------
  // Rows
  // ---------------------------------------------------------------------------

  /** One row of an export, each cell already converted with `str`. */
  datatype RawRow = RawRow(dataTime: string, cgi: string, cellName: string, fullBandMean: string, averageLevel: string)

  /** One stored record: date, CGI, cell name, system, band, the interference
      text and whether it exceeds the threshold. */
  datatype Record = Record(dateStr: string, cgi: string, cellName: string, zhishi: string,
                           pinduan: string, ripStr: string, ifRip: string)

  /** `s.replace(c, '')`. */
  function Without(s: string, c: char): (r: string)
    ensures c !in r && |r| <= |s|
    ensures forall x :: x in r <==> x in s && x != c
  {
    if |s| == 0 then [] else (if s[0] == c then [] else [s[0]]) + Without(s[1..], c)
  }

  /** A level above -107 (dBm) counts as interference; text that is no
      number is `n/a`. */
  function IfRip(ripStr: string, parse: string -> Option<real>): (r: string)
    ensures r == "1" <==> parse(ripStr).Some? && parse(ripStr).value > -107.0
    ensures r == "0" <==> parse(ripStr).Some? && parse(ripStr).value <= -107.0
    ensures r == "n/a" <==> parse(ripStr).None?
  {
    match parse(ripStr)
    case Some(v) => if v > -107.0 then "1" else "0"
    case None => "n/a"
  }

  /** The record a row becomes; none when its date matches no format. */
  function MapRow(t: Tech, row: RawRow, strptime: (string, string) -> Option<Date>, parse: string -> Option<real>): (r: Option<Record>)
    ensures r.None? <==> FirstParse(Strip(Without(row.dataTime, '\t')), DateFormats, strptime).None?
    ensures r.Some? ==> r.value.cgi == Strip(row.cgi) && r.value.cellName == Strip(row.cellName)
    ensures r.Some? ==> r.value.zhishi == (if t == NR then "5g" else "4g")
    ensures r.Some? ==> r.value.pinduan == (if t == LTE then "lte" else if Contains(Strip(row.cellName), "CBN") then "700M" else "2.6G")
    ensures r.Some? ==> r.value.ripStr == Strip(if t == NR then row.fullBandMean else row.averageLevel)
    ensures r.Some? ==> r.value.ifRip == IfRip(r.value.ripStr, parse)
    ensures r.Some? ==> r.value.dateStr == Yyyymmdd(FirstParse(Strip(Without(row.dataTime, '\t')), DateFormats, strptime).value)
  {
    var date := FirstParse(Strip(Without(row.dataTime, '\t')), DateFormats, strptime);
    match date
    case None => None
    case Some(d) =>
      var cgi := Strip(row.cgi);
      var cellName := Strip(row.cellName);
      var ripStr := Strip(if t == NR then row.fullBandMean else row.averageLevel);
      var pinduan := if t == LTE then "lte" else if Contains(cellName, "CBN") then "700M" else "2.6G";
      Some(Record(Yyyymmdd(d), cgi, cellName, if t == NR then "5g" else "4g", pinduan, ripStr, IfRip(ripStr, parse)))
  }

  /** The row mapping as a function value. */
  function Mapper(t: Tech, strptime: (string, string) -> Option<Date>, parse: string -> Option<real>): RawRow -> Option<Record>
  {
    row => MapRow(t, row, strptime, parse)
  }

  /** The values `f` gives for the elements of `xs`, in order. */
  function Kept<A, B>(xs: seq<A>, f: A -> Option<B>): (r: seq<B>)
    ensures |r| <= |xs|
  {
    if |xs| == 0 then []
    else Kept(xs[..|xs| - 1], f) + match f(xs[|xs| - 1]) { case Some(b) => [b] case None => [] }
  }

  /** The elements of `xs` for which `f` gives nothing. */
  function Dropped<A, B>(xs: seq<A>, f: A -> Option<B>): (n: nat)
    ensures n <= |xs|
  {
    if |xs| == 0 then 0 else Dropped(xs[..|xs| - 1], f) + if f(xs[|xs| - 1]).None? then 1 else 0
  }

  /** Every element is either kept or dropped. */
  lemma {:induction false} KeptOrDropped<A, B>(xs: seq<A>, f: A -> Option<B>)
    ensures |Kept(xs, f)| + Dropped(xs, f) == |xs|
  {
    if |xs| > 0 {
      KeptOrDropped(xs[..|xs| - 1], f);
    }
  }

  /** A value is kept exactly when `f` gives it for some element. */
  lemma {:induction false} KeptValues<A, B>(xs: seq<A>, f: A -> Option<B>)
    ensures forall b :: b in Kept(xs, f) <==> exists i :: 0 <= i < |xs| && f(xs[i]) == Some(b)
  {
    if |xs| > 0 {
      var init := xs[..|xs| - 1];
      KeptValues(init, f);
      forall b ensures b in Kept(xs, f) <==> exists i :: 0 <= i < |xs| && f(xs[i]) == Some(b) {
        if b in Kept(init, f) {
          var i :| 0 <= i < |init| && f(init[i]) == Some(b);
          assert xs[i] == init[i];
        }
        if exists i :: 0 <= i < |xs| && f(xs[i]) == Some(b) {
          var i :| 0 <= i < |xs| && f(xs[i]) == Some(b);
          if i < |init| {
            assert init[i] == xs[i];
          }
        }
      }
    }
  }

  /** The row loop of the import, `f` mapping one row: the records of the
      rows that map, in row order, and the number of the others. */
  method MapRows(rows: seq<RawRow>, f: RawRow -> Option<Record>) returns (dataList: seq<Record>, errorRows: nat)
    ensures dataList == Kept(rows, f)
    ensures errorRows == Dropped(rows, f)
    ensures |dataList| + errorRows == |rows|
  {
    dataList, errorRows := [], 0;
    var i := 0;
    while i < |rows|
      invariant 0 <= i <= |rows|
      invariant dataList == Kept(rows[..i], f)
      invariant errorRows == Dropped(rows[..i], f)
    {
      assert rows[..i + 1][..i] == rows[..i];
      var mapped := f(rows[i]);
      if mapped.Some? {
        dataList := dataList + [mapped.value];
      } else {
        errorRows := errorRows + 1;
      }
      i := i + 1;
    }
    assert rows[..i] == rows;
    KeptOrDropped(rows, f);
  }

  /** `_import_interference_data`: the counts of stored and rejected rows, or
      the reason the file was refused. `stored` is whether the batch insert
      succeeded. */
  method ImportInterferenceData(fileName: string, columns: set<string>, rows: seq<RawRow>,
                                strptime: (string, string) -> Option<Date>, parse: string -> Option<real>, stored: bool)
    returns (r: Result<(nat, nat), string>)
    ensures DetectTech(fileName).None? ==> r.Failure?
    ensures DetectTech(fileName).Some? ==>
      var t := DetectTech(fileName).value;
      var f := Mapper(t, strptime, parse);
      if MissingColumns(RequiredColumns(t), columns) != [] then r.Failure?
      else if |Kept(rows, f)| == 0 then r == Success((0, Dropped(rows, f)))
      else if stored then r == Success((|Kept(rows, f)|, Dropped(rows, f)))
      else r.Failure?
    ensures r.Success? ==> r.value.0 + r.value.1 == |rows|
  {
    var tech := DetectTech(fileName);
    if tech.None? {
      return Failure("无法识别文件类型，文件名应包含 '_nr_cel'(5G) 或 '_lte_cel'(4G)");
    }
    var missing := MissingColumns(RequiredColumns(tech.value), columns);
    if missing != [] {
      return Failure("文件缺少必要的列: " + Join(missing, ", "));
    }
    var dataList, errorRows := MapRows(rows, Mapper(tech.value, strptime, parse));
    if |dataList| == 0 {
      return Success((0, errorRows));
    }
    if !stored {
      return Failure("批量插入数据库失败");
    }
    return Success((|dataList|, errorRows));
  }

  // ---------------------------------------------------------------------------
  // Range query
  // ---------------------------------------------------------------------------

  const RangeSelect: string := "\n        " + "SELECT " + "r.date_str, " + "r.cgi, " + "r.celname, "
    + "r.zhishi, " + "r.pinduan, " + "r.rip_str, " + "r.if_rip" + "\n        " + "FROM " + "interference_data "
    + "r" + "\n        " + "WHERE " + "r.date_str " + "BETWEEN "
  const CgiLike: string := " AND " + "r.cgi " + "LIKE "
  const CellNameLike: string := " AND " + "r.celname " + "LIKE "
  const AboveThreshold: string := " AND " + "CAST(" + "r.rip_str " + "AS REAL) " + "> -107"
  const RangeOrder: string := " ORDER BY " + "r.cgi, " + "r.date_str"

  lemma SelectHasNoPlaceholder()
    ensures '?' !in RangeSelect
  {
  }

  lemma ClausesHaveNoPlaceholder()
    ensures '?' !in CgiLike && '?' !in CellNameLike && '?' !in AboveThreshold && '?' !in RangeOrder
  {
  }

  /** `_query_interference_range`: the days between two dates, optionally
      narrowed by CGI and cell-name keywords and by the threshold. */
  method QueryInterferenceRange(start: string, end: string, cgiKw: string, celKw: string, onlyAboveThreshold: bool)
    returns (q: Query<string>)
    ensures Balanced(q)
    ensures q.params == [start, end] + (if cgiKw != "" then [Like(cgiKw)] else [])
                                     + (if celKw != "" then [Like(celKw)] else [])
  {
    SelectHasNoPlaceholder();
    ClausesHaveNoPlaceholder();
    q := AndParam(AndParam(Plain(RangeSelect), "", start), " AND ", end);
    q := AndText(q, "\n        ");
    if cgiKw != "" {
      q := AndParam(q, CgiLike, Like(cgiKw));
    }
    if celKw != "" {
      q := AndParam(q, CellNameLike, Like(celKw));
    }
    if onlyAboveThreshold {
      q := AndText(q, AboveThreshold);
    }
    q := AndText(q, RangeOrder);
  }

  // ---------------------------------------------------------------------------
  // Stored values
  // ---------------------------------------------------------------------------

  /** A cell of a query result: missing (`None` or NaN), a number or text. */
  datatype Cell = Missing | Number(x: real) | Text(s: string)

  const NoData: string := "n/a(无数据)"

  /** `_convert_to_numeric`: numbers pass, the no-data markers and text that
      is no number give nothing. */
  function ConvertToNumeric(value: Cell, parse: string -> Option<real>): (r: Option<real>)
    ensures value.Missing? ==> r.None?
    ensures value.Number? ==> r == Some(value.x)
    ensures value.Text? && (value.s == NoData || value.s == "") ==> r.None?
    ensures value.Text? && value.s != NoData && value.s != "" ==> r == parse(value.s)
  {
    match value
    case Missing => None
    case Number(x) => Some(x)
    case Text(s) => if s == NoData || s == "" then None else parse(s)
  }
}
