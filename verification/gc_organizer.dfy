/** The site lookup of the engineering-parameter organiser in
    `tools/gc_organizer.py`: the three-pass site search, the parameter query,
    the paging of the site list and the export guard. */
module GcOrganizer {
  import opened Wrappers
  import opened Text
  import opened Sql

  // ---------------------------------------------------------------------------
  // Site search (`_smart_search`)
  // ---------------------------------------------------------------------------

  /** The three passes: the whole name, its start, anywhere in it. */
  datatype Pass = Exact | Prefix | Substring

  /** Whether a site name (lower-cased) answers the query in a pass. */
  predicate Hits(pass: Pass, name: string, q: string) {
    match pass
    case Exact => Lower(name) == q
    case Prefix => StartsWith(Lower(name), q)
    case Substring => Contains(Lower(name), q)
  }

  /** The names that answer `q` in `pass` and are not in `exclude`, in list
      order. */
  function PassHits(names: seq<string>, q: string, pass: Pass, exclude: seq<string>): (r: seq<string>)
    ensures forall n :: n in r <==> n in names && Hits(pass, n, q) && n !in exclude
    ensures |r| <= |names|
  {
    if |names| == 0 then []
    else
      var n := names[|names| - 1];
      PassHits(names[..|names| - 1], q, pass, exclude) + if Hits(pass, n, q) && n !in exclude then [n] else []
  }

  /** All answers to `q` before the cap: exact matches, then prefix matches
      not already found, then substring matches not already found. */
  function Ranked(names: seq<string>, q: string): seq<string> {
    var exact := PassHits(names, q, Exact, []);
    var prefix := PassHits(names, q, Prefix, exact);
    exact + prefix + PassHits(names, q, Substring, exact + prefix)
  }

  /** At most 50 answers are shown. */
  const MaxResults: nat := 50

  /** The pass loop: one list comprehension. */
  method RunPass(names: seq<string>, q: string, pass: Pass, exclude: seq<string>) returns (hits: seq<string>)
    ensures hits == PassHits(names, q, pass, exclude)
  {
    hits := [];
    var i := 0;
    while i < |names|
      invariant 0 <= i <= |names|
      invariant hits == PassHits(names[..i], q, pass, exclude)
    {
      assert names[..i + 1][..i] == names[..i];
      if Hits(pass, names[i], q) && names[i] !in exclude {
        hits := hits + [names[i]];
      }
      i := i + 1;
    }
    assert names[..i] == names;
  }

  /** `_smart_search`: nothing for a blank query; otherwise the first 50
      ranked answers to the stripped, lower-cased query. */
  method SmartSearch(query: string, siteNames: seq<string>) returns (r: seq<string>)
    ensures Strip(query) == "" ==> r == []
    ensures Strip(query) != "" ==>
      var all := Ranked(siteNames, Lower(Strip(query)));
      r == all[..if |all| < MaxResults then |all| else MaxResults]
  {
    var q := Lower(Strip(query));
    if q == "" {
      return [];
    }
    var results := RunPass(siteNames, q, Exact, []);
    var startMatches := RunPass(siteNames, q, Prefix, results);
    results := results + startMatches;
    var containsMatches := RunPass(siteNames, q, Substring, results);
    results := results + containsMatches;
    r := if |results| < MaxResults then results else results[..MaxResults];
  }

  lemma StartsWithContains(s: string, sub: string)
    requires StartsWith(s, sub)
    ensures Contains(s, sub)
  {
  }

  /** The ranked answers are exactly the names containing the query. */
  lemma RankedAreContaining(names: seq<string>, q: string)
    ensures forall n :: n in Ranked(names, q) <==> n in names && Contains(Lower(n), q)
  {
    var exact := PassHits(names, q, Exact, []);
    var prefix := PassHits(names, q, Prefix, exact);
    forall n | n in names && Contains(Lower(n), q)
      ensures n in Ranked(names, q)
    {
    }
    forall n | n in Ranked(names, q)
      ensures Contains(Lower(n), q)
    {
      if n in exact {
        ContainsSelf(Lower(n));
      } else if n in prefix {
        StartsWithContains(Lower(n), q);
      }
    }
  }

  predicate Distinct(s: seq<string>) {
    forall i, j :: 0 <= i < j < |s| ==> s[i] != s[j]
  }

  lemma {:induction false} PassHitsDistinct(names: seq<string>, q: string, pass: Pass, exclude: seq<string>)
    requires Distinct(names)
    ensures Distinct(PassHits(names, q, pass, exclude))
  {
    if |names| > 0 {
      var init := names[..|names| - 1];
      PassHitsDistinct(init, q, pass, exclude);
      assert names[|names| - 1] !in init;
    }
  }

  lemma DistinctConcat(a: seq<string>, b: seq<string>)
    requires Distinct(a) && Distinct(b) && forall n :: n in b ==> n !in a
    ensures Distinct(a + b)
  {
    forall i, j | 0 <= i < j < |a + b| ensures (a + b)[i] != (a + b)[j] {
      if i < |a| && j >= |a| {
        assert (a + b)[j] == b[j - |a|];
        assert (a + b)[j] in b;
      }
    }
  }

  /** A site list without repeats gives answers without repeats. */
  lemma RankedDistinct(names: seq<string>, q: string)
    requires Distinct(names)
    ensures Distinct(Ranked(names, q))
  {
    var exact := PassHits(names, q, Exact, []);
    var prefix := PassHits(names, q, Prefix, exact);
    var sub := PassHits(names, q, Substring, exact + prefix);
    PassHitsDistinct(names, q, Exact, []);
    PassHitsDistinct(names, q, Prefix, exact);
    PassHitsDistinct(names, q, Substring, exact + prefix);
    DistinctConcat(exact, prefix);
    DistinctConcat(exact + prefix, sub);
  }

  /** The pass in which a name answers: 0 exact, 1 prefix, 2 substring. */
  function Rank(name: string, q: string): nat {
    if Lower(name) == q then 0 else if StartsWith(Lower(name), q) then 1 else 2
  }

  /** Exact matches come first, then prefix matches, then the rest. */
  lemma RankedInPassOrder(names: seq<string>, q: string)
    ensures forall i, j :: 0 <= i < j < |Ranked(names, q)| ==>
      Rank(Ranked(names, q)[i], q) <= Rank(Ranked(names, q)[j], q)
  {
    var exact := PassHits(names, q, Exact, []);
    var prefix := PassHits(names, q, Prefix, exact);
    var sub := PassHits(names, q, Substring, exact + prefix);
    var all := Ranked(names, q);
    assert all == exact + prefix + sub;
    forall i | 0 <= i < |all|
      ensures i < |exact| ==> Rank(all[i], q) == 0
      ensures |exact| <= i < |exact| + |prefix| ==> Rank(all[i], q) == 1
      ensures |exact| + |prefix| <= i ==> Rank(all[i], q) == 2
    {
      if i < |exact| {
        assert all[i] in exact;
      } else if i < |exact| + |prefix| {
        assert all[i] == prefix[i - |exact|];
        assert all[i] in prefix;
        assert all[i] in names;
      } else {
        assert all[i] == sub[i - |exact| - |prefix|];
        assert all[i] in sub;
        assert all[i] !in exact + prefix;
      }
    }
  }

  // ---------------------------------------------------------------------------
  // Parameter query (`_query_engineering_params_sql`)
  // ---------------------------------------------------------------------------

  const SiteLike: string := " AND " + "phy_name " + "LIKE "
  const CgiLike: string := " AND " + "cgi " + "LIKE "
  const TechEquals: string := " AND " + "zhishi = "
  const SiteOrder: string := " ORDER BY " + "phy_name, " + "cgi"

  lemma FiltersHaveNoPlaceholder()
    ensures '?' !in SiteLike && '?' !in CgiLike && '?' !in TechEquals && '?' !in SiteOrder
  {
  }

  /** The parameter query: `select` is the statement's column list and table
      (ending `WHERE 1=1`), which holds no placeholder; each non-empty filter
      adds one condition and one parameter, site and CGI as `LIKE` patterns
      and the system exactly. */
  method QueryEngineeringParams(select: string, siteFilter: string, cgiFilter: string, techFilter: string)
    returns (q: Query<string>)
    requires '?' !in select
    ensures Balanced(q)
    ensures q.params == (if siteFilter != "" then [Like(siteFilter)] else [])
                      + (if cgiFilter != "" then [Like(cgiFilter)] else [])
                      + (if techFilter != "" then [techFilter] else [])
  {
    FiltersHaveNoPlaceholder();
    q := Plain(select);
    if siteFilter != "" {
      q := AndParam(q, SiteLike, Like(siteFilter));
    }
    if cgiFilter != "" {
      q := AndParam(q, CgiLike, Like(cgiFilter));
    }
    if techFilter != "" {
      q := AndParam(q, TechEquals, techFilter);
    }
    q := AndText(q, SiteOrder);
  }

  // ---------------------------------------------------------------------------
  // Paging of the site list
  // ---------------------------------------------------------------------------

  const PageSize: nat := 50

  /** `(n + 49) // 50`: the number of pages, rounded up. */
  function TotalPages(n: nat): (pages: nat)
    ensures pages * PageSize >= n
    ensures pages > 0 ==> (pages - 1) * PageSize < n
  {
    (n + PageSize - 1) / PageSize
  }

  /** The names shown on page `page` (counted from 1). */
  function PageOf(names: seq<string>, page: nat): (r: seq<string>)
    requires 1 <= page <= TotalPages(|names|)
    ensures 1 <= |r| <= PageSize
  {
    var start := (page - 1) * PageSize;
    var end := if start + PageSize < |names| then start + PageSize else |names|;
    names[start..end]
  }

  /** The pages up to `k`, one after the other. */
  function FirstPages(names: seq<string>, k: nat): seq<string>
    requires k <= TotalPages(|names|)
  {
    if k == 0 then [] else FirstPages(names, k - 1) + PageOf(names, k)
  }

  /** The first `k` pages are the list's first `k * 50` names (or all of
      them), so all pages together show every name once, in order. */
  lemma {:induction false} PagesCover(names: seq<string>, k: nat)
    requires k <= TotalPages(|names|)
    ensures FirstPages(names, k) == names[..if k * PageSize < |names| then k * PageSize else |names|]
  {
    if k > 0 {
      PagesCover(names, k - 1);
      var start := (k - 1) * PageSize;
      assert start < |names|;
      var end := if start + PageSize < |names| then start + PageSize else |names|;
      assert names[..start] + names[start..end] == names[..end];
    }
  }

  lemma AllPages(names: seq<string>)
    ensures FirstPages(names, TotalPages(|names|)) == names
  {
    PagesCover(names, TotalPages(|names|));
    assert names[..|names|] == names;
  }

  // ---------------------------------------------------------------------------
  // Export guard (`_create_excel_export_from_db`)
  // ---------------------------------------------------------------------------

  /** An engineering-parameter row; only its site name matters here. */
  datatype ParamRow = ParamRow(phyName: string, cgi: string, cellName: string)

  function RowsOfSites(data: seq<ParamRow>, siteNames: seq<string>): (r: seq<ParamRow>)
    ensures forall row :: row in r <==> row in data && row.phyName in siteNames
  {
    if |data| == 0 then []
    else (if data[0].phyName in siteNames then [data[0]] else []) + RowsOfSites(data[1..], siteNames)
  }

  /** The rows an export writes, or the error raised when none of the
      selected sites has a row. */
  function ExportRows(siteNames: seq<string>, data: seq<ParamRow>): (r: Result<seq<ParamRow>, string>)
    ensures r.Failure? <==> forall row :: row in data ==> row.phyName !in siteNames
    ensures r.Success? ==> |r.value| > 0 && forall row :: row in r.value <==> row in data && row.phyName in siteNames
  {
    var exportData := RowsOfSites(data, siteNames);
    assert exportData != [] ==> exportData[0] in exportData;
    if exportData == [] then Failure("没有找到要导出的站点数据") else Success(exportData)
  }
}
