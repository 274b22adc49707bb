/** The analytics page: the per-year tally of the papers' publication
    years, the chart rows built from it, the top-twenty topic list, the
    year-range label and the average number of papers per year. The query
    results are inputs; `None` stands for a `null` result. */
module ResearchAnalytics {
  import opened Wrappers
  import opened Text
  import opened Seqs
  import opened JsMath
  import opened YearHistogram
  import opened TagsManager

  /** The one row of the `MIN(pub_year)`/`MAX(pub_year)` query. */
  datatype YearSpan = YearSpan(minYear: Option<int>, maxYear: Option<int>)

  /** A row of `get_papers_by_decade`. */
  datatype DecadeCount = DecadeCount(decade: int, count: nat)

  /** What the page shows once the queries have returned. */
  datatype AnalyticsView = AnalyticsView(
    totalPapers: nat,
    yearRange: string,
    yearlyData: seq<YearCount>,
    decadeData: seq<DecadeCount>,
    topEntities: seq<TagStat>)

  /** The `reduce` over the year rows: `acc[y] = (acc[y] || 0) + 1` for each
      row, starting from `{}`. */
  method TallyYears(years: seq<int>) returns (acc: map<int, nat>)
    ensures IsTally(acc, years)
  {
    acc := map[];
    var i := 0;
    while i < |years|
      invariant 0 <= i <= |years|
      invariant IsTally(acc, years[..i])
    {
      var y := years[i];
      assert years[..i + 1] == years[..i] + [y];
      TallyStep(acc, years[..i], y);
      acc := acc[y := (if y in acc then acc[y] else 0) + 1];
      i := i + 1;
    }
    assert years[..i] == years;
  }

  /** The rows of `yearly` as a list: the `yearCounts || {}` fallback makes a
      `null` result behave like no rows. */
  function YearRows(yearly: Option<seq<int>>): seq<int> {
    yearly.GetOr([])
  }

  /** `(entities || []).slice(0, 20)`. */
  function TopEntities(entities: Option<seq<TagStat>>): (r: seq<TagStat>)
    ensures |r| <= 20
    ensures entities.None? ==> r == []
    ensures entities.Some? ==> |r| <= |entities.value| && r == entities.value[..|r|]
    ensures entities.Some? && |entities.value| >= 20 ==> |r| == 20
  {
    Slice0(entities.GetOr([]), 20)
  }

  /** A possibly-`null` number in a template literal. */
  function ShowNullable(n: Option<int>): string {
    match n
    case Some(v) => IntToString(v)
    case None => "null"
  }

  /** `yearData?.[0] ? \`${min_year}-${max_year}\` : 'N/A'`. */
  function YearRange(yearData: Option<seq<YearSpan>>): (r: string)
    ensures yearData.None? || yearData.value == [] ==> r == "N/A"
    ensures yearData.Some? && yearData.value != [] ==>
              r == ShowNullable(yearData.value[0].minYear) + "-" + ShowNullable(yearData.value[0].maxYear)
  {
    if yearData.Some? && |yearData.value| > 0 then
      var row := yearData.value[0];
      ShowNullable(row.minYear) + "-" + ShowNullable(row.maxYear)
    else "N/A"
  }

  /** The label is "N/A" exactly when the query gave no row: a rendered range
      always holds a `-` after a non-empty first part, and "N/A" has none. */
  lemma YearRangeNotApplicable(yearData: Option<seq<YearSpan>>)
    ensures YearRange(yearData) == "N/A" <==> yearData.None? || yearData.value == []
  {
    if yearData.Some? && yearData.value != [] {
      var row := yearData.value[0];
      var first := ShowNullable(row.minYear);
      var r := YearRange(yearData);
      assert r[|first|] == '-';
      assert forall k :: 0 <= k < |"N/A"| ==> "N/A"[k] != '-';
    }
  }

  /** The label reads back through `parseInt` as the earliest year. */
  lemma YearRangeStartsWithMin(yearData: Option<seq<YearSpan>>)
    requires yearData.Some? && yearData.value != [] && yearData.value[0].minYear.Some?
    ensures StartsWith(YearRange(yearData), IntToString(yearData.value[0].minYear.value))
  {
  }

  /** The "Avg per Year" figure: `Math.round(totalPapers / yearlyData.length)`,
      or 0 when there are no chart rows. */
  function AveragePerYear(view: AnalyticsView): (r: nat)
    ensures |view.yearlyData| == 0 ==> r == 0
    ensures |view.yearlyData| > 0 ==>
              |view.yearlyData| * (2 * r - 1) <= 2 * view.totalPapers < |view.yearlyData| * (2 * r + 1)
  {
    if |view.yearlyData| > 0 then RoundedQuotient(view.totalPapers, |view.yearlyData|) else 0
  }

  /** The page's data load: the paper count (`totalPapers || 0`), the year
      range label, the chart rows from the tally of the year rows, the decade
      rows (`decades || []`) and the first twenty topics. The chart has one
      row per distinct year, ascending, each counting that year's rows, and
      the counts add up to the number of rows. */
  method FetchAnalytics(
    totalPapers: Option<nat>,
    yearData: Option<seq<YearSpan>>,
    yearly: Option<seq<int>>,
    decades: Option<seq<DecadeCount>>,
    entities: Option<seq<TagStat>>)
    returns (view: AnalyticsView)
    ensures view.totalPapers == totalPapers.GetOr(0)
    ensures view.yearRange == YearRange(yearData)
    ensures StrictlyIncreasing(YearsOf(view.yearlyData))
    ensures forall y :: y in YearsOf(view.yearlyData) <==> y in YearRows(yearly)
    ensures forall i :: 0 <= i < |view.yearlyData| ==>
              view.yearlyData[i].count == multiset(YearRows(yearly))[view.yearlyData[i].year]
    ensures TotalCount(view.yearlyData) == |YearRows(yearly)|
    ensures view.decadeData == decades.GetOr([])
    ensures view.topEntities == TopEntities(entities)
  {
    var yearCounts: map<int, nat> := map[];
    if yearly.Some? {
      yearCounts := TallyYears(yearly.value);
    }
    assert IsTally(yearCounts, YearRows(yearly));
    var chart := ChartData(yearCounts);
    ChartOfTally(yearCounts, YearRows(yearly));
    ChartTotal(yearCounts, YearRows(yearly));
    view := AnalyticsView(totalPapers.GetOr(0), YearRange(yearData), chart, decades.GetOr([]), TopEntities(entities));
  }
}
