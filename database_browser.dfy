/** The paper browser of the dashboard: the text and decade filters applied
    to the loaded papers, the per-year publication histogram, the list of
    decades offered as filters, the decade toggle and the 50-paper display
    cap. Loading from the database and rendering are outside the model; the
    loaded papers are an input. */
module DatabaseBrowser {
  import opened Wrappers
  import opened Text
  import opened Seqs
  import opened YearHistogram

  /** A row of the `papers` table as the browser selects it; nullable
      columns are `Option`s. */
  datatype Paper = Paper(
    id: string,
    filename: string,
    title: Option<string>,
    pubYear: Option<int>,
    summary: Option<string>,
    findings: Option<string>,
    hypothesis: Option<string>,
    entities: Option<seq<string>>)

  /** `p.pub_year` is truthy: present and not 0. */
  predicate HasYear(p: Paper) {
    p.pubYear.Some? && p.pubYear.value != 0
  }

  // ---------------------------------------------------------------------
  // Filters

  /** `field?.toLowerCase().includes(query)`: a missing field never matches. */
  predicate FieldMatches(field: Option<string>, query: string) {
    field.Some? && Contains(Lower(field.value), query)
  }

  /** `p.entities?.some(e => e.toLowerCase().includes(query))`. */
  predicate SomeEntityMatches(entities: Option<seq<string>>, query: string) {
    entities.Some? && exists i :: 0 <= i < |entities.value| && Contains(Lower(entities.value[i]), query)
  }

  /** The text filter's test, with `query` already lower-cased. */
  predicate MatchesQuery(p: Paper, query: string) {
    FieldMatches(p.title, query) || FieldMatches(p.summary, query) || SomeEntityMatches(p.entities, query)
  }

  /** The decade filter's test: `p.pub_year && p.pub_year >= start &&
      p.pub_year < start + 10`. A `start` of `None` is `NaN`, against which
      every comparison is false. */
  predicate InDecade(p: Paper, start: Option<int>) {
    start.Some? && HasYear(p) && start.value <= p.pubYear.value < start.value + 10
  }

  /** A selected decade is a non-empty string (`null` and `""` are falsy). */
  predicate DecadeSelected(selectedDecade: Option<string>) {
    selectedDecade.Some? && selectedDecade.value != ""
  }

  /** Whether a paper survives both filters. */
  predicate Visible(p: Paper, searchQuery: string, selectedDecade: Option<string>) {
    (searchQuery == "" || MatchesQuery(p, Lower(searchQuery))) &&
    (!DecadeSelected(selectedDecade) || InDecade(p, ParseInt(selectedDecade.value)))
  }

  /** The filter effect: start from all papers, narrow by the search text
      when there is one, then by the selected decade when there is one. The
      result is one filter by both tests: it keeps exactly the visible
      papers, each as often as it occurs, in their original order, and is
      all papers when no filter is active. */
  method ApplyFilters(papers: seq<Paper>, searchQuery: string, selectedDecade: Option<string>)
    returns (filtered: seq<Paper>)
    ensures filtered == Filter(papers, p => Visible(p, searchQuery, selectedDecade))
    ensures SubsequenceOf(filtered, papers)
    ensures forall p :: p in filtered <==> p in papers && Visible(p, searchQuery, selectedDecade)
    ensures searchQuery == "" && !DecadeSelected(selectedDecade) ==> filtered == papers
  {
    // `passed` is the test the papers in `filtered` have passed so far.
    ghost var passed: Paper -> bool := p => true;
    FilterKeepsAll(papers, passed);
    filtered := papers;
    if searchQuery != "" {
      var query := Lower(searchQuery);
      var matches := p => MatchesQuery(p, query);
      ghost var next := p => passed(p) && matches(p);
      FilterTwice(papers, passed, matches, next);
      filtered := Filter(filtered, matches);
      passed := next;
    }
    if DecadeSelected(selectedDecade) {
      var start := ParseInt(selectedDecade.value);
      var inDecade := p => InDecade(p, start);
      ghost var next := p => passed(p) && inDecade(p);
      FilterTwice(papers, passed, inDecade, next);
      filtered := Filter(filtered, inDecade);
      passed := next;
    }
    FilterSame(papers, passed, p => Visible(p, searchQuery, selectedDecade));
    FilterSpec(papers, p => Visible(p, searchQuery, selectedDecade));
  }

  /** With decade `d` selected (the toggle stores `String(d)`), a paper
      passes the decade filter exactly when its year lies in
      `d <= year < d + 10`. */
  lemma SelectedDecadeFilter(p: Paper, d: int)
    ensures Visible(p, "", Some(IntToString(d))) <==>
            HasYear(p) && d <= p.pubYear.value < d + 10
  {
    ParseIntRoundTrip(d);
  }

  /** With the search text `q` and no decade, a paper passes exactly when
      `q` occurs, ignoring ASCII case, in its title, its summary or one of
      its topics. */
  lemma SearchFilterIgnoresCase(p: Paper, q: string)
    requires q != ""
    ensures Visible(p, q, None) <==>
      (p.title.Some? && exists i :: 0 <= i && i + |q| <= |p.title.value| && CaselessAt(p.title.value, Lower(q), i)) ||
      (p.summary.Some? && exists i :: 0 <= i && i + |q| <= |p.summary.value| && CaselessAt(p.summary.value, Lower(q), i)) ||
      (p.entities.Some? && exists k, i :: 0 <= k < |p.entities.value| && 0 <= i && i + |q| <= |p.entities.value[k]| &&
                                      CaselessAt(p.entities.value[k], Lower(q), i))
  {
    LowerIsLower(q);
    if p.entities.Some? {
      forall k | 0 <= k < |p.entities.value|
        ensures Contains(Lower(p.entities.value[k]), Lower(q)) <==>
                exists i :: 0 <= i && i + |q| <= |p.entities.value[k]| && CaselessAt(p.entities.value[k], Lower(q), i)
      {
        LowerContainsIffCaseless(p.entities.value[k], Lower(q));
      }
    }
    if p.title.Some? {
      LowerContainsIffCaseless(p.title.value, Lower(q));
    }
    if p.summary.Some? {
      LowerContainsIffCaseless(p.summary.value, Lower(q));
    }
  }

  // ---------------------------------------------------------------------
  // Year histogram

  /** The truthy publication years of `papers`, in order. */
  function TruthyYears(papers: seq<Paper>): seq<int>
    decreases |papers|
  {
    if papers == [] then []
    else (if HasYear(papers[0]) then [papers[0].pubYear.value] else []) + TruthyYears(papers[1..])
  }

  lemma {:induction false} TruthyYearsSnoc(papers: seq<Paper>, p: Paper)
    ensures TruthyYears(papers + [p]) == TruthyYears(papers) + (if HasYear(p) then [p.pubYear.value] else [])
    decreases |papers|
  {
    if papers != [] {
      assert (papers + [p])[1..] == papers[1..] + [p];
      TruthyYearsSnoc(papers[1..], p);
    }
  }

  /** The histogram loop of `fetchData`: for every paper with a truthy year,
      `yearCounts[year] = (yearCounts[year] || 0) + 1`. */
  method BuildYearCounts(papers: seq<Paper>) returns (yearCounts: map<int, nat>)
    ensures IsTally(yearCounts, TruthyYears(papers))
  {
    yearCounts := map[];
    var i := 0;
    while i < |papers|
      invariant 0 <= i <= |papers|
      invariant IsTally(yearCounts, TruthyYears(papers[..i]))
    {
      var p := papers[i];
      ghost var before := yearCounts;
      if HasYear(p) {
        var year := p.pubYear.value;
        yearCounts := yearCounts[year := (if year in yearCounts then yearCounts[year] else 0) + 1];
      }
      TallyNextPaper(before, yearCounts, papers, i);
      i := i + 1;
    }
    assert papers[..i] == papers;
  }

  /** One turn of the histogram loop extends the tally by the next paper's
      year, when it has one. */
  lemma TallyNextPaper(counts: map<int, nat>, next: map<int, nat>, papers: seq<Paper>, i: int)
    requires 0 <= i < |papers| && IsTally(counts, TruthyYears(papers[..i]))
    requires HasYear(papers[i]) ==>
               var y := papers[i].pubYear.value;
               next == counts[y := (if y in counts then counts[y] else 0) + 1]
    requires !HasYear(papers[i]) ==> next == counts
    ensures IsTally(next, TruthyYears(papers[..i + 1]))
  {
    assert papers[..i + 1] == papers[..i] + [papers[i]];
    TruthyYearsSnoc(papers[..i], papers[i]);
    if HasYear(papers[i]) {
      TallyStep(counts, TruthyYears(papers[..i]), papers[i].pubYear.value);
    }
  }

  /** A paper published in year `y` by the histogram's reckoning. */
  predicate PublishedIn(p: Paper, y: int) {
    HasYear(p) && p.pubYear.value == y
  }

  /** How often `y` occurs among the truthy years is the number of papers
      the browser would count for `y`, found by filtering the papers. */
  lemma {:induction false} YearOccurrencesCountPapers(papers: seq<Paper>, y: int)
    ensures multiset(TruthyYears(papers))[y] == |Filter(papers, p => PublishedIn(p, y))|
    decreases |papers|
  {
    if papers != [] {
      YearOccurrencesCountPapers(papers[1..], y);
      var head := if HasYear(papers[0]) then [papers[0].pubYear.value] else [];
      assert multiset(TruthyYears(papers)) == multiset(head) + multiset(TruthyYears(papers[1..]));
    }
  }

  /** The number of truthy years is the number of papers that have one. */
  lemma {:induction false} TruthyYearsCount(papers: seq<Paper>)
    ensures |TruthyYears(papers)| == |Filter(papers, HasYear)|
    decreases |papers|
  {
    if papers != [] {
      TruthyYearsCount(papers[1..]);
    }
  }

  /** Each timeline row counts the papers published in its year. */
  lemma YearlyDataCounts(papers: seq<Paper>, yearCounts: map<int, nat>)
    requires IsTally(yearCounts, TruthyYears(papers))
    ensures forall i :: 0 <= i < |ChartData(yearCounts)| ==>
              ChartData(yearCounts)[i].count == |Filter(papers, p => PublishedIn(p, ChartData(yearCounts)[i].year))|
  {
    var chart := ChartData(yearCounts);
    ChartOfTally(yearCounts, TruthyYears(papers));
    forall i | 0 <= i < |chart|
      ensures chart[i].count == |Filter(papers, p => PublishedIn(p, chart[i].year))|
    {
      YearOccurrencesCountPapers(papers, chart[i].year);
    }
  }

  /** The timeline's years are strictly ascending and are exactly the years
      some paper was published in. */
  lemma YearlyDataYears(papers: seq<Paper>, yearCounts: map<int, nat>)
    requires IsTally(yearCounts, TruthyYears(papers))
    ensures StrictlyIncreasing(YearsOf(ChartData(yearCounts)))
    ensures forall y :: y in YearsOf(ChartData(yearCounts)) <==> exists p :: p in papers && PublishedIn(p, y)
  {
    ChartOfTally(yearCounts, TruthyYears(papers));
    forall y
      ensures y in TruthyYears(papers) <==> exists p :: p in papers && PublishedIn(p, y)
    {
      TruthyYearIffPublished(papers, y);
    }
  }

  /** A year is among the truthy years exactly when some paper was
      published in it. */
  lemma TruthyYearIffPublished(papers: seq<Paper>, y: int)
    ensures y in TruthyYears(papers) <==> exists p :: p in papers && PublishedIn(p, y)
  {
    YearOccurrencesCountPapers(papers, y);
    FilterSpec(papers, p => PublishedIn(p, y));
    var f := Filter(papers, p => PublishedIn(p, y));
    if y in TruthyYears(papers) {
      assert |f| > 0 && f[0] in f;
    }
    if p :| p in papers && PublishedIn(p, y) {
      assert p in f;
    }
  }

  /** The timeline's counts add up to the number of papers with a truthy
      year. */
  lemma YearlyDataTotal(papers: seq<Paper>, yearCounts: map<int, nat>)
    requires IsTally(yearCounts, TruthyYears(papers))
    ensures TotalCount(ChartData(yearCounts)) == |Filter(papers, HasYear)|
  {
    ChartTotal(yearCounts, TruthyYears(papers));
    TruthyYearsCount(papers);
  }

  // ---------------------------------------------------------------------
  // Decades

  /** `Math.floor(y / 10) * 10`; Dafny's `/` by a positive divisor rounds
      down, as `Math.floor` does. */
  function DecadeOf(y: int): (d: int)
    ensures d % 10 == 0 && d <= y < d + 10
  {
    (y / 10) * 10
  }

  /** `[...new Set(papers.filter(p => p.pub_year).map(p =>
      Math.floor(p.pub_year / 10) * 10))].sort((a, b) => b - a)`. */
  function Decades(papers: seq<Paper>): (r: seq<int>)
    ensures StrictlyDecreasing(r)
    ensures forall d :: d in r <==> exists p :: p in papers && HasYear(p) && DecadeOf(p.pubYear.value) == d
  {
    var ds := set p | p in papers && HasYear(p) :: DecadeOf(p.pubYear.value);
    var asc := SortedAsc(ds);
    ReverseOfAscending(asc);
    Reverse(asc)
  }

  /** `decades.slice(0, 5)`: the buttons show the five most recent decades
      (fewer when there are fewer). */
  function OfferedDecades(papers: seq<Paper>): (r: seq<int>)
    ensures |r| == Min(5, |Decades(papers)|)
    ensures forall d :: d in r ==> d in Decades(papers)
    ensures forall d, e :: d in r && e in Decades(papers) && e !in r ==> d > e
  {
    var all := Decades(papers);
    var r := Slice0(all, 5);
    assert forall k :: 0 <= k < |r| ==> all[k] in r;
    forall d, e | d in r && e in all && e !in r
      ensures d > e
    {
      var i :| 0 <= i < |r| && r[i] == d;
      var j :| 0 <= j < |all| && all[j] == e;
      assert all[i] == d && i < j;
    }
    r
  }

  /** The click handler of a decade button: clicking the selected decade
      clears the selection, clicking any other selects it. */
  function ToggleDecade(selectedDecade: Option<string>, decade: int): Option<string> {
    if selectedDecade == Some(IntToString(decade)) then None else Some(IntToString(decade))
  }

  /** Clicking decade `d` from no selection, or from `d` itself, and then
      clicking it again returns to where it started. */
  lemma ToggleTwice(selectedDecade: Option<string>, d: int)
    requires selectedDecade == None || selectedDecade == Some(IntToString(d))
    ensures ToggleDecade(ToggleDecade(selectedDecade, d), d) == selectedDecade
  {
  }

  /** After a click on decade `d`, either no decade filter is active (it was
      selected before) or the filter keeps exactly the papers of `d`. */
  lemma ToggleSelects(selectedDecade: Option<string>, d: int, p: Paper)
    ensures var next := ToggleDecade(selectedDecade, d);
            if selectedDecade == Some(IntToString(d)) then !DecadeSelected(next)
            else DecadeSelected(next) && (Visible(p, "", next) <==> HasYear(p) && d <= p.pubYear.value < d + 10)
  {
    if selectedDecade != Some(IntToString(d)) {
      SelectedDecadeFilter(p, d);
    }
  }

  // ---------------------------------------------------------------------
  // Display cap

  /** `filteredPapers.slice(0, 50)`. */
  function ShownPapers(filtered: seq<Paper>): seq<Paper> {
    Slice0(filtered, 50)
  }

  /** `filteredPapers.length > 50`: the "Showing first 50 results" notice. */
  predicate OverflowNotice(filtered: seq<Paper>) {
    |filtered| > 50
  }

  /** At most 50 papers are listed, they are the first ones of the filtered
      list, and the notice appears exactly when some filtered paper is not
      listed. */
  lemma DisplayCap(filtered: seq<Paper>)
    ensures |ShownPapers(filtered)| <= 50
    ensures ShownPapers(filtered) == filtered[..|ShownPapers(filtered)|]
    ensures OverflowNotice(filtered) <==> ShownPapers(filtered) != filtered
  {
  }
}
