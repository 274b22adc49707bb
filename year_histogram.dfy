/** The per-year publication histogram that the database browser and the
    analytics page both build: a tally of years kept in a JavaScript object
    keyed by year, then turned into chart rows sorted by year. */
module YearHistogram {
  import opened Wrappers
  import opened Text
  import opened Seqs

  /** One chart row: `{ year, count }`. */
  datatype YearCount = YearCount(year: int, count: nat)

  /** `counts` is the tally of `years`: one key per distinct year, holding
      the number of times it occurs. */
  ghost predicate IsTally(counts: map<int, nat>, years: seq<int>) {
    (forall y :: y in counts ==> y in years && counts[y] == multiset(years)[y]) &&
    (forall y :: y in years ==> y in counts)
  }

  /** The empty object is the tally of no years. */
  lemma EmptyTally()
    ensures IsTally(map[], [])
  {
  }

  /** `counts[y] = (counts[y] || 0) + 1` turns the tally of `years` into the
      tally of `years + [y]`. */
  lemma TallyStep(counts: map<int, nat>, years: seq<int>, y: int)
    requires IsTally(counts, years)
    ensures IsTally(counts[y := (if y in counts then counts[y] else 0) + 1], years + [y])
  {
    assert multiset(years + [y]) == multiset(years) + multiset{y};
    var next := counts[y := (if y in counts then counts[y] else 0) + 1];
    forall z | z in next
      ensures z in years + [y] && next[z] == multiset(years + [y])[z]
    {
      if z == y && y !in counts {
        assert y !in years;
      }
    }
  }

  /** The years of the chart rows, in row order. */
  function YearsOf(chart: seq<YearCount>): seq<int> {
    seq(|chart|, i requires 0 <= i < |chart| => chart[i].year)
  }

  function ChartOf(keys: seq<int>, counts: map<int, nat>): (r: seq<YearCount>)
    requires forall i :: 0 <= i < |keys| ==> keys[i] in counts
    ensures YearsOf(r) == keys
    ensures forall i :: 0 <= i < |r| ==> r[i].count == counts[keys[i]]
    decreases |keys|
  {
    if keys == [] then []
    else
      var rest := ChartOf(keys[1..], counts);
      var r := [YearCount(keys[0], counts[keys[0]])] + rest;
      forall i | 0 <= i < |r|
        ensures YearsOf(r)[i] == keys[i] && r[i].count == counts[keys[i]]
      {
        if i > 0 {
          assert r[i] == rest[i - 1] && YearsOf(rest)[i - 1] == keys[1..][i - 1];
        }
      }
      r
  }

  /** `Object.entries(counts).map(([year, count]) => ({ year: parseInt(year),
      count })).sort((a, b) => a.year - b.year)`: one row per key, in
      ascending year order, carrying that key's count. The key of year `y`
      is the string `String(y)`, which `parseInt` reads back as `y`
      (`Text.ParseIntRoundTrip`), so the rows carry the keys themselves. */
  function ChartData(counts: map<int, nat>): (r: seq<YearCount>)
    ensures StrictlyIncreasing(YearsOf(r))
    ensures forall y :: y in YearsOf(r) <==> y in counts
    ensures forall i :: 0 <= i < |r| ==> r[i].year in counts && r[i].count == counts[r[i].year]
  {
    var keys := SortedAsc(counts.Keys);
    var r := ChartOf(keys, counts);
    forall i | 0 <= i < |r|
      ensures r[i].year in counts && r[i].count == counts[r[i].year]
    {
      assert r[i].year == YearsOf(r)[i] == keys[i];
      assert keys[i] in keys;
    }
    r
  }

  function TotalCount(chart: seq<YearCount>): nat
    decreases |chart|
  {
    if chart == [] then 0 else chart[0].count + TotalCount(chart[1..])
  }

  /** The multiplicities in `m` of the elements of `keys`, added up. */
  function CountsAlong(keys: seq<int>, m: multiset<int>): nat
    decreases |keys|
  {
    if keys == [] then 0 else m[keys[0]] + CountsAlong(keys[1..], m)
  }

  lemma {:induction false} CountsAlongEmpty(keys: seq<int>)
    ensures CountsAlong(keys, multiset{}) == 0
    decreases |keys|
  {
    if keys != [] {
      CountsAlongEmpty(keys[1..]);
    }
  }

  lemma {:induction false} CountsAlongAdd(keys: seq<int>, m: multiset<int>, x: int)
    requires Distinct(keys)
    ensures CountsAlong(keys, m + multiset{x}) == CountsAlong(keys, m) + (if x in keys then 1 else 0)
    decreases |keys|
  {
    if keys != [] {
      CountsAlongAdd(keys[1..], m, x);
      if x == keys[0] {
        assert x !in keys[1..];
      }
    }
  }

  /** Adding up, over keys that list every year once, how often each key
      occurs gives the number of years. */
  lemma {:induction false} CountsAlongCovers(keys: seq<int>, years: seq<int>)
    requires Distinct(keys)
    requires forall y :: y in years ==> y in keys
    ensures CountsAlong(keys, multiset(years)) == |years|
    decreases |years|
  {
    if years == [] {
      CountsAlongEmpty(keys);
    } else {
      var init := years[..|years| - 1];
      var x := years[|years| - 1];
      assert years == init + [x];
      assert multiset(years) == multiset(init) + multiset{x};
      CountsAlongCovers(keys, init);
      CountsAlongAdd(keys, multiset(init), x);
    }
  }

  lemma {:induction false} TotalOfChartOf(keys: seq<int>, counts: map<int, nat>, m: multiset<int>)
    requires forall i :: 0 <= i < |keys| ==> keys[i] in counts && counts[keys[i]] == m[keys[i]]
    ensures TotalCount(ChartOf(keys, counts)) == CountsAlong(keys, m)
    decreases |keys|
  {
    if keys != [] {
      TotalOfChartOf(keys[1..], counts, m);
      assert ChartOf(keys, counts)[1..] == ChartOf(keys[1..], counts);
    }
  }

  /** The chart built from the tally of `years` has one row per distinct
      year, and the row for `y` counts the occurrences of `y`. */
  lemma ChartOfTally(counts: map<int, nat>, years: seq<int>)
    requires IsTally(counts, years)
    ensures forall i :: 0 <= i < |ChartData(counts)| ==>
              ChartData(counts)[i].count == multiset(years)[ChartData(counts)[i].year]
    ensures forall y :: y in YearsOf(ChartData(counts)) <==> y in years
  {
  }

  /** The counts of the chart built from the tally of `years` add up to the
      number of years tallied. */
  lemma ChartTotal(counts: map<int, nat>, years: seq<int>)
    requires IsTally(counts, years)
    ensures TotalCount(ChartData(counts)) == |years|
  {
    var keys := SortedAsc(counts.Keys);
    var chart := ChartData(counts);
    assert chart == ChartOf(keys, counts);
    forall i | 0 <= i < |keys|
      ensures keys[i] in counts && counts[keys[i]] == multiset(years)[keys[i]]
    {
      assert keys[i] in keys;
    }
    TotalOfChartOf(keys, counts, multiset(years));
    forall y | y in years
      ensures y in keys
    {
      assert y in counts;
    }
    CountsAlongCovers(keys, years);
  }
}
