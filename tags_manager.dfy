/** The topic manager page: the topic search filter, the size class of each
    topic in the cloud, the largest count the sizes are relative to, the
    display caps and the count shown for the selected topic. The topic list
    itself (`get_entity_stats`) is an input. */
module TagsManager {
  import opened Wrappers
  import opened Text
  import opened Seqs
  import opened JsMath

  /** A row of `get_entity_stats`: a topic label and its number of papers. */
  datatype TagStat = TagStat(entity: string, paperCount: nat)

  // ---------------------------------------------------------------------
  // Search filter

  /** `tag.entity.toLowerCase().includes(searchTerm.toLowerCase())`. */
  predicate TagMatches(t: TagStat, searchTerm: string) {
    Contains(Lower(t.entity), Lower(searchTerm))
  }

  /** The filter effect: all topics for an empty search term, otherwise the
      topics whose label contains the term, in their order and each as
      often as it occurs. */
  function FilterTags(allTags: seq<TagStat>, searchTerm: string): (r: seq<TagStat>)
    ensures searchTerm == "" ==> r == allTags
    ensures SubsequenceOf(r, allTags)
    ensures searchTerm != "" ==> forall t :: t in r <==> t in allTags && TagMatches(t, searchTerm)
    ensures searchTerm != "" ==> forall t :: TagMatches(t, searchTerm) ==> multiset(r)[t] == multiset(allTags)[t]
  {
    if searchTerm != "" then
      var keep := t => TagMatches(t, searchTerm);
      FilterSpec(allTags, keep);
      assert forall t :: keep(t) ==> multiset(Filter(allTags, keep))[t] == multiset(allTags)[t] by {
        forall t | keep(t)
          ensures multiset(Filter(allTags, keep))[t] == multiset(allTags)[t]
        {
          FilterCounts(allTags, keep, t);
        }
      }
      Filter(allTags, keep)
    else
      SubsequenceRefl(allTags);
      allTags
  }

  /** A topic passes a non-empty search exactly when the term occurs in its
      label letter by letter, ignoring ASCII case. */
  lemma TagFilterIgnoresCase(allTags: seq<TagStat>, searchTerm: string, t: TagStat)
    requires searchTerm != "" && t in allTags
    ensures t in FilterTags(allTags, searchTerm) <==>
            exists i :: 0 <= i && i + |searchTerm| <= |t.entity| && CaselessAt(t.entity, Lower(searchTerm), i)
  {
    LowerIsLower(searchTerm);
    LowerContainsIffCaseless(t.entity, Lower(searchTerm));
  }

  // ---------------------------------------------------------------------
  // Size classes

  /** The four size classes of the cloud, smallest first. */
  datatype TagSize = Small | Medium | Large | ExtraLarge {
    /** The class names `getTagSize` returns. */
    function ClassName(): string {
      match this
      case ExtraLarge => "text-2xl px-5 py-2.5"
      case Large => "text-xl px-4 py-2"
      case Medium => "text-lg px-3 py-1.5"
      case Small => "text-sm px-2.5 py-1"
    }

    function Rank(): nat {
      match this
      case Small => 0
      case Medium => 1
      case Large => 2
      case ExtraLarge => 3
    }
  }

  /** `count / maxCount > tenths / 10` on JavaScript numbers, in integers.
      With `maxCount` 0 the quotient is `Infinity` (above every threshold)
      when `count > 0` and `NaN` (below every threshold) when `count` is 0. */
  predicate RatioAbove(count: nat, maxCount: nat, tenths: nat) {
    if maxCount == 0 then count > 0 else 10 * count > tenths * maxCount
  }

  /** `getTagSize(count, maxCount)`: the strict thresholds 0.7, 0.4 and 0.2
      tried from the largest class down. */
  function GetTagSize(count: nat, maxCount: nat): TagSize {
    if RatioAbove(count, maxCount, 7) then ExtraLarge
    else if RatioAbove(count, maxCount, 4) then Large
    else if RatioAbove(count, maxCount, 2) then Medium
    else Small
  }

  /** The source's definition on the real quotient `ratio = count / maxCount`. */
  function BucketOfRatio(ratio: real): TagSize {
    if ratio > 0.7 then ExtraLarge
    else if ratio > 0.4 then Large
    else if ratio > 0.2 then Medium
    else Small
  }

  lemma AboveIffCrossMultiplied(count: nat, maxCount: nat, tenths: nat)
    requires maxCount > 0
    ensures (count as real) / (maxCount as real) > (tenths as real) / 10.0 <==> RatioAbove(count, maxCount, tenths)
  {
    var c, m, t := count as real, maxCount as real, tenths as real;
    assert c / m * m == c;
    if c / m > t / 10.0 {
      assert c > t / 10.0 * m;
      assert 10.0 * c > t * m;
    }
    if 10.0 * c > t * m {
      assert c / m > t / 10.0;
    }
  }

  /** The integer comparison picks the same class as comparing the real
      quotient with the thresholds. */
  lemma GetTagSizeMatchesRatio(count: nat, maxCount: nat)
    requires maxCount > 0
    ensures GetTagSize(count, maxCount) == BucketOfRatio((count as real) / (maxCount as real))
  {
    AboveIffCrossMultiplied(count, maxCount, 7);
    AboveIffCrossMultiplied(count, maxCount, 4);
    AboveIffCrossMultiplied(count, maxCount, 2);
    assert 7.0 / 10.0 == 0.7 && 4.0 / 10.0 == 0.4 && 2.0 / 10.0 == 0.2;
  }

  /** A larger count never gets a smaller class. */
  lemma GetTagSizeMonotone(c1: nat, c2: nat, maxCount: nat)
    requires c1 <= c2
    ensures GetTagSize(c1, maxCount).Rank() <= GetTagSize(c2, maxCount).Rank()
  {
  }

  /** A ratio exactly on a threshold falls into the class below it. */
  lemma ThresholdsAreStrict(maxCount: nat)
    requires maxCount > 0
    ensures GetTagSize(7 * maxCount / 10, maxCount) != ExtraLarge
    ensures 10 * (7 * maxCount / 10) == 7 * maxCount ==> GetTagSize(7 * maxCount / 10, maxCount) == Large
    ensures 10 * (4 * maxCount / 10) == 4 * maxCount ==> GetTagSize(4 * maxCount / 10, maxCount) == Medium
    ensures 10 * (2 * maxCount / 10) == 2 * maxCount ==> GetTagSize(2 * maxCount / 10, maxCount) == Small
  {
  }

  /** `allTags[0]?.paper_count || 1`: the count of the first (most popular)
      topic, or 1 when there is none or it is 0. */
  function MaxCount(allTags: seq<TagStat>): (r: nat)
    ensures r >= 1
    ensures |allTags| > 0 && allTags[0].paperCount > 0 ==> r == allTags[0].paperCount
  {
    if |allTags| > 0 && allTags[0].paperCount != 0 then allTags[0].paperCount else 1
  }

  /** `get_entity_stats` ranks topics by count, most popular first. */
  predicate RankedByCount(tags: seq<TagStat>) {
    forall i, j :: 0 <= i < j < |tags| ==> tags[i].paperCount >= tags[j].paperCount
  }

  /** On a ranked list no topic's count exceeds `maxCount`, so every ratio
      lies between 0 and 1, and the most popular topic is drawn largest. */
  lemma MaxCountBoundsRanked(allTags: seq<TagStat>)
    requires RankedByCount(allTags)
    ensures forall t :: t in allTags ==> t.paperCount <= MaxCount(allTags)
    ensures |allTags| > 0 && allTags[0].paperCount > 0 ==>
              GetTagSize(allTags[0].paperCount, MaxCount(allTags)) == ExtraLarge
  {
    forall t | t in allTags
      ensures t.paperCount <= MaxCount(allTags)
    {
      var i :| 0 <= i < |allTags| && allTags[i] == t;
      if i > 0 {
        assert allTags[0].paperCount >= allTags[i].paperCount;
      }
    }
  }

  // ---------------------------------------------------------------------
  // Display caps and the selected topic

  /** `filteredTags.slice(0, 100)`: the cloud. */
  function CloudTags(filteredTags: seq<TagStat>): (r: seq<TagStat>)
    ensures |r| <= 100
    ensures |r| <= |filteredTags| && r == filteredTags[..|r|]
    ensures |filteredTags| <= 100 ==> r == filteredTags
  {
    Slice0(filteredTags, 100)
  }

  /** `allTags.slice(0, 10)`: the top-ten list, numbered from 1. */
  function TopTags(allTags: seq<TagStat>): (r: seq<TagStat>)
    ensures |r| <= 10
    ensures |r| <= |allTags| && r == allTags[..|r|]
    ensures |allTags| >= 10 ==> |r| == 10
  {
    Slice0(allTags, 10)
  }

  /** `allTags.find(t => t.entity === selectedTag)?.paper_count || 0`: the
      count of the first topic with that label, or 0 when none has it. */
  function SelectedCount(allTags: seq<TagStat>, selectedTag: string): (r: nat)
    ensures (forall i :: 0 <= i < |allTags| ==> allTags[i].entity != selectedTag) ==> r == 0
    ensures forall i :: 0 <= i < |allTags| && allTags[i].entity == selectedTag &&
                        (forall j :: 0 <= j < i ==> allTags[j].entity != selectedTag) ==>
                        r == allTags[i].paperCount
    decreases |allTags|
  {
    if allTags == [] then 0
    else if allTags[0].entity == selectedTag then allTags[0].paperCount
    else
      var r := SelectedCount(allTags[1..], selectedTag);
      assert forall i :: 1 <= i < |allTags| ==> allTags[i] == allTags[1..][i - 1];
      r
  }

  /** `Math.round(sum of counts / allTags.length)`: the average number of
      papers per topic; `None` is the `NaN` shown when there are no topics. */
  function AveragePerTopic(allTags: seq<TagStat>): (r: Option<nat>)
    ensures r.None? <==> |allTags| == 0
    ensures r.Some? ==> |allTags| * (2 * r.value - 1) <= 2 * TotalPapers(allTags) < |allTags| * (2 * r.value + 1)
  {
    if |allTags| == 0 then None else Some(RoundedQuotient(TotalPapers(allTags), |allTags|))
  }

  /** `allTags.reduce((sum, tag) => sum + tag.paper_count, 0)`. */
  function TotalPapers(tags: seq<TagStat>): nat
    decreases |tags|
  {
    if tags == [] then 0 else tags[0].paperCount + TotalPapers(tags[1..])
  }
}
