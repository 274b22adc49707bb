/** The tool executor of the chat function (`executeTool`): a dispatch on the
    tool name, with aliases, to nine branches that each run one or more
    database queries and turn the reply into a fixed-format text summary.
    The queries themselves (the embedding request, the similarity searches,
    the RPCs) are inputs: a `Backend` holds their replies. */
module ChatTools {
  import opened Wrappers
  import opened Text
  import opened Seqs
  import opened DatabaseBrowser
  import opened TagsManager
  import opened ResearchAnalytics

  // ---------------------------------------------------------------------
  // Query replies and rows

  /** The reply of one query: its rows (a `null` `data` is no rows), the
      `error` the client library reports, or a rejected promise that escapes
      the executor (a failed embedding request, for instance). */
  datatype Reply<T> = Rows(rows: seq<T>) | DbError(message: string) | Threw(message: string)

  /** A row of `match_papers` or `random_exploration`. */
  datatype PaperHit = PaperHit(
    id: string,
    title: Option<string>,
    pubYear: Option<int>,
    summary: Option<string>,
    findings: Option<string>)

  /** A row of `match_chunks`. */
  datatype ChunkHit = ChunkHit(
    paperId: string,
    paperTitle: Option<string>,
    pubYear: Option<int>,
    chunkContent: Option<string>)

  /** A row of `analyze_topic_trend`. */
  datatype TrendPoint = TrendPoint(year: int, paperCount: nat)

  /** One side of a row of `discover_hidden_connections`. */
  datatype LinkedPaper = LinkedPaper(id: string, title: Option<string>, year: Option<int>)

  datatype Connection = Connection(sharedEntity: string, paperA: LinkedPaper, paperB: LinkedPaper)

  /** The replies the executor can get. Replies that depend on the call's
      arguments are functions of them: the similarity searches of the
      embedded text and the match count, the trend of the topic name, the
      random sample of the sample size. `papers` is the `papers` table as
      the count and year queries see it. */
  datatype Backend = Backend(
    paperCount: Option<nat>,
    chunkCount: Option<nat>,
    matchPapers: (string, int) -> Reply<PaperHit>,
    matchChunks: (string, int) -> Reply<ChunkHit>,
    papers: Reply<Paper>,
    entityStats: Reply<TagStat>,
    topicTrend: string -> Reply<TrendPoint>,
    researchGaps: Reply<TagStat>,
    randomSample: int -> Reply<PaperHit>,
    connections: Reply<Connection>,
    decades: Reply<DecadeCount>)

  /** The fields of `args` the branches read; `None` is `undefined`. */
  datatype ToolArgs = ToolArgs(
    query: Option<string>,
    topic: Option<string>,
    entity: Option<string>,
    limit: Option<int>,
    count: Option<int>,
    year: Option<int>,
    yearMin: Option<int>,
    yearMax: Option<int>)

  const NoArgs := ToolArgs(None, None, None, None, None, None, None, None)

  /** What escapes the executor: the message of a rejected promise, or the
      runtime's `TypeError` for a chunk without content. */
  datatype Failure = Message(text: string) | TypeError

  /** The executor's string, or the error it throws. */
  datatype ToolOutcome = Done(text: string) | Raised(failure: Failure)

  // ---------------------------------------------------------------------
  // JavaScript values in templates

  predicate TruthyText(s: Option<string>) {
    s.Some? && s.value != ""
  }

  predicate TruthyNumber(n: Option<int>) {
    n.Some? && n.value != 0
  }

  /** `s || fallback` for a string. */
  function TextOr(s: Option<string>, fallback: string): (r: string)
    ensures TruthyText(s) ==> r == s.value
    ensures !TruthyText(s) ==> r == fallback
  {
    if TruthyText(s) then s.value else fallback
  }

  /** `n || fallback` for a number. */
  function NumberOr(n: Option<int>, fallback: int): (r: int)
    ensures TruthyNumber(n) ==> r == n.value
    ensures !TruthyNumber(n) ==> r == fallback
  {
    if TruthyNumber(n) then n.value else fallback
  }

  /** `${n || fallback}` for a number. */
  function NumberTextOr(n: Option<int>, fallback: string): string {
    if TruthyNumber(n) then IntToString(n.value) else fallback
  }

  /** `${s}` for a column that may be `null`. */
  function ShowNullText(s: Option<string>): string {
    if s.Some? then s.value else "null"
  }

  /** `${n}` for a count that may be `null`. */
  function ShowNullCount(n: Option<nat>): string {
    if n.Some? then IntToString(n.value) else "null"
  }

  /** `${x}` for an argument or an optional chain that may be `undefined`. */
  function ShowUndefined(s: Option<string>): string {
    if s.Some? then s.value else "undefined"
  }

  // ---------------------------------------------------------------------
  // Tool names

  datatype Tool =
    | SearchPapers | SearchContent | CountPapers | ListTopics | AnalyzeTrends
    | FindGaps | RandomExplore | FindConnections | DatabaseStats

  /** The `case` labels of the switch: the first name of each tool is the
      one the "Unknown tool" message advertises. */
  function Names(t: Tool): seq<string> {
    match t
    case SearchPapers => ["search_papers"]
    case SearchContent => ["search_content", "search_paper_content"]
    case CountPapers => ["count_papers"]
    case ListTopics => ["list_topics", "get_topics"]
    case AnalyzeTrends => ["analyze_trends", "get_trends"]
    case FindGaps => ["find_gaps", "research_gaps"]
    case RandomExplore => ["random_explore", "discover", "random_exploration"]
    case FindConnections => ["find_connections", "discover_connections"]
    case DatabaseStats => ["database_stats", "overview"]
  }

  /** The branch a tool name reaches, `None` for the `default` branch. */
  function ToolNamed(name: string): Option<Tool> {
    if name == "search_papers" then Some(SearchPapers)
    else if name == "search_content" || name == "search_paper_content" then Some(SearchContent)
    else if name == "count_papers" then Some(CountPapers)
    else if name == "list_topics" || name == "get_topics" then Some(ListTopics)
    else if name == "analyze_trends" || name == "get_trends" then Some(AnalyzeTrends)
    else if name == "find_gaps" || name == "research_gaps" then Some(FindGaps)
    else if name == "random_explore" || name == "discover" || name == "random_exploration" then Some(RandomExplore)
    else if name == "find_connections" || name == "discover_connections" then Some(FindConnections)
    else if name == "database_stats" || name == "overview" then Some(DatabaseStats)
    else None
  }

  /** A name reaches a tool's branch exactly when it is one of that tool's
      labels, and the default branch exactly when it is no tool's label. */
  lemma ToolNamedIffListed(name: string, t: Tool)
    ensures ToolNamed(name) == Some(t) <==> name in Names(t)
    ensures ToolNamed(name).None? <==> forall u: Tool :: name !in Names(u)
  {
    ToolNamedReachesListed(name);
    if ToolNamed(name).None? {
      forall u: Tool
        ensures name !in Names(u)
      {
        NotNamedNotListed(name, u);
      }
    } else {
      assert name in Names(ToolNamed(name).value);
    }
    if name in Names(t) {
      ListedIsNamed(name, t);
    }
  }

  lemma ToolNamedReachesListed(name: string)
    ensures ToolNamed(name).Some? ==> name in Names(ToolNamed(name).value)
  {
  }

  lemma ListedIsNamed(name: string, t: Tool)
    requires name in Names(t)
    ensures ToolNamed(name) == Some(t)
  {
    var k :| 0 <= k < |Names(t)| && Names(t)[k] == name;
  }

  lemma NotNamedNotListed(name: string, u: Tool)
    requires ToolNamed(name).None?
    ensures name !in Names(u)
  {
    assert forall k :: 0 <= k < |Names(u)| ==> Names(u)[k] != name;
  }

  /** The tools the "Unknown tool" message advertises: each tool's first
      name. */
  const AvailableTools :=
    "search_papers, search_content, count_papers, list_topics, analyze_trends, find_gaps, random_explore, find_connections, database_stats"

  /** `Unknown tool: <name>. Available: ...`. */
  function UnknownTool(name: string): (r: string)
    ensures |r| > |name|
    ensures StartsWith(r, "Unknown tool: ") && OccursAt(r, name, 14)
    ensures OccursAt(r, AvailableTools, |r| - |AvailableTools|)
  {
    var prefix := "Unknown tool: ";
    var tail := ". Available: " + AvailableTools;
    assert |prefix| == 14;
    ConcatParts(prefix, name, tail);
    ConcatParts(". Available: ", AvailableTools, "");
    assert ". Available: " + AvailableTools + "" == tail;
    prefix + name + tail
  }

  // ---------------------------------------------------------------------
  // The fixed texts for no rows

  const NoPapersFound := "No papers found matching this query."
  const NoContentFound := "No matching content found in paper texts."
  const NoGapsFound := "No research gaps found."
  const NoSample := "No papers available."
  const NoConnections := "No hidden connections found. Try again for different results."

  // ---------------------------------------------------------------------
  // Formatting helpers

  /** `items.map((x, i) => line(i + 1, x))`: lines numbered from 1. */
  function Numbered<T>(items: seq<T>, line: (nat, T) -> string): (r: seq<string>)
    ensures |r| == |items|
    ensures forall i :: 0 <= i < |items| ==> r[i] == line(i + 1, items[i])
  {
    seq(|items|, i requires 0 <= i < |items| => line(i + 1, items[i]))
  }

  function MapText<T>(items: seq<T>, line: T -> string): (r: seq<string>)
    ensures |r| == |items|
    ensures forall i :: 0 <= i < |items| ==> r[i] == line(items[i])
  {
    seq(|items|, i requires 0 <= i < |items| => line(items[i]))
  }

  /** The common shape of a query branch: a database error is reported as
      text, a rejected promise escapes, no rows give the branch's fixed
      message and rows are rendered. */
  function Answer<T>(reply: Reply<T>, noRows: string, render: seq<T> -> ToolOutcome): ToolOutcome {
    match reply
    case DbError(m) => Done("Error: " + m)
    case Threw(m) => Raised(Message(m))
    case Rows(rows) => if rows == [] then Done(noRows) else render(rows)
  }

  /** A joined list of lines is non-empty when its first line is. */
  lemma JoinNonEmpty(lines: seq<string>, sep: string)
    requires |lines| > 0 && |lines[0]| > 0
    ensures |Join(lines, sep)| > 0
  {
    JoinStartsWithFirst(lines, sep);
  }

  // ---------------------------------------------------------------------
  // search_papers

  /** `• **"<title>"** (<year or ?>) [📄 Open](paper:<id>)` and the summary,
      else the findings, else "No summary" on the next line. */
  function PaperHitLine(p: PaperHit): (r: string)
    ensures |r| > 0
  {
    "\U{2022} **\"" + ShowNullText(p.title) + "\"** (" + NumberTextOr(p.pubYear, "?") +
    ") [\U{1F4C4} Open](paper:" + p.id + ")\n  " + TextOr(p.summary, TextOr(p.findings, "No summary"))
  }

  /** The text the similarity search embeds: `args.query || args.topic ||
      userMessage`. */
  function SearchPapersInput(args: ToolArgs, userMessage: string): string {
    TextOr(args.query, TextOr(args.topic, userMessage))
  }

  function SearchPapersText(args: ToolArgs, userMessage: string, b: Backend): (r: ToolOutcome)
    ensures r.Done? ==> |r.text| > 0
  {
    Answer(b.matchPapers(SearchPapersInput(args, userMessage), NumberOr(args.limit, 5)),
      NoPapersFound,
      (rows: seq<PaperHit>) =>
        Done(Join(MapText(rows, PaperHitLine), "\n\n")))
  }

  // ---------------------------------------------------------------------
  // search_content

  /** The excerpt of a chunk: `substring(0, 200)`. */
  function Excerpt(content: string): (r: string)
    ensures |r| <= 200 && |r| <= |content| && r == content[..|r|]
    ensures |content| <= 200 ==> r == content
  {
    Slice0(content, 200)
  }

  function ChunkHitLine(c: ChunkHit): (r: string)
    requires c.chunkContent.Some?
    ensures |r| > 0
  {
    "From **\"" + ShowNullText(c.paperTitle) + "\"** (" + NumberTextOr(c.pubYear, "?") +
    ") [\U{1F4C4} Open](paper:" + c.paperId + "):\n> \"" + Excerpt(c.chunkContent.value) + "...\""
  }

  /** The rendered chunks, or the `TypeError` of the first chunk whose
      content is `null`, as `map` meets them in order. */
  function ChunkLines(rows: seq<ChunkHit>): (r: Option<seq<string>>)
    ensures r.None? <==> exists i :: 0 <= i < |rows| && rows[i].chunkContent.None?
    ensures r.Some? ==> |r.value| == |rows| && forall i :: 0 <= i < |rows| ==> r.value[i] == ChunkHitLine(rows[i])
    decreases |rows|
  {
    if rows == [] then Some([])
    else if rows[0].chunkContent.None? then None
    else
      match ChunkLines(rows[1..])
      case None =>
        assert exists i :: 0 <= i < |rows| && rows[i].chunkContent.None? by {
          var j :| 0 <= j < |rows[1..]| && rows[1..][j].chunkContent.None?;
          assert rows[j + 1] == rows[1..][j];
        }
        None
      case Some(rest) =>
        assert forall i :: 1 <= i < |rows| ==> rows[i] == rows[1..][i - 1];
        Some([ChunkHitLine(rows[0])] + rest)
  }

  function SearchContentText(args: ToolArgs, userMessage: string, b: Backend): (r: ToolOutcome)
    ensures r.Done? ==> |r.text| > 0
  {
    Answer(b.matchChunks(TextOr(args.query, userMessage), NumberOr(args.limit, 5)),
      NoContentFound,
      (rows: seq<ChunkHit>) =>
        match ChunkLines(rows)
        case None => Raised(TypeError)
        case Some(lines) => Done(Join(lines, "\n\n")))
  }

  // ---------------------------------------------------------------------
  // count_papers

  /** One filter of the count query. */
  datatype RowFilter = YearIs(year: int) | YearAtLeast(year: int) | YearAtMost(year: int) | MentionsEntity(entity: string)

  /** How the database applies a filter: a `null` column passes none. */
  predicate Passes(p: Paper, f: RowFilter) {
    match f
    case YearIs(y) => p.pubYear == Some(y)
    case YearAtLeast(y) => p.pubYear.Some? && p.pubYear.value >= y
    case YearAtMost(y) => p.pubYear.Some? && p.pubYear.value <= y
    case MentionsEntity(e) => p.entities.Some? && e in p.entities.value
  }

  predicate PassesAll(p: Paper, filters: seq<RowFilter>) {
    forall i :: 0 <= i < |filters| ==> Passes(p, filters[i])
  }

  /** The topic of a count: `args.entity || args.topic`, when truthy. */
  function CountTopic(args: ToolArgs): (r: Option<string>)
    ensures r.Some? <==> TruthyText(args.entity) || TruthyText(args.topic)
    ensures r.Some? ==> r.value != ""
  {
    if TruthyText(args.entity) then args.entity
    else if TruthyText(args.topic) then args.topic
    else None
  }

  /** The filters the count query is built with, in the order they are added. */
  function CountFilters(args: ToolArgs): seq<RowFilter> {
    (if TruthyNumber(args.year) then [YearIs(args.year.value)] else []) +
    (if TruthyNumber(args.yearMin) then [YearAtLeast(args.yearMin.value)] else []) +
    (if TruthyNumber(args.yearMax) then [YearAtMost(args.yearMax.value)] else []) +
    (if CountTopic(args).Some? then [MentionsEntity(CountTopic(args).value)] else [])
  }

  /** Which papers the count query counts, stated argument by argument:
      every truthy bound constrains the year and a topic must be one of the
      paper's entities. */
  predicate Counted(args: ToolArgs, p: Paper) {
    (TruthyNumber(args.year) ==> p.pubYear == args.year) &&
    (TruthyNumber(args.yearMin) ==> p.pubYear.Some? && p.pubYear.value >= args.yearMin.value) &&
    (TruthyNumber(args.yearMax) ==> p.pubYear.Some? && p.pubYear.value <= args.yearMax.value) &&
    (CountTopic(args).Some? ==> p.entities.Some? && CountTopic(args).value in p.entities.value)
  }

  lemma CountFiltersMeanCounted(args: ToolArgs, p: Paper)
    ensures PassesAll(p, CountFilters(args)) <==> Counted(args, p)
  {
    var fs := CountFilters(args);
    if TruthyNumber(args.year) && PassesAll(p, fs) {
      assert fs[0] == YearIs(args.year.value);
      assert Passes(p, fs[0]);
    }
    if Counted(args, p) {
      forall i | 0 <= i < |fs|
        ensures Passes(p, fs[i])
      {
      }
    }
    if PassesAll(p, fs) {
      if TruthyNumber(args.yearMin) {
        var k := if TruthyNumber(args.year) then 1 else 0;
        assert fs[k] == YearAtLeast(args.yearMin.value);
        assert Passes(p, fs[k]);
      }
      if TruthyNumber(args.yearMax) {
        var k := (if TruthyNumber(args.year) then 1 else 0) + (if TruthyNumber(args.yearMin) then 1 else 0);
        assert fs[k] == YearAtMost(args.yearMax.value);
        assert Passes(p, fs[k]);
      }
      if CountTopic(args).Some? {
        assert fs[|fs| - 1] == MentionsEntity(CountTopic(args).value);
        assert Passes(p, fs[|fs| - 1]);
      }
    }
  }

  /** The description of the count: the year when one is given, else the
      range with `?` and `present` for a missing end, else the whole
      database; then the topic. */
  function CountDescription(args: ToolArgs): string {
    var base :=
      if TruthyNumber(args.year) then "Papers from " + IntToString(args.year.value)
      else if TruthyNumber(args.yearMin) || TruthyNumber(args.yearMax) then
        "Papers from " + NumberTextOr(args.yearMin, "?") + " to " + NumberTextOr(args.yearMax, "present")
      else "Total papers in database";
    if CountTopic(args).Some? then base + " about \"" + CountTopic(args).value + "\"" else base
  }

  /** The count_papers branch: `<description>: <count>`, where the count is
      the number of rows passing every filter. */
  function CountPapersText(args: ToolArgs, table: Reply<Paper>): (r: ToolOutcome)
    ensures r.Done? ==> |r.text| > 0
  {
    match table
    case DbError(m) => Done("Error: " + m)
    case Threw(m) => Raised(Message(m))
    case Rows(rows) =>
      Done(CountDescription(args) + ": " + IntToString(|Filter(rows, p => PassesAll(p, CountFilters(args)))|))
  }

  /** The branch as the source writes it: the query gains a filter for each
      truthy argument in turn, and the description is reassigned and then
      extended. */
  method CountPapersQuery(args: ToolArgs, table: Reply<Paper>) returns (out: ToolOutcome)
    ensures out == CountPapersText(args, table)
    ensures out.Done? ==> |out.text| > 0
  {
    var query: seq<RowFilter> := [];
    if TruthyNumber(args.year) {
      query := query + [YearIs(args.year.value)];
    }
    if TruthyNumber(args.yearMin) {
      query := query + [YearAtLeast(args.yearMin.value)];
    }
    if TruthyNumber(args.yearMax) {
      query := query + [YearAtMost(args.yearMax.value)];
    }
    if TruthyText(args.entity) || TruthyText(args.topic) {
      query := query + [MentionsEntity(TextOr(args.entity, TextOr(args.topic, "")))];
    }
    assert query == CountFilters(args);

    if table.DbError? {
      return Done("Error: " + table.message);
    }
    if table.Threw? {
      return Raised(Message(table.message));
    }
    var count := |Filter(table.rows, p => PassesAll(p, query))|;

    var desc := "Total papers in database";
    if TruthyNumber(args.year) {
      desc := "Papers from " + IntToString(args.year.value);
    } else if TruthyNumber(args.yearMin) || TruthyNumber(args.yearMax) {
      desc := "Papers from " + NumberTextOr(args.yearMin, "?") + " to " + NumberTextOr(args.yearMax, "present");
    }
    if TruthyText(args.entity) || TruthyText(args.topic) {
      desc := desc + " about \"" + TextOr(args.entity, TextOr(args.topic, "")) + "\"";
    }
    out := Done(desc + ": " + IntToString(count));
  }

  /** A truthy year wins over the range bounds, in the description and in
      the filters: a paper is counted only if it is from that year. */
  lemma CountYearWins(args: ToolArgs, p: Paper)
    requires TruthyNumber(args.year)
    ensures StartsWith(CountDescription(args), "Papers from " + IntToString(args.year.value))
    ensures PassesAll(p, CountFilters(args)) ==> p.pubYear == args.year
  {
    CountFiltersMeanCounted(args, p);
  }

  /** A range with one end missing names it `?` or `present`. */
  lemma CountRangePlaceholders(args: ToolArgs)
    requires !TruthyNumber(args.year) && CountTopic(args).None?
    ensures TruthyNumber(args.yearMin) && !TruthyNumber(args.yearMax) ==>
              CountDescription(args) == "Papers from " + IntToString(args.yearMin.value) + " to present"
    ensures !TruthyNumber(args.yearMin) && TruthyNumber(args.yearMax) ==>
              CountDescription(args) == "Papers from ? to " + IntToString(args.yearMax.value)
    ensures !TruthyNumber(args.yearMin) && !TruthyNumber(args.yearMax) ==>
              CountDescription(args) == "Total papers in database"
  {
  }

  /** The topic, when given, ends the description in quotes. */
  lemma CountTopicSuffix(args: ToolArgs)
    requires CountTopic(args).Some?
    ensures CountDescription(args) ==
            CountDescription(args.(entity := None, topic := None)) + " about \"" + CountTopic(args).value + "\""
  {
  }

  /** Every counted row passes the filters, and the count is the number of
      papers that meet the arguments. */
  lemma {:induction false} CountIsNumberCounted(args: ToolArgs, rows: seq<Paper>)
    ensures |Filter(rows, p => PassesAll(p, CountFilters(args)))| == |Filter(rows, p => Counted(args, p))|
    decreases |rows|
  {
    if rows != [] {
      CountFiltersMeanCounted(args, rows[0]);
      CountIsNumberCounted(args, rows[1..]);
    }
  }

  // ---------------------------------------------------------------------
  // list_topics

  /** `<n>. <entity> (<count> papers)`. */
  function TopicLine(n: nat, t: TagStat): string {
    IntToString(n) + ". " + t.entity + " (" + IntToString(t.paperCount) + " papers)"
  }

  /** The topics listed: `(data || []).slice(0, args.limit || 10)`. */
  function TopicsShown(rows: seq<TagStat>, limit: Option<int>): (r: seq<TagStat>)
    ensures |r| <= |rows| && r == rows[..|r|]
    ensures NumberOr(limit, 10) >= 0 ==> |r| == Min(NumberOr(limit, 10), |rows|)
  {
    Slice0(rows, NumberOr(limit, 10))
  }

  function ListTopicsText(args: ToolArgs, b: Backend): (r: ToolOutcome)
    ensures r.Done? ==> |r.text| > 0
  {
    match b.entityStats
    case DbError(m) => Done("Error: " + m)
    case Threw(m) => Raised(Message(m))
    case Rows(rows) =>
      var topics := TopicsShown(rows, args.limit);
      Done("Top " + IntToString(|topics|) + " research topics:\n" + Join(Numbered(topics, TopicLine), "\n"))
  }

  /** Without a limit at most ten topics are listed, the first ones of the
      ranking, one numbered line each, and the header gives their number. */
  lemma ListTopicsCapped(args: ToolArgs, b: Backend)
    requires b.entityStats.Rows?
    ensures var topics := TopicsShown(b.entityStats.rows, args.limit);
            var lines := Numbered(topics, TopicLine);
            |lines| == |topics| &&
            (!TruthyNumber(args.limit) ==> |topics| == Min(10, |b.entityStats.rows|)) &&
            (TruthyNumber(args.limit) && args.limit.value > 0 ==> |topics| <= args.limit.value) &&
            (forall i :: 0 <= i < |topics| ==> lines[i] == TopicLine(i + 1, b.entityStats.rows[i])) &&
            ListTopicsText(args, b) == Done("Top " + IntToString(|lines|) + " research topics:\n" + Join(lines, "\n"))
  {
  }

  /** With no topics the list is just its header, counting none. */
  lemma ListTopicsNoRows(args: ToolArgs, b: Backend)
    requires b.entityStats == Rows([])
    ensures ListTopicsText(args, b) == Done("Top 0 research topics:\n")
  {
    var topics := TopicsShown([], args.limit);
    assert topics == [];
    var lines := Numbered(topics, TopicLine);
    assert lines == [];
    assert Join(lines, "\n") == "";
    assert IntToString(|topics|) == "0";
    var header := "Top " + IntToString(|topics|) + " research topics:\n";
    assert |header| == |"Top 0 research topics:\n"|;
    assert forall k :: 0 <= k < |header| ==> header[k] == "Top 0 research topics:\n"[k];
  }

  // ---------------------------------------------------------------------
  // analyze_trends

  /** The topic the trend query is run for: `args.topic || args.entity ||
      'DNA'`. */
  function TrendTopicName(args: ToolArgs): string {
    TextOr(args.topic, TextOr(args.entity, "DNA"))
  }

  function TrendLine(d: TrendPoint): string {
    IntToString(d.year) + ": " + IntToString(d.paperCount) + " papers"
  }

  /** The texts name `args.topic` itself, `undefined` when it is missing,
      not the topic the query ran for. */
  function AnalyzeTrendsText(args: ToolArgs, b: Backend): (r: ToolOutcome)
    ensures r.Done? ==> |r.text| > 0
  {
    Answer(b.topicTrend(TrendTopicName(args)),
      "No trend data found for \"" + ShowUndefined(args.topic) + "\"",
      (rows: seq<TrendPoint>) =>
        Done("Research trend for \"" + ShowUndefined(args.topic) + "\":\n\n" + Join(MapText(rows, TrendLine), "\n")))
  }

  // ---------------------------------------------------------------------
  // find_gaps

  function GapLine(n: nat, g: TagStat): string {
    IntToString(n) + ". \"" + g.entity + "\" - only " + IntToString(g.paperCount) + " paper(s)"
  }

  /** The gaps listed: the first ten. */
  function GapsShown(rows: seq<TagStat>): (r: seq<TagStat>)
    ensures |r| == Min(10, |rows|) && r == rows[..|r|]
  {
    Slice0(rows, 10)
  }

  function FindGapsText(b: Backend): (r: ToolOutcome)
    ensures r.Done? ==> |r.text| > 0
  {
    Answer(b.researchGaps, NoGapsFound,
      (rows: seq<TagStat>) => Done("Understudied topics:\n\n" + Join(Numbered(GapsShown(rows), GapLine), "\n")))
  }

  /** When gaps are found, at most the first ten are listed, one numbered
      line each, under the heading. */
  lemma FindGapsCapped(b: Backend)
    requires b.researchGaps.Rows? && b.researchGaps.rows != []
    ensures var rows := b.researchGaps.rows;
            var lines := Numbered(GapsShown(rows), GapLine);
            |lines| == Min(10, |rows|) &&
            (forall i :: 0 <= i < |lines| ==> lines[i] == GapLine(i + 1, rows[i])) &&
            FindGapsText(b) == Done("Understudied topics:\n\n" + Join(lines, "\n"))
  {
  }

  // ---------------------------------------------------------------------
  // random_explore

  /** `p.summary?.substring(0, 150) || 'No summary'`. */
  function SampleSummary(summary: Option<string>): (r: string)
    ensures |r| > 0
    ensures TruthyText(summary) ==> |r| <= 150 && |r| <= |summary.value| && r == summary.value[..|r|]
  {
    if TruthyText(summary) then Slice0(summary.value, 150) else "No summary"
  }

  function SampleLine(p: PaperHit): string {
    "\U{2022} **\"" + ShowNullText(p.title) + "\"** (" + NumberTextOr(p.pubYear, "?") +
    ") [\U{1F4C4} Open](paper:" + p.id + ")\n  " + SampleSummary(p.summary) + "..."
  }

  function RandomExploreText(args: ToolArgs, b: Backend): (r: ToolOutcome)
    ensures r.Done? ==> |r.text| > 0
  {
    Answer(b.randomSample(NumberOr(args.count, 5)), NoSample,
      (rows: seq<PaperHit>) => Done("Random papers:\n\n" + Join(MapText(rows, SampleLine), "\n\n")))
  }

  // ---------------------------------------------------------------------
  // find_connections

  /** `   • [📄 <title cut to 50>...](paper:<id>) (<year or ?>)`. */
  function LinkLine(p: LinkedPaper): string {
    "   \U{2022} [\U{1F4C4} " + ShowUndefined(if p.title.Some? then Some(Slice0(p.title.value, 50)) else None) +
    "...](paper:" + p.id + ") (" + NumberTextOr(p.year, "?") + ")"
  }

  function ConnectionLine(n: nat, c: Connection): string {
    IntToString(n) + ". Topic: **" + c.sharedEntity + "**\n" + LinkLine(c.paperA) + "\n" + LinkLine(c.paperB)
  }

  /** The pairs listed: the first five. */
  function ConnectionsShown(rows: seq<Connection>): (r: seq<Connection>)
    ensures |r| == Min(5, |rows|) && r == rows[..|r|]
  {
    Slice0(rows, 5)
  }

  function FindConnectionsText(b: Backend): (r: ToolOutcome)
    ensures r.Done? ==> |r.text| > 0
  {
    Answer(b.connections, NoConnections,
      (rows: seq<Connection>) =>
        Done("**Connections via shared topics:**\n\n" + Join(Numbered(ConnectionsShown(rows), ConnectionLine), "\n\n")))
  }

  /** When connections are found, at most the first five pairs are listed,
      one numbered entry each, under the heading. */
  lemma FindConnectionsCapped(b: Backend)
    requires b.connections.Rows? && b.connections.rows != []
    ensures var rows := b.connections.rows;
            var entries := Numbered(ConnectionsShown(rows), ConnectionLine);
            |entries| == Min(5, |rows|) &&
            (forall i :: 0 <= i < |entries| ==> entries[i] == ConnectionLine(i + 1, rows[i])) &&
            FindConnectionsText(b) == Done("**Connections via shared topics:**\n\n" + Join(entries, "\n\n"))
  {
  }

  // ---------------------------------------------------------------------
  // database_stats

  /** Rows of a reply whose `error` is ignored: an error reads as no rows. */
  function RowsOrNone<T>(reply: Reply<T>): seq<T> {
    if reply.Rows? then reply.rows else []
  }

  /** The publication years the two year queries see: the non-`null` ones. */
  function KnownYears(papers: seq<Paper>): (r: seq<int>)
    ensures forall y :: y in r <==> exists i :: 0 <= i < |papers| && papers[i].pubYear == Some(y)
    decreases |papers|
  {
    if papers == [] then []
    else
      var rest := KnownYears(papers[1..]);
      assert forall i :: 1 <= i < |papers| ==> papers[i] == papers[1..][i - 1];
      assert forall y :: (exists i :: 0 <= i < |papers[1..]| && papers[1..][i].pubYear == Some(y)) ==>
                           exists i :: 0 <= i < |papers| && papers[i].pubYear == Some(y);
      if papers[0].pubYear.Some? then [papers[0].pubYear.value] + rest else rest
  }

  /** `yearData?.[0]?.pub_year || 'unknown'` for the first row of the years
      in the given order. */
  function YearText(year: Option<int>): string {
    NumberTextOr(year, "unknown")
  }

  /** `${d.decade}s: ${d.count}`. */
  function DecadeEntry(d: DecadeCount): string {
    IntToString(d.decade) + "s: " + IntToString(d.count)
  }

  /** The overview: the counts taken when the request began, the earliest
      and latest publication year, the papers per decade and the ten top
      topics. Database errors read as no rows; only a rejected promise
      escapes, the first in query order. */
  function DatabaseStatsText(b: Backend): (r: ToolOutcome)
    ensures r.Done? ==> |r.text| > 0
  {
    if b.entityStats.Threw? then Raised(Message(b.entityStats.message))
    else if b.papers.Threw? then Raised(Message(b.papers.message))
    else if b.decades.Threw? then Raised(Message(b.decades.message))
    else
      var years := KnownYears(RowsOrNone(b.papers));
      var breakdown := Join(MapText(RowsOrNone(b.decades), DecadeEntry), ", ");
      var topics := Slice0(RowsOrNone(b.entityStats), 10);
      Done("## DATABASE OVERVIEW\n\n**Total Papers:** " + ShowNullCount(b.paperCount) +
        " research papers\n**Text Chunks:** " + ShowNullCount(b.chunkCount) +
        " searchable text segments\n**Publication Years:** " + YearText(Least(years)) +
        " to " + YearText(Greatest(years)) +
        "\n\n**Papers by Decade:** " + (if breakdown == "" then "N/A" else breakdown) +
        "\n\n**Top Research Topics:**\n" + Join(Numbered(topics, TopicLine), "\n"))
  }

  /** The overview names the earliest and the latest known year of the
      table, and "N/A" for the decades exactly when there are no decade
      rows. */
  lemma DatabaseStatsYears(b: Backend)
    requires b.papers.Rows?
    ensures var years := KnownYears(b.papers.rows);
            (years == [] ==> Least(years) == None && Greatest(years) == None) &&
            (years != [] ==>
               (Least(years).Some? && Greatest(years).Some? &&
                forall i :: 0 <= i < |b.papers.rows| && b.papers.rows[i].pubYear.Some? ==>
                  Least(years).value <= b.papers.rows[i].pubYear.value <= Greatest(years).value))
  {
    var years := KnownYears(b.papers.rows);
    forall i | 0 <= i < |b.papers.rows| && b.papers.rows[i].pubYear.Some?
      ensures b.papers.rows[i].pubYear.value in years
    {
    }
  }

  lemma DecadeBreakdownEmpty(decades: seq<DecadeCount>)
    ensures Join(MapText(decades, DecadeEntry), ", ") == "" <==> decades == []
  {
    if decades != [] {
      var lines := MapText(decades, DecadeEntry);
      assert lines[0] == DecadeEntry(decades[0]);
      assert |DecadeEntry(decades[0])| > 0;
      JoinNonEmpty(lines, ", ");
    }
  }

  // ---------------------------------------------------------------------
  // The dispatch

  /** `executeTool(name, args)`: the branch of the tool the name reaches,
      the "Unknown tool" text otherwise. Whatever it returns is a non-empty
      string; it only throws what one of its queries throws, or the
      `TypeError` of a chunk without content. */
  function ExecuteTool(name: string, args: ToolArgs, userMessage: string, b: Backend): (r: ToolOutcome)
    ensures r.Done? ==> |r.text| > 0
    ensures ToolNamed(name).None? ==> r == Done(UnknownTool(name))
  {
    match ToolNamed(name)
    case Some(t) => RunTool(t, args, userMessage, b)
    case None => Done(UnknownTool(name))
  }

  /** The branch of one tool. */
  function RunTool(t: Tool, args: ToolArgs, userMessage: string, b: Backend): (r: ToolOutcome)
    ensures r.Done? ==> |r.text| > 0
  {
    match t
    case SearchPapers => SearchPapersText(args, userMessage, b)
    case SearchContent => SearchContentText(args, userMessage, b)
    case CountPapers => CountPapersText(args, b.papers)
    case ListTopics => ListTopicsText(args, b)
    case AnalyzeTrends => AnalyzeTrendsText(args, b)
    case FindGaps => FindGapsText(b)
    case RandomExplore => RandomExploreText(args, b)
    case FindConnections => FindConnectionsText(b)
    case DatabaseStats => DatabaseStatsText(b)
  }

  /** Every label of a tool reaches the same branch as its first name. */
  lemma AliasesAgree(name: string, t: Tool, args: ToolArgs, userMessage: string, b: Backend)
    requires name in Names(t)
    ensures ExecuteTool(name, args, userMessage, b) == ExecuteTool(Names(t)[0], args, userMessage, b)
  {
    ToolNamedIffListed(name, t);
    ToolNamedIffListed(Names(t)[0], t);
  }

  /** What a query's reply amounts to for the text reported. */
  datatype QueryStatus = Failed(message: string) | NoRows | SomeRows | Escaped(message: string)

  function StatusOf<T>(reply: Reply<T>): QueryStatus {
    match reply
    case DbError(m) => Failed(m)
    case Threw(m) => Escaped(m)
    case Rows(rows) => if rows == [] then NoRows else SomeRows
  }

  /** The query a branch reports on; the overview runs several and reports
      none of their errors, so it has none. */
  function ReportedQuery(t: Tool, args: ToolArgs, userMessage: string, b: Backend): Option<QueryStatus> {
    match t
    case SearchPapers => Some(StatusOf(b.matchPapers(SearchPapersInput(args, userMessage), NumberOr(args.limit, 5))))
    case SearchContent => Some(StatusOf(b.matchChunks(TextOr(args.query, userMessage), NumberOr(args.limit, 5))))
    case CountPapers => Some(StatusOf(b.papers))
    case ListTopics => Some(StatusOf(b.entityStats))
    case AnalyzeTrends => Some(StatusOf(b.topicTrend(TrendTopicName(args))))
    case FindGaps => Some(StatusOf(b.researchGaps))
    case RandomExplore => Some(StatusOf(b.randomSample(NumberOr(args.count, 5))))
    case FindConnections => Some(StatusOf(b.connections))
    case DatabaseStats => None
  }

  /** The text of each branch when its query finds no rows. */
  function NoRowsText(t: Tool, args: ToolArgs): string {
    match t
    case SearchPapers => NoPapersFound
    case SearchContent => NoContentFound
    case CountPapers => CountDescription(args) + ": 0"
    case ListTopics => "Top 0 research topics:\n"
    case AnalyzeTrends => "No trend data found for \"" + ShowUndefined(args.topic) + "\""
    case FindGaps => NoGapsFound
    case RandomExplore => NoSample
    case FindConnections => NoConnections
    case DatabaseStats => ""
  }

  /** What a branch does with the reply of the query it reports on. */
  predicate ReportsQuery(t: Tool, args: ToolArgs, userMessage: string, b: Backend)
    requires ReportedQuery(t, args, userMessage, b).Some?
  {
    var st := ReportedQuery(t, args, userMessage, b).value;
    var r := RunTool(t, args, userMessage, b);
    (st.Failed? ==> r == Done("Error: " + st.message)) &&
    (st.NoRows? ==> r == Done(NoRowsText(t, args))) &&
    (st.Escaped? ==> r == Raised(Message(st.message)))
  }

  /** A database error of the query a branch reports on gives
      `Error: <message>`, no rows give the branch's fixed text, and a
      rejected promise escapes with its message. */
  lemma QueryOutcomesReported(t: Tool, args: ToolArgs, userMessage: string, b: Backend)
    requires ReportedQuery(t, args, userMessage, b).Some?
    ensures ReportsQuery(t, args, userMessage, b)
  {
    match t
    case CountPapers =>
      assert IntToString(0) == "0";
    case ListTopics =>
      if b.entityStats == Rows([]) {
        ListTopicsNoRows(args, b);
      }
    case SearchPapers =>
      SearchesReportQuery(t, args, userMessage, b);
    case SearchContent =>
      SearchesReportQuery(t, args, userMessage, b);
    case AnalyzeTrends =>
      TrendsAndGapsReportQuery(t, args, userMessage, b);
    case FindGaps =>
      TrendsAndGapsReportQuery(t, args, userMessage, b);
    case RandomExplore =>
      SampleReportsQuery(args, userMessage, b);
    case FindConnections =>
      ConnectionsReportQuery(args, userMessage, b);
    case DatabaseStats =>
  }

  lemma SearchesReportQuery(t: Tool, args: ToolArgs, userMessage: string, b: Backend)
    requires t == SearchPapers || t == SearchContent
    ensures ReportsQuery(t, args, userMessage, b)
  {
  }

  lemma TrendsAndGapsReportQuery(t: Tool, args: ToolArgs, userMessage: string, b: Backend)
    requires t == AnalyzeTrends || t == FindGaps
    ensures ReportsQuery(t, args, userMessage, b)
  {
  }

  lemma SampleReportsQuery(args: ToolArgs, userMessage: string, b: Backend)
    ensures ReportsQuery(RandomExplore, args, userMessage, b)
  {
  }

  lemma ConnectionsReportQuery(args: ToolArgs, userMessage: string, b: Backend)
    ensures ReportsQuery(FindConnections, args, userMessage, b)
  {
  }

  /** The overview reads a database error as no rows: it only fails when a
      query's promise is rejected. */
  lemma OverviewIgnoresDatabaseErrors(name: string, args: ToolArgs, userMessage: string, b: Backend)
    requires ToolNamed(name) == Some(DatabaseStats)
    ensures ExecuteTool(name, args, userMessage, b).Raised? <==> b.entityStats.Threw? || b.papers.Threw? || b.decades.Threw?
  {
  }
}
