# Research Oracle core in Dafny

This project models the logic of a research-paper dashboard and of its chat
function. Everything outside that logic is database, model-provider or
rendering I/O.

- **The chat function** (`supabase/functions/chat-with-deepseek/index.ts`) does six things:
  - it turns away bots by their User-Agent header;
  - it lower-cases the last user message and routes it through fixed keyword groups;
  - it runs each chosen tool through `executeTool`, which dispatches on the tool name with aliases and formats each database reply as text;
  - it appends every result to the `context`, with a search-pair fallback;
  - it puts the system prompt in front of the caller's messages for the streaming chat-completion request;
  - it maps every thrown error to a JSON 500 reply.
- **The paper browser** (`src/components/DatabaseBrowser.tsx`) provides:
  - the text and decade filters;
  - the per-year histogram;
  - the list of decades and the decade toggle;
  - the 50-paper display cap.
- **The topic manager** (`src/components/AITagsManager.tsx`) provides:
  - the topic search filter;
  - the four size classes of the tag cloud;
  - `maxCount`;
  - the display caps;
  - the selected topic's count.
- **The analytics page** (`src/components/ResearchAnalytics.tsx`) provides:
  - the per-year tally and chart rows;
  - the top-20 topics;
  - the year-range label;
  - the per-year average guard.

Every query, RPC, embedding request and the upstream `fetch` is an input.
`ChatTools.Backend` holds the replies `executeTool` can get. A reply is rows,
a database `error`, or a rejected promise. Replies that depend on the call's
arguments are functions of those arguments. The handler takes `fetch` as a
function from the request to the reply.

Where the code works step by step, the model is imperative:
- the router's `context +=` chain (`ChatRouter.AssembleContext` and its helpers);
- `count_papers` reassigning `query` and `desc` (`ChatTools.CountPapersQuery`);
- the browser's filter effect (`DatabaseBrowser.ApplyFilters`);
- the two histogram loops (`DatabaseBrowser.BuildYearCounts`, `ResearchAnalytics.TallyYears`);
- the handler's early returns (`ChatHandler.Handle`, `ChatHandler.Answer`).

Each of these methods is proved equal to a function or a predicate, and the
properties are proved about that function.

Files:
- `wrappers.dfy`, `text.dfy`, `seqs.dfy` and `js_math.dfy` hold the JavaScript built-ins the core uses:
  - `||` on optional values;
  - `toLowerCase`, `includes`, `\s` and `\w`;
  - `String(n)` and `parseInt`;
  - `join`, `slice(0, n)`, `filter` and `sort`;
  - `Math.round` of a quotient.
- `year_histogram.dfy` holds the year tally that two components share.
- `database_browser.dfy`, `tags_manager.dfy` and `research_analytics.dfy` model the three components.
- `chat_tools.dfy`, `chat_router.dfy` and `chat_handler.dfy` model the chat function.

## Model

| member | source | states |
|---|---|---|
| ChatHandler.BlockedIffPatternIgnoringCase | supabase/functions/chat-with-deepseek/index.ts:19-21 | a User-Agent is blocked exactly when one of bot, crawl, spider, scrape, wget, curl, python, headless, phantom, selenium occurs in it letter by letter, ignoring ASCII case |
| ChatHandler.MissingAgentAdmitted | supabase/functions/chat-with-deepseek/index.ts:17-21 | a missing User-Agent is matched as the empty string and is not blocked |
| ChatHandler.ApiKey | supabase/functions/chat-with-deepseek/index.ts:37-41 | the key is present exactly when the primary or the fallback variable is non-empty; the primary wins; an empty value counts as unset |
| ChatHandler.KeyFailure | supabase/functions/chat-with-deepseek/index.ts:37-41 | the OpenAI key is checked first: its absence gives "OPENAI_API_KEY is not set", then the absence of the DeepSeek key gives "DEEPSEEK_API_KEY is not set"; nothing fails exactly when both keys are set |
| ChatHandler.PromptHead | supabase/functions/chat-with-deepseek/index.ts:269-271 | the prompt opens with "You are a Research Oracle for " and the paper count (`null` when the count failed) |
| ChatHandler.SystemPrompt | supabase/functions/chat-with-deepseek/index.ts:269-298 | the prompt starts with the opening and the paper count, the context is embedded just before a blank line and the fixed rules, and the rules end it |
| ChatHandler.UpstreamCall | supabase/functions/chat-with-deepseek/index.ts:301-315 | the upstream message list is the system prompt followed by the caller's messages unchanged and in order; the authorization is "Bearer " + key; streaming is on |
| ChatHandler.Forward | supabase/functions/chat-with-deepseek/index.ts:317-324 | the reply streams exactly when the upstream status is 2xx; any other status gives a 500 whose error is "DeepSeek API Error: <status> - <body text>"; a failed fetch gives a 500 with the runtime's message; so the reply is the stream or a 500 JSON error |
| ChatHandler.Consult | supabase/functions/chat-with-deepseek/index.ts:230-324 | a tool failure while assembling the context from the lower-cased message becomes a 500 carrying its message; a completed context goes upstream as `UpstreamCall(key, SystemPrompt(counts, context, rules), messages)`, and the reply streams exactly when that fetch reaches a 2xx status, is the "DeepSeek API Error: <status> - <text>" 500 for any other status, and a 500 when the fetch fails |
| ChatHandler.Converse | supabase/functions/chat-with-deepseek/index.ts:29-331 | the reply is the stream or a 500 JSON error; an empty list or a `null` last element fails before the keys are checked; then a missing key gives its key error; a last message whose content is not a string fails after the keys; otherwise the reply is the one `Consult` describes for its text and the DeepSeek key; streaming needs all of these to pass |
| ChatHandler.Respond | supabase/functions/chat-with-deepseek/index.ts:10-331 | the status is 200, 403 or 500; 403 exactly for a non-OPTIONS request with a blocked User-Agent, whatever the body; a 200 is the preflight or the stream; a JSON error exactly when the status is not 200; streaming needs a message list whose last element is not `null`; a body that is not an object, or whose `messages` is neither a list nor a string, fails with the runtime's message; a string `messages` never streams, and when it is not empty the key checks come first |
| ChatHandler.Handle | supabase/functions/chat-with-deepseek/index.ts:10-331 | the handler with its early returns and its `try`/`catch` gives exactly the reply `Respond` describes |
| ChatHandler.Answer | supabase/functions/chat-with-deepseek/index.ts:28-331 | the body of the `try` (keys, context, prompt, fetch, status check), with every throw turned into a 500, gives exactly the reply `Converse` describes |
| ChatRouter.KeywordEnd | supabase/functions/chat-with-deepseek/index.ts:245 | the keyword alternative trend/evolution/evolve/research found at a position, if any, and where it ends; none when no alternative occurs there |
| ChatRouter.WordAfterBlanks | supabase/functions/chat-with-deepseek/index.ts:245 | `\s*(\w+)` captures a non-empty run of word characters from the message, and succeeds exactly when a word character follows the blanks |
| ChatRouter.AfterPreposition | supabase/functions/chat-with-deepseek/index.ts:245 | the optional preposition group yields a non-empty word of the message found after the position |
| ChatRouter.AfterKeyword | supabase/functions/chat-with-deepseek/index.ts:245 | the rest of the pattern after a keyword yields a non-empty word of the message found after the keyword |
| ChatRouter.TrendMatchFrom | supabase/functions/chat-with-deepseek/index.ts:245 | the capture of the first match is a non-empty word that occurs in the message |
| ChatRouter.TrendTopic | supabase/functions/chat-with-deepseek/index.ts:245-246 | the trend topic is "DNA" or a non-empty word of the lower-cased message |
| ChatRouter.AfterPrepositionSucceeds | supabase/functions/chat-with-deepseek/index.ts:245 | since the preposition may be left out, the group succeeds exactly when a word character starts at the position |
| ChatRouter.PrepositionsStartWithWordChar | supabase/functions/chat-with-deepseek/index.ts:245 | each of for/of/on/in starts with a word character |
| ChatRouter.AfterKeywordSucceeds | supabase/functions/chat-with-deepseek/index.ts:245 | after a keyword the pattern matches exactly when at least one blank and then a word character follow |
| ChatRouter.TrendMatchIffKeywordThenWord | supabase/functions/chat-with-deepseek/index.ts:245 | the pattern matches exactly when some keyword in the message is followed by blanks and a word character |
| ChatRouter.TrendTopicDefault | supabase/functions/chat-with-deepseek/index.ts:246 | the topic is "DNA" exactly when the pattern does not match a lower-cased message |
| ChatRouter.TrendOnlineCapturesLine | supabase/functions/chat-with-deepseek/index.ts:245-246 | for "trend online" the preposition "on" is taken from the next word and the topic is "line" |
| ChatRouter.OnlineAfterKeyword | supabase/functions/chat-with-deepseek/index.ts:245 | after "trend" in "trend online" the rest of the pattern captures "line" |
| ChatRouter.OnlinePreposition | supabase/functions/chat-with-deepseek/index.ts:245 | "for" and "of" fail in "trend online", "on" is taken and leaves "line" |
| ChatRouter.OnlineWord | supabase/functions/chat-with-deepseek/index.ts:245 | the word after "trend on" is "line" |
| ChatRouter.RunStep | supabase/functions/chat-with-deepseek/index.ts:235-260 | a group that is off leaves the run unchanged; a group that is on appends heading, result and a blank line, or ends the run with the thrown error |
| ChatRouter.RunPair | supabase/functions/chat-with-deepseek/index.ts:263-266 | the search pair appends both results under their headings, or ends with the first error thrown |
| ChatRouter.AppendIf | supabase/functions/chat-with-deepseek/index.ts:235-260 | one `if (...) context += ...` keeps an earlier error, follows the run of the rest of the plan, and leaves the context empty exactly when it was empty and the group is off |
| ChatRouter.AppendSearches | supabase/functions/chat-with-deepseek/index.ts:263-266 | the guarded search pair gives exactly the run of the two search calls |
| ChatRouter.AssembleContext | supabase/functions/chat-with-deepseek/index.ts:230-266 | the router's `context` is the run of the plan of the lower-cased message from the empty string, including the `context === ""` fallback |
| ChatRouter.RunGroups | supabase/functions/chat-with-deepseek/index.ts:235-266 | the chain of guarded appends, with the search pair guarded by `context === ""` or a search word, gives the run of the intent's calls |
| ChatRouter.NamesOf | supabase/functions/chat-with-deepseek/index.ts:236-265 | the tool names of the calls, one per call and in order |
| ChatRouter.WantedNames | supabase/functions/chat-with-deepseek/index.ts:235-266 | each keyword group calls its own tool, and the search pair runs when no group matched or a search word occurs |
| ChatRouter.StepNames | supabase/functions/chat-with-deepseek/index.ts:235-260 | a group's step keeps its tool's name exactly when the group is on |
| ChatRouter.TailFollowsRouterOrder | supabase/functions/chat-with-deepseek/index.ts:254-266 | the last two groups and the search pair call, in order, the wanted tools among find_connections, random_explore, search_papers, search_content |
| ChatRouter.FromGapsFollowsRouterOrder | supabase/functions/chat-with-deepseek/index.ts:250-266 | from the gaps group on, the wanted tools are called in the fixed order |
| ChatRouter.FromTrendsFollowsRouterOrder | supabase/functions/chat-with-deepseek/index.ts:243-266 | from the trends group on, the wanted tools are called in the fixed order |
| ChatRouter.CallsFollowRouterOrder | supabase/functions/chat-with-deepseek/index.ts:235-266 | the names called are the fixed order database_stats, list_topics, analyze_trends, find_gaps, find_connections, random_explore, search_papers, search_content, filtered by what the intent wants |
| ChatRouter.PlanFollowsRouterOrder | supabase/functions/chat-with-deepseek/index.ts:231-266 | the router calls a subsequence of the fixed order, and calls a tool exactly when its keyword group matches the lower-cased message (the search pair when nothing else matched or a search word occurs) |
| ChatRouter.RouterOrderKnown | supabase/functions/chat-with-deepseek/index.ts:53-187 | each name in the router's order is a `case` label of the switch |
| ChatRouter.PlanToolsKnown | supabase/functions/chat-with-deepseek/index.ts:236-265 | the router never reaches the "Unknown tool" default |
| ChatRouter.NoGroupSearchesOnly | supabase/functions/chat-with-deepseek/index.ts:263-266 | a message that hits no keyword group gets the semantic search and then the full-text search only |
| ChatRouter.RunCallsExtends | supabase/functions/chat-with-deepseek/index.ts:236-265 | a completed run only appends to the context, at least a blank line per call |
| ChatRouter.ContextNeverEmpty | supabase/functions/chat-with-deepseek/index.ts:231-266 | the router always calls at least one tool, so a context it completes is never empty |
| ChatTools.TextOr | supabase/functions/chat-with-deepseek/index.ts:57 | `a \|\| b` on strings: the value when it is a non-empty string, else the fallback |
| ChatTools.NumberOr | supabase/functions/chat-with-deepseek/index.ts:64 | `a \|\| b` on numbers: the value when present and non-zero, else the fallback |
| ChatTools.ToolNamedIffListed | supabase/functions/chat-with-deepseek/index.ts:53-226 | a name reaches a tool's branch exactly when it is one of that tool's `case` labels, and the default exactly when it is no tool's label |
| ChatTools.ToolNamedReachesListed | supabase/functions/chat-with-deepseek/index.ts:53-187 | a name that reaches a branch is one of that branch's labels |
| ChatTools.ListedIsNamed | supabase/functions/chat-with-deepseek/index.ts:53-187 | each label of a tool reaches that tool's branch |
| ChatTools.NotNamedNotListed | supabase/functions/chat-with-deepseek/index.ts:225-226 | a name that reaches the default is no tool's label |
| ChatTools.UnknownTool | supabase/functions/chat-with-deepseek/index.ts:225-226 | the default text starts with "Unknown tool: ", carries the name right after it, and ends with the list of the nine tool names |
| ChatTools.Numbered | supabase/functions/chat-with-deepseek/index.ts:122-123 | one line per item, numbered from 1 in order |
| ChatTools.MapText | supabase/functions/chat-with-deepseek/index.ts:136 | one line per item, in order |
| ChatTools.JoinNonEmpty | supabase/functions/chat-with-deepseek/index.ts:70-72 | joined lines are non-empty when the first line is |
| ChatTools.PaperHitLine | supabase/functions/chat-with-deepseek/index.ts:70-71 | a search hit renders as a non-empty line |
| ChatTools.SearchPapersText | supabase/functions/chat-with-deepseek/index.ts:54-73 | search_papers returns a non-empty text whenever it returns |
| ChatTools.Excerpt | supabase/functions/chat-with-deepseek/index.ts:93 | a chunk excerpt is the first at most 200 characters of the chunk, the whole chunk when it is shorter |
| ChatTools.ChunkHitLine | supabase/functions/chat-with-deepseek/index.ts:93 | a chunk hit renders as a non-empty line |
| ChatTools.ChunkLines | supabase/functions/chat-with-deepseek/index.ts:92-94 | the lines of the chunk hits, one per hit, fail exactly when some hit has no content (the `substring` call throws) |
| ChatTools.SearchContentText | supabase/functions/chat-with-deepseek/index.ts:75-95 | search_content returns a non-empty text whenever it returns |
| ChatTools.CountTopic | supabase/functions/chat-with-deepseek/index.ts:103-111 | a topic filter exists exactly when `entity` or `topic` is a non-empty string, and it is non-empty |
| ChatTools.CountFiltersMeanCounted | supabase/functions/chat-with-deepseek/index.ts:98-103 | a paper passes the chained filters exactly when it meets the year, range and topic arguments |
| ChatTools.CountPapersText | supabase/functions/chat-with-deepseek/index.ts:97-114 | count_papers returns a non-empty text whenever it returns |
| ChatTools.CountPapersQuery | supabase/functions/chat-with-deepseek/index.ts:97-114 | the branch as written, with `query` and `desc` reassigned step by step, gives the count text |
| ChatTools.CountYearWins | supabase/functions/chat-with-deepseek/index.ts:100-109 | a truthy `year` gives "Papers from <year>", ahead of any range, and only papers of that year are counted |
| ChatTools.CountRangePlaceholders | supabase/functions/chat-with-deepseek/index.ts:108-110 | a range with a missing end reads "?" or "present"; no year and no range reads "Total papers in database" |
| ChatTools.CountTopicSuffix | supabase/functions/chat-with-deepseek/index.ts:111 | a topic ends the description with ` about "<topic>"` |
| ChatTools.CountIsNumberCounted | supabase/functions/chat-with-deepseek/index.ts:98-113 | the reported count is the number of papers that meet the arguments |
| ChatTools.TopicsShown | supabase/functions/chat-with-deepseek/index.ts:121 | the topics listed are a prefix of the rows, `limit \|\| 10` long when there are that many |
| ChatTools.ListTopicsText | supabase/functions/chat-with-deepseek/index.ts:116-124 | list_topics returns a non-empty text whenever it returns |
| ChatTools.ListTopicsCapped | supabase/functions/chat-with-deepseek/index.ts:121-123 | at most `limit \|\| 10` topics are listed, numbered from 1, and the header counts the topics listed |
| ChatTools.ListTopicsNoRows | supabase/functions/chat-with-deepseek/index.ts:118-123 | with no topics the text is the header "Top 0 research topics:" alone |
| ChatTools.AnalyzeTrendsText | supabase/functions/chat-with-deepseek/index.ts:126-137 | analyze_trends returns a non-empty text whenever it returns |
| ChatTools.GapsShown | supabase/functions/chat-with-deepseek/index.ts:150 | at most the first 10 gaps are listed |
| ChatTools.FindGapsCapped | supabase/functions/chat-with-deepseek/index.ts:149-150 | when gaps are found the text is the heading followed by at most the first ten gaps, one numbered line each, in ranking order |
| ChatTools.FindGapsText | supabase/functions/chat-with-deepseek/index.ts:139-151 | find_gaps returns a non-empty text whenever it returns |
| ChatTools.SampleSummary | supabase/functions/chat-with-deepseek/index.ts:165 | a sampled paper's summary is cut to its first 150 characters, and "No summary" stands for a missing one |
| ChatTools.RandomExploreText | supabase/functions/chat-with-deepseek/index.ts:153-167 | random_explore returns a non-empty text whenever it returns |
| ChatTools.ConnectionsShown | supabase/functions/chat-with-deepseek/index.ts:179 | at most the first 5 connections are listed |
| ChatTools.FindConnectionsCapped | supabase/functions/chat-with-deepseek/index.ts:178-183 | when connections are found the text is the heading followed by at most the first five pairs, one numbered entry each, in order |
| ChatTools.FindConnectionsText | supabase/functions/chat-with-deepseek/index.ts:169-184 | find_connections returns a non-empty text whenever it returns |
| ChatTools.KnownYears | supabase/functions/chat-with-deepseek/index.ts:193-207 | the known publication years are exactly the non-null years of the papers |
| ChatTools.DatabaseStatsText | supabase/functions/chat-with-deepseek/index.ts:186-223 | the overview returns a non-empty text whenever it returns |
| ChatTools.DatabaseStatsYears | supabase/functions/chat-with-deepseek/index.ts:193-207 | the overview's first and last years bound every paper's year, and both are missing exactly when no paper has a year |
| ChatTools.DecadeBreakdownEmpty | supabase/functions/chat-with-deepseek/index.ts:210-219 | the joined decade breakdown is empty, so the 'N/A' fallback applies, exactly when there are no decade rows |
| ChatTools.ExecuteTool | supabase/functions/chat-with-deepseek/index.ts:50-228 | `executeTool` returns a non-empty text whenever it returns, and an unrecognised name gets the "Unknown tool: <name>. Available: ..." text |
| ChatTools.RunTool | supabase/functions/chat-with-deepseek/index.ts:53-223 | every branch returns a non-empty text whenever it returns |
| ChatTools.AliasesAgree | supabase/functions/chat-with-deepseek/index.ts:75-187 | every alias reaches the same branch, with the same result, as the tool's first name |
| ChatTools.QueryOutcomesReported | supabase/functions/chat-with-deepseek/index.ts:67-176 | in each branch a database error gives "Error: <message>", no rows give the branch's fixed text, and a rejected promise escapes with its message |
| ChatTools.SearchesReportQuery | supabase/functions/chat-with-deepseek/index.ts:67-90 | the two searches report a database error, no rows and a rejected promise as the query outcome rule says |
| ChatTools.TrendsAndGapsReportQuery | supabase/functions/chat-with-deepseek/index.ts:132-147 | analyze_trends and find_gaps follow the same rule |
| ChatTools.SampleReportsQuery | supabase/functions/chat-with-deepseek/index.ts:160-161 | random_explore follows the same rule |
| ChatTools.ConnectionsReportQuery | supabase/functions/chat-with-deepseek/index.ts:175-176 | find_connections follows the same rule |
| ChatTools.OverviewIgnoresDatabaseErrors | supabase/functions/chat-with-deepseek/index.ts:186-211 | the overview reads a database error as no rows and fails only when one of its queries' promises is rejected |
| DatabaseBrowser.ApplyFilters | src/components/DatabaseBrowser.tsx:36-56 | the search pass and the decade pass together are one filter by both tests: the result keeps exactly the papers passing both filters, each as often as it occurs and in their order, and is all papers when no filter is active |
| DatabaseBrowser.SelectedDecadeFilter | src/components/DatabaseBrowser.tsx:48-208 | with decade d selected, a paper passes exactly when it has a truthy year y with d <= y < d + 10 |
| DatabaseBrowser.SearchFilterIgnoresCase | src/components/DatabaseBrowser.tsx:39-45 | a paper passes a search exactly when the query occurs, letter by letter and ignoring ASCII case, in its title, its summary or one of its topics |
| DatabaseBrowser.TruthyYearsSnoc | src/components/DatabaseBrowser.tsx:84-85 | one more paper adds its year to the tallied years exactly when the year is truthy |
| DatabaseBrowser.BuildYearCounts | src/components/DatabaseBrowser.tsx:83-88 | the loop's dictionary is the tally of the papers' truthy years |
| DatabaseBrowser.TallyNextPaper | src/components/DatabaseBrowser.tsx:84-87 | one turn of the loop extends the tally by the next paper |
| DatabaseBrowser.YearOccurrencesCountPapers | src/components/DatabaseBrowser.tsx:83-88 | how often a year is tallied is the number of papers published in it |
| DatabaseBrowser.TruthyYearsCount | src/components/DatabaseBrowser.tsx:83-88 | the number of tallied years is the number of papers with a truthy year |
| DatabaseBrowser.YearlyDataCounts | src/components/DatabaseBrowser.tsx:83-92 | each chart row counts the papers published in its year |
| DatabaseBrowser.YearlyDataYears | src/components/DatabaseBrowser.tsx:83-92 | the chart's years are strictly ascending, so each appears once, and are exactly the years some paper was published in |
| DatabaseBrowser.TruthyYearIffPublished | src/components/DatabaseBrowser.tsx:83-88 | a year is tallied exactly when some paper was published in it |
| DatabaseBrowser.YearlyDataTotal | src/components/DatabaseBrowser.tsx:83-92 | the chart's counts add up to the number of papers with a truthy year |
| DatabaseBrowser.DecadeOf | src/components/DatabaseBrowser.tsx:104 | `Math.floor(y / 10) * 10` is the multiple of ten d with d <= y < d + 10 |
| DatabaseBrowser.Decades | src/components/DatabaseBrowser.tsx:104 | the decades are strictly descending, so each appears once, and are exactly the decades of the papers' truthy years |
| DatabaseBrowser.OfferedDecades | src/components/DatabaseBrowser.tsx:203 | the decade buttons are the first min(5, n) decades, and each is more recent than every decade left out |
| DatabaseBrowser.ToggleTwice | src/components/DatabaseBrowser.tsx:208 | clicking a decade twice, from no selection or from that decade, returns to where it started |
| DatabaseBrowser.ToggleSelects | src/components/DatabaseBrowser.tsx:208 | clicking the selected decade clears the selection; clicking another one selects it, and the filter then keeps exactly that decade's papers |
| DatabaseBrowser.DisplayCap | src/components/DatabaseBrowser.tsx:224-264 | at most the first 50 filtered papers are listed, and the overflow notice appears exactly when some filtered paper is not listed |
| TagsManager.FilterTags | src/components/AITagsManager.tsx:20-30 | an empty search term keeps all topics; otherwise the result is the order-preserving subsequence holding exactly the topics whose label contains the term, each as often as it occurs |
| TagsManager.TagFilterIgnoresCase | src/components/AITagsManager.tsx:23-25 | a topic passes a non-empty search exactly when the term occurs in its label ignoring ASCII case |
| TagsManager.AboveIffCrossMultiplied | src/components/AITagsManager.tsx:59-62 | comparing count / maxCount with a threshold in tenths is the same as the integer comparison 10 * count > tenths * maxCount |
| TagsManager.GetTagSizeMatchesRatio | src/components/AITagsManager.tsx:58-64 | the integer size class is the class of the real ratio under the strict thresholds 0.7, 0.4 and 0.2 |
| TagsManager.GetTagSizeMonotone | src/components/AITagsManager.tsx:58-64 | a larger count never gets a smaller class |
| TagsManager.ThresholdsAreStrict | src/components/AITagsManager.tsx:60-63 | a ratio exactly on a threshold falls into the class below it |
| TagsManager.MaxCount | src/components/AITagsManager.tsx:77 | `maxCount` is at least 1, and is the first topic's count when that is positive |
| TagsManager.MaxCountBoundsRanked | src/components/AITagsManager.tsx:77 | on a ranked list no count exceeds `maxCount`, and the most popular topic is drawn largest |
| TagsManager.CloudTags | src/components/AITagsManager.tsx:153 | the cloud shows a prefix of at most 100 filtered topics, all of them when there are no more than 100 |
| TagsManager.TopTags | src/components/AITagsManager.tsx:224 | the top list is a prefix of at most 10 topics, exactly 10 when there are that many |
| TagsManager.SelectedCount | src/components/AITagsManager.tsx:187 | the badge shows the count of the first topic with the selected label, or 0 when none has it |
| TagsManager.AveragePerTopic | src/components/AITagsManager.tsx:124 | the average papers per topic is the rounded quotient of the total by the number of topics, and `NaN` (none) when there are no topics |
| YearHistogram.EmptyTally | src/components/ResearchAnalytics.tsx:40-43 | the empty object is the tally of no years |
| YearHistogram.TallyStep | src/components/ResearchAnalytics.tsx:41 | `acc[y] = (acc[y] \|\| 0) + 1` turns the tally of the years so far into the tally with y added |
| YearHistogram.ChartOf | src/components/ResearchAnalytics.tsx:45-46 | one row per key, in key order, carrying that key's count |
| YearHistogram.ChartData | src/components/ResearchAnalytics.tsx:45-47 | the chart rows are in strictly ascending year order, one per key of the tally, each carrying its key's count |
| YearHistogram.ChartOfTally | src/components/ResearchAnalytics.tsx:40-47 | the chart built from a tally has one row per distinct year, counting that year's occurrences |
| YearHistogram.ChartTotal | src/components/ResearchAnalytics.tsx:40-47 | the chart's counts add up to the number of years tallied |
| ResearchAnalytics.TallyYears | src/components/ResearchAnalytics.tsx:40-43 | the `reduce` builds the tally of the year rows |
| ResearchAnalytics.TopEntities | src/components/ResearchAnalytics.tsx:56-57 | the topic list is a prefix of at most 20 entity stats, exactly 20 when there are that many, and empty when the stats are null |
| ResearchAnalytics.YearRange | src/components/ResearchAnalytics.tsx:61 | the label is "<min>-<max>" when the range query returned a row, else "N/A" |
| ResearchAnalytics.YearRangeNotApplicable | src/components/ResearchAnalytics.tsx:61 | the label is "N/A" exactly when the range query returned no row |
| ResearchAnalytics.YearRangeStartsWithMin | src/components/ResearchAnalytics.tsx:61 | a rendered range starts with the earliest year |
| ResearchAnalytics.AveragePerYear | src/components/ResearchAnalytics.tsx:140 | the per-year average is 0 when there are no chart rows, and the rounded quotient of the paper count by the number of rows otherwise |
| ResearchAnalytics.FetchAnalytics | src/components/ResearchAnalytics.tsx:20-62 | the page data: the paper count or 0, the year-range label, chart rows strictly ascending by year with one row per distinct year, each counting that year's rows and adding up to the number of rows, the decade rows or none, and the first 20 topics |
| Text.LowerContainsIffCaseless | src/components/DatabaseBrowser.tsx:40-44 | searching a lower-cased string for a lower-case needle finds exactly the letter-by-letter, case-ignoring occurrences |
| Text.ContainsIffOccurs | src/components/AITagsManager.tsx:24 | `includes` finds the needle exactly when it occurs at some index |
| Text.ParseIntRoundTrip | src/components/DatabaseBrowser.tsx:49 | `parseInt(String(n))` is n, so a decade stored as text and a year key read back as the number they came from |
| Seqs.Slice0 | src/components/DatabaseBrowser.tsx:203 | `slice(0, n)` is the prefix of length min(n, length) |
| Seqs.FilterSpec | src/components/DatabaseBrowser.tsx:41-52 | `filter` keeps exactly the accepted elements, in order, as a subsequence |
| Seqs.FilterTwice | src/components/DatabaseBrowser.tsx:37-53 | filtering a filtered list keeps what both tests accept, in one pass |
| Seqs.FilterCounts | src/components/DatabaseBrowser.tsx:41-52 | `filter` keeps an accepted element as often as it occurs |
| Seqs.SortedAsc | src/components/ResearchAnalytics.tsx:47 | sorting distinct years lists each once, strictly ascending |
| Seqs.Least | supabase/functions/chat-with-deepseek/index.ts:193-199 | the earliest year is the smallest element, none for an empty list |
| Seqs.Greatest | supabase/functions/chat-with-deepseek/index.ts:201-207 | the latest year is the largest element, none for an empty list |
| JsMath.RoundedQuotient | src/components/ResearchAnalytics.tsx:140 | `Math.round(total / n)` is the integer within one half of the quotient |

## Left out

- Every database query, RPC, embedding request and the upstream `fetch` is outside the model, and so is similarity search and the streamed byte body. They are inputs (`ChatTools.Backend`, the handler's `fetch` parameter, the components' loaded rows).
- Creating the database and model clients (`SUPABASE_URL`, the service key) is not modelled. Neither is reading the two database counts; the counts are inputs.
- The client IP (index.ts line 16) is not modelled: it is computed and never used.
- The wording of the prompt's response rules is the `rules` parameter of `ChatHandler.SystemPrompt`. Only its place in the prompt is stated.
- CORS headers and `console.log` output are not modelled. The same headers go on every response.
- ChatHandler.Respond: the text of errors the runtime raises is not modelled. This covers invalid JSON, reading `content` of `null` or `undefined`, a last message that is not a string, a failed `fetch`, and a chunk without content. These are `RuntimeMessage`; only the messages the function chooses are modelled word for word.
- ChatHandler.Respond: an element of `messages` is read only through its `role` and `content`. An element that is neither `null` nor an object counts as one whose content is not a string. The other fields of the elements go upstream unchanged and are not modelled. A `messages` object with a numeric `length` and indexed entries is read as no list.
- `toLowerCase` maps ASCII letters only, so letters outside ASCII with case mappings (such as 'İ') are not lower-cased. Strings are sequences of characters, not UTF-16 code units, so the 200-, 150- and 50-character cuts count characters.
- TagsManager.AveragePerTopic and ResearchAnalytics.AveragePerYear state `Math.round` of a quotient as integer bounds. Floating-point rounding of large values is not modelled. `parseInt` precision beyond 2^53 is not modelled either.
- The overview's `topTopics` (index.ts line 190) is computed and never shown, so it is not modelled.
- The stat cards are not modelled:
  - the browser's (DatabaseBrowser.tsx lines 63-71);
  - the topic manager's "Most Popular" (lines 105-110);
  - the analytics page's "Unique Tags" count (line 125, the length of `ResearchAnalytics.TopEntities`, so at most 20).
  They only show lengths and first elements.
- The `try`/`catch` and loading flags of the components are not modelled. The clicked topic's paper list (AITagsManager.tsx lines 45-56) is a query with a limit and is not modelled.
- JSX, charts, icons, clipboard and the other components (the chat interface, paper search, landing page, sidebar) are outside the model.
