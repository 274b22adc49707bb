/** The keyword intent router of the chat function: the last user message is
    lower-cased, six keyword groups are matched against it independently, and
    the text of the tool each matching group names is appended to the
    context in a fixed order; a search pair is appended when nothing else
    was, or when the message asks for a search. */
module ChatRouter {
  import opened Wrappers
  import opened Text
  import opened Seqs
  import opened ChatTools

  // ---------------------------------------------------------------------
  // Keyword groups

  /** `words.some(w => s.includes(w))`, as the `||` chains test them. */
  predicate HasAny(s: string, words: seq<string>) {
    exists i :: 0 <= i < |words| && Contains(s, words[i])
  }

  const OverviewWords: seq<string> := ["overview", "database", "how many papers"]
  const TopicWords: seq<string> := ["topic", "research area", "what are"]
  const TrendWords: seq<string> := ["trend", "evolve", "over time", "over the years"]
  const GapWords: seq<string> := ["gap", "understudied", "missing", "unexplored"]
  const ConnectionWords: seq<string> := ["connection", "connect", "link", "hidden"]
  const ExploreWords: seq<string> := ["surprise", "insight", "interesting", "random", "explore"]
  const SearchWords: seq<string> := ["search", "find", "papers about", "research on"]

  /** Which keyword groups a lower-cased message hits. */
  datatype Intent = Intent(overview: bool, topics: bool, trends: bool, gaps: bool,
                           connections: bool, explore: bool, search: bool)
  {
    /** Some group before the search pair matches. */
    predicate AnyGroup() {
      overview || topics || trends || gaps || connections || explore
    }

    /** The search pair is appended: no other group matched, or a search
        word occurs. */
    predicate Fallback() {
      !AnyGroup() || search
    }
  }

  function IntentOf(lower: string): Intent {
    Intent(HasAny(lower, OverviewWords), HasAny(lower, TopicWords), HasAny(lower, TrendWords),
           HasAny(lower, GapWords), HasAny(lower, ConnectionWords), HasAny(lower, ExploreWords),
           HasAny(lower, SearchWords))
  }

  // ---------------------------------------------------------------------
  // The trend topic

  /** The pattern `(?:trend|evolution|evolve|research)\s+(?:for|of|on|in)?\s*(\w+)`
      with the `i` flag, run on the lower-cased message, reduced by hand to
      what its backtracking can produce:
      - at most one keyword alternative matches at a position (their first
        letters differ, and "evolution"/"evolve" differ at the fifth);
      - `\s+` is greedy; giving back blanks leaves a blank at the next
        position, where neither a preposition nor `\w` can start, so only
        the longest run of blanks can lead to a match;
      - the optional preposition tries "for", "of", "on", "in" and then
        nothing, and keeps the first choice after which `\s*(\w+)` matches;
      - `\s*` likewise takes all blanks, and `(\w+)`, the last item, takes
        the longest run of word characters.
      The first position (from the left) where this succeeds gives the
      capture. */
  const TrendKeywords: seq<string> := ["trend", "evolution", "evolve", "research"]
  const Prepositions: seq<string> := ["for", "of", "on", "in"]

  /** The end of the first keyword alternative that occurs at `p`, if any. */
  function KeywordEnd(s: string, p: nat, keywords: seq<string>): (r: Option<nat>)
    requires p <= |s|
    ensures r.Some? ==> p <= r.value <= |s|
    ensures r.Some? ==> exists i :: 0 <= i < |keywords| && r.value == p + |keywords[i]| && OccursAt(s, keywords[i], p)
    ensures r.None? ==> forall i :: 0 <= i < |keywords| ==> !OccursAt(s, keywords[i], p)
    decreases |keywords|
  {
    if keywords == [] then None
    else if OccursAt(s, keywords[0], p) then Some(p + |keywords[0]|)
    else
      var r := KeywordEnd(s, p, keywords[1..]);
      assert forall i :: 1 <= i < |keywords| ==> keywords[i] == keywords[1..][i - 1];
      r
  }

  /** `\s*(\w+)` from `r`: the run of word characters after the run of
      blanks, when it is not empty. */
  function WordAfterBlanks(s: string, r: nat): (w: Option<string>)
    requires r <= |s|
    ensures w.Some? ==> |w.value| > 0 && forall k :: 0 <= k < |w.value| ==> IsWordChar(w.value[k])
    ensures w.Some? ==> exists i :: r <= i && OccursAt(s, w.value, i)
    ensures w.Some? <==> r + RunLength(s, r, IsSpace) < |s| && IsWordChar(s[r + RunLength(s, r, IsSpace)])
  {
    var start := r + RunLength(s, r, IsSpace);
    var n := RunLength(s, start, IsWordChar);
    if n > 0 then
      var w := s[start..start + n];
      assert OccursAt(s, w, start);
      assert forall k :: 0 <= k < n ==> w[k] == s[start + k];
      Some(w)
    else None
  }

  predicate AllWordChars(s: string) {
    forall k :: 0 <= k < |s| ==> IsWordChar(s[k])
  }

  /** `(?:for|of|on|in)?\s*(\w+)` from `q`: the first preposition after
      which a word follows, else no preposition. */
  function AfterPreposition(s: string, q: nat, words: seq<string>): (w: Option<string>)
    requires q <= |s|
    ensures w.Some? ==> |w.value| > 0 && AllWordChars(w.value) && exists i :: q <= i && OccursAt(s, w.value, i)
    decreases |words|
  {
    if words == [] then WordAfterBlanks(s, q)
    else if OccursAt(s, words[0], q) && WordAfterBlanks(s, q + |words[0]|).Some? then
      WordAfterBlanks(s, q + |words[0]|)
    else AfterPreposition(s, q, words[1..])
  }

  /** `\s+(?:for|of|on|in)?\s*(\w+)` from the end `e` of a keyword. */
  function AfterKeyword(s: string, e: nat): (w: Option<string>)
    requires e <= |s|
    ensures w.Some? ==> |w.value| > 0 && AllWordChars(w.value) && exists i :: e <= i && OccursAt(s, w.value, i)
  {
    var n := RunLength(s, e, IsSpace);
    if n == 0 then None else AfterPreposition(s, e + n, Prepositions)
  }

  /** The capture of the first match starting at or after `p`. */
  function TrendMatchFrom(s: string, p: nat): (w: Option<string>)
    requires p <= |s|
    ensures w.Some? ==> |w.value| > 0 && AllWordChars(w.value) && exists i :: p <= i && OccursAt(s, w.value, i)
    decreases |s| - p
  {
    var here := KeywordEnd(s, p, TrendKeywords);
    if here.Some? && AfterKeyword(s, here.value).Some? then AfterKeyword(s, here.value)
    else if p < |s| then TrendMatchFrom(s, p + 1)
    else None
  }

  /** `topicMatch ? topicMatch[1] : 'DNA'`. */
  function TrendTopic(lower: string): (topic: string)
    ensures topic == "DNA" || (|topic| > 0 && AllWordChars(topic) && exists i :: OccursAt(lower, topic, i))
  {
    TrendMatchFrom(lower, 0).GetOr("DNA")
  }

  /** At least one blank from `e`, then a word character. */
  predicate BlanksThenWord(s: string, e: nat)
    requires e <= |s|
  {
    var n := RunLength(s, e, IsSpace);
    n > 0 && e + n < |s| && IsWordChar(s[e + n])
  }

  /** A keyword at `p`, then at least one blank, then a word character. */
  predicate KeywordThenWord(s: string, p: nat)
    requires p <= |s|
  {
    var here := KeywordEnd(s, p, TrendKeywords);
    here.Some? && BlanksThenWord(s, here.value)
  }

  /** Giving up the preposition is always possible, so the optional group
      succeeds exactly when a word starts at `q` (a preposition starts with
      a word character). */
  lemma {:induction false} AfterPrepositionSucceeds(s: string, q: nat, words: seq<string>)
    requires q <= |s| && (q < |s| ==> !IsSpace(s[q]))
    requires forall i :: 0 <= i < |words| ==> |words[i]| > 0 && IsWordChar(words[i][0])
    ensures AfterPreposition(s, q, words).Some? <==> q < |s| && IsWordChar(s[q])
    decreases |words|
  {
    assert RunLength(s, q, IsSpace) == 0;
    if words != [] {
      if OccursAt(s, words[0], q) {
        assert s[q] == s[q..q + |words[0]|][0] == words[0][0];
      }
      AfterPrepositionSucceeds(s, q, words[1..]);
    }
  }

  lemma PrepositionsStartWithWordChar()
    ensures forall i :: 0 <= i < |Prepositions| ==> |Prepositions[i]| > 0 && IsWordChar(Prepositions[i][0])
  {
    assert Prepositions[0][0] == 'f' && Prepositions[1][0] == 'o' && Prepositions[2][0] == 'o' && Prepositions[3][0] == 'i';
  }

  /** After a keyword, the rest of the pattern matches exactly when blanks
      and a word character follow. */
  lemma AfterKeywordSucceeds(s: string, e: nat)
    requires e <= |s|
    ensures AfterKeyword(s, e).Some? <==> BlanksThenWord(s, e)
  {
    var n := RunLength(s, e, IsSpace);
    if n > 0 {
      PrepositionsStartWithWordChar();
      AfterPrepositionSucceeds(s, e + n, Prepositions);
    }
  }

  /** The pattern matches from `p` on exactly when some keyword at or after
      `p` is followed by blanks and a word character. */
  lemma {:induction false} TrendMatchIffKeywordThenWord(s: string, p: nat)
    requires p <= |s|
    ensures TrendMatchFrom(s, p).Some? <==> exists k :: p <= k <= |s| && KeywordThenWord(s, k)
    decreases |s| - p
  {
    var here := KeywordEnd(s, p, TrendKeywords);
    if here.Some? {
      AfterKeywordSucceeds(s, here.value);
    }
    if !KeywordThenWord(s, p) {
      if p < |s| {
        TrendMatchIffKeywordThenWord(s, p + 1);
        assert forall k :: p <= k <= |s| && KeywordThenWord(s, k) ==> p + 1 <= k;
      } else {
        assert forall k :: p <= k <= |s| && KeywordThenWord(s, k) ==> k == p;
      }
    }
  }

  /** The default "DNA" is used exactly when the pattern does not match
      (`TrendMatchIffKeywordThenWord` says when that is): a capture is taken
      from the lower-cased message, so it is never "DNA". */
  lemma TrendTopicDefault(lower: string)
    requires NoUpperAscii(lower)
    ensures TrendTopic(lower) == "DNA" <==> TrendMatchFrom(lower, 0).None?
  {
    var m := TrendMatchFrom(lower, 0);
    if m.Some? {
      var i :| 0 <= i && OccursAt(lower, m.value, i);
      assert m.value[0] == lower[i];
      assert m.value != "DNA";
    }
  }

  /** "trend online": the preposition "on" is taken from the start of the
      next word, and the topic is "line". */
  lemma TrendOnlineCapturesLine()
    ensures TrendTopic("trend online") == "line"
  {
    var s := "trend online";
    assert OccursAt(s, "trend", 0);
    assert KeywordEnd(s, 0, TrendKeywords) == Some(5);
    OnlineAfterKeyword();
  }

  lemma OnlineAfterKeyword()
    ensures AfterKeyword("trend online", 5) == Some("line")
  {
    var s := "trend online";
    WordCharNotSpace(s[6]);
    assert IsSpace(s[5]);
    assert RunLength(s, 6, IsSpace) == 0;
    assert RunLength(s, 5, IsSpace) == 1;
    OnlinePreposition();
  }

  /** "for" and "of" do not occur after the blank, "on" does and leaves
      "line". */
  lemma OnlinePreposition()
    ensures AfterPreposition("trend online", 6, Prepositions) == Some("line")
  {
    var s := "trend online";
    OnlineWord();
    assert AfterPreposition(s, 6, ["on", "in"]) == Some("line") by {
      assert s[6..8] == "on";
    }
    assert AfterPreposition(s, 6, ["of", "on", "in"]) == AfterPreposition(s, 6, ["on", "in"]) by {
      assert s[6..8] != "of" by { assert s[6..8][1] == 'n'; }
      assert ["of", "on", "in"][1..] == ["on", "in"];
    }
    assert s[6..9] != "for" by { assert s[6..9][0] == 'o'; }
    assert Prepositions[1..] == ["of", "on", "in"];
  }

  lemma OnlineWord()
    ensures WordAfterBlanks("trend online", 8) == Some("line")
  {
    var s := "trend online";
    WordCharNotSpace(s[8]);
    assert RunLength(s, 8, IsSpace) == 0;
    assert RunLength(s, 8, IsWordChar) == 4;
    assert s[8..12] == "line";
  }

  // ---------------------------------------------------------------------
  // The plan

  /** One `executeTool` call of the router: the tool, its arguments and the
      text put before its result. */
  datatype ToolCall = ToolCall(name: string, args: ToolArgs, heading: string)

  function Step(on: bool, call: ToolCall): seq<ToolCall> {
    if on then [call] else []
  }

  const OverviewCall := ToolCall("database_stats", NoArgs, "")
  const TopicsCall := ToolCall("list_topics", NoArgs.(limit := Some(10)), "")
  const GapsCall := ToolCall("find_gaps", NoArgs, "")
  const ConnectionsCall := ToolCall("find_connections", NoArgs, "")
  const ExploreCall := ToolCall("random_explore", NoArgs.(count := Some(5)), "")

  function TrendsCall(topic: string): ToolCall {
    ToolCall("analyze_trends", NoArgs.(topic := Some(topic)), "")
  }

  function SemanticSearch(userMessage: string): ToolCall {
    ToolCall("search_papers", NoArgs.(query := Some(userMessage), limit := Some(5)), "SEMANTIC SEARCH RESULTS:\n")
  }

  function FullTextSearch(userMessage: string): ToolCall {
    ToolCall("search_content", NoArgs.(query := Some(userMessage), limit := Some(3)), "FULL TEXT SEARCH:\n")
  }

  function Searches(on: bool, userMessage: string): seq<ToolCall> {
    if on then [SemanticSearch(userMessage), FullTextSearch(userMessage)] else []
  }

  /** The calls made for an intent, in the router's fixed order. */
  function Calls(intent: Intent, topic: string, userMessage: string): seq<ToolCall> {
    Step(intent.overview, OverviewCall) +
    (Step(intent.topics, TopicsCall) +
    (Step(intent.trends, TrendsCall(topic)) +
    (Step(intent.gaps, GapsCall) +
    (Step(intent.connections, ConnectionsCall) +
    (Step(intent.explore, ExploreCall) +
    Searches(intent.Fallback(), userMessage))))))
  }

  /** The calls the router makes for a lower-cased message. */
  function Plan(lower: string, userMessage: string): seq<ToolCall> {
    Calls(IntentOf(lower), TrendTopic(lower), userMessage)
  }

  /** `executeTool` as the router sees it: a closure over the user's message
      and the clients, from a tool name and arguments to its outcome. */
  type Executor = (string, ToolArgs) -> ToolOutcome

  /** The context the calls build from `context`: each result is appended
      after its heading and followed by a blank line; the first call that
      throws ends the run with its error. */
  function RunCalls(context: string, calls: seq<ToolCall>, exec: Executor): ToolOutcome
    decreases |calls|
  {
    if calls == [] then Done(context)
    else
      match exec(calls[0].name, calls[0].args)
      case Raised(f) => Raised(f)
      case Done(text) => RunCalls(context + calls[0].heading + text + "\n\n", calls[1..], exec)
  }

  lemma RunStep(context: string, on: bool, call: ToolCall, rest: seq<ToolCall>, exec: Executor)
    ensures RunCalls(context, Step(on, call) + rest, exec) ==
            if !on then RunCalls(context, rest, exec)
            else match exec(call.name, call.args)
                 case Raised(f) => Raised(f)
                 case Done(text) => RunCalls(context + call.heading + text + "\n\n", rest, exec)
  {
    if on {
      assert (Step(on, call) + rest)[1..] == rest;
    } else {
      assert Step(on, call) + rest == rest;
    }
  }

  lemma RunPair(context: string, first: ToolCall, second: ToolCall, exec: Executor)
    ensures RunCalls(context, [first, second], exec) ==
            match exec(first.name, first.args)
            case Raised(f) => Raised(f)
            case Done(text) =>
              match exec(second.name, second.args)
              case Raised(f) => Raised(f)
              case Done(text2) => Done(context + first.heading + text + "\n\n" + second.heading + text2 + "\n\n")
  {
    assert [first, second] == Step(true, first) + [second];
    RunStep(context, true, first, [second], exec);
    match exec(first.name, first.args)
    case Raised(f) =>
    case Done(text) =>
      var next := context + first.heading + text + "\n\n";
      assert [second] == Step(true, second) + [];
      RunStep(next, true, second, [], exec);
  }

  /** One group of the router: `if (on) context += heading + await
      executeTool(name, args) + "\n\n"`. The context so far is `acc`; once a
      call has thrown, `acc` is its error and every later group is skipped.
      What is left of the plan after this group is `rest`. */
  method AppendIf(acc: ToolOutcome, on: bool, call: ToolCall, ghost rest: seq<ToolCall>, exec: Executor)
    returns (next: ToolOutcome)
    ensures acc.Raised? ==> next == acc
    ensures acc.Done? && next.Raised? ==> next == RunCalls(acc.text, Step(on, call) + rest, exec)
    ensures acc.Done? && next.Done? ==> RunCalls(next.text, rest, exec) == RunCalls(acc.text, Step(on, call) + rest, exec)
    ensures acc.Done? && next.Done? ==> (next.text == "" <==> acc.text == "" && !on)
  {
    next := acc;
    if acc.Done? {
      RunStep(acc.text, on, call, rest, exec);
      if on {
        var r := exec(call.name, call.args);
        if r.Raised? {
          next := r;
        } else {
          next := Done(acc.text + call.heading + r.text + "\n\n");
        }
      }
    }
  }

  /** The search pair: `if (context === "" || <a search word>)` appends the
      semantic search and then the full-text search, each after its heading. */
  method AppendSearches(context: string, on: bool, userMessage: string, exec: Executor)
    returns (next: ToolOutcome)
    ensures next == RunCalls(context, Searches(on, userMessage), exec)
  {
    next := Done(context);
    if on {
      RunPair(context, SemanticSearch(userMessage), FullTextSearch(userMessage), exec);
      var r := exec("search_papers", NoArgs.(query := Some(userMessage), limit := Some(5)));
      if r.Raised? {
        return r;
      }
      var more := context + "SEMANTIC SEARCH RESULTS:\n" + r.text + "\n\n";
      var r2 := exec("search_content", NoArgs.(query := Some(userMessage), limit := Some(3)));
      if r2.Raised? {
        return r2;
      }
      next := Done(more + "FULL TEXT SEARCH:\n" + r2.text + "\n\n");
    }
  }

  /** The router as written: `context` starts empty and grows under each
      group's test, and the search pair is guarded by `context === ""`. */
  method AssembleContext(userMessage: string, exec: Executor) returns (out: ToolOutcome)
    ensures out == RunCalls("", Plan(Lower(userMessage), userMessage), exec)
  {
    var lowerQuery := Lower(userMessage);
    out := RunGroups(IntentOf(lowerQuery), TrendTopic(lowerQuery), userMessage, exec);
  }

  /** The groups' appends, given the outcome of each group's test and the
      trend topic. */
  method RunGroups(intent: Intent, topic: string, userMessage: string, exec: Executor) returns (out: ToolOutcome)
    ensures out == RunCalls("", Calls(intent, topic, userMessage), exec)
  {
    // What is left of the plan after each group.
    ghost var searches := Searches(intent.Fallback(), userMessage);
    ghost var after5 := Step(intent.explore, ExploreCall) + searches;
    ghost var after4 := Step(intent.connections, ConnectionsCall) + after5;
    ghost var after3 := Step(intent.gaps, GapsCall) + after4;
    ghost var after2 := Step(intent.trends, TrendsCall(topic)) + after3;
    ghost var after1 := Step(intent.topics, TopicsCall) + after2;

    var context := Done("");
    var step := AppendIf(context, intent.overview, OverviewCall, after1, exec);
    step := AppendIf(step, intent.topics, TopicsCall, after2, exec);
    step := AppendIf(step, intent.trends, TrendsCall(topic), after3, exec);
    step := AppendIf(step, intent.gaps, GapsCall, after4, exec);
    step := AppendIf(step, intent.connections, ConnectionsCall, after5, exec);
    step := AppendIf(step, intent.explore, ExploreCall, searches, exec);
    context := step;
    if context.Raised? {
      return context;
    }
    out := AppendSearches(context.text, context.text == "" || intent.search, userMessage, exec);
  }

  // ---------------------------------------------------------------------
  // Properties of the plan

  /** Every tool the router can call, in the order its groups are matched. */
  const RouterOrder: seq<string> := ["database_stats", "list_topics", "analyze_trends", "find_gaps",
                                     "find_connections", "random_explore", "search_papers", "search_content"]

  function NamesOf(calls: seq<ToolCall>): (r: seq<string>)
    ensures |r| == |calls| && forall k :: 0 <= k < |calls| ==> r[k] == calls[k].name
  {
    seq(|calls|, k requires 0 <= k < |calls| => calls[k].name)
  }

  /** Whether an intent calls the tool of that name. */
  predicate Wanted(intent: Intent, name: string) {
    (name == "database_stats" && intent.overview) ||
    (name == "list_topics" && intent.topics) ||
    (name == "analyze_trends" && intent.trends) ||
    (name == "find_gaps" && intent.gaps) ||
    (name == "find_connections" && intent.connections) ||
    (name == "random_explore" && intent.explore) ||
    ((name == "search_papers" || name == "search_content") && intent.Fallback())
  }

  /** Which tool of the router's order each group calls. */
  lemma WantedNames(intent: Intent)
    ensures Wanted(intent, "database_stats") == intent.overview
    ensures Wanted(intent, "list_topics") == intent.topics
    ensures Wanted(intent, "analyze_trends") == intent.trends
    ensures Wanted(intent, "find_gaps") == intent.gaps
    ensures Wanted(intent, "find_connections") == intent.connections
    ensures Wanted(intent, "random_explore") == intent.explore
    ensures Wanted(intent, "search_papers") == intent.Fallback()
    ensures Wanted(intent, "search_content") == intent.Fallback()
  {
  }

  lemma FilterStep<T>(x: T, s: seq<T>, keep: T -> bool)
    ensures Filter([x] + s, keep) == (if keep(x) then [x] else []) + Filter(s, keep)
  {
    assert ([x] + s)[1..] == s;
  }

  /** One group's step keeps its tool's name exactly when the group is on. */
  lemma StepNames(on: bool, call: ToolCall, rest: seq<ToolCall>, names: seq<string>, keep: string -> bool)
    requires |names| > 0 && names[0] == call.name && keep(call.name) == on
    requires NamesOf(rest) == Filter(names[1..], keep)
    ensures NamesOf(Step(on, call) + rest) == Filter(names, keep)
  {
    FilterStep(names[0], names[1..], keep);
    assert names == [names[0]] + names[1..];
    assert NamesOf(Step(on, call) + rest) == (if on then [call.name] else []) + NamesOf(rest);
  }

  /** The last groups and the search pair keep the last names of the order. */
  lemma TailFollowsRouterOrder(intent: Intent, userMessage: string, keep: string -> bool)
    requires keep("find_connections") == intent.connections && keep("random_explore") == intent.explore
    requires keep("search_papers") == intent.Fallback() && keep("search_content") == intent.Fallback()
    ensures NamesOf(Step(intent.connections, ConnectionsCall) + (Step(intent.explore, ExploreCall) +
                    Searches(intent.Fallback(), userMessage))) == Filter(RouterOrder[4..], keep)
  {
    var on := intent.Fallback();
    var last := Step(on, FullTextSearch(userMessage)) + [];
    var searches := Step(on, SemanticSearch(userMessage)) + last;
    assert searches == Searches(on, userMessage);
    StepNames(on, FullTextSearch(userMessage), [], RouterOrder[7..], keep);
    StepNames(on, SemanticSearch(userMessage), last, RouterOrder[6..], keep);
    StepNames(intent.explore, ExploreCall, searches, RouterOrder[5..], keep);
    StepNames(intent.connections, ConnectionsCall, Step(intent.explore, ExploreCall) + searches, RouterOrder[4..], keep);
  }

  /** From the gaps group on, the calls keep the names of the order from
      "find_gaps" on. */
  lemma FromGapsFollowsRouterOrder(intent: Intent, userMessage: string, keep: string -> bool)
    requires keep("find_gaps") == intent.gaps
    requires keep("find_connections") == intent.connections && keep("random_explore") == intent.explore
    requires keep("search_papers") == intent.Fallback() && keep("search_content") == intent.Fallback()
    ensures NamesOf(Step(intent.gaps, GapsCall) + (Step(intent.connections, ConnectionsCall) +
                    (Step(intent.explore, ExploreCall) + Searches(intent.Fallback(), userMessage)))) ==
            Filter(RouterOrder[3..], keep)
  {
    TailFollowsRouterOrder(intent, userMessage, keep);
    var after4 := Step(intent.connections, ConnectionsCall) + (Step(intent.explore, ExploreCall) + Searches(intent.Fallback(), userMessage));
    assert RouterOrder[3..][1..] == RouterOrder[4..];
    StepNames(intent.gaps, GapsCall, after4, RouterOrder[3..], keep);
  }

  /** From the trends group on, the calls keep the names of the order from
      "analyze_trends" on. */
  lemma FromTrendsFollowsRouterOrder(intent: Intent, topic: string, userMessage: string, keep: string -> bool)
    requires keep("analyze_trends") == intent.trends && keep("find_gaps") == intent.gaps
    requires keep("find_connections") == intent.connections && keep("random_explore") == intent.explore
    requires keep("search_papers") == intent.Fallback() && keep("search_content") == intent.Fallback()
    ensures NamesOf(Step(intent.trends, TrendsCall(topic)) + (Step(intent.gaps, GapsCall) +
                    (Step(intent.connections, ConnectionsCall) +
                    (Step(intent.explore, ExploreCall) + Searches(intent.Fallback(), userMessage))))) ==
            Filter(RouterOrder[2..], keep)
  {
    FromGapsFollowsRouterOrder(intent, userMessage, keep);
    var after3 := Step(intent.gaps, GapsCall) + (Step(intent.connections, ConnectionsCall) +
                    (Step(intent.explore, ExploreCall) + Searches(intent.Fallback(), userMessage)));
    assert RouterOrder[2..][1..] == RouterOrder[3..];
    StepNames(intent.trends, TrendsCall(topic), after3, RouterOrder[2..], keep);
  }

  /** The calls of an intent are the router's tools in their fixed order,
      keeping those the intent wants. */
  lemma CallsFollowRouterOrder(intent: Intent, topic: string, userMessage: string)
    ensures NamesOf(Calls(intent, topic, userMessage)) == Filter(RouterOrder, n => Wanted(intent, n))
  {
    var keep := n => Wanted(intent, n);
    WantedNames(intent);
    FromTrendsFollowsRouterOrder(intent, topic, userMessage, keep);
    var after2 := Step(intent.trends, TrendsCall(topic)) + (Step(intent.gaps, GapsCall) +
                    (Step(intent.connections, ConnectionsCall) +
                    (Step(intent.explore, ExploreCall) + Searches(intent.Fallback(), userMessage))));
    var after1 := Step(intent.topics, TopicsCall) + after2;
    assert RouterOrder[1..][1..] == RouterOrder[2..];
    StepNames(intent.topics, TopicsCall, after2, RouterOrder[1..], keep);
    StepNames(intent.overview, OverviewCall, after1, RouterOrder, keep);
  }

  /** The router calls the tools of the groups a message hits, each once, in
      the fixed order, and the search pair exactly when nothing else was
      called or a search word occurs. */
  lemma PlanFollowsRouterOrder(lower: string, userMessage: string)
    ensures SubsequenceOf(NamesOf(Plan(lower, userMessage)), RouterOrder)
    ensures forall n :: n in NamesOf(Plan(lower, userMessage)) <==> n in RouterOrder && Wanted(IntentOf(lower), n)
  {
    CallsFollowRouterOrder(IntentOf(lower), TrendTopic(lower), userMessage);
    FilterSpec(RouterOrder, n => Wanted(IntentOf(lower), n));
  }

  lemma RouterOrderKnown()
    ensures forall k :: 0 <= k < |RouterOrder| ==> ToolNamed(RouterOrder[k]).Some?
  {
    assert ToolNamed(RouterOrder[0]) == Some(DatabaseStats);
    assert ToolNamed(RouterOrder[1]) == Some(ListTopics);
    assert ToolNamed(RouterOrder[2]) == Some(AnalyzeTrends);
    assert ToolNamed(RouterOrder[3]) == Some(FindGaps);
    assert ToolNamed(RouterOrder[4]) == Some(FindConnections);
    assert ToolNamed(RouterOrder[5]) == Some(RandomExplore);
    assert ToolNamed(RouterOrder[6]) == Some(SearchPapers);
    assert ToolNamed(RouterOrder[7]) == Some(SearchContent);
  }

  /** Every tool the router calls reaches a branch of `executeTool`, never
      the "Unknown tool" default. */
  lemma PlanToolsKnown(lower: string, userMessage: string)
    ensures forall c :: c in Plan(lower, userMessage) ==> ToolNamed(c.name).Some?
  {
    var plan := Plan(lower, userMessage);
    PlanFollowsRouterOrder(lower, userMessage);
    RouterOrderKnown();
    forall c | c in plan
      ensures ToolNamed(c.name).Some?
    {
      var i :| 0 <= i < |plan| && plan[i] == c;
      assert NamesOf(plan)[i] == c.name;
      assert c.name in NamesOf(plan);
    }
  }

  /** A message that hits no group gets the search pair alone. */
  lemma NoGroupSearchesOnly(lower: string, userMessage: string)
    requires !IntentOf(lower).AnyGroup()
    ensures Plan(lower, userMessage) == [SemanticSearch(userMessage), FullTextSearch(userMessage)]
  {
  }

  /** Every completed run appends to the context it starts from, at least a
      blank line per call. */
  lemma {:induction false} RunCallsExtends(context: string, calls: seq<ToolCall>, exec: Executor)
    ensures RunCalls(context, calls, exec).Done? ==>
              StartsWith(RunCalls(context, calls, exec).text, context) &&
              |RunCalls(context, calls, exec).text| >= |context| + 2 * |calls|
    decreases |calls|
  {
    if calls != [] {
      match exec(calls[0].name, calls[0].args)
      case Raised(f) =>
      case Done(text) =>
        var next := context + calls[0].heading + text + "\n\n";
        RunCallsExtends(next, calls[1..], exec);
        var r := RunCalls(context, calls, exec);
        if r.Done? {
          assert r.text[..|context|] == r.text[..|next|][..|context|];
        }
    }
  }

  /** The router always calls something, so a context it completes is never
      empty. */
  lemma ContextNeverEmpty(userMessage: string, exec: Executor)
    ensures |Plan(Lower(userMessage), userMessage)| > 0
    ensures RunCalls("", Plan(Lower(userMessage), userMessage), exec).Done? ==>
              |RunCalls("", Plan(Lower(userMessage), userMessage), exec).text| > 0
  {
    var lower := Lower(userMessage);
    PlanFollowsRouterOrder(lower, userMessage);
    WantedNames(IntentOf(lower));
    if IntentOf(lower).Fallback() {
      assert "search_papers" in RouterOrder;
      assert "search_papers" in NamesOf(Plan(lower, userMessage));
    } else if IntentOf(lower).overview {
      assert "database_stats" in NamesOf(Plan(lower, userMessage));
    } else if IntentOf(lower).topics {
      assert "list_topics" in NamesOf(Plan(lower, userMessage));
    } else if IntentOf(lower).trends {
      assert "analyze_trends" in NamesOf(Plan(lower, userMessage));
    } else if IntentOf(lower).gaps {
      assert "find_gaps" in NamesOf(Plan(lower, userMessage));
    } else if IntentOf(lower).connections {
      assert "find_connections" in NamesOf(Plan(lower, userMessage));
    } else {
      assert "random_explore" in NamesOf(Plan(lower, userMessage));
    }
    RunCallsExtends("", Plan(lower, userMessage), exec);
  }
}
