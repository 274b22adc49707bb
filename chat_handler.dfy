/** The HTTP handler of the chat function: the CORS preflight, the bot filter
    on the User-Agent header, reading the conversation, the two API keys,
    assembling the context, the streaming request to the chat-completion
    service, and the mapping of every thrown error to a 500 reply. Every
    response carries the same CORS headers, which are not modelled. */
module ChatHandler {
  import opened Wrappers
  import opened Text
  import opened ChatTools
  import opened ChatRouter

  // ---------------------------------------------------------------------
  // The bot filter

  /** The alternatives of `/bot|crawl|spider|scrape|wget|curl|python|headless|phantom|selenium/i`. */
  const BotPatterns: seq<string> :=
    ["bot", "crawl", "spider", "scrape", "wget", "curl", "python", "headless", "phantom", "selenium"]

  /** `botPatterns.test(userAgent)`: some alternative occurs in the header,
      ignoring case. */
  predicate Blocked(userAgent: string) {
    HasAny(Lower(userAgent), BotPatterns)
  }

  lemma BotPatternsLowerCase()
    ensures forall j :: 0 <= j < |BotPatterns| ==> NoUpperAscii(BotPatterns[j])
  {
    forall j | 0 <= j < |BotPatterns|
      ensures NoUpperAscii(BotPatterns[j])
    {
      assert forall k :: 0 <= k < |BotPatterns[j]| ==> 'a' <= BotPatterns[j][k] <= 'z';
    }
  }

  /** A header is blocked exactly when, letter for letter and ignoring ASCII
      case, one of the alternatives occurs in it. */
  lemma BlockedIffPatternIgnoringCase(userAgent: string)
    ensures Blocked(userAgent) <==>
            exists j, i :: 0 <= j < |BotPatterns| && 0 <= i && i + |BotPatterns[j]| <= |userAgent| &&
                           CaselessAt(userAgent, BotPatterns[j], i)
  {
    BotPatternsLowerCase();
    forall j | 0 <= j < |BotPatterns|
      ensures Contains(Lower(userAgent), BotPatterns[j]) <==>
              exists i :: 0 <= i && i + |BotPatterns[j]| <= |userAgent| && CaselessAt(userAgent, BotPatterns[j], i)
    {
      LowerContainsIffCaseless(userAgent, BotPatterns[j]);
    }
  }

  /** A request without a User-Agent header is matched as `''` and let through. */
  lemma MissingAgentAdmitted()
    ensures !Blocked("")
  {
    forall j | 0 <= j < |BotPatterns|
      ensures !Contains(Lower(""), BotPatterns[j])
    {
      assert |BotPatterns[j]| > 0;
    }
  }

  // ---------------------------------------------------------------------
  // Requests, the environment and responses

  /** An element of the conversation: a value read through its `role` and
      its `content` (`None` when that is not a string, as for an element
      that is itself a string or a number), or `null`, reading a property
      of which throws. */
  datatype ChatMessage = ChatMessage(role: string, content: Option<string>) | NullMessage

  /** The request body as `req.json()` and `{ messages }` read it: not a
      JSON object; a `messages` field that is neither a list nor a string
      (missing, `null`, a number, an object), whose element at
      `messages.length - 1` is `undefined`; a string, whose elements are
      its characters; or a list. */
  datatype Body = Unparsable | NoMessages | MessagesText(text: string) | Messages(list: seq<ChatMessage>)

  datatype Request = Request(httpMethod: string, userAgent: Option<string>, body: Body)

  /** The variables read with `Deno.env.get`; `None` is an unset variable. */
  datatype Env = Env(
    openaiApiKey: Option<string>,
    viteOpenaiApiKey: Option<string>,
    deepseekApiKey: Option<string>,
    viteDeepseekApiKey: Option<string>)

  /** The `error` field of a 500 reply: a message the function itself
      chose, or the message of an error the runtime raised (a JSON syntax
      error, a `TypeError`, a failed fetch), whose wording is not modelled. */
  datatype ErrorMessage = Text(text: string) | RuntimeMessage

  datatype Payload = PlainText(text: string) | ErrorJson(error: ErrorMessage) | UpstreamStream

  /** Status, `Content-Type` and body; `UpstreamStream` is the upstream
      response body passed through. */
  datatype Response = Response(status: nat, contentType: Option<string>, payload: Payload)

  /** A string body without an explicit `Content-Type` gets the Fetch
      default for text. */
  const Preflight := Response(200, Some("text/plain;charset=UTF-8"), PlainText("ok"))
  const Forbidden := Response(403, Some("application/json"), ErrorJson(Text("Automated access not permitted")))
  const Streaming := Response(200, Some("text/event-stream"), UpstreamStream)

  function Failed(error: ErrorMessage): Response {
    Response(500, Some("application/json"), ErrorJson(error))
  }

  /** The body of the chat-completion request. */
  datatype UpstreamRequest = UpstreamRequest(
    url: string,
    authorization: string,
    model: string,
    messages: seq<ChatMessage>,
    stream: bool)

  /** What `fetch` gives: a response with its status and, when read, its
      text, or a rejected promise. */
  datatype UpstreamReply = Reached(status: int, text: string) | FetchFailed

  /** `Deno.env.get(primary) || Deno.env.get(fallback)`, `None` when the
      `!key` test throws: an empty value counts as unset. */
  function ApiKey(primary: Option<string>, fallback: Option<string>): (r: Option<string>)
    ensures r.Some? <==> TruthyText(primary) || TruthyText(fallback)
    ensures r.Some? ==> r.value != ""
    ensures TruthyText(primary) ==> r == primary
    ensures !TruthyText(primary) && TruthyText(fallback) ==> r == fallback
  {
    if TruthyText(primary) then primary
    else if TruthyText(fallback) then fallback
    else None
  }

  /** The two key checks, in order: the error the first missing key throws,
      `None` when both keys are set. */
  function KeyFailure(env: Env): (r: Option<Response>)
    ensures r.None? <==> ApiKey(env.openaiApiKey, env.viteOpenaiApiKey).Some? &&
                         ApiKey(env.deepseekApiKey, env.viteDeepseekApiKey).Some?
    ensures ApiKey(env.openaiApiKey, env.viteOpenaiApiKey).None? ==>
              r == Some(Failed(Text("OPENAI_API_KEY is not set")))
    ensures ApiKey(env.openaiApiKey, env.viteOpenaiApiKey).Some? &&
            ApiKey(env.deepseekApiKey, env.viteDeepseekApiKey).None? ==>
              r == Some(Failed(Text("DEEPSEEK_API_KEY is not set")))
  {
    if ApiKey(env.openaiApiKey, env.viteOpenaiApiKey).None? then Some(Failed(Text("OPENAI_API_KEY is not set")))
    else if ApiKey(env.deepseekApiKey, env.viteDeepseekApiKey).None? then Some(Failed(Text("DEEPSEEK_API_KEY is not set")))
    else None
  }

  /** `messages[messages.length - 1].content` can be read: the list is not
      empty and its last element is not `null`. */
  predicate HasLast(messages: seq<ChatMessage>) {
    messages != [] && messages[|messages| - 1].ChatMessage?
  }

  /** The error a thrown tool failure becomes in the reply. */
  function ErrorOf(f: Failure): ErrorMessage {
    match f
    case Message(text) => Text(text)
    case TypeError => RuntimeMessage
  }

  // ---------------------------------------------------------------------
  // The prompt and the upstream request

  const PromptOpening := "You are a Research Oracle for "

  /** The opening lines of the system prompt, with the two counts (`null`
      when a count query failed), up to the heading of the context. */
  function PromptHead(paperCount: Option<nat>, chunkCount: Option<nat>): (h: string)
    ensures StartsWith(h, PromptOpening + ShowNullCount(paperCount))
  {
    var opening := PromptOpening + ShowNullCount(paperCount);
    var rest := " scientific papers (" + ShowNullCount(chunkCount) + " text segments).\n\n## DATA PROVIDED:\n";
    ConcatParts(opening, rest, "");
    assert opening + rest + "" == opening + rest;
    opening + rest
  }

  /** The system prompt: the opening lines, the context under
      "## DATA PROVIDED:", then the fixed response rules. */
  function SystemPrompt(paperCount: Option<nat>, chunkCount: Option<nat>, context: string, rules: string): (r: string)
    ensures StartsWith(r, PromptOpening + ShowNullCount(paperCount))
    ensures OccursAt(r, context, |r| - |rules| - 2 - |context|)
    ensures OccursAt(r, rules, |r| - |rules|)
  {
    var head := PromptHead(paperCount, chunkCount);
    var tail := "\n\n" + rules;
    ConcatParts(head, context, tail);
    ConcatParts("\n\n", rules, "");
    assert "\n\n" + rules + "" == tail;
    StartsWithConcat(head, context, PromptOpening + ShowNullCount(paperCount));
    StartsWithConcat(head + context, tail, PromptOpening + ShowNullCount(paperCount));
    head + context + tail
  }

  /** The request sent upstream: the system prompt first, then the
      conversation exactly as the client sent it. */
  function UpstreamCall(apiKey: string, prompt: string, messages: seq<ChatMessage>): (r: UpstreamRequest)
    ensures |r.messages| == |messages| + 1
    ensures r.messages[0] == ChatMessage("system", Some(prompt))
    ensures r.messages[1..] == messages
    ensures r.authorization == "Bearer " + apiKey && r.stream
  {
    UpstreamRequest("https://api.deepseek.com/v1/chat/completions", "Bearer " + apiKey, "deepseek-chat",
                    [ChatMessage("system", Some(prompt))] + messages, true)
  }

  /** `executeTool` as a closure over the last message and the clients. */
  function ToolsFor(userMessage: string, b: Backend): Executor {
    (name: string, args: ToolArgs) => ExecuteTool(name, args, userMessage, b)
  }

  /** `2xx` is `response.ok`. */
  predicate Ok(status: int) {
    200 <= status <= 299
  }

  /** The reply once the context is assembled. */
  function Forward(apiKey: string, prompt: string, messages: seq<ChatMessage>, fetch: UpstreamRequest -> UpstreamReply): (r: Response)
    ensures r == Streaming || (r.status == 500 && r.payload.ErrorJson?)
    ensures var reply := fetch(UpstreamCall(apiKey, prompt, messages));
            (r == Streaming <==> reply.Reached? && Ok(reply.status)) &&
            (reply.FetchFailed? ==> r == Failed(RuntimeMessage)) &&
            (reply.Reached? && !Ok(reply.status) ==>
               r == Failed(Text("DeepSeek API Error: " + IntToString(reply.status) + " - " + reply.text)))
  {
    match fetch(UpstreamCall(apiKey, prompt, messages))
    case FetchFailed => Failed(RuntimeMessage)
    case Reached(status, text) =>
      if Ok(status) then Streaming
      else Failed(Text("DeepSeek API Error: " + IntToString(status) + " - " + text))
  }

  /** The reply once the last message's text and the DeepSeek key are
      known: a tool failure while assembling the context is the reply's
      error; otherwise the conversation goes upstream behind the system
      prompt built around the context. */
  function Consult(userMessage: string, apiKey: string, messages: seq<ChatMessage>, b: Backend, rules: string,
                   fetch: UpstreamRequest -> UpstreamReply): (r: Response)
    ensures r == Streaming || (r.status == 500 && r.payload.ErrorJson?)
    ensures var outcome := RunCalls("", Plan(Lower(userMessage), userMessage), ToolsFor(userMessage, b));
            (outcome.Raised? ==> r == Failed(ErrorOf(outcome.failure))) &&
            (outcome.Done? ==>
               var reply := fetch(UpstreamCall(apiKey, SystemPrompt(b.paperCount, b.chunkCount, outcome.text, rules), messages));
               (r == Streaming <==> reply.Reached? && Ok(reply.status)) &&
               (reply.FetchFailed? ==> r == Failed(RuntimeMessage)) &&
               (reply.Reached? && !Ok(reply.status) ==>
                  r == Failed(Text("DeepSeek API Error: " + IntToString(reply.status) + " - " + reply.text))))
  {
    match RunCalls("", Plan(Lower(userMessage), userMessage), ToolsFor(userMessage, b))
    case Raised(f) => Failed(ErrorOf(f))
    case Done(context) => Forward(apiKey, SystemPrompt(b.paperCount, b.chunkCount, context, rules), messages, fetch)
  }

  /** The reply to a conversation that passed the bot filter: the last
      message is read first, then the keys are checked, then the context is
      assembled from the last message's text, and the conversation goes
      upstream behind the system prompt. */
  function Converse(messages: seq<ChatMessage>, env: Env, b: Backend, rules: string,
                    fetch: UpstreamRequest -> UpstreamReply): (r: Response)
    ensures r == Streaming || (r.status == 500 && r.payload.ErrorJson?)
    ensures !HasLast(messages) ==> r == Failed(RuntimeMessage)
    ensures HasLast(messages) && KeyFailure(env).Some? ==> r == KeyFailure(env).value
    ensures HasLast(messages) && KeyFailure(env).None? && messages[|messages| - 1].content.None? ==>
              r == Failed(RuntimeMessage)
    ensures HasLast(messages) && KeyFailure(env).None? && messages[|messages| - 1].content.Some? ==>
              r == Consult(messages[|messages| - 1].content.value, ApiKey(env.deepseekApiKey, env.viteDeepseekApiKey).value,
                           messages, b, rules, fetch)
    ensures r == Streaming ==>
              HasLast(messages) && KeyFailure(env).None? && messages[|messages| - 1].content.Some?
  {
    if !HasLast(messages) then Failed(RuntimeMessage)
    else if KeyFailure(env).Some? then KeyFailure(env).value
    else
      match messages[|messages| - 1].content
      case None => Failed(RuntimeMessage)
      case Some(userMessage) =>
        Consult(userMessage, ApiKey(env.deepseekApiKey, env.viteDeepseekApiKey).value, messages, b, rules, fetch)
  }

  /** The reply to a request. */
  function Respond(req: Request, env: Env, b: Backend, rules: string, fetch: UpstreamRequest -> UpstreamReply): (r: Response)
    ensures r.status == 200 || r.status == 403 || r.status == 500
    ensures r.status == 403 <==> req.httpMethod != "OPTIONS" && Blocked(req.userAgent.GetOr(""))
    ensures r.status == 200 ==> r == Preflight || r == Streaming
    ensures r.payload.ErrorJson? <==> r.status != 200
    ensures r == Streaming ==> req.body.Messages? && HasLast(req.body.list)
    ensures req.httpMethod != "OPTIONS" && !Blocked(req.userAgent.GetOr("")) &&
            (req.body.Unparsable? || req.body.NoMessages?) ==>
              r == Failed(RuntimeMessage)
    ensures req.httpMethod != "OPTIONS" && !Blocked(req.userAgent.GetOr("")) && req.body.MessagesText? ==>
              r.status == 500 &&
              (req.body.text != "" && KeyFailure(env).Some? ==> r == KeyFailure(env).value)
  {
    if req.httpMethod == "OPTIONS" then Preflight
    else if Blocked(req.userAgent.GetOr("")) then Forbidden
    else match req.body
      case Unparsable => Failed(RuntimeMessage)
      case NoMessages => Failed(RuntimeMessage)
      // The last character has no `content`: the keys are checked, then
      // `undefined.toLowerCase()` throws. An empty string has no last
      // character, and reading `content` of `undefined` throws at once.
      case MessagesText(text) =>
        if text == "" then Failed(RuntimeMessage) else KeyFailure(env).GetOr(Failed(RuntimeMessage))
      case Messages(list) => Converse(list, env, b, rules, fetch)
  }

  // ---------------------------------------------------------------------
  // The handler

  /** The handler as written: early returns for the preflight and for bots,
      then the body of the `try`, any error in which becomes a 500 reply. */
  method Handle(req: Request, env: Env, b: Backend, rules: string, fetch: UpstreamRequest -> UpstreamReply)
    returns (resp: Response)
    ensures resp == Respond(req, env, b, rules, fetch)
  {
    if req.httpMethod == "OPTIONS" {
      return Preflight;
    }
    var userAgent := req.userAgent.GetOr("");
    if Blocked(userAgent) {
      return Forbidden;
    }
    if req.body.MessagesText? {
      if req.body.text == "" {
        return Failed(RuntimeMessage);
      }
      var keyFailure := KeyFailure(env);
      if keyFailure.Some? {
        return keyFailure.value;
      }
      return Failed(RuntimeMessage);
    }
    if !req.body.Messages? {
      return Failed(RuntimeMessage);
    }
    resp := Answer(req.body.list, env, b, rules, fetch);
  }

  /** The rest of the `try` block, from the last message on. */
  method Answer(messages: seq<ChatMessage>, env: Env, b: Backend, rules: string,
                fetch: UpstreamRequest -> UpstreamReply) returns (resp: Response)
    ensures resp == Converse(messages, env, b, rules, fetch)
  {
    if messages == [] || messages[|messages| - 1].NullMessage? {
      return Failed(RuntimeMessage);
    }
    var content := messages[|messages| - 1].content;
    var openaiApiKey := ApiKey(env.openaiApiKey, env.viteOpenaiApiKey);
    if openaiApiKey.None? {
      return Failed(Text("OPENAI_API_KEY is not set"));
    }
    var deepseekApiKey := ApiKey(env.deepseekApiKey, env.viteDeepseekApiKey);
    if deepseekApiKey.None? {
      return Failed(Text("DEEPSEEK_API_KEY is not set"));
    }
    if content.None? {
      return Failed(RuntimeMessage);
    }
    var userMessage := content.value;
    var outcome := AssembleContext(userMessage, ToolsFor(userMessage, b));
    if outcome.Raised? {
      return Failed(ErrorOf(outcome.failure));
    }
    var systemPrompt := SystemPrompt(b.paperCount, b.chunkCount, outcome.text, rules);
    var response := fetch(UpstreamCall(deepseekApiKey.value, systemPrompt, messages));
    if response.FetchFailed? {
      return Failed(RuntimeMessage);
    }
    if !Ok(response.status) {
      return Failed(Text("DeepSeek API Error: " + IntToString(response.status) + " - " + response.text));
    }
    return Streaming;
  }
}
