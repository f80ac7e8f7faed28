/**
 * Model of the news agent: the search tool's result formatting, one agent step
 * (a chat completion with an optional round trip through the search tool) and
 * the three-step search, synthesis and summary workflow.
 *
 * The chat-completions client is a ChatClient whose replies come from a script
 * indexed by call number; the web search and the current date are a World value.
 */
module NewsAgent {
  import opened Wrappers

  const OpenAIModel: string := "gpt-4o-mini"
  const SearchToolName: string := "search_news"
  /** How many hits the search tool asks the search engine for. */
  const MaxResults: nat := 3
  /** The separator between two formatted search hits. */
  const BlockSeparator: string := "\n\n"

  const SearchInstructions: string :=
    "\n"
    + "You are a news search specialist. Your task is to:\n"
    + "1. Search for the most relevant and recent news on the given topic using the available tool.\n"
    + "2. Ensure the results are from reputable sources (this is handled by the search tool's output).\n"
    + "3. Return the raw search results in a structured format.\n"
    + "4. IMPORTANT: Do not generate any search result yourself. Use the search_news tool.\n"

  const SynthesisInstructions: string :=
    "\n"
    + "You are a news synthesis expert. Your task is to:\n"
    + "1. Analyze the raw news articles provided.\n"
    + "2. Identify the key themes and important information.\n"
    + "3. Combine information from multiple sources.\n"
    + "4. Create a comprehensive but concise synthesis.\n"
    + "5. Focus on facts and maintain journalistic objectivity.\n"
    + "6. Write in a clear, professional style.\n"
    + "Provide a 2-3 paragraph synthesis of the main points.\n"

  const SummaryInstructions: string :=
    "\n"
    + "You are an expert news summarizer combining AP and Reuters style clarity with digital-age brevity.\n"
    + "\n"
    + "Your task:\n"
    + "1. Core Information:\n"
    + "    - Lead with the most newsworthy development\n"
    + "    - Include key stakeholders and their actions\n"
    + "    - Add critical numbers/data if relevant\n"
    + "    - Explain why this matters now\n"
    + "    - Mention immediate implications\n"
    + "\n"
    + "2. Style Guidelines:\n"
    + "    - Use strong, active verbs\n"
    + "    - Be specific, not general\n"
    + "    - Maintain journalistic objectivity\n"
    + "    - Make every word count\n"
    + "    - Explain technical terms if necessary\n"
    + "\n"
    + "Format: Create a single paragraph of 250-400 words that informs and engages.\n"
    + "Pattern: [Major News] + [Key Details/Data] + [Why It Matters/What's Next]\n"
    + "\n"
    + "Focus on answering: What happened? Why is it significant? What's the impact?\n"
    + "\n"
    + "IMPORTANT: Provide ONLY the summary paragraph. Do not include any introductory phrases, \n"
    + "labels, or meta-text like \"Here's a summary\" or \"In AP/Reuters style.\"\n"
    + "Start directly with the news content.\n"

  /** Python's `str()` of an optional string, as an f-string renders it. */
  function PyStr(s: Option<string>): string {
    if s.Some? then s.value else "None"
  }

  /** The truth value Python gives an optional string: present and non-empty. */
  predicate Truthy(s: Option<string>) {
    s.Some? && s.value != ""
  }

  // ---------------------------------------------------------------------------
  // Formatting the search hits
  // ---------------------------------------------------------------------------

  /** One hit of the search engine: its `title`, `href` and `body`. */
  datatype SearchResult = SearchResult(title: string, href: string, body: string)

  /** The block one hit becomes. */
  function ResultBlock(r: SearchResult): string {
    "Title: " + r.title + "\nURL: " + r.href + "\nSummary: " + r.body
  }

  /** `sep.join(parts)`. */
  function Join(sep: string, parts: seq<string>): (r: string)
    ensures |parts| > 0 ==> |parts[0]| <= |r| && r[..|parts[0]|] == parts[0]
  {
    if |parts| == 0 then ""
    else if |parts| == 1 then parts[0]
    else parts[0] + sep + Join(sep, parts[1..])
  }

  /** Where part `i` starts in `Join(sep, parts)`. */
  function Offset(sep: string, parts: seq<string>, i: nat): nat
    requires i < |parts|
  {
    if i == 0 then 0 else |parts[0]| + |sep| + Offset(sep, parts[1..], i - 1)
  }

  /** A slice of `x + r` that lies within `r`. */
  lemma SliceOfSuffix(x: string, r: string, a: nat, b: nat)
    requires a <= b <= |r|
    ensures (x + r)[|x| + a..|x| + b] == r[a..b]
  {
    assert forall k :: 0 <= k < b - a ==> (x + r)[|x| + a..|x| + b][k] == r[a..b][k];
  }

  /**
   * Part `i` sits at its offset in the joined string, the separator sits right
   * before it (for every part but the first), and the last part ends the string.
   */
  lemma {:induction false} JoinAt(sep: string, parts: seq<string>, i: nat)
    requires i < |parts|
    ensures var j, o := Join(sep, parts), Offset(sep, parts, i);
            && o + |parts[i]| <= |j|
            && j[o..o + |parts[i]|] == parts[i]
            && (i > 0 ==> |sep| <= o && j[o - |sep|..o] == sep)
            && (i == |parts| - 1 ==> o + |parts[i]| == |j|)
  {
    if |parts| > 1 && i > 0 {
      var rest := parts[1..];
      var x := parts[0] + sep;
      assert Join(sep, parts) == x + Join(sep, rest);
      JoinAt(sep, rest, i - 1);
      var o' := Offset(sep, rest, i - 1);
      SliceOfSuffix(x, Join(sep, rest), o', o' + |parts[i]|);
      if i == 1 {
        assert (x + Join(sep, rest))[|x| - |sep|..|x|] == sep;
      } else {
        SliceOfSuffix(x, Join(sep, rest), o' - |sep|, o');
      }
    }
  }

  /** Joining one more part appends the separator and that part. */
  lemma {:induction false} JoinSnoc(sep: string, parts: seq<string>, p: string)
    requires |parts| > 0
    ensures Join(sep, parts + [p]) == Join(sep, parts) + sep + p
  {
    if |parts| > 1 {
      assert (parts + [p])[1..] == parts[1..] + [p];
      JoinSnoc(sep, parts[1..], p);
    }
  }

  /** The block of each hit, in input order. */
  function Blocks(results: seq<SearchResult>): seq<string> {
    seq(|results|, i requires 0 <= i < |results| => ResultBlock(results[i]))
  }

  /** The text `search_news` returns for the hits `results` of a search on `topic`. */
  function FormatNews(topic: string, results: seq<SearchResult>): (r: string)
    ensures |r| > 0
  {
    if results != [] then Join(BlockSeparator, Blocks(results))
    else "No news found for " + topic + "."
  }

  /** Without hits the text is the fixed notice; a single hit is its block alone. */
  lemma FormatNewsCases(topic: string, results: seq<SearchResult>)
    ensures results == [] ==> FormatNews(topic, results) == "No news found for " + topic + "."
    ensures |results| == 1 ==> FormatNews(topic, results) == ResultBlock(results[0])
  {
  }

  /** With hits, one more hit adds the separator and its block at the end. */
  lemma FormatNewsSnoc(topic: string, results: seq<SearchResult>, x: SearchResult)
    requires results != []
    ensures FormatNews(topic, results + [x]) == FormatNews(topic, results) + BlockSeparator + ResultBlock(x)
  {
    assert Blocks(results + [x]) == Blocks(results) + [ResultBlock(x)];
    JoinSnoc(BlockSeparator, Blocks(results), ResultBlock(x));
  }

  /**
   * With hits, the text is the blocks of the hits in input order: block `i` sits
   * at its offset, the separator right before it, and the last block ends the text.
   */
  lemma FormatNewsBlocks(topic: string, results: seq<SearchResult>, i: nat)
    requires i < |results|
    ensures var r, o, b := FormatNews(topic, results), Offset(BlockSeparator, Blocks(results), i),
                           ResultBlock(results[i]);
            && o + |b| <= |r|
            && r[o..o + |b|] == b
            && (i > 0 ==> 2 <= o && r[o - 2..o] == BlockSeparator)
            && (i == |results| - 1 ==> o + |b| == |r|)
  {
    JoinAt(BlockSeparator, Blocks(results), i);
  }

  // ---------------------------------------------------------------------------
  // The search query
  // ---------------------------------------------------------------------------

  /**
   * The years a current date can have (four-digit ones, so `%Y` needs no padding
   * and platforms agree on it) and the months.
   */
  type Year = y: int | 1000 <= y <= 9999 witness 2000
  type Month = m: int | 1 <= m <= 12 witness 1

  function Digit(d: int): char
    requires 0 <= d < 10
  {
    (('0' as int) + d) as char
  }

  function DigitValue(c: char): int {
    (c as int) - ('0' as int)
  }

  /** The last `width` decimal digits of `n`, zero-padded on the left. */
  function Padded(n: nat, width: nat): string {
    if width == 0 then [] else Padded(n / 10, width - 1) + [Digit(n % 10)]
  }

  /** The number a string of decimal digits denotes. */
  function DigitsValue(s: string): int {
    if s == [] then 0 else 10 * DigitsValue(s[..|s| - 1]) + DigitValue(s[|s| - 1])
  }

  function Pow10(k: nat): (r: nat)
    ensures r >= 1
  {
    if k == 0 then 1 else 10 * Pow10(k - 1)
  }

  /** `width` padded digits of a number below `10^width`: all decimal digits, and they read back as it. */
  lemma {:induction false} PaddedDigits(n: nat, width: nat)
    requires n < Pow10(width)
    ensures var s := Padded(n, width);
            && |s| == width
            && (forall i :: 0 <= i < width ==> '0' <= s[i] <= '9')
            && DigitsValue(s) == n
  {
    if width > 0 {
      PaddedDigits(n / 10, width - 1);
      var s := Padded(n, width);
      assert s[..|s| - 1] == Padded(n / 10, width - 1);
    }
  }

  /** `strftime('%Y-%m')`: the four-digit year and the zero-padded two-digit month. */
  function YearMonth(year: Year, month: Month): string {
    Padded(year, 4) + "-" + Padded(month, 2)
  }

  /** Reads a `YYYY-MM` stamp back. */
  function ParseYearMonth(s: string): (int, int)
    requires |s| == 7
  {
    (DigitsValue(s[..4]), DigitsValue(s[5..]))
  }

  /** The stamp is seven characters, digits around a dash, and reads back as the year and month. */
  lemma YearMonthRoundTrip(year: Year, month: Month)
    ensures var s := YearMonth(year, month);
            && |s| == 7 && s[4] == '-'
            && (forall i :: 0 <= i < 7 && i != 4 ==> '0' <= s[i] <= '9')
            && ParseYearMonth(s) == (year, month)
  {
    var s := YearMonth(year, month);
    PaddedDigits(year, 4);
    PaddedDigits(month, 2);
    assert s[..4] == Padded(year, 4);
    assert s[5..] == Padded(month, 2);
    assert Pow10(4) == 10000 && Pow10(2) == 100;
  }

  /** One `ddg.text(keywords, max_results=...)` request. */
  datatype SearchQuery = SearchQuery(keywords: string, maxResults: nat)

  /** The query of the search tool: `"{topic} news {YYYY-MM}"`, at most three hits. */
  function NewsQuery(topic: string, year: Year, month: Month): SearchQuery {
    SearchQuery(topic + " news " + YearMonth(year, month), MaxResults)
  }

  /** The query names the topic, then "news", then the date, which reads back as that year and month. */
  lemma NewsQueryShape(topic: string, year: Year, month: Month)
    ensures var q := NewsQuery(topic, year, month);
            && q.maxResults == 3
            && |q.keywords| == |topic| + 13
            && q.keywords[..|topic|] == topic
            && q.keywords[|topic|..|topic| + 6] == " news "
            && ParseYearMonth(q.keywords[|topic| + 6..]) == (year, month)
  {
    var q := NewsQuery(topic, year, month);
    YearMonthRoundTrip(year, month);
    assert q.keywords[|topic| + 6..] == YearMonth(year, month);
  }

  /** What the search engine does with a query: a list of hits, or an exception. */
  datatype SearchOutcome = Hits(results: seq<SearchResult>) | SearchRaised(reason: string)

  /** Everything outside the program the search tool depends on: today's date and the engine. */
  datatype World = World(year: Year, month: Month, engine: SearchQuery -> SearchOutcome)

  /** `search_news(topic)`: the formatted hits, or the exception the engine raised. */
  function SearchNews(topic: string, world: World): (r: Result<string>)
    ensures r.Ok? <==> world.engine(NewsQuery(topic, world.year, world.month)).Hits?
    ensures r.Ok? ==> |r.value| > 0
    ensures var q := NewsQuery(topic, world.year, world.month);
            && (world.engine(q).Hits? ==> r == Ok(FormatNews(topic, world.engine(q).results)))
            && (world.engine(q).SearchRaised? ==> r == Err(world.engine(q).reason))
  {
    match world.engine(NewsQuery(topic, world.year, world.month))
    case Hits(results) => Ok(FormatNews(topic, results))
    case SearchRaised(reason) => Err(reason)
  }

  // ---------------------------------------------------------------------------
  // Chat completions
  // ---------------------------------------------------------------------------

  datatype ToolParameter = ToolParameter(name: string, kind: string, description: string)
  datatype ToolDef = FunctionTool(name: string, description: string, parameters: seq<ToolParameter>,
                                  required: seq<string>)

  /** The one tool the search step offers. */
  const SearchToolDefinition: seq<ToolDef> := [
    FunctionTool(
      SearchToolName,
      "Searches for the most recent and relevant news articles on a given topic using DuckDuckGo.",
      [ToolParameter("topic", "string", "The news topic to search for, e.g., 'Tesla stock news'.")],
      ["topic"])
  ]

  /** `tool_choice`: a mode such as `"none"`, or a function the model must call. */
  datatype ToolChoice = ChoiceMode(mode: string) | ForceFunction(name: string)

  /** The default `tool_choice` of an agent step. */
  const DefaultToolChoice: ToolChoice := ChoiceMode("none")

  /** The result of `json.loads(arguments)`: an object with an optional `topic`, or a parse error. */
  datatype ToolArgs = ArgsObject(topic: Option<string>) | ArgsMalformed

  datatype ToolCall = ToolCall(id: string, name: string, args: ToolArgs)

  /** `response.choices[0].message`. */
  datatype AssistantMessage = AssistantMessage(content: Option<string>, toolCalls: seq<ToolCall>)

  /** What one `client.chat.completions.create` call gives: a message, or an exception. */
  datatype Reply = Completion(message: AssistantMessage) | CallRaised(reason: string)

  /** An entry of the `messages` list. */
  datatype Message =
    | Chat(role: string, content: string)
    | AssistantTurn(message: AssistantMessage)
    | ToolResult(toolCallId: string, role: string, name: string, content: string)

  /** The arguments of one `create` call; absent `tools` and `tool_choice` are None. */
  datatype ChatRequest = ChatRequest(model: string, messages: seq<Message>, tools: Option<seq<ToolDef>>,
                                     toolChoice: Option<ToolChoice>)

  /** The chat client: call number `n` is answered by `script(n)`; `log` holds every request sent. */
  class ChatClient {
    const script: nat -> Reply
    var log: seq<ChatRequest>

    constructor (script: nat -> Reply)
      ensures this.script == script && log == []
    {
      this.script := script;
      log := [];
    }

    /** `client.chat.completions.create(...)`. */
    method Create(request: ChatRequest) returns (reply: Reply)
      modifies this
      ensures log == old(log) + [request]
      ensures reply == script(|old(log)|)
    {
      reply := script(|log|);
      log := log + [request];
    }
  }

  // ---------------------------------------------------------------------------
  // One agent step
  // ---------------------------------------------------------------------------

  /** What an agent step returns: the model's text and, after a tool round trip, the tool's output. */
  datatype StepOut = StepOut(content: Option<string>, toolOutput: Option<string>)

  /** What an agent step does: the requests it sends, in order, and what it returns or raises. */
  datatype StepTrace = StepTrace(requests: seq<ChatRequest>, outcome: Result<StepOut>)

  /** The two messages every step starts with. */
  function Opening(instructions: string, prompt: string): seq<Message> {
    [Chat("system", instructions), Chat("user", prompt)]
  }

  /** The first reply asks for a tool call, and its arguments decode. */
  predicate RequestsTool(reply: Reply) {
    reply.Completion? && |reply.message.toolCalls| > 0 && reply.message.toolCalls[0].args.ArgsObject?
  }

  /** The first reply asks for the search tool, with arguments that decode. */
  predicate RequestsSearch(reply: Reply) {
    RequestsTool(reply) && reply.message.toolCalls[0].name == SearchToolName
  }

  /** The output of the search tool on the topic a tool call names. */
  function ToolOutput(call: ToolCall, world: World): Result<string>
    requires call.args.ArgsObject?
  {
    SearchNews(PyStr(call.args.topic), world)
  }

  const MalformedArguments: string := "tool call arguments are not valid JSON"

  /**
   * `run_agent_step(client, instructions, prompt, tool_defs, tool_choice)` with the
   * client at call number `base`.
   */
  function AgentStep(instructions: string, prompt: string, toolDefs: seq<ToolDef>, toolChoice: ToolChoice,
                     world: World, script: nat -> Reply, base: nat): (t: StepTrace)
    ensures 1 <= |t.requests| <= 2
    ensures t.requests[0].model == OpenAIModel && t.requests[0].messages == Opening(instructions, prompt)
    ensures |t.requests| == 2 ==>
              && t.requests[1].model == OpenAIModel
              && |t.requests[1].messages| >= 2
              && t.requests[1].messages[..2] == Opening(instructions, prompt)
    ensures t.requests[0].tools == (if toolDefs != [] then Some(toolDefs) else None)
    ensures t.requests[0].toolChoice == (if toolDefs != [] then Some(toolChoice) else None)
  {
    var messages := Opening(instructions, prompt);
    if toolDefs != [] then ToolStep(messages, toolDefs, toolChoice, world, script, base)
    else PlainStep(messages, script, base)
  }

  /** A step without tools: one plain call. */
  function PlainStep(messages: seq<Message>, script: nat -> Reply, base: nat): (t: StepTrace)
    ensures t.requests == [ChatRequest(OpenAIModel, messages, None, None)]
  {
    var plain := ChatRequest(OpenAIModel, messages, None, None);
    match script(base)
    case CallRaised(reason) => StepTrace([plain], Err(reason))
    case Completion(message) => StepTrace([plain], Ok(StepOut(message.content, None)))
  }

  /** A step with tools: the first call, then the search tool's round trip when the reply asks for it. */
  function ToolStep(messages: seq<Message>, toolDefs: seq<ToolDef>, toolChoice: ToolChoice, world: World,
                    script: nat -> Reply, base: nat): (t: StepTrace)
    ensures 1 <= |t.requests| <= 2
    ensures t.requests[0] == ChatRequest(OpenAIModel, messages, Some(toolDefs), Some(toolChoice))
    ensures |t.requests| == 2 ==>
              && t.requests[1].model == OpenAIModel
              && |t.requests[1].messages| >= |messages|
              && t.requests[1].messages[..|messages|] == messages
  {
    var first := ChatRequest(OpenAIModel, messages, Some(toolDefs), Some(toolChoice));
    match script(base)
    case CallRaised(reason) => StepTrace([first], Err(reason))
    case Completion(message) =>
      if message.toolCalls == [] then StepTrace([first], Ok(StepOut(message.content, None)))
      else
        var call := message.toolCalls[0];
        match call.args
        case ArgsMalformed => StepTrace([first], Err(MalformedArguments))
        case ArgsObject(topic) =>
          if call.name != SearchToolName then StepTrace([first], Ok(StepOut(message.content, None)))
          else
            match SearchNews(PyStr(topic), world)
            case Err(reason) => StepTrace([first], Err(reason))
            case Ok(output) => RoundTrip(first, messages, message, call, output, script, base)
  }

  /** The second call of the round trip, after the assistant message and the tool message. */
  function RoundTrip(first: ChatRequest, messages: seq<Message>, message: AssistantMessage, call: ToolCall,
                     output: string, script: nat -> Reply, base: nat): (t: StepTrace)
    ensures |t.requests| == 2 && t.requests[0] == first
    ensures && t.requests[1].model == OpenAIModel
            && |t.requests[1].messages| >= |messages|
            && t.requests[1].messages[..|messages|] == messages
  {
    var second := ChatRequest(OpenAIModel,
                              messages + [AssistantTurn(message), ToolResult(call.id, "tool", call.name, output)],
                              None, None);
    match script(base + 1)
    case CallRaised(reason) => StepTrace([first, second], Err(reason))
    case Completion(reply) => StepTrace([first, second], Ok(StepOut(reply.content, Some(output))))
  }

  /**
   * With tools offered and a first reply that calls the search tool, the tool runs on
   * the call's `topic`, the assistant message and then the tool message are appended,
   * and exactly one more call is made, whose text is returned with the tool's output.
   */
  lemma AgentStepRoundTrip(instructions: string, prompt: string, toolDefs: seq<ToolDef>, toolChoice: ToolChoice,
                           world: World, script: nat -> Reply, base: nat)
    requires toolDefs != [] && RequestsSearch(script(base))
    requires ToolOutput(script(base).message.toolCalls[0], world).Ok?
    ensures var t := AgentStep(instructions, prompt, toolDefs, toolChoice, world, script, base);
            var call := script(base).message.toolCalls[0];
            var output := ToolOutput(call, world).value;
            && |t.requests| == 2
            && t.requests[1] == ChatRequest(OpenAIModel,
                                            Opening(instructions, prompt)
                                            + [AssistantTurn(script(base).message),
                                               ToolResult(call.id, "tool", SearchToolName, output)],
                                            None, None)
            && t.outcome == match script(base + 1)
                            case Completion(reply) => Ok(StepOut(reply.content, Some(output)))
                            case CallRaised(reason) => Err(reason)
  {
  }

  /**
   * Any other first reply ends the step after that one call: its exception is
   * re-raised, undecodable tool arguments or a failing search raise, and otherwise
   * the reply's text is returned without a tool output.
   */
  lemma AgentStepSingleCall(instructions: string, prompt: string, toolDefs: seq<ToolDef>, toolChoice: ToolChoice,
                            world: World, script: nat -> Reply, base: nat)
    requires !(toolDefs != [] && RequestsSearch(script(base))
               && ToolOutput(script(base).message.toolCalls[0], world).Ok?)
    ensures var t := AgentStep(instructions, prompt, toolDefs, toolChoice, world, script, base);
            && |t.requests| == 1
            && t.outcome == match script(base)
                            case CallRaised(reason) => Err(reason)
                            case Completion(message) =>
                              if toolDefs != [] && message.toolCalls != [] && message.toolCalls[0].args.ArgsMalformed?
                              then Err(MalformedArguments)
                              else if toolDefs != [] && RequestsSearch(script(base))
                              then Err(ToolOutput(message.toolCalls[0], world).error)
                              else Ok(StepOut(message.content, None))
  {
  }

  /** A tool output of a step is the search tool's output, so it is never empty. */
  lemma AgentStepRoundTripOutput(instructions: string, prompt: string, toolDefs: seq<ToolDef>,
                                 toolChoice: ToolChoice, world: World, script: nat -> Reply, base: nat)
    ensures var t := AgentStep(instructions, prompt, toolDefs, toolChoice, world, script, base);
            t.outcome.Ok? && t.outcome.value.toolOutput.Some? ==>
              && toolDefs != [] && RequestsSearch(script(base))
              && t.outcome.value.toolOutput == Some(ToolOutput(script(base).message.toolCalls[0], world).value)
              && t.outcome.value.toolOutput.value != ""
  {
  }

  /** `run_agent_step`: the message list grows in place between the two calls of a tool round trip. */
  method RunAgentStep(client: ChatClient, instructions: string, prompt: string, toolDefs: seq<ToolDef>,
                      toolChoice: ToolChoice, world: World)
    returns (outcome: Result<StepOut>)
    modifies client
    ensures var t := AgentStep(instructions, prompt, toolDefs, toolChoice, world, client.script, |old(client.log)|);
            outcome == t.outcome && client.log == old(client.log) + t.requests
  {
    ghost var base := |client.log|;
    var messages := [Chat("system", instructions), Chat("user", prompt)];
    if toolDefs != [] {
      var first := ChatRequest(OpenAIModel, messages, Some(toolDefs), Some(toolChoice));
      ghost var t := ToolStep(messages, toolDefs, toolChoice, world, client.script, base);
      assert AgentStep(instructions, prompt, toolDefs, toolChoice, world, client.script, base) == t;
      var response := client.Create(first);
      if response.CallRaised? {
        return Err(response.reason);
      }
      var message := response.message;
      if message.toolCalls != [] {
        var toolCall := message.toolCalls[0];
        if toolCall.args.ArgsMalformed? {
          return Err(MalformedArguments);
        }
        if toolCall.name == SearchToolName {
          var toolOutput := SearchNews(PyStr(toolCall.args.topic), world);
          if toolOutput.Err? {
            return Err(toolOutput.error);
          }
          assert t == RoundTrip(first, messages, message, toolCall, toolOutput.value, client.script, base);
          ghost var opening := messages;
          messages := messages + [AssistantTurn(message)];
          messages := messages + [ToolResult(toolCall.id, "tool", toolCall.name, toolOutput.value)];
          assert messages == opening + [AssistantTurn(message), ToolResult(toolCall.id, "tool", toolCall.name, toolOutput.value)];
          var second := client.Create(ChatRequest(OpenAIModel, messages, None, None));
          assert t.requests == [first, ChatRequest(OpenAIModel, messages, None, None)];
          assert client.log == old(client.log) + t.requests;
          if second.CallRaised? {
            return Err(second.reason);
          }
          return Ok(StepOut(second.message.content, Some(toolOutput.value)));
        }
      }
      return Ok(StepOut(message.content, None));
    }
    var response := client.Create(ChatRequest(OpenAIModel, messages, None, None));
    if response.CallRaised? {
      return Err(response.reason);
    }
    return Ok(StepOut(response.message.content, None));
  }

  // ---------------------------------------------------------------------------
  // The workflow
  // ---------------------------------------------------------------------------

  function SearchPrompt(topic: string): string { "Find recent news about " + topic }
  const SynthesisPrefix: string := "Synthesize these news articles:\n"
  const SummaryPrefix: string := "Summarize this synthesis:\n"

  /** What `process_news` returns: the raw hits, the synthesis and the summary. */
  datatype NewsOut = NewsOut(rawNews: Option<string>, synthesized: Option<string>, summary: Option<string>)

  /** What the workflow does: the steps that ran, in order, and what it returns or raises. */
  datatype PipelineTrace = PipelineTrace(steps: seq<StepTrace>, outcome: Result<NewsOut>)

  /** Every request of the steps, in order. */
  function Requests(steps: seq<StepTrace>): seq<ChatRequest> {
    if steps == [] then [] else steps[0].requests + Requests(steps[1..])
  }

  /** The requests of two steps are the first step's, then the second's. */
  lemma RequestsOfTwo(a: StepTrace, b: StepTrace)
    ensures Requests([a, b]) == a.requests + b.requests
  {
    assert [a, b][1..] == [b];
    assert Requests([b]) == b.requests;
  }

  /** The fixed parts of the workflow: the three steps' instructions and the search step's tools. */
  datatype Workflow = Workflow(searchInstructions: string, synthesisInstructions: string,
                               summaryInstructions: string, searchTool: seq<ToolDef>)

  /** The workflow `process_news` runs. */
  const NewsWorkflow: Workflow := Workflow(SearchInstructions, SynthesisInstructions, SummaryInstructions,
                                           SearchToolDefinition)

  /** The search step: the search tool offered, and its call forced. */
  function SearchStep(config: Workflow, topic: string, world: World, script: nat -> Reply, base: nat): StepTrace {
    AgentStep(config.searchInstructions, SearchPrompt(topic), config.searchTool, ForceFunction(SearchToolName),
              world, script, base)
  }

  /** The synthesis and summary steps, run on the search step's tool output `raw`. */
  function Digest(config: Workflow, raw: string, world: World, script: nat -> Reply, base: nat): (p: PipelineTrace)
    ensures 1 <= |p.steps| <= 2
    ensures p.steps[0] == AgentStep(config.synthesisInstructions, SynthesisPrefix + raw, [], DefaultToolChoice,
                                    world, script, base)
    ensures p.outcome.Err? <==> p.steps[|p.steps| - 1].outcome.Err?
    ensures p.outcome.Err? ==> p.outcome.error == p.steps[|p.steps| - 1].outcome.error
    ensures |p.steps| == 2 ==>
              && p.steps[0].outcome.Ok?
              && p.steps[1] == AgentStep(config.summaryInstructions, SummaryPrefix + PyStr(p.steps[0].outcome.value.content),
                                         [], DefaultToolChoice, world, script, base + |p.steps[0].requests|)
    ensures p.outcome.Ok? ==>
              && |p.steps| == 2
              && p.outcome.value == NewsOut(Some(raw), p.steps[0].outcome.value.content,
                                            p.steps[1].outcome.value.content)
  {
    var synthesis := AgentStep(config.synthesisInstructions, SynthesisPrefix + raw, [], DefaultToolChoice,
                               world, script, base);
    if synthesis.outcome.Err? then PipelineTrace([synthesis], Err(synthesis.outcome.error))
    else
      var synthesized := synthesis.outcome.value.content;
      var summary := AgentStep(config.summaryInstructions, SummaryPrefix + PyStr(synthesized), [], DefaultToolChoice,
                               world, script, base + |synthesis.requests|);
      if summary.outcome.Err? then PipelineTrace([synthesis, summary], Err(summary.outcome.error))
      else PipelineTrace([synthesis, summary], Ok(NewsOut(Some(raw), synthesized, summary.outcome.value.content)))
  }

  /** Each of the two later steps is one plain call: no tools, and the two opening messages. */
  lemma DigestRequests(config: Workflow, raw: string, world: World, script: nat -> Reply, base: nat)
    ensures var p := Digest(config, raw, world, script, base);
            && p.steps[0].requests
               == [ChatRequest(OpenAIModel, Opening(config.synthesisInstructions, SynthesisPrefix + raw), None, None)]
            && (|p.steps| == 2 ==>
                  p.steps[1].requests
                  == [ChatRequest(OpenAIModel,
                                  Opening(config.summaryInstructions, SummaryPrefix + PyStr(p.steps[0].outcome.value.content)),
                                  None, None)])
  {
  }

  /**
   * What `process_news` does once the search step returned `search`: its exception
   * propagates, a missing or empty tool output ends the run with three `None`s, and
   * otherwise the digest runs on exactly that tool output.
   */
  function AfterSearch(config: Workflow, search: Result<StepOut>, world: World, script: nat -> Reply, base: nat)
    : (p: PipelineTrace)
    ensures p.steps != [] <==> search.Ok? && Truthy(search.value.toolOutput)
    ensures search.Err? ==> p.outcome == Err(search.error)
    ensures search.Ok? && !Truthy(search.value.toolOutput) ==> p.outcome == Ok(NewsOut(None, None, None))
    ensures p.steps != [] ==> p == Digest(config, search.value.toolOutput.value, world, script, base)
  {
    if search.Err? then PipelineTrace([], Err(search.error))
    else if !Truthy(search.value.toolOutput) then PipelineTrace([], Ok(NewsOut(None, None, None)))
    else Digest(config, search.value.toolOutput.value, world, script, base)
  }

  /**
   * The search step's tool output, when there is one, is never empty, so the run
   * ends after the search step exactly when that step did not run the tool.
   */
  lemma EarlyExitOnlyWithoutToolOutput(config: Workflow, topic: string, world: World, script: nat -> Reply, base: nat)
    ensures var search := SearchStep(config, topic, world, script, base);
            var rest := AfterSearch(config, search.outcome, world, script, base + |search.requests|);
            search.outcome.Ok? ==> (rest.steps == [] <==> search.outcome.value.toolOutput.None?)
  {
    AgentStepRoundTripOutput(config.searchInstructions, SearchPrompt(topic), config.searchTool,
                             ForceFunction(SearchToolName), world, script, base);
  }

  /** Lines after the search step of `process_news`: the early exit, then the synthesis and summary steps. */
  method ContinueAfterSearch(client: ChatClient, config: Workflow, searchOut: Result<StepOut>, world: World)
    returns (outcome: Result<NewsOut>)
    modifies client
    ensures var p := AfterSearch(config, searchOut, world, client.script, |old(client.log)|);
            outcome == p.outcome && client.log == old(client.log) + Requests(p.steps)
  {
    if searchOut.Err? {
      return Err(searchOut.error);
    }
    var toolOutput := searchOut.value.toolOutput;
    if toolOutput.None? || toolOutput.value == "" {
      return Ok(NewsOut(None, None, None));
    }
    var rawNewsResults := toolOutput.value;
    ghost var rest := Digest(config, rawNewsResults, world, client.script, |client.log|);
    ghost var synthesis := rest.steps[0];
    var synthesisOut := RunAgentStep(client, config.synthesisInstructions, SynthesisPrefix + rawNewsResults,
                                     [], DefaultToolChoice, world);
    if synthesisOut.Err? {
      assert rest.steps == [synthesis];
      assert Requests([synthesis]) == synthesis.requests;
      return Err(synthesisOut.error);
    }
    var synthesizedNews := synthesisOut.value.content;
    ghost var summary := rest.steps[1];
    var summaryOut := RunAgentStep(client, config.summaryInstructions, SummaryPrefix + PyStr(synthesizedNews),
                                   [], DefaultToolChoice, world);
    assert rest.steps == [synthesis, summary];
    RequestsOfTwo(synthesis, summary);
    if summaryOut.Err? {
      return Err(summaryOut.error);
    }
    return Ok(NewsOut(Some(rawNewsResults), synthesizedNews, summaryOut.value.content));
  }

  /** `process_news(topic, api_key)`: the search step, then the rest of the run on its outcome. */
  method ProcessNews(client: ChatClient, topic: string, world: World) returns (outcome: Result<NewsOut>)
    modifies client
    ensures var search := SearchStep(NewsWorkflow, topic, world, client.script, |old(client.log)|);
            var rest := AfterSearch(NewsWorkflow, search.outcome, world, client.script,
                                    |old(client.log)| + |search.requests|);
            outcome == rest.outcome && client.log == old(client.log) + search.requests + Requests(rest.steps)
  {
    var searchOut := RunAgentStep(client, NewsWorkflow.searchInstructions, SearchPrompt(topic),
                                  NewsWorkflow.searchTool, ForceFunction(SearchToolName), world);
    outcome := ContinueAfterSearch(client, NewsWorkflow, searchOut, world);
  }
}
