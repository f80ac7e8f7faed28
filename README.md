# AI agent demos: retry policy and news workflow

This project models the two pieces of control logic in the repository's Streamlit agent demos, and proves properties of them.

- **FinanceAgent** (`finance_agent.dfy`) models the finance agent's request path.
  - `exponential_backoff_fetch` is a bounded retry loop. It first checks the key. It then posts once per attempt, for at most `max_retries` attempts.
    - A 429 or 5xx status makes it sleep `2^attempt` seconds and retry.
    - Any other error status, a network failure, or a body that is not JSON makes it give up with `None`.
    - Any other response has its decoded body returned.
  - `get_financial_analysis` posts a fixed two-message payload through that helper. It then extracts `choices[0].message.content` with its defaults.
- **NewsAgent** (`news_agent.dfy`) models the news agent.
  - The search tool `search_news` builds a query from the topic and the current month. It formats the hits as blocks joined by a blank line, or returns a "No news found" notice.
  - `run_agent_step` is one chat completion. When tools are offered and the model calls the search tool, the step runs the tool. It appends the assistant message and then the tool message to its message list, and makes exactly one more call.
  - `process_news` chains the search, synthesis and summary steps. The synthesis step is fed the search step's tool output.
- **Wrappers** (`wrappers.dfy`) holds `Option` and `Result`. `Result` carries an exception as its message.

Everything outside the program becomes a parameter.

- **HTTP attempts.** Each attempt is answered by an oracle `respond: nat -> Outcome`, indexed by attempt number. An outcome is a status with the decoded body (or `None` when the body is not JSON), or a network failure.
- **Sleeps.** Each sleep is recorded as a delay in the helper's returned `delays` list.
- **The chat client.** `ChatClient` answers call number `n` with `script(n)` and appends every request to its `log`.
- **Search and date.** The search engine and today's year and month form a `World` value.

Each operation has a specification function, and the imperative code is proved against it.

- The retry loop is a `while` loop over the attempt counter. It is proved equal to the recursive `Fetch`.
- `run_agent_step` extends its local message list between its two calls. It is proved to send exactly the requests of `AgentStep` and to return its outcome.
- `process_news` is proved to send the requests of `SearchStep` followed by those of `AfterSearch`, and to return the latter's outcome.

The properties are then proved about those functions.

Three behaviours of the code are easy to misread.

- **Which statuses fail.** `raise_for_status` raises only for statuses 400 to 599. Statuses 1xx, 3xx and 600 or more therefore reach `response.json()`, and their decoded body is returned.
- **How many sleeps.** The loop sleeps after every retryable failure, the last one included. When all `N` attempts fail this way there are `N` delays, totalling `2^N - 1` seconds.
- **Argument decoding.** `json.loads` of the tool arguments runs before the tool name is checked. Undecodable arguments therefore raise whatever tool the model named.

## Model

| member | source | states |
|---|---|---|
| FinanceAgent.Classify | starter_ai_agents/finance_agent/finance_agent.py:40-58 | an attempt is retried exactly when its status is 429 or 500-599; otherwise it succeeds exactly when its status is outside 400-599 and its body decodes, returning that body; everything else (other error statuses, network failures, undecodable bodies) is fatal |
| FinanceAgent.DelaysBetween | starter_ai_agents/finance_agent/finance_agent.py:48-51 | the delays after attempts a..k-1 are one per attempt, the one after attempt i being 2^i |
| FinanceAgent.FetchFrom | starter_ai_agents/finance_agent/finance_agent.py:37-61 | the loop from an attempt on sends no more requests than the attempts left, sleeps at most once per request, and a returned body means exactly one request more than delays |
| FinanceAgent.Fetch | starter_ai_agents/finance_agent/finance_agent.py:28-61 | a missing or empty key, or max_retries of 0 or less, gives None with no request and no sleep; never more than max_retries requests |
| FinanceAgent.FirstStop | starter_ai_agents/finance_agent/finance_agent.py:37-51 | the first attempt that is not retried (or the end of the loop): every earlier attempt was retryable |
| FinanceAgent.FetchFromShape | starter_ai_agents/finance_agent/finance_agent.py:37-61 | the loop's requests, delays and result are fixed by where it stops: k+1 requests when it stops on attempt k, the delays 2^a..2^(k-1), and the body only when attempt k succeeded |
| FinanceAgent.StopsAt | starter_ai_agents/finance_agent/finance_agent.py:37-51 | retryable attempts 0..k-1 followed by a non-retryable attempt k inside the budget make the loop stop at k |
| FinanceAgent.SucceedsAt | starter_ai_agents/finance_agent/finance_agent.py:40-44 | a successful attempt k after k retryable ones returns its body at once, with k+1 requests and delays 1, 2, ..., 2^(k-1) only |
| FinanceAgent.FailsAt | starter_ai_agents/finance_agent/finance_agent.py:52-58 | a fatal attempt k (other error status, network failure, undecodable body) returns None at once, with k+1 requests and no sleep after it |
| FinanceAgent.ExhaustsRetries | starter_ai_agents/finance_agent/finance_agent.py:37-61 | when every attempt is retryable, exactly max_retries requests are sent, the result is None, a delay follows each attempt, and the delays total 2^max_retries - 1 |
| FinanceAgent.SumDelays | starter_ai_agents/finance_agent/finance_agent.py:48-51 | the doubling delays after attempts a..k-1 add up to 2^k - 2^a |
| FinanceAgent.ResultComesFromLastAttempt | starter_ai_agents/finance_agent/finance_agent.py:37-44 | a returned body implies a key was given, was the body of the last request sent, and every earlier request was retryable and followed by its 2^i delay |
| FinanceAgent.ExponentialBackoffFetch | starter_ai_agents/finance_agent/finance_agent.py:23-61 | the loop returns Fetch's result, sends Fetch's number of requests (each to the url with the JSON and bearer headers and the payload) and sleeps Fetch's delays |
| FinanceAgent.ExtractAnalysis | starter_ai_agents/finance_agent/finance_agent.py:86-95 | a reply without choices, or whose first choice lacks a message or the message lacks content, gives "No analysis generated."; otherwise the content; an empty choices list or a reply that is not an object gives None |
| FinanceAgent.GetFinancialAnalysis | starter_ai_agents/finance_agent/finance_agent.py:64-95 | a falsy fetch result gives None, otherwise the extraction of the reply; the call sends exactly the helper's requests (at most 5) and sleeps exactly its delays; every request goes to the chat endpoint with the JSON and bearer headers, the model and exactly the system message then the user's query; no key means no request |
| NewsAgent.Join | starter_ai_agents/local_news_agent/news_agent.py:33-36 | the joined text starts with the first part |
| NewsAgent.JoinAt | starter_ai_agents/local_news_agent/news_agent.py:33-36 | every part lies at its offset in the joined text, the separator sits right before every part but the first, and the last part ends the text |
| NewsAgent.JoinSnoc | starter_ai_agents/local_news_agent/news_agent.py:33-36 | joining one more part appends the separator and that part |
| NewsAgent.FormatNews | starter_ai_agents/local_news_agent/news_agent.py:32-38 | the tool's text is never empty |
| NewsAgent.FormatNewsCases | starter_ai_agents/local_news_agent/news_agent.py:32-38 | no hits gives exactly "No news found for {topic}."; one hit gives its block alone |
| NewsAgent.FormatNewsSnoc | starter_ai_agents/local_news_agent/news_agent.py:33-36 | with hits, one more hit appends "\n\n" and its block |
| NewsAgent.FormatNewsBlocks | starter_ai_agents/local_news_agent/news_agent.py:32-37 | with hits, the text holds one block "Title: ...\nURL: ...\nSummary: ..." per hit, in input order: the block of hit i sits at its offset, "\n\n" right before it for i > 0, and the last block ends the text |
| NewsAgent.PaddedDigits | starter_ai_agents/local_news_agent/news_agent.py:31 | a number below 10^width padded to width gives exactly width decimal digits that read back as the number |
| NewsAgent.YearMonthRoundTrip | starter_ai_agents/local_news_agent/news_agent.py:31 | the date stamp is seven characters, four digits, a dash and two digits (the month zero-padded), and reads back as the year and month |
| NewsAgent.NewsQueryShape | starter_ai_agents/local_news_agent/news_agent.py:31 | the query asks for 3 hits and reads "{topic} news {YYYY-MM}", the stamp reading back as the current year and month |
| NewsAgent.SearchNews | starter_ai_agents/local_news_agent/news_agent.py:27-38 | the tool queries the engine with the news query; when the engine answers with hits, the tool returns their formatted text, which is never empty; when the engine raises, its exception propagates |
| NewsAgent.ChatClient.constructor | starter_ai_agents/local_news_agent/news_agent.py:92-94 | a new client has sent nothing yet |
| NewsAgent.ChatClient.Create | starter_ai_agents/local_news_agent/news_agent.py:117-122 | one completion call records its request and gets the reply scripted for its call number |
| NewsAgent.AgentStep | starter_ai_agents/local_news_agent/news_agent.py:96-164 | a step makes one or two calls, both to gpt-4o-mini; the first call's messages are [system: instructions, user: prompt] and the second call's start with them; the tools and tool choice are sent only when tools are offered |
| NewsAgent.PlainStep | starter_ai_agents/local_news_agent/news_agent.py:152-157 | without tools a step makes exactly one call, with neither tools nor tool choice |
| NewsAgent.ToolStep | starter_ai_agents/local_news_agent/news_agent.py:116-150 | with tools the first call carries the tools and the tool choice; a second call, if any, starts with the same messages |
| NewsAgent.RoundTrip | starter_ai_agents/local_news_agent/news_agent.py:133-147 | the round trip makes exactly two calls, the first unchanged, the second extending the first's messages |
| NewsAgent.AgentStepRoundTrip | starter_ai_agents/local_news_agent/news_agent.py:124-147 | a first reply calling search_news runs the tool on the call's topic, appends the assistant message and then the tool message (call id, role "tool", name, output), makes exactly one more call without tools, and returns that reply's text with the tool output, or that call's exception |
| NewsAgent.AgentStepSingleCall | starter_ai_agents/local_news_agent/news_agent.py:124-164 | any other first reply ends the step after one call: no tool call, or a call of another tool, returns the reply's text and no tool output; undecodable arguments, a failing search or a failing call raise |
| NewsAgent.AgentStepRoundTripOutput | starter_ai_agents/local_news_agent/news_agent.py:129-147 | a step that returns a tool output made the search tool call, and the output is that tool's non-empty text |
| NewsAgent.RunAgentStep | starter_ai_agents/local_news_agent/news_agent.py:96-164 | the step, extending its local message list between the two calls, sends exactly AgentStep's requests, in order, and returns or raises AgentStep's outcome |
| NewsAgent.Digest | starter_ai_agents/local_news_agent/news_agent.py:216-237 | the synthesis step's prompt is "Synthesize these news articles:\n" followed by the search tool's output; the summary step runs only after a successful synthesis, on "Summarize this synthesis:\n" followed by its text; an exception stops the run; success returns (tool output, synthesis, summary) |
| NewsAgent.DigestRequests | starter_ai_agents/local_news_agent/news_agent.py:218-234 | the synthesis and summary steps are each one call without tools, with their instructions and prompts |
| NewsAgent.AfterSearch | starter_ai_agents/local_news_agent/news_agent.py:209-237 | after the search step, its exception propagates, a missing or empty tool output returns (None, None, None) with no further step, and only a non-empty tool output runs the later steps, on that output |
| NewsAgent.EarlyExitOnlyWithoutToolOutput | starter_ai_agents/local_news_agent/news_agent.py:199-214 | after a search step that returns, the run stops early exactly when that step made no tool round trip |
| NewsAgent.ContinueAfterSearch | starter_ai_agents/local_news_agent/news_agent.py:209-237 | the code after the search step sends exactly AfterSearch's requests and returns or raises its outcome |
| NewsAgent.ProcessNews | starter_ai_agents/local_news_agent/news_agent.py:191-237 | the workflow runs the search step with the search instructions, the tool definition and the search_news call forced; it then sends AfterSearch's requests and returns or raises its outcome |

## Left out

- Streamlit. This covers page setup, the sidebar, buttons, `st.status`, the `st.info`, `st.warning` and `st.error` messages, and the input guards of both scripts' UI sections. They only display.
- The HTTP and SDK calls are oracles instead of real calls.
  - `requests.post` becomes `respond`.
  - `client.chat.completions.create` becomes `ChatClient.script`.
  - `DDGS().text` becomes `World.engine`.
  - The text of `response.text` in error messages is not modelled.
- `time.sleep` waits for real time. The model records each delay instead of sleeping.
- `get_openai_client` and its `st.cache_resource` caching hold library state the program cannot see. `ProcessNews` takes the client instead of the API key.
- `datetime.now` is replaced by the `World` year and month.
  - `Year` is restricted to 1000..9999, because `%Y` below year 1000 differs between platforms.
- `response.json()` and `json.loads` are foreign parsers; their results are oracle values.
  - A reply body is a `Json` value, or `None` when it does not decode.
  - Tool arguments are an object with an optional `topic`, or malformed. JSON that decodes to something other than an object, and a `topic` that is not a string, are not modelled.
- The decode error is assumed to be caught as a `RequestException`. That holds for `requests` 2.27 and later, where `JSONDecodeError` derives from `RequestException`; older versions are not modelled.
- FinanceAgent.ExtractAnalysis: a reply whose `content` is JSON null gives `Some(JNull)`. Python returns `None` there, the same value as the failure paths; the model keeps the two apart.
- Two Python errors cannot arise in the model.
  - A search hit lacking `title`, `href` or `body` raises `KeyError` in the formatting. `SearchResult` always has all three fields.
  - A completion with an empty `choices` list raises `IndexError` in an agent step. A `Reply` always carries a message.
- Exceptions are carried as message strings in `Result.Err`. Their Python classes, and the `st.error` before each re-raise, are not modelled.
  - `MalformedArguments` stands for the `json.loads` error message.
- `ProcessNews` runs the workflow's fixed instructions and tool definition. The code after the search step is `ContinueAfterSearch`, stated over a `Workflow` value that holds them.
- The blog-to-podcast agent is not part of this model. It is a thin wrapper over third-party agent and speech services with no local control logic.
