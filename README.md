# Safety-gated LLM pipeline: a Dafny model

The repository runs a generative model behind the Prisma AIRS safety
scanner, in two variants.

- `app/main.py` is the synchronous `/chat` endpoint. It scans the user's
  message, asks Gemini, scans the answer, and replies with one dict.
- `apps/ai-agent/main.py` is the streaming `/chat-stream` endpoint of the
  Terraform agent. Its event generator does the following, in order:
  - scans the message;
  - logs the credential line and reads the Terraform remote state from
    PostgreSQL;
  - builds the MCP tool agent lazily, on first use;
  - asks the agent the question and streams its answer line by line;
  - composes a prompt from the instructions, the question, the agent's
    answer and the state;
  - generates, scans the generated text, and releases or blocks it.

  Every step is reported as a typed event: `log`, `mcp`, `gemini` or
  `error`.

Both variants decide with the same verdict evaluator, `is_safe`.

The model is organised in these modules:

- `PyText` covers the Python string operations the code relies on:
  - `str.title()`, one-character `replace` and `sep.join`;
  - `splitlines`, `strip`;
  - `str(int)`, `repr(str)`.
- `PyJson` holds scan results as decoded JSON. It gives Python's meaning
  to truthiness, `dict.get`, `in`, subscription and `str()`. `ToStr`
  (`str()`) and `Repr` are definitions of the Python primitives. What the
  code relies on from them is stated in `Verdict.UnknownDecision`.
- `Verdict` is `is_safe` and the `"error" in scan` guard.
- `Services` holds the outcomes of the external services and the trace
  of calls made to them.
- `SyncChat` is the synchronous endpoint. It is a function from the
  scanner and model outcomes to the reply and the calls made.
- `TerraformState` joins the state rows. It is a loop, proved against the
  state-text function.
- `Prompt` composes the prompt.
- `AgentStream` is the streaming endpoint:
  - The class `ChatStreamService` holds the process-wide `agent`.
  - `InitAgent` is the lazy singleton. It is proved to leave the agent
    that the function `ReadyAgent` gives, and to load the tools only
    when there was no agent.
  - `EventGenerator` emits the events step by step and is proved equal
    to the function `Stream`. The properties are proved about `Stream`.
  - `ChatStream` refuses a blank message before any call. For any other
    message it is proved equal to `Stream`.
  - The generator's stages take a `Config`: the instructions and the
    verdict function. `Stream` is `Run` with the agent's own
    configuration, `SystemPrompt` and `IsSafe`. The stream properties are
    proved for every configuration.

The scanner, the model, the tool load, the agent and the state query are
parameters, grouped as a `World`. A run records the external calls it
made, in order, as a `seq<Call>`. Gating properties are stated over that
trace.

The model keeps these behaviours of the code:

- The block reason reads "Blocked by Prisma AIRS guardrail: ...".
- An invalid-format verdict reads "Invalid Prisma AIRS response format.".
- The agent is invoked on every admitted request, whatever the message
  says.
- A PostgreSQL failure is an `error` event in the middle of the stream,
  and the stream goes on. `error` is therefore not always terminal.
- The output scan of the stream has no `"error"` guard. A scanner
  failure reaches `is_safe` and blocks the answer as an unknown decision.
- In both endpoints, a scan result that is neither a dict nor a string
  nor a list makes `"error" in scan` raise. The exception is not caught
  by the orchestrator: the sync reply is `Raised`, and the stream is cut
  short (`aborted`).

## Model

| member | source | states |
|---|---|---|
| Verdict.IsSafe | apps/ai-agent/main.py:111-127 | safe exactly for a dict whose action is "allow" and category "benign", with reason "Allowed"; otherwise the invalid-format, guardrail and unknown-decision reasons each occur exactly in their own case of the table |
| Verdict.Detected | app/main.py:70 | the detection map in use is `prompt_detected` when that is truthy, else `response_detected` when that is truthy, else `{}` |
| Verdict.ReasonsDistinguishable | apps/ai-agent/main.py:123-127 | no reason of one blocking branch can be mistaken for another's |
| Verdict.ReasonsAppend | app/main.py:71 | the reason list of a concatenated detection map is the concatenation of the two lists, so map order is kept |
| Verdict.ReasonsListed | app/main.py:71 | a name is listed exactly when some key with a truthy flag humanises to it |
| Verdict.NoFlagReason | app/main.py:72 | with no truthy flag the reason text is "malicious content" |
| Verdict.HumaniseShape | app/main.py:71 | a humanised key has the key's length, a space for every underscore, no underscore left, and no lower-case letter at the start of a word |
| Verdict.FlagGivesReason | app/main.py:71-72 | one truthy flag makes the reason text the comma-joined list, which is non-empty |
| Verdict.GuardrailDecision | app/main.py:69-73 | helper of `BlockedReason`, holding its first clause: block/malicious with a dict as detection map is unsafe, with the guardrail prefix followed by the reason text |
| Verdict.BlockedReason | app/main.py:69-73 | block/malicious with a dict as detection map is unsafe with the guardrail prefix; the reason is the humanised flagged keys joined by ", " when a flag is truthy, and "malicious content" when none is |
| Verdict.ResponseDetectedIgnored | app/main.py:70 | while `prompt_detected` is truthy, `response_detected` does not affect the decision |
| Verdict.UnknownDecision | app/main.py:74-75 | any other action/category pair, of any type, is unsafe and the reason echoes both as `str()` prints them, a missing field as "None" |
| Verdict.ScanFailureIsUnsafe | apps/ai-agent/main.py:124-125 | the scanner's `{"error": ...}` result is an unknown decision with action and category None |
| Verdict.ProbeError | app/main.py:85-86 | on a dict the guard yields the error value exactly when the key is present; it raises exactly for a non-dict where `in` raises or finds "error" |
| PyJson.Get | app/main.py:64-65 | `dict.get` gives None for a missing key and otherwise a value bound to the key |
| PyJson.Contains | app/main.py:85 | `in` raises exactly on None, bools and numbers, and on a dict tests the keys |
| PyJson.Subscript | app/main.py:86 | subscription succeeds exactly on a dict holding the key, with the value `get` gives |
| PyText.TitleAt | app/main.py:71 | character i of `title()` is upper-cased at a word start and lower-cased after a letter, and keeps its casedness |
| PyText.TitleIdempotent | app/main.py:71 | title-casing twice is title-casing once |
| PyText.ReplaceChar | app/main.py:71 | defined character by character from the front; the result keeps the length, and each position holds the replacement exactly where the input held the replaced character |
| PyText.JoinAppend | apps/ai-agent/main.py:149 | joining two non-empty runs puts one separator between their joins |
| PyText.JoinLength | apps/ai-agent/main.py:149 | the joined text's length is the items' lengths plus one separator per gap |
| PyText.JoinEmpty | apps/ai-agent/main.py:262 | a joined context is empty exactly when there were no lines or one empty line |
| PyText.SplitLinesAreLines | apps/ai-agent/main.py:242 | no line of `splitlines()` holds a line boundary, and only "" has no lines |
| PyText.SplitLinesJoin | apps/ai-agent/main.py:242-246 | for text whose only boundaries are "\n" and that does not end in one, joining its lines with "\n" gives it back |
| PyText.StripEmpty | apps/ai-agent/main.py:196 | `strip()` is empty exactly when every character is white space |
| PyText.DecimalRoundTrip | app/main.py:75 | reading back the digits `str(n)` writes gives n |
| SyncChat.ErrorReply | app/main.py:86 | the error reply is well formed, carries the error and has no verdict |
| SyncChat.BlockedReply | app/main.py:90-93 | the block reply is well formed and carries the reason and the verdict |
| SyncChat.ResponseReply | app/main.py:115-119 | the success reply is well formed and carries the text and both verdicts, with no verdict key |
| SyncChat.Chat | app/main.py:79-119 | the message is scanned first, only scans and generations are called, and every reply has exactly one of response and error |
| SyncChat.GenerationGated | app/main.py:84-100 | the model is called exactly when the input scan passes, and with the message itself |
| SyncChat.OutputScanOfGenerated | app/main.py:95-105 | a second scan happens exactly when the model produced text, and it scans that text |
| SyncChat.ResponseOnlyWhenBothSafe | app/main.py:107-119 | a response is returned exactly when both scans pass, as the text with both verdicts |
| SyncChat.VerdictOnlyOnPolicyBlock | app/main.py:88-112 | a verdict comes only with `is_safe`'s reason for a scan without an "error" key that `is_safe` rejects, of the message or of the generated text |
| SyncChat.InputBlockIsReported | app/main.py:88-93 | an input scan without an error that `is_safe` rejects is answered with `{"error": reason, "verdict": scan}`, after the input scan alone |
| SyncChat.OutputBlockIsReported | app/main.py:107-112 | a generated text whose error-free scan `is_safe` rejects is answered with `{"error": reason, "verdict": output scan}`, after scan, generate, scan |
| SyncChat.OutputScanErrorIsReported | app/main.py:103-105 | an output scan with an "error" key is answered with that error and no verdict |
| SyncChat.RaisedExactly | app/main.py:84-105 | the request raises exactly when the error guard raises on the input scan, or on the scan of generated text after the input passed; the calls stop at that scan |
| SyncChat.ScanErrorIsReported | app/main.py:84-86 | an input-scan error is the reply, without a verdict, and the model is not called |
| SyncChat.GenerationFailureIsReported | app/main.py:95-100 | a model exception gives "Gemini error: ..." and no output scan |
| SyncChat.BenignPasses | app/main.py:67-68 | an allow/benign result has no error key and is safe |
| SyncChat.AllowedRequest | app/main.py:79-119 | a request both scans allow returns the answer with both verdicts after scan, generate, scan |
| SyncChat.UnreachableScanner | app/main.py:84-86 | a failed scanner call makes its error the reply, after one scan |
| TerraformState.Serialised | apps/ai-agent/main.py:146-148 | one serialised text per row |
| TerraformState.FetchTerraformState | apps/ai-agent/main.py:143-150 | a failed query is passed on; rows give "No Terraform state found." when empty, else their texts joined by "\n" in row order |
| TerraformState.StateTextAppend | apps/ai-agent/main.py:146-149 | a further row appends a newline and its text at the end |
| TerraformState.StateTextLength | apps/ai-agent/main.py:149 | for at least one row, the state text is as long as the rows' texts together plus one character per gap between neighbours |
| Prompt.Layout | apps/ai-agent/main.py:252-264 | for any instructions, the agent's `SystemPrompt` among them: the prompt starts with the instructions, then "User Question:\n", the message and "\n\n"; the MCP section follows only for a non-empty context; the state section always ends it |
| AgentStream.Payload | apps/ai-agent/main.py:201-293 | each event is a dict with its type and text; a verdict appears exactly on a policy block and is its verdict |
| AgentStream.McpEvents | apps/ai-agent/main.py:242-244 | defined line by line from the front; the result holds one `mcp` event per line, event i carrying line i |
| AgentStream.GenerationCalls | apps/ai-agent/main.py:272-280 | the model is called first, and only the model and the scanner are called |
| AgentStream.GenerationEnd | apps/ai-agent/main.py:270-293 | the generation stage ends with a terminal event, and a model exception ends it with the "Gemini error" failure |
| AgentStream.GenerationStage | apps/ai-agent/main.py:268-293 | the generation stage opens with "Generating LLM response..." and is well ordered; when the model produced text, "Scanning LLM output via Prisma AIRS..." is its second of three events; a model exception gives two events |
| AgentStream.ContextStage | apps/ai-agent/main.py:236-264 | the MCP stage opens with its log, calls the agent first with the message, and is well ordered |
| AgentStream.ReadyAgent | apps/ai-agent/main.py:64-78 | an existing agent is kept; otherwise there is one exactly when the tools loaded |
| AgentStream.AgentStage | apps/ai-agent/main.py:227-249 | the stage from the agent check on is well ordered; with no cached agent and a successful tool load it opens with "Connecting to Terraform MCP...", "Connected to Terraform MCP and agent initialized." and "Streaming Terraform MCP response..." |
| AgentStream.StateEvent | apps/ai-agent/main.py:219-224 | the state-fetch report never ends the stream: it is "Terraform state fetched." on success and the PostgreSQL error otherwise |
| AgentStream.Admitted | apps/ai-agent/main.py:212-293 | the stream past the input gate is well ordered |
| AgentStream.Run | apps/ai-agent/main.py:199-293 | a run opens with the scan log and the scan call, and unless aborted is progress events then one terminal event |
| AgentStream.ChatStreamService.constructor | apps/ai-agent/main.py:62 | no agent at start |
| AgentStream.ChatStreamService.InitAgent | apps/ai-agent/main.py:64-78 | an existing agent is returned without loading tools; otherwise the tools are loaded once, and the agent is set exactly when the load succeeded |
| AgentStream.ChatStreamService.EventGenerator | apps/ai-agent/main.py:199-293 | the emitted events, calls, abort and new agent are those `Stream` states for the agent it starts with |
| AgentStream.ChatStreamService.EmitAdmitted | apps/ai-agent/main.py:212-224 | after the input gate it emits what `Admitted` states and leaves the agent `ReadyAgent` gives |
| AgentStream.ChatStreamService.EmitAgent | apps/ai-agent/main.py:227-234 | from the agent check on it emits what `AgentStage` states |
| AgentStream.ChatStreamService.ChatStream | apps/ai-agent/main.py:194-197 | a blank message is refused with "Empty message" before any call and leaves the agent; any other message gets `Stream`'s events |
| AgentStream.EmitContext | apps/ai-agent/main.py:236-264 | building the context and the prompt with `+=` emits what `ContextStage` states |
| AgentStream.EmitLines | apps/ai-agent/main.py:242-245 | the loop keeps every line as context and emits one `mcp` event each |
| AgentStream.EmitGeneration | apps/ai-agent/main.py:268-293 | generation emits what `GenerationStage` states |
| AgentStream.OneTerminal | apps/ai-agent/main.py:199-293 | a well-ordered stream's only terminal event is its last |
| AgentStream.CallsBeforeGeneration | apps/ai-agent/main.py:202-241 | the calls before generation hold no model call and no second scan |
| AgentStream.InputGate | apps/ai-agent/main.py:200-210 | an input that does not pass makes only the scan call and keeps the agent; a scan error gives one error carrying the scanner's value after the opening log, a policy block one error carrying the reason and the verdict, and a raising guard cuts the stream short after the opening log |
| AgentStream.AdmittedRun | apps/ai-agent/main.py:212-214 | past the gate the run is the opening log followed by the admitted stage |
| AgentStream.AbortsOnlyAtInput | apps/ai-agent/main.py:203-204 | only a raising input guard cuts the stream short, after the opening log alone |
| AgentStream.AgentInitStops | apps/ai-agent/main.py:227-234 | a failed tool load ends the stream after "Connecting..." with the init error and leaves no agent |
| AgentStream.McpStops | apps/ai-agent/main.py:239-249 | a failing agent call ends the stream with the MCP error, and the model is not called |
| AgentStream.ReachesGenerationCalls | apps/ai-agent/main.py:202-280 | an answering agent leads to the calls: scan, state query, tool load when needed, agent, model, scan of its text |
| AgentStream.ReachesGenerationLast | apps/ai-agent/main.py:270-293 | an answering agent's run ends as generation ends |
| AgentStream.NoModelCallsWithoutAnswer | apps/ai-agent/main.py:200-249 | until the agent has answered, the model is not called and nothing but the message is scanned |
| AgentStream.SingleGeneration | apps/ai-agent/main.py:272 | model-free calls followed by the generation calls hold exactly one model call, with its prompt |
| AgentStream.GenerationAfterAnswer | apps/ai-agent/main.py:261-272 | once the agent answered, the model is called exactly once, with the composed prompt |
| AgentStream.GenerationGated | apps/ai-agent/main.py:200-272 | the model is called exactly when the input passed and the agent answered, and only with the composed prompt |
| AgentStream.ScanAfterGeneration | apps/ai-agent/main.py:272-280 | after the generation calls, every later scan is of the model's text, right after it |
| AgentStream.NoModelCallScansNothing | apps/ai-agent/main.py:200-249 | calls without the model hold no output scan |
| AgentStream.OutputScanOfGenerated | apps/ai-agent/main.py:272-280 | the output scan is of exactly the generated text, right after generation, and every generated text is scanned |
| AgentStream.UnreleasedRunEnds | apps/ai-agent/main.py:199-293 | a run that does not release ends with an error, or is only the opening log when aborted |
| AgentStream.ReleasedRunEnds | apps/ai-agent/main.py:280-288 | a released run ends with the model's text |
| AgentStream.GeminiOnlyLast | apps/ai-agent/main.py:288 | in a well-ordered stream a `gemini` event occurs exactly when it is the last event |
| AgentStream.GeminiExactlyAtEnd | apps/ai-agent/main.py:283-288 | a run ending as released or unreleased runs end holds the model's text exactly when released, and only as its last event |
| AgentStream.GeminiOnlyWhenBothSafe | apps/ai-agent/main.py:279-288 | the answer is streamed exactly when both scans pass, as the last event, and it is the generated text |
| AgentStream.GenerationFailureEnds | apps/ai-agent/main.py:270-293 | a model exception ends the stream with "Gemini error: ..."; the calls stop at the model call, so nothing is scanned after it |
| AgentStream.OutputBlockCarriesVerdict | apps/ai-agent/main.py:283-285 | an unsafe output scan ends the stream with the block reason and its verdict |
| AgentStream.OutputScanErrorBlocks | apps/ai-agent/main.py:280-285 | a scanner error on the output is blocked as an unknown decision, carrying the error result as verdict |
| AgentStream.GenerationEndFits | apps/ai-agent/main.py:280-285 | a policy block at generation is an output block on the scan of the generated text, with the verdict function's reason for it |
| AgentStream.InputBlockFits | apps/ai-agent/main.py:207-210 | a policy block at the input is the verdict function's reason on the scan of the message |
| AgentStream.LastPolicyBlock | apps/ai-agent/main.py:207-285 | a final policy block carries the verdict function's reason for an unsafe verdict that is the scan of the message or of the generated text |
| AgentStream.VerdictOnlyOnPolicyBlock | apps/ai-agent/main.py:199-293 | a policy block is only ever the last event, and it fits its verdict |
| AgentStream.AgentStageShape | apps/ai-agent/main.py:227-241 | the connection log opens the stage exactly when no agent is cached, tools load exactly then, and the agent is asked the message exactly when there is one |
| AgentStream.StateFetchContinues | apps/ai-agent/main.py:212-228 | past the gate the credential log, the fetch log and the fetch report follow, and a PostgreSQL failure is a non-terminal error |
| AgentStream.StateAlwaysInPrompt | apps/ai-agent/main.py:219-264 | the prompt always ends with the state section: the state text, or "[Error fetching Terraform state]" |
| AgentStream.AgentAfterRun | apps/ai-agent/main.py:227-241 | the agent after a run is built only when the input passed and none was cached; the tools are loaded exactly when the input passed and no agent was cached; the agent is asked exactly when the input passed and an agent exists then, and only with the message |
| AgentStream.ContextLines | apps/ai-agent/main.py:237-244 | the MCP stage streams the answer's lines right after its log, then generation follows |
| AgentStream.AgentStageLines | apps/ai-agent/main.py:227-244 | the agent stage streams the lines after the connection logs when there are any |
| AgentStream.AdmittedLines | apps/ai-agent/main.py:212-244 | the admitted stage streams the lines after the three state-fetch events |
| AgentStream.McpLinesInOrder | apps/ai-agent/main.py:199-246 | an answering agent's lines are streamed one `mcp` event each, in order, from the sixth event or the eighth, then generation follows |

## Left out

- The HTTP calls to Prisma AIRS, Gemini and the MCP client, and the
  asyncpg connection with its SQL, are foreign network services. Their
  outcomes are parameters. The scanner is a function of the scanned text,
  so two scans of the same text give the same result.
- `json.dumps` of rows, the SSE framing `data:...\n\n`, and the JSON text
  of events are serialisation. Rows go through an abstract serialiser, and
  events are structured values whose dict is `Payload`.
- Async scheduling is not modelled: `asyncio.to_thread`,
  `asyncio.sleep(0.02)`, the startup hook that calls `init_agent`, and
  races between concurrent `init_agent` calls.
- A run's events and its calls are two separate sequences. How the
  events interleave with the calls is not captured.
- The duck-typed `gemini_response.text` at apps/ai-agent/main.py:273-276
  is library introspection. Generation gives a string or an exception
  message. `str(result)` of the agent answer is the agent's text, and
  `str(e)` of an exception is its message.
- `SSEStreamingHandler` and `run_terraform_mcp` are never called, so
  they are not modelled.
- The credential log line at apps/ai-agent/main.py:212-214 comes from a
  secret. Its text is an opaque parameter.
- FastAPI routing, static files, `/healthcheck`, environment checks and
  `uvicorn.run` are plumbing.
- The agent's question dict `{"messages": [...]}` is modelled as a call
  carrying the message.
- PyJson.Get: where a member list repeats a key, it reads the first
  binding, whereas Python's JSON decoder keeps the last. The model treats
  dict keys as distinct.
- Verdict.IsSafe: keys are strings, as JSON decoding makes them. The
  AttributeError a non-string detection key would raise cannot arise and
  is not modelled.
- PyText.TitleAt: letter case is ASCII only. Non-ASCII letters are left
  unchanged and count as uncased, so an ASCII letter after one is
  upper-cased where Python lower-cases it ("éa".title() is "Éa"; the
  model gives "éA"). `repr` is modelled for ASCII strings.
- JSON numbers are integers. Floats are left out.
- Verdict.Reasons: a detection map that repeats a key lists each
  occurrence, whereas Python's decoder keeps one binding per key. The
  model treats detection keys as distinct.
- TerraformState.FetchTerraformState: the row serialiser is total. In
  the code, `json.dumps` of a row with a non-JSON column raises, and the
  generator then reports a state-fetch error. The model covers a failing
  fetch only through a failing query.
- The console output of `print` and `traceback.print_exc` at
  apps/ai-agent/main.py:69-77 and 291-292 is diagnostics. No caller sees
  it.
- AgentStream.Run: the generator's stages take the instructions and the
  verdict function as a configuration. The agent's stream is the run with
  `SystemPrompt` and `is_safe`, and `OutputScanErrorBlocks` is the one
  property that depends on `is_safe` itself.
