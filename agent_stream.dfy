/**
 * The streaming `/chat-stream` endpoint of the Terraform agent: the event
 * generator scans the message, reads the Terraform state, asks the MCP tool
 * agent, composes a prompt, generates, scans the answer and emits typed
 * events (`log`, `mcp`, `gemini`, `error`) as it goes. The agent is a lazily
 * built, process-wide value kept by the service object.
 *
 * `Stream` states what one run of the generator emits; the class method
 * `EventGenerator` does it step by step and is proved to agree with it.
 * Events are kept structured (which log line, which failure); `Payload`
 * gives the dict each one is serialised from.
 */
module AgentStream {
  import opened PyText
  import opened PyJson
  import opened Verdict
  import opened Services
  import opened TerraformState
  import opened Prompt

  // ---------------------------------------------------------------------------
  // Events
  // ---------------------------------------------------------------------------

  /** The progress lines the generator logs. */
  datatype LogLine =
    | ScanningInput
    | Credential(text: string)
    | FetchingState
    | StateFetched
    | Connecting
    | Connected
    | StreamingMcp
    | Generating
    | ScanningOutput

  /** What an `error` event reports; the two policy blocks carry the scan verdict. */
  datatype Failure =
    | ScanFailed(error: Json)
    | InputBlocked(reason: string, verdict: Json)
    | StateQueryFailed(message: string)
    | AgentInitFailed(message: string)
    | McpFailed(message: string)
    | GeminiFailed(message: string)
    | OutputBlocked(reason: string, verdict: Json)

  /** One server-sent event. */
  datatype Event =
    | Log(line: LogLine)
    | Mcp(text: string)
    | Gemini(text: string)
    | Error(failure: Failure)

  /** The text of a log line. The credential line's text is derived from a secret and kept opaque. */
  function LogText(line: LogLine): string
  {
    match line
    case ScanningInput => "Scanning input via Prisma AIRS..."
    case Credential(text) => text
    case FetchingState => "Fetching current Terraform remote state from PostgreSQL..."
    case StateFetched => "Terraform state fetched."
    case Connecting => "Connecting to Terraform MCP..."
    case Connected => "Connected to Terraform MCP and agent initialized."
    case StreamingMcp => "Streaming Terraform MCP response..."
    case Generating => "Generating LLM response..."
    case ScanningOutput => "Scanning LLM output via Prisma AIRS..."
  }

  /** The "text" of an error event: the scanner's own error value, or a prefixed message. */
  function ErrorText(f: Failure): Json
  {
    match f
    case ScanFailed(error) => error
    case InputBlocked(reason, _) => Str("Blocked: " + reason)
    case StateQueryFailed(message) => Str("PostgreSQL query failed: " + message)
    case AgentInitFailed(message) => Str("Failed to initialize agent: " + message)
    case McpFailed(message) => Str("MCP streaming error: " + message)
    case GeminiFailed(message) => Str("Gemini error: " + message)
    case OutputBlocked(reason, _) => Str("LLM output blocked: " + reason)
  }

  predicate IsPolicyBlock(f: Failure)
  {
    f.InputBlocked? || f.OutputBlocked?
  }

  /**
   * The dict an event is serialised from: its "type", its "text" and, for a
   * policy block only, the "verdict".
   */
  function Payload(e: Event): (p: Json)
    ensures p.Object? && HasKey(p.fields, "type") && HasKey(p.fields, "text")
    ensures HasKey(p.fields, "verdict") <==> e.Error? && IsPolicyBlock(e.failure)
    ensures e.Error? && IsPolicyBlock(e.failure) ==> Get(p.fields, "verdict") == e.failure.verdict
    ensures e.Error? ==> Get(p.fields, "type") == Str("error") && Get(p.fields, "text") == ErrorText(e.failure)
    ensures e.Log? ==> Get(p.fields, "type") == Str("log") && Get(p.fields, "text") == Str(LogText(e.line))
    ensures e.Mcp? ==> Get(p.fields, "type") == Str("mcp") && Get(p.fields, "text") == Str(e.text)
    ensures e.Gemini? ==> Get(p.fields, "type") == Str("gemini") && Get(p.fields, "text") == Str(e.text)
  {
    var (kind, text) :=
      match e
      case Log(line) => ("log", Str(LogText(line)))
      case Mcp(text) => ("mcp", Str(text))
      case Gemini(text) => ("gemini", Str(text))
      case Error(f) => ("error", ErrorText(f));
    var fields :=
      if e.Error? && IsPolicyBlock(e.failure) then [("type", Str(kind)), ("text", text), ("verdict", e.failure.verdict)]
      else [("type", Str(kind)), ("text", text)];
    assert fields[0].0 == "type" && fields[1].0 == "text";
    assert |fields| == 3 ==> fields[2].0 == "verdict";
    assert |fields| == 2 ==> forall i :: 0 <= i < |fields| ==> fields[i].0 != "verdict";
    Object(fields)
  }

  /** One `mcp` event per line, in order. */
  function McpEvents(lines: seq<string>): (events: seq<Event>)
    ensures |events| == |lines|
    ensures forall i :: 0 <= i < |lines| ==> events[i] == Mcp(lines[i])
  {
    if lines == [] then []
    else
      var rest := McpEvents(lines[1..]);
      assert forall i :: 1 <= i < |lines| ==> lines[i] == lines[1..][i - 1];
      [Mcp(lines[0])] + rest
  }

  // ---------------------------------------------------------------------------
  // Event order
  // ---------------------------------------------------------------------------

  /** An event that does not end the stream: a log line, an MCP line, or the state-store error. */
  predicate IsProgress(e: Event)
  {
    e.Log? || e.Mcp? || (e.Error? && e.failure.StateQueryFailed?)
  }

  /** An event that ends the stream: the model's answer, or any error but the state-store one. */
  predicate IsTerminal(e: Event)
  {
    e.Gemini? || (e.Error? && !e.failure.StateQueryFailed?)
  }

  predicate AllProgress(events: seq<Event>)
  {
    forall i :: 0 <= i < |events| ==> IsProgress(events[i])
  }

  /** Progress events only, then exactly one terminal event, which is the last. */
  predicate WellOrdered(events: seq<Event>)
  {
    && |events| >= 1
    && AllProgress(events[..|events| - 1])
    && IsTerminal(events[|events| - 1])
  }

  lemma WellOrderedAfter(prefix: seq<Event>, tail: seq<Event>)
    requires AllProgress(prefix) && WellOrdered(tail)
    ensures WellOrdered(prefix + tail)
  {
    var all := prefix + tail;
    assert all[..|all| - 1] == prefix + tail[..|tail| - 1];
  }

  // ---------------------------------------------------------------------------
  // What one run emits
  // ---------------------------------------------------------------------------

  /**
   * The outcomes of the external calls one request meets: the scanner as a
   * function of the scanned text, the credential log line, the state query
   * with its row serialiser, the MCP tool load, the agent and the model.
   */
  datatype World<!Row> = World(
    scan: string -> Json,
    credentialLog: string,
    query: Query<Row>,
    serialise: Row -> string,
    loadTools: ToolLoad,
    invoke: (Agent, string) -> AgentAnswer,
    generate: string -> Generation)

  /**
   * What the generator is configured with: the model instructions and the
   * verdict function applied to scan results. The agent's own are
   * `SystemPrompt` and `is_safe`; the properties below hold for any.
   */
  datatype Config = Config(instructions: string, judge: Json -> Decision)

  const AgentConfig := Config(SystemPrompt, IsSafe)

  /** The guard in front of generation: no "error" key in the scan result, and the verdict function accepts it. */
  predicate Admits(cfg: Config, result: Json)
  {
    ProbeError(result).NoError? && cfg.judge(result).safe
  }

  /**
   * One run of the generator: the events, the calls made, the process-wide
   * agent afterwards, and whether an exception cut the stream short.
   */
  datatype StreamRun = StreamRun(events: seq<Event>, calls: seq<Call>, agent: Option<Agent>, aborted: bool)

  /** The events and calls of a later part of a run. */
  datatype Part = Part(events: seq<Event>, calls: seq<Call>)

  /** The calls from generation on: the model, then a scan of exactly its text when it produced one. */
  function GenerationCalls(prompt: string, generate: string -> Generation): (calls: seq<Call>)
    ensures |calls| >= 1 && calls[0] == Generate(prompt) && forall c :: c in calls ==> c.Generate? || c.Scan?
  {
    [Generate(prompt)] + if generate(prompt).Generated? then [Scan(generate(prompt).text)] else []
  }

  /**
   * The event that ends a stream once the model was called: the model's
   * error; its text when `is_safe` accepts the scan of that text; otherwise
   * the block with `is_safe`'s reason and the verdict.
   */
  function GenerationEnd<Row>(cfg: Config, prompt: string, w: World<Row>): (e: Event)
    ensures IsTerminal(e)
    ensures w.generate(prompt).GenerationFailed? ==> e == Error(GeminiFailed(w.generate(prompt).error))
  {
    match w.generate(prompt)
    case GenerationFailed(error) => Error(GeminiFailed(error))
    case Generated(text) =>
      var output := w.scan(text);
      var decision := cfg.judge(output);
      if decision.safe then Gemini(text) else Error(OutputBlocked(decision.reason, output))
  }

  /**
   * From "Generating LLM response..." to the end: generate, announce the
   * output scan when there is text, then release or block it.
   */
  function GenerationStage<Row>(cfg: Config, prompt: string, w: World<Row>): (part: Part)
    ensures WellOrdered(part.events) && part.events[0] == Log(Generating)
    ensures w.generate(prompt).Generated? ==> |part.events| == 3 && part.events[1] == Log(ScanningOutput)
    ensures w.generate(prompt).GenerationFailed? ==> |part.events| == 2
  {
    var scanning := if w.generate(prompt).Generated? then [Log(ScanningOutput)] else [];
    var events := [Log(Generating)] + scanning + [GenerationEnd(cfg, prompt, w)];
    assert events[..|events| - 1] == [Log(Generating)] + scanning;
    Part(events, GenerationCalls(prompt, w.generate))
  }

  /** From "Streaming Terraform MCP response..." on: ask the agent, stream its lines, compose the prompt. */
  function ContextStage<Row>(cfg: Config, message: string, agent: Agent, state: string, w: World<Row>): (part: Part)
    ensures WellOrdered(part.events) && part.events[0] == Log(StreamingMcp)
    ensures |part.calls| >= 1 && part.calls[0] == InvokeAgent(message)
  {
    match w.invoke(agent, message)
    case AgentFailed(e) =>
      Part([Log(StreamingMcp), Error(McpFailed(e))], [InvokeAgent(message)])
    case Answered(text) =>
      var lines := SplitLines(text);
      var rest := GenerationStage(cfg, Compose(cfg.instructions, message, Join("\n", lines), state), w);
      WellOrderedAfter([Log(StreamingMcp)] + McpEvents(lines), rest.events);
      Part([Log(StreamingMcp)] + McpEvents(lines) + rest.events, [InvokeAgent(message)] + rest.calls)
  }

  /** The agent after `init_agent()`: the one already built, else one built from a successful tool load. */
  function ReadyAgent(agent: Option<Agent>, load: ToolLoad): (r: Option<Agent>)
    ensures agent.Some? ==> r == agent
    ensures agent.None? ==> (r.Some? <==> load.ToolsLoaded?)
  {
    if agent.Some? then agent
    else if load.ToolsLoaded? then Some(Agent(load.tools))
    else None
  }

  /** From the `agent is None` check on: build the agent if there is none yet, then the context stage. */
  function AgentStage<Row>(cfg: Config, message: string, agent: Option<Agent>, state: string, w: World<Row>): (part: Part)
    ensures WellOrdered(part.events)
    ensures agent.None? && w.loadTools.ToolsLoaded? ==>
      |part.events| >= 3 && part.events[..3] == [Log(Connecting), Log(Connected), Log(StreamingMcp)]
  {
    if agent.Some? then ContextStage(cfg, message, agent.value, state, w)
    else
      match w.loadTools
      case ToolsFailed(e) =>
        Part([Log(Connecting), Error(AgentInitFailed(e))], [LoadTools])
      case ToolsLoaded(tools) =>
        var rest := ContextStage(cfg, message, Agent(tools), state, w);
        WellOrderedAfter([Log(Connecting), Log(Connected)], rest.events);
        Part([Log(Connecting), Log(Connected)] + rest.events, [LoadTools] + rest.calls)
  }

  /** The event reporting the state fetch: a log line, or the PostgreSQL error. */
  function StateEvent(fetch: Fetch): (e: Event)
    ensures IsProgress(e)
    ensures fetch.Fetched? ==> e == Log(StateFetched)
    ensures fetch.FetchFailed? ==> e == Error(StateQueryFailed(fetch.error))
  {
    match fetch
    case Fetched(_) => Log(StateFetched)
    case FetchFailed(error) => Error(StateQueryFailed(error))
  }

  /** The state text the prompt carries when the state could not be read. */
  const StateErrorText := "[Error fetching Terraform state]"

  /** `tf_state`: the fetched text, or a placeholder when the fetch failed. */
  function PromptState(fetch: Fetch): string
  {
    match fetch
    case Fetched(text) => text
    case FetchFailed(_) => StateErrorText
  }

  /** The rest of the stream once the input scan has passed: credential log, state fetch, agent and generation. */
  function Admitted<Row>(cfg: Config, message: string, agent: Option<Agent>, w: World<Row>): (part: Part)
    ensures WellOrdered(part.events)
  {
    var fetch := Fetching(w.query, w.serialise);
    var prefix := [Log(Credential(w.credentialLog)), Log(FetchingState), StateEvent(fetch)];
    var rest := AgentStage(cfg, message, agent, PromptState(fetch), w);
    WellOrderedAfter(prefix, rest.events);
    Part(prefix + rest.events, [QueryState] + rest.calls)
  }

  /** The generator's run for a configuration; `Stream` is the agent's own. */
  function Run<Row>(cfg: Config, message: string, agent: Option<Agent>, w: World<Row>): (run: StreamRun)
    ensures run.aborted || WellOrdered(run.events)
    ensures |run.events| >= 1 && |run.calls| >= 1
    ensures run.events[0] == Log(ScanningInput) && run.calls[0] == Scan(message)
  {
    var inputScan := w.scan(message);
    var opening := [Log(ScanningInput)];
    match ProbeError(inputScan)
    case ProbeRaised => StreamRun(opening, [Scan(message)], agent, true)
    case ErrorValue(e) => StreamRun(opening + [Error(ScanFailed(e))], [Scan(message)], agent, false)
    case NoError =>
      var input := cfg.judge(inputScan);
      if !input.safe then
        StreamRun(opening + [Error(InputBlocked(input.reason, inputScan))], [Scan(message)], agent, false)
      else
        var rest := Admitted(cfg, message, agent, w);
        WellOrderedAfter(opening, rest.events);
        StreamRun(opening + rest.events, [Scan(message)] + rest.calls, ReadyAgent(agent, w.loadTools), false)
  }

  /** What one run of `event_generator()` emits, given the agent it starts with. */
  function Stream<Row>(message: string, agent: Option<Agent>, w: World<Row>): StreamRun
  {
    Run(AgentConfig, message, agent, w)
  }

  // ---------------------------------------------------------------------------
  // The service: the process-wide agent and the generator
  // ---------------------------------------------------------------------------

  /** What `init_agent()` ends with: the agent, or the exception of the failed tool load. */
  datatype AgentInit = Ready(agent: Agent) | InitFailed(error: string)

  /** What `/chat-stream` answers: the empty-message dict, or the event stream. */
  datatype StreamResponse = Rejected(reply: Json) | Streaming(events: seq<Event>, aborted: bool)

  /** `{"error": "Empty message"}` */
  const EmptyMessageReply := Object([("error", Str("Empty message"))])

  /** The module-level state of the streaming agent: the lazily built `agent` global. */
  class ChatStreamService {
    /** The process-wide agent; None until a tool load has succeeded. */
    var agent: Option<Agent>

    constructor ()
      ensures agent == None
    {
      agent := None;
    }

    /**
     * `init_agent()`: hand back the existing agent without contacting MCP;
     * otherwise load the tools and build the agent. The global is assigned
     * only after a successful load, so a failed one leaves it empty and the
     * next call tries again.
     */
    method InitAgent(load: ToolLoad) returns (r: AgentInit, calls: seq<Call>)
      modifies this
      ensures old(agent).Some? ==> r == Ready(old(agent).value) && calls == []
      ensures old(agent).None? ==> calls == [LoadTools]
      ensures old(agent).None? && load.ToolsFailed? ==> r == InitFailed(load.error)
      ensures r.Ready? <==> agent.Some?
      ensures r.Ready? ==> agent == Some(r.agent)
      ensures agent == ReadyAgent(old(agent), load)
    {
      if agent.Some? {
        return Ready(agent.value), [];
      }
      calls := [LoadTools];
      match load
      case ToolsFailed(e) =>
        r := InitFailed(e);
      case ToolsLoaded(tools) =>
        agent := Some(Agent(tools));
        r := Ready(agent.value);
    }

    /**
     * `event_generator()`: emit the events one by one, stopping at the first
     * terminal one. It does what `Stream` states for the agent it starts
     * with, and leaves the agent `Stream` says.
     */
    method EventGenerator<Row>(message: string, w: World<Row>) returns (events: seq<Event>, calls: seq<Call>, aborted: bool)
      modifies this
      ensures StreamRun(events, calls, agent, aborted) == Stream(message, old(agent), w)
    {
      events := [Log(ScanningInput)];
      calls := [Scan(message)];
      aborted := false;
      var inputScan := w.scan(message);
      match ProbeError(inputScan)
      case ProbeRaised =>
        aborted := true;
      case ErrorValue(e) =>
        events := events + [Error(ScanFailed(e))];
      case NoError =>
        var input := IsSafe(inputScan);
        if !input.safe {
          events := events + [Error(InputBlocked(input.reason, inputScan))];
          return;
        }
        var rest, restCalls := EmitAdmitted(AgentConfig, message, w);
        events := events + rest;
        calls := calls + restCalls;
    }

    /**
     * The generator after the input scan has passed. The stages take the
     * configuration as a parameter; the generator passes `AgentConfig`.
     */
    method EmitAdmitted<Row>(cfg: Config, message: string, w: World<Row>) returns (events: seq<Event>, calls: seq<Call>)
      modifies this
      ensures Part(events, calls) == Admitted(cfg, message, old(agent), w)
      ensures agent == ReadyAgent(old(agent), w.loadTools)
    {
      events := [Log(Credential(w.credentialLog)), Log(FetchingState)];
      calls := [QueryState];
      var fetch := FetchTerraformState(w.query, w.serialise);
      var tfState: string;
      var reported: Event;
      match fetch {
        case Fetched(text) =>
          tfState := text;
          reported := Log(StateFetched);
        case FetchFailed(e) =>
          tfState := StateErrorText;
          reported := Error(StateQueryFailed(e));
      }
      events := events + [reported];
      assert reported == StateEvent(fetch) && tfState == PromptState(fetch);
      assert events == [Log(Credential(w.credentialLog)), Log(FetchingState), StateEvent(fetch)];
      var rest, restCalls := EmitAgent(cfg, message, tfState, w);
      events := events + rest;
      calls := calls + restCalls;
    }

    /** From the `agent is None` check to the end of the stream. */
    method EmitAgent<Row>(cfg: Config, message: string, tfState: string, w: World<Row>)
      returns (events: seq<Event>, calls: seq<Call>)
      modifies this
      ensures Part(events, calls) == AgentStage(cfg, message, old(agent), tfState, w)
      ensures agent == ReadyAgent(old(agent), w.loadTools)
    {
      if agent.Some? {
        events, calls := EmitContext(cfg, message, agent.value, tfState, w);
        return;
      }
      var init;
      init, calls := InitAgent(w.loadTools);
      match init {
        case InitFailed(error) =>
          events := [Log(Connecting), Error(AgentInitFailed(error))];
        case Ready(ready) =>
          var rest, restCalls := EmitContext(cfg, message, ready, tfState, w);
          events := [Log(Connecting), Log(Connected)] + rest;
          calls := calls + restCalls;
      }
    }

    /**
     * `chat_stream(message)`: a blank message is refused before anything
     * else happens; any other message gets the generator's stream.
     */
    method ChatStream<Row>(message: string, w: World<Row>) returns (r: StreamResponse, calls: seq<Call>)
      modifies this
      ensures IsBlank(message) ==> r == Rejected(EmptyMessageReply) && calls == [] && agent == old(agent)
      ensures !IsBlank(message) ==>
        var run := Stream(message, old(agent), w);
        r == Streaming(run.events, run.aborted) && calls == run.calls && agent == run.agent
    {
      StripEmpty(message);
      if Strip(message) == "" {
        return Rejected(EmptyMessageReply), [];
      }
      var events, aborted;
      events, calls, aborted := EventGenerator(message, w);
      r := Streaming(events, aborted);
    }
  }

  /**
   * From "Streaming Terraform MCP response..." on: ask the agent, emit each
   * line of its answer as it collects the context, build the prompt piece by
   * piece, then generate.
   */
  method EmitContext<Row>(cfg: Config, message: string, agent: Agent, tfState: string, w: World<Row>)
    returns (events: seq<Event>, calls: seq<Call>)
    ensures Part(events, calls) == ContextStage(cfg, message, agent, tfState, w)
  {
    events := [Log(StreamingMcp)];
    calls := [InvokeAgent(message)];
    match w.invoke(agent, message)
    case AgentFailed(e) =>
      events := events + [Error(McpFailed(e))];
    case Answered(result) =>
      var lines := SplitLines(result);
      var context, lineEvents := EmitLines(lines);
      events := events + lineEvents;
      var terraformContext := Join("\n", context);
      var fullPrompt := QuestionSection(cfg.instructions, message);
      if terraformContext != "" {
        fullPrompt := fullPrompt + McpSection(terraformContext);
      }
      fullPrompt := fullPrompt + StateSection(tfState);
      assert fullPrompt == Compose(cfg.instructions, message, terraformContext, tfState);
      var rest, restCalls := EmitGeneration(cfg, fullPrompt, w);
      events := events + rest;
      calls := calls + restCalls;
  }

  /** `for line in str(result).splitlines()`: keep each line for the context and emit it as an `mcp` event. */
  method EmitLines(lines: seq<string>) returns (context: seq<string>, events: seq<Event>)
    ensures context == lines
    ensures events == McpEvents(lines)
  {
    context := [];
    events := [];
    for i := 0 to |lines|
      invariant context == lines[..i]
      invariant events == McpEvents(lines[..i])
    {
      assert lines[..i + 1] == lines[..i] + [lines[i]];
      context := context + [lines[i]];
      events := events + [Mcp(lines[i])];
    }
    assert lines[..|lines|] == lines;
  }

  /** From "Generating LLM response..." on: generate, scan exactly the generated text, release or block it. */
  method EmitGeneration<Row>(cfg: Config, prompt: string, w: World<Row>) returns (events: seq<Event>, calls: seq<Call>)
    ensures Part(events, calls) == GenerationStage(cfg, prompt, w)
  {
    events := [Log(Generating)];
    calls := [Generate(prompt)];
    match w.generate(prompt)
    case GenerationFailed(e) =>
      events := events + [Error(GeminiFailed(e))];
    case Generated(text) =>
      events := events + [Log(ScanningOutput)];
      calls := calls + [Scan(text)];
      var outputScan := w.scan(text);
      var output := cfg.judge(outputScan);
      if !output.safe {
        events := events + [Error(OutputBlocked(output.reason, outputScan))];
      } else {
        events := events + [Gemini(text)];
      }
  }

  // ---------------------------------------------------------------------------
  // Properties of the stream
  // ---------------------------------------------------------------------------

  function Last<T>(s: seq<T>): T
    requires |s| > 0
  {
    s[|s| - 1]
  }

  /** A well-ordered stream has exactly one terminal event, its last. */
  lemma OneTerminal(events: seq<Event>)
    requires WellOrdered(events)
    ensures forall i :: 0 <= i < |events| && IsTerminal(events[i]) ==> i == |events| - 1
  {
    forall i | 0 <= i < |events| - 1
      ensures !IsTerminal(events[i])
    {
      assert events[..|events| - 1][i] == events[i];
    }
  }

  /** Past the input gate: the agent is cached or built, and it answered the question. */
  predicate AgentAnswers<Row>(message: string, agent: Option<Agent>, w: World<Row>)
  {
    ReadyAgent(agent, w.loadTools).Some? && w.invoke(ReadyAgent(agent, w.loadTools).value, message).Answered?
  }

  /** The lines of the agent's answer, for a run in which it answered. */
  function AnswerLines<Row>(message: string, agent: Option<Agent>, w: World<Row>): seq<string>
    requires AgentAnswers(message, agent, w)
  {
    SplitLines(w.invoke(ReadyAgent(agent, w.loadTools).value, message).text)
  }

  /** The prompt a run composes once the agent has answered: its lines joined again, and the state text. */
  function PromptFor<Row>(cfg: Config, message: string, agent: Option<Agent>, w: World<Row>): string
    requires AgentAnswers(message, agent, w)
  {
    Compose(cfg.instructions, message, Join("\n", AnswerLines(message, agent, w)), PromptState(Fetching(w.query, w.serialise)))
  }

  /** The calls of an admitted run up to the agent call. */
  function CallsBeforeGeneration(message: string, agent: Option<Agent>): (calls: seq<Call>)
    ensures |calls| >= 1 && NoModelCallAfterFirst(calls)
  {
    if agent.None? then [Scan(message), QueryState, LoadTools, InvokeAgent(message)]
    else [Scan(message), QueryState, InvokeAgent(message)]
  }

  // ---------------------------------------------------------------------------
  // The ways a run goes
  // ---------------------------------------------------------------------------

  /**
   * The input gate: when the scan of the message does not pass, the stream
   * is the opening log and at most one error, only the scan is called and
   * the agent is untouched. A scan error is reported as the scanner's own
   * value; a policy block carries `is_safe`'s reason and the verdict.
   */
  lemma InputGate<Row>(cfg: Config, message: string, agent: Option<Agent>, w: World<Row>)
    requires !Admits(cfg, w.scan(message))
    ensures var run := Run(cfg, message, agent, w);
      && run.calls == [Scan(message)] && run.agent == agent
      && (ProbeError(w.scan(message)).ProbeRaised? ==> run.aborted && run.events == [Log(ScanningInput)])
      && (ProbeError(w.scan(message)).ErrorValue? ==>
            !run.aborted && run.events == [Log(ScanningInput), Error(ScanFailed(ProbeError(w.scan(message)).value))])
      && (ProbeError(w.scan(message)).NoError? ==>
            var d := cfg.judge(w.scan(message));
            !d.safe && !run.aborted && run.events == [Log(ScanningInput), Error(InputBlocked(d.reason, w.scan(message)))])
  {
  }

  /** Past the input gate the run is the opening log followed by the admitted stage. */
  lemma AdmittedRun<Row>(cfg: Config, message: string, agent: Option<Agent>, w: World<Row>)
    requires Admits(cfg, w.scan(message))
    ensures var rest := Admitted(cfg, message, agent, w);
      Run(cfg, message, agent, w) ==
      StreamRun([Log(ScanningInput)] + rest.events, [Scan(message)] + rest.calls, ReadyAgent(agent, w.loadTools), false)
  {
  }

  /**
   * Only an exception in the input scan's error guard cuts the stream short,
   * and then after the opening log alone.
   */
  lemma AbortsOnlyAtInput<Row>(cfg: Config, message: string, agent: Option<Agent>, w: World<Row>)
    ensures var run := Run(cfg, message, agent, w);
      run.aborted <==> ProbeError(w.scan(message)).ProbeRaised?
    ensures var run := Run(cfg, message, agent, w);
      run.aborted ==> run.events == [Log(ScanningInput)] && run.calls == [Scan(message)]
  {
    if Admits(cfg, w.scan(message)) {
      AdmittedRun(cfg, message, agent, w);
    } else {
      InputGate(cfg, message, agent, w);
    }
  }

  /**
   * A failed tool load ends the stream right after "Connecting to Terraform
   * MCP..." with the initialisation error; the agent stays unset.
   */
  lemma AgentInitStops<Row>(cfg: Config, message: string, agent: Option<Agent>, w: World<Row>)
    requires Admits(cfg, w.scan(message)) && ReadyAgent(agent, w.loadTools).None?
    ensures var run := Run(cfg, message, agent, w);
      && agent.None? && w.loadTools.ToolsFailed?
      && !run.aborted && run.agent == None
      && run.calls == [Scan(message), QueryState, LoadTools]
      && run.events == [Log(ScanningInput), Log(Credential(w.credentialLog)), Log(FetchingState),
                        StateEvent(Fetching(w.query, w.serialise)), Log(Connecting), Error(AgentInitFailed(w.loadTools.error))]
  {
    AdmittedRun(cfg, message, agent, w);
  }

  /** A failing agent call ends the stream with the MCP error; the model is not called. */
  lemma McpStops<Row>(cfg: Config, message: string, agent: Option<Agent>, w: World<Row>)
    requires Admits(cfg, w.scan(message)) && ReadyAgent(agent, w.loadTools).Some?
    requires w.invoke(ReadyAgent(agent, w.loadTools).value, message).AgentFailed?
    ensures var run := Run(cfg, message, agent, w);
      && !run.aborted && run.agent == ReadyAgent(agent, w.loadTools)
      && run.calls == CallsBeforeGeneration(message, agent)
      && Last(run.events) == Error(McpFailed(w.invoke(ReadyAgent(agent, w.loadTools).value, message).error))
  {
    AdmittedRun(cfg, message, agent, w);
  }

  /**
   * The calls of a run in which the agent answered: the scan, the state
   * query, the tool load when there was no agent yet, the agent call, then
   * the model on the composed prompt and the scan of its text.
   */
  lemma ReachesGenerationCalls<Row>(cfg: Config, message: string, agent: Option<Agent>, w: World<Row>)
    requires Admits(cfg, w.scan(message)) && AgentAnswers(message, agent, w)
    ensures var run := Run(cfg, message, agent, w);
      && !run.aborted && run.agent == ReadyAgent(agent, w.loadTools)
      && run.calls == CallsBeforeGeneration(message, agent) + GenerationCalls(PromptFor(cfg, message, agent, w), w.generate)
  {
    AdmittedRun(cfg, message, agent, w);
    var gen := GenerationCalls(PromptFor(cfg, message, agent, w), w.generate);
    var a := ReadyAgent(agent, w.loadTools).value;
    var context := ContextStage(cfg, message, a, PromptState(Fetching(w.query, w.serialise)), w);
    assert context.calls == [InvokeAgent(message)] + gen;
    if agent.None? {
      assert [Scan(message)] + ([QueryState] + ([LoadTools] + context.calls))
        == [Scan(message), QueryState, LoadTools, InvokeAgent(message)] + gen;
    } else {
      assert [Scan(message)] + ([QueryState] + context.calls)
        == [Scan(message), QueryState, InvokeAgent(message)] + gen;
    }
  }

  /** In a run where the agent answered, the stream ends as the generation stage ends. */
  lemma ReachesGenerationLast<Row>(cfg: Config, message: string, agent: Option<Agent>, w: World<Row>)
    requires Admits(cfg, w.scan(message)) && AgentAnswers(message, agent, w)
    ensures Last(Run(cfg, message, agent, w).events) == GenerationEnd(cfg, PromptFor(cfg, message, agent, w), w)
  {
    AdmittedRun(cfg, message, agent, w);
  }

  // ---------------------------------------------------------------------------
  // Gating
  // ---------------------------------------------------------------------------

  /** No call to the model, and no scan but the first. */
  predicate NoModelCallAfterFirst(calls: seq<Call>)
  {
    forall i :: 0 <= i < |calls| ==> !calls[i].Generate? && (i > 0 ==> !calls[i].Scan?)
  }

  /** Until the agent has answered, there is no call to the model and no scan but the first. */
  lemma NoModelCallsWithoutAnswer<Row>(cfg: Config, message: string, agent: Option<Agent>, w: World<Row>)
    requires !(Admits(cfg, w.scan(message)) && AgentAnswers(message, agent, w))
    ensures NoModelCallAfterFirst(Run(cfg, message, agent, w).calls)
  {
    if !Admits(cfg, w.scan(message)) {
      InputGate(cfg, message, agent, w);
    } else if ReadyAgent(agent, w.loadTools).None? {
      AgentInitStops(cfg, message, agent, w);
    } else {
      McpStops(cfg, message, agent, w);
    }
  }

  /** Calls free of the model, then the generation stage's: the model is called once, with its prompt. */
  lemma SingleGeneration(calls: seq<Call>, before: seq<Call>, prompt: string, generate: string -> Generation)
    requires calls == before + GenerationCalls(prompt, generate) && NoModelCallAfterFirst(before)
    ensures Generate(prompt) in calls && forall c :: c in calls && c.Generate? ==> c == Generate(prompt)
  {
    assert calls[|before|] == Generate(prompt);
  }

  /** Once the agent has answered, the model is called exactly once, with the composed prompt. */
  lemma GenerationAfterAnswer<Row>(cfg: Config, message: string, agent: Option<Agent>, w: World<Row>)
    requires Admits(cfg, w.scan(message)) && AgentAnswers(message, agent, w)
    ensures var calls := Run(cfg, message, agent, w).calls;
      var prompt := PromptFor(cfg, message, agent, w);
      Generate(prompt) in calls && forall c :: c in calls && c.Generate? ==> c == Generate(prompt)
  {
    var calls := Run(cfg, message, agent, w).calls;
    ReachesGenerationCalls(cfg, message, agent, w);
    SingleGeneration(calls, CallsBeforeGeneration(message, agent), PromptFor(cfg, message, agent, w), w.generate);
  }

  /**
   * The model is called only after the input scan passed and the agent
   * answered, and then exactly once, with the prompt composed from the
   * message, the agent's lines and the state text.
   */
  lemma GenerationGated<Row>(cfg: Config, message: string, agent: Option<Agent>, w: World<Row>)
    ensures var run := Run(cfg, message, agent, w);
      (exists c :: c in run.calls && c.Generate?) <==> Admits(cfg, w.scan(message)) && AgentAnswers(message, agent, w)
    ensures var run := Run(cfg, message, agent, w);
      forall c :: c in run.calls && c.Generate? ==>
        AgentAnswers(message, agent, w) && c == Generate(PromptFor(cfg, message, agent, w))
  {
    if Admits(cfg, w.scan(message)) && AgentAnswers(message, agent, w) {
      GenerationAfterAnswer(cfg, message, agent, w);
    } else {
      NoModelCallsWithoutAnswer(cfg, message, agent, w);
    }
  }

  /** What the scan calls after the first one are: each scans the text the model just produced, and is the last call. */
  predicate OutputScansGenerated(calls: seq<Call>, generate: string -> Generation)
  {
    && (forall i :: 1 <= i < |calls| && calls[i].Scan? ==>
          i == |calls| - 1 && calls[i - 1].Generate? && generate(calls[i - 1].prompt) == Generated(calls[i].text))
    && (forall i :: 0 <= i < |calls| && calls[i].Generate? && generate(calls[i].prompt).Generated? ==>
          i + 1 < |calls| && calls[i + 1] == Scan(generate(calls[i].prompt).text))
  }

  /** Calls free of the model, then the generation stage's: the only later scan is of the model's text. */
  lemma ScanAfterGeneration(calls: seq<Call>, before: seq<Call>, prompt: string, generate: string -> Generation)
    requires calls == before + GenerationCalls(prompt, generate)
    requires |before| >= 1 && NoModelCallAfterFirst(before)
    ensures OutputScansGenerated(calls, generate)
  {
    assert calls[|before|] == Generate(prompt);
    assert |calls| > |before| + 1 ==> calls[|before| + 1] == Scan(generate(prompt).text);
  }

  lemma NoModelCallScansNothing(calls: seq<Call>, generate: string -> Generation)
    requires NoModelCallAfterFirst(calls)
    ensures OutputScansGenerated(calls, generate)
  {
  }

  /**
   * The output scan is applied to exactly the text the model produced, right
   * after it produced it, and every produced text is scanned.
   */
  lemma OutputScanOfGenerated<Row>(cfg: Config, message: string, agent: Option<Agent>, w: World<Row>)
    ensures OutputScansGenerated(Run(cfg, message, agent, w).calls, w.generate)
  {
    var calls := Run(cfg, message, agent, w).calls;
    if !(Admits(cfg, w.scan(message)) && AgentAnswers(message, agent, w)) {
      NoModelCallsWithoutAnswer(cfg, message, agent, w);
      NoModelCallScansNothing(calls, w.generate);
    } else {
      ReachesGenerationCalls(cfg, message, agent, w);
      ScanAfterGeneration(calls, CallsBeforeGeneration(message, agent), PromptFor(cfg, message, agent, w), w.generate);
    }
  }

  // ---------------------------------------------------------------------------
  // How the stream ends
  // ---------------------------------------------------------------------------

  /** The model produced text and `is_safe` accepted its scan. */
  predicate Released<Row>(cfg: Config, prompt: string, w: World<Row>)
  {
    w.generate(prompt).Generated? && cfg.judge(w.scan(w.generate(prompt).text)).safe
  }

  /** A run that is not released ends with an error, or is cut short by the input scan. */
  lemma UnreleasedRunEnds<Row>(cfg: Config, message: string, agent: Option<Agent>, w: World<Row>)
    requires !(Admits(cfg, w.scan(message)) && AgentAnswers(message, agent, w) && Released(cfg, PromptFor(cfg, message, agent, w), w))
    ensures var run := Run(cfg, message, agent, w);
      if run.aborted then run.events == [Log(ScanningInput)] else Last(run.events).Error?
  {
    if !Admits(cfg, w.scan(message)) {
      InputGate(cfg, message, agent, w);
    } else if ReadyAgent(agent, w.loadTools).None? {
      AgentInitStops(cfg, message, agent, w);
    } else if !AgentAnswers(message, agent, w) {
      McpStops(cfg, message, agent, w);
    } else {
      ReachesGenerationCalls(cfg, message, agent, w);
      ReachesGenerationLast(cfg, message, agent, w);
    }
  }

  /** A released run ends with the model's text. */
  lemma ReleasedRunEnds<Row>(cfg: Config, message: string, agent: Option<Agent>, w: World<Row>)
    requires Admits(cfg, w.scan(message)) && AgentAnswers(message, agent, w)
    requires Released(cfg, PromptFor(cfg, message, agent, w), w)
    ensures var run := Run(cfg, message, agent, w);
      !run.aborted && Last(run.events) == Gemini(w.generate(PromptFor(cfg, message, agent, w)).text)
  {
    ReachesGenerationCalls(cfg, message, agent, w);
    ReachesGenerationLast(cfg, message, agent, w);
  }

  lemma GeminiOnlyLast(events: seq<Event>)
    requires WellOrdered(events)
    ensures (exists i :: 0 <= i < |events| && events[i].Gemini?) <==> Last(events).Gemini?
    ensures forall i :: 0 <= i < |events| && events[i].Gemini? ==> i == |events| - 1
  {
    OneTerminal(events);
    if Last(events).Gemini? {
      assert events[|events| - 1].Gemini?;
    }
  }

  /**
   * The model's answer reaches the user exactly when both scans passed; it
   * is then the final event, and it is the generated text itself.
   */
  lemma GeminiOnlyWhenBothSafe<Row>(cfg: Config, message: string, agent: Option<Agent>, w: World<Row>)
    ensures var run := Run(cfg, message, agent, w);
      (exists i :: 0 <= i < |run.events| && run.events[i].Gemini?) <==>
      Admits(cfg, w.scan(message)) && AgentAnswers(message, agent, w) && Released(cfg, PromptFor(cfg, message, agent, w), w)
    ensures var run := Run(cfg, message, agent, w);
      forall i :: 0 <= i < |run.events| && run.events[i].Gemini? ==>
        && i == |run.events| - 1
        && AgentAnswers(message, agent, w)
        && w.generate(PromptFor(cfg, message, agent, w)) == Generated(run.events[i].text)
        && cfg.judge(w.scan(run.events[i].text)).safe
  {
    var run := Run(cfg, message, agent, w);
    var released := Admits(cfg, w.scan(message)) && AgentAnswers(message, agent, w)
      && Released(cfg, PromptFor(cfg, message, agent, w), w);
    var text := if released then w.generate(PromptFor(cfg, message, agent, w)).text else "";
    if released {
      ReleasedRunEnds(cfg, message, agent, w);
    } else {
      UnreleasedRunEnds(cfg, message, agent, w);
    }
    GeminiExactlyAtEnd(run, released, text);
  }

  /** A run that ends with the model's text when released, and otherwise with an error or after the opening log, holds that text only at its end. */
  lemma GeminiExactlyAtEnd(run: StreamRun, released: bool, text: string)
    requires |run.events| >= 1 && (run.aborted || WellOrdered(run.events))
    requires released ==> !run.aborted && Last(run.events) == Gemini(text)
    requires !released ==> if run.aborted then run.events == [Log(ScanningInput)] else Last(run.events).Error?
    ensures (exists i :: 0 <= i < |run.events| && run.events[i].Gemini?) <==> released
    ensures forall i :: 0 <= i < |run.events| && run.events[i].Gemini? ==>
      i == |run.events| - 1 && run.events[i] == Gemini(text)
  {
    if !run.aborted {
      GeminiOnlyLast(run.events);
    }
  }

  /** An unsafe output scan ends the stream with "LLM output blocked: ..." and its verdict. */
  lemma OutputBlockCarriesVerdict<Row>(cfg: Config, message: string, agent: Option<Agent>, w: World<Row>)
    requires Admits(cfg, w.scan(message)) && AgentAnswers(message, agent, w)
    requires w.generate(PromptFor(cfg, message, agent, w)).Generated?
    ensures var run := Run(cfg, message, agent, w);
      var text := w.generate(PromptFor(cfg, message, agent, w)).text;
      var d := cfg.judge(w.scan(text));
      !d.safe ==> !run.aborted && Last(run.events) == Error(OutputBlocked(d.reason, w.scan(text)))
  {
    ReachesGenerationCalls(cfg, message, agent, w);
    ReachesGenerationLast(cfg, message, agent, w);
  }

  /** A model exception ends the stream with "Gemini error: ..."; the generated text is never scanned. */
  lemma GenerationFailureEnds<Row>(cfg: Config, message: string, agent: Option<Agent>, w: World<Row>)
    requires Admits(cfg, w.scan(message)) && AgentAnswers(message, agent, w)
    requires w.generate(PromptFor(cfg, message, agent, w)).GenerationFailed?
    ensures var run := Run(cfg, message, agent, w);
      var prompt := PromptFor(cfg, message, agent, w);
      && !run.aborted
      && Last(run.events) == Error(GeminiFailed(w.generate(prompt).error))
      && run.calls == CallsBeforeGeneration(message, agent) + [Generate(prompt)]
  {
    var prompt := PromptFor(cfg, message, agent, w);
    ReachesGenerationCalls(cfg, message, agent, w);
    ReachesGenerationLast(cfg, message, agent, w);
    assert GenerationCalls(prompt, w.generate) == [Generate(prompt)];
  }

  /**
   * The output scan has no error guard: with `is_safe` as the verdict, a
   * scanner error result is an unknown decision and blocks the answer.
   */
  lemma OutputScanErrorBlocks<Row>(message: string, agent: Option<Agent>, w: World<Row>, e: Json)
    requires Admits(AgentConfig, w.scan(message)) && AgentAnswers(message, agent, w)
    requires w.generate(PromptFor(AgentConfig, message, agent, w)).Generated?
    requires w.scan(w.generate(PromptFor(AgentConfig, message, agent, w)).text) == Object([("error", e)])
    ensures Last(Stream(message, agent, w).events) ==
      Error(OutputBlocked(UnknownPrefix + ("None" + ", category=" + "None"), Object([("error", e)])))
  {
    ScanFailureIsUnsafe(e);
    OutputBlockCarriesVerdict(AgentConfig, message, agent, w);
  }

  /** A verdict's facts: `is_safe` rejected it with this reason, and it is the scan of the message or of the model's text. */
  predicate PolicyBlockFits<Row>(f: Failure, cfg: Config, message: string, agent: Option<Agent>, w: World<Row>)
    requires IsPolicyBlock(f)
  {
    && !cfg.judge(f.verdict).safe && f.reason == cfg.judge(f.verdict).reason
    && (f.InputBlocked? ==> f.verdict == w.scan(message))
    && (f.OutputBlocked? ==>
          && Admits(cfg, w.scan(message)) && AgentAnswers(message, agent, w)
          && w.generate(PromptFor(cfg, message, agent, w)).Generated?
          && f.verdict == w.scan(w.generate(PromptFor(cfg, message, agent, w)).text))
  }

  /** A generation stage that ends in a policy block blocked the model's text on its own verdict. */
  lemma GenerationEndFits<Row>(cfg: Config, prompt: string, w: World<Row>)
    ensures var e := GenerationEnd(cfg, prompt, w);
      e.Error? && IsPolicyBlock(e.failure) ==>
      && e.failure.OutputBlocked? && w.generate(prompt).Generated?
      && e.failure.verdict == w.scan(w.generate(prompt).text)
      && !cfg.judge(e.failure.verdict).safe && e.failure.reason == cfg.judge(e.failure.verdict).reason
  {
  }

  /** A run blocked at the input ends with a block that fits the scan of the message. */
  lemma InputBlockFits<Row>(cfg: Config, message: string, agent: Option<Agent>, w: World<Row>)
    requires !Admits(cfg, w.scan(message))
    ensures var run := Run(cfg, message, agent, w);
      Last(run.events).Error? && IsPolicyBlock(Last(run.events).failure) ==>
      && Last(run.events).failure == InputBlocked(cfg.judge(w.scan(message)).reason, w.scan(message))
      && !cfg.judge(w.scan(message)).safe
  {
    InputGate(cfg, message, agent, w);
  }

  /** When a run ends with a policy block, the block fits its verdict. */
  lemma LastPolicyBlock<Row>(cfg: Config, message: string, agent: Option<Agent>, w: World<Row>)
    ensures var run := Run(cfg, message, agent, w);
      Last(run.events).Error? && IsPolicyBlock(Last(run.events).failure) ==>
      PolicyBlockFits(Last(run.events).failure, cfg, message, agent, w)
  {
    var e := Last(Run(cfg, message, agent, w).events);
    if !Admits(cfg, w.scan(message)) {
      InputBlockFits(cfg, message, agent, w);
    } else if ReadyAgent(agent, w.loadTools).None? {
      AgentInitStops(cfg, message, agent, w);
      assert e == Error(AgentInitFailed(w.loadTools.error));
    } else if !AgentAnswers(message, agent, w) {
      McpStops(cfg, message, agent, w);
      assert !IsPolicyBlock(e.failure);
    } else {
      ReachesGenerationLast(cfg, message, agent, w);
      GenerationEndFits(cfg, PromptFor(cfg, message, agent, w), w);
      assert e == GenerationEnd(cfg, PromptFor(cfg, message, agent, w), w);
    }
  }

  /**
   * A verdict is attached only to a policy block, which is then the last
   * event: the reason is `is_safe`'s for that verdict, which it judged
   * unsafe, and the verdict is the scan of the message or of the generated
   * text.
   */
  lemma VerdictOnlyOnPolicyBlock<Row>(cfg: Config, message: string, agent: Option<Agent>, w: World<Row>)
    ensures var run := Run(cfg, message, agent, w);
      forall i :: 0 <= i < |run.events| && run.events[i].Error? && IsPolicyBlock(run.events[i].failure) ==>
        i == |run.events| - 1 && PolicyBlockFits(run.events[i].failure, cfg, message, agent, w)
  {
    var run := Run(cfg, message, agent, w);
    AbortsOnlyAtInput(cfg, message, agent, w);
    LastPolicyBlock(cfg, message, agent, w);
    if !run.aborted {
      OneTerminal(run.events);
    }
  }

  // ---------------------------------------------------------------------------
  // The state fetch and the agent
  // ---------------------------------------------------------------------------
  /**
   * The agent stage opens with the connection log when no agent is cached,
   * loads the tools exactly then, and calls the agent, with the user's
   * message, exactly when there is one.
   */
  lemma AgentStageShape<Row>(cfg: Config, message: string, agent: Option<Agent>, state: string, w: World<Row>)
    ensures var part := AgentStage(cfg, message, agent, state, w);
      && part.events[0] == (if agent.None? then Log(Connecting) else Log(StreamingMcp))
      && (LoadTools in part.calls <==> agent.None?)
      && (InvokeAgent(message) in part.calls <==> ReadyAgent(agent, w.loadTools).Some?)
      && forall c :: c in part.calls && c.InvokeAgent? ==> c == InvokeAgent(message)
  {
    var a := ReadyAgent(agent, w.loadTools);
    if a.Some? {
      var context := ContextStage(cfg, message, a.value, state, w);
      if w.invoke(a.value, message).Answered? {
        var lines := SplitLines(w.invoke(a.value, message).text);
        var gen := GenerationStage(cfg, Compose(cfg.instructions, message, Join("\n", lines), state), w);
        assert context.calls == [InvokeAgent(message)] + gen.calls;
      }
    }
  }

  /**
   * Once the input scan has passed, the state is always fetched and its
   * outcome reported, and the stream goes on to the agent whatever that
   * outcome was: a PostgreSQL failure is an `error` event that does not end
   * the stream.
   */
  lemma StateFetchContinues<Row>(cfg: Config, message: string, agent: Option<Agent>, w: World<Row>)
    requires Admits(cfg, w.scan(message))
    ensures var run := Run(cfg, message, agent, w);
      && !run.aborted && |run.events| >= 5 && |run.calls| >= 2 && run.calls[1] == QueryState
      && run.events[1] == Log(Credential(w.credentialLog)) && run.events[2] == Log(FetchingState)
      && run.events[3] == StateEvent(Fetching(w.query, w.serialise))
      && run.events[4] == (if agent.None? then Log(Connecting) else Log(StreamingMcp))
    ensures var run := Run(cfg, message, agent, w);
      w.query.QueryFailed? ==> run.events[3] == Error(StateQueryFailed(w.query.error)) && !IsTerminal(run.events[3])
  {
    AdmittedRun(cfg, message, agent, w);
    var fetch := Fetching(w.query, w.serialise);
    AgentStageShape(cfg, message, agent, PromptState(fetch), w);
  }

  /**
   * The state section always closes the prompt: the fetched state text, or
   * "[Error fetching Terraform state]" when the query failed.
   */
  lemma StateAlwaysInPrompt<Row>(cfg: Config, message: string, agent: Option<Agent>, w: World<Row>)
    requires AgentAnswers(message, agent, w)
    ensures var p := PromptFor(cfg, message, agent, w);
      var text := if w.query.Rows? then StateText(w.query.rows, w.serialise) else StateErrorText;
      p[|p| - |StateSection(text)|..] == StateHeader + text + SectionEnd
  {
    Layout(cfg.instructions, message, Join("\n", AnswerLines(message, agent, w)), PromptState(Fetching(w.query, w.serialise)));
  }

  /**
   * The agent after a run: built from the tool load when the input passed
   * and none was cached, otherwise unchanged. The tools are loaded only
   * then, and the agent is asked the user's message whenever there is one
   * past the input gate, whatever the message says.
   */
  lemma AgentAfterRun<Row>(cfg: Config, message: string, agent: Option<Agent>, w: World<Row>)
    ensures var run := Run(cfg, message, agent, w);
      run.agent == if Admits(cfg, w.scan(message)) then ReadyAgent(agent, w.loadTools) else agent
    ensures var run := Run(cfg, message, agent, w);
      LoadTools in run.calls <==> Admits(cfg, w.scan(message)) && agent.None?
    ensures var run := Run(cfg, message, agent, w);
      InvokeAgent(message) in run.calls <==> Admits(cfg, w.scan(message)) && ReadyAgent(agent, w.loadTools).Some?
    ensures forall c :: c in Run(cfg, message, agent, w).calls && c.InvokeAgent? ==> c.question == message
  {
    if !Admits(cfg, w.scan(message)) {
      InputGate(cfg, message, agent, w);
    } else {
      AdmittedRun(cfg, message, agent, w);
      var fetch := Fetching(w.query, w.serialise);
      var stage := AgentStage(cfg, message, agent, PromptState(fetch), w);
      AgentStageShape(cfg, message, agent, PromptState(fetch), w);
      assert Admitted(cfg, message, agent, w).calls == [QueryState] + stage.calls;
      AdmittedCalls(Run(cfg, message, agent, w).calls, stage.calls, message);
    }
  }

  /** The calls of an admitted run are the input scan, the state query, then the agent stage's. */
  lemma AdmittedCalls(calls: seq<Call>, stage: seq<Call>, message: string)
    requires calls == [Scan(message)] + ([QueryState] + stage)
    ensures LoadTools in calls <==> LoadTools in stage
    ensures InvokeAgent(message) in calls <==> InvokeAgent(message) in stage
    ensures forall c :: c in calls && c.InvokeAgent? ==> c in stage
  {
  }

  /** The lines of an answer stand one `mcp` event each between the streaming log and the generation log. */
  predicate LinesStreamed(events: seq<Event>, k: nat, lines: seq<string>)
  {
    && |events| > k + |lines| && k >= 1
    && events[k - 1] == Log(StreamingMcp)
    && (forall i :: 0 <= i < |lines| ==> events[k + i] == Mcp(lines[i]))
    && events[k + |lines|] == Log(Generating)
  }

  lemma LinesStreamedShift(prefix: seq<Event>, events: seq<Event>, k: nat, lines: seq<string>)
    requires LinesStreamed(events, k, lines)
    ensures LinesStreamed(prefix + events, |prefix| + k, lines)
  {
    var all := prefix + events;
    forall i | 0 <= i < |lines|
      ensures all[|prefix| + k + i] == Mcp(lines[i])
    {
      assert all[|prefix| + k + i] == events[k + i];
    }
  }

  /** The context stage of an answering agent streams its lines. */
  lemma ContextLines<Row>(cfg: Config, message: string, a: Agent, state: string, w: World<Row>)
    requires w.invoke(a, message).Answered?
    ensures LinesStreamed(ContextStage(cfg, message, a, state, w).events, 1, SplitLines(w.invoke(a, message).text))
  {
    var lines := SplitLines(w.invoke(a, message).text);
    var gen := GenerationStage(cfg, Compose(cfg.instructions, message, Join("\n", lines), state), w);
    var events := [Log(StreamingMcp)] + McpEvents(lines) + gen.events;
    forall i | 0 <= i < |lines|
      ensures events[1 + i] == Mcp(lines[i])
    {
      assert events[1 + i] == McpEvents(lines)[i];
    }
    assert events[1 + |lines|] == gen.events[0];
  }

  /** The agent stage of an answering agent streams its lines, after the connection logs when there are any. */
  lemma AgentStageLines<Row>(cfg: Config, message: string, agent: Option<Agent>, state: string, w: World<Row>)
    requires AgentAnswers(message, agent, w)
    ensures LinesStreamed(AgentStage(cfg, message, agent, state, w).events, if agent.None? then 3 else 1,
                          AnswerLines(message, agent, w))
  {
    var a := ReadyAgent(agent, w.loadTools).value;
    var lines := AnswerLines(message, agent, w);
    ContextLines(cfg, message, a, state, w);
    var context := ContextStage(cfg, message, a, state, w).events;
    if agent.None? {
      assert AgentStage(cfg, message, agent, state, w).events == [Log(Connecting), Log(Connected)] + context;
      LinesStreamedShift([Log(Connecting), Log(Connected)], context, 1, lines);
    }
  }

  /** The admitted stage streams the lines after the three state-fetch events. */
  lemma AdmittedLines<Row>(cfg: Config, message: string, agent: Option<Agent>, w: World<Row>)
    requires AgentAnswers(message, agent, w)
    ensures LinesStreamed(Admitted(cfg, message, agent, w).events, if agent.None? then 6 else 4,
                          AnswerLines(message, agent, w))
  {
    var fetch := Fetching(w.query, w.serialise);
    var admitted := [Log(Credential(w.credentialLog)), Log(FetchingState), StateEvent(fetch)];
    var rest := AgentStage(cfg, message, agent, PromptState(fetch), w).events;
    var lines := AnswerLines(message, agent, w);
    assert Admitted(cfg, message, agent, w).events == admitted + rest;
    AgentStageLines(cfg, message, agent, PromptState(fetch), w);
    if agent.None? {
      LinesStreamedShift(admitted, rest, 3, lines);
    } else {
      LinesStreamedShift(admitted, rest, 1, lines);
    }
  }

  /**
   * An answering agent's lines are streamed one `mcp` event each, in order,
   * right after "Streaming Terraform MCP response..." (the fifth event, or
   * the seventh after the two connection logs), and generation follows
   * them.
   */
  lemma McpLinesInOrder<Row>(cfg: Config, message: string, agent: Option<Agent>, w: World<Row>)
    requires Admits(cfg, w.scan(message)) && AgentAnswers(message, agent, w)
    ensures LinesStreamed(Run(cfg, message, agent, w).events, if agent.None? then 7 else 5, AnswerLines(message, agent, w))
  {
    AdmittedRun(cfg, message, agent, w);
    AdmittedLines(cfg, message, agent, w);
    LinesStreamedShift([Log(ScanningInput)], Admitted(cfg, message, agent, w).events,
                       if agent.None? then 6 else 4, AnswerLines(message, agent, w));
  }
}
