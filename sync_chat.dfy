/**
 * The synchronous `/chat` endpoint of the app: scan the user's message,
 * generate an answer from the message alone, scan the answer, and reply with
 * one dict. Every external service is a parameter; the endpoint's result
 * records, besides the reply, the service calls it made in order.
 */
module SyncChat {
  import opened PyJson
  import opened Verdict
  import opened Services

  /**
   * One request: the dict the handler returns, or Raised when an exception
   * escapes the handler (FastAPI then answers with a server error), and the
   * calls it made.
   */
  datatype ChatRun = ChatRun(reply: Eval<Json>, calls: seq<Call>)

  /** `{"error": error}` */
  function ErrorReply(error: Json): (r: Json)
    ensures WellFormedReply(r) && !HasKey(r.fields, "verdict")
    ensures Get(r.fields, "error") == error
  {
    var fields := [("error", error)];
    assert fields[0].0 == "error";
    Object(fields)
  }

  /** `{"error": reason, "verdict": verdict}` */
  function BlockedReply(reason: string, verdict: Json): (r: Json)
    ensures WellFormedReply(r) && HasKey(r.fields, "verdict")
    ensures Get(r.fields, "error") == Str(reason) && Get(r.fields, "verdict") == verdict
  {
    var fields := [("error", Str(reason)), ("verdict", verdict)];
    assert fields[0].0 == "error" && fields[1].0 == "verdict";
    Object(fields)
  }

  /** `{"response": text, "input_verdict": ..., "output_verdict": ...}` */
  function ResponseReply(text: string, inputVerdict: Json, outputVerdict: Json): (r: Json)
    ensures WellFormedReply(r) && HasKey(r.fields, "response") && !HasKey(r.fields, "verdict")
    ensures Get(r.fields, "response") == Str(text)
    ensures Get(r.fields, "input_verdict") == inputVerdict && Get(r.fields, "output_verdict") == outputVerdict
  {
    var fields := [("response", Str(text)), ("input_verdict", inputVerdict), ("output_verdict", outputVerdict)];
    assert fields[0].0 == "response" && fields[1].0 == "input_verdict" && fields[2].0 == "output_verdict";
    Object(fields)
  }

  /**
   * The shape every reply has: a dict with exactly one of "response" and
   * "error"; a response comes with both verdicts, and a verdict only comes
   * with an error.
   */
  predicate WellFormedReply(reply: Json)
  {
    && reply.Object?
    && HasKey(reply.fields, "response") != HasKey(reply.fields, "error")
    && (HasKey(reply.fields, "response") ==>
          HasKey(reply.fields, "input_verdict") && HasKey(reply.fields, "output_verdict"))
    && (HasKey(reply.fields, "verdict") ==> HasKey(reply.fields, "error"))
  }

  /** `chat(prompt)` with the scanner and the model as parameters. */
  function Chat(message: string, scan: string -> Json, generate: string -> Generation): (run: ChatRun)
    ensures |run.calls| >= 1 && run.calls[0] == Scan(message)
    ensures forall c :: c in run.calls ==> c.Scan? || c.Generate?
    ensures run.reply.Value? ==> WellFormedReply(run.reply.value)
  {
    var inputScan := scan(message);
    match ProbeError(inputScan)
    case ProbeRaised => ChatRun(Raised, [Scan(message)])
    case ErrorValue(e) => ChatRun(Value(ErrorReply(e)), [Scan(message)])
    case NoError =>
      var input := IsSafe(inputScan);
      if !input.safe then
        ChatRun(Value(BlockedReply(input.reason, inputScan)), [Scan(message)])
      else
        match generate(message)
        case GenerationFailed(e) =>
          ChatRun(Value(ErrorReply(Str("Gemini error: " + e))), [Scan(message), Generate(message)])
        case Generated(text) =>
          var outputScan := scan(text);
          var calls := [Scan(message), Generate(message), Scan(text)];
          match ProbeError(outputScan)
          case ProbeRaised => ChatRun(Raised, calls)
          case ErrorValue(e) => ChatRun(Value(ErrorReply(e)), calls)
          case NoError =>
            var output := IsSafe(outputScan);
            if !output.safe then ChatRun(Value(BlockedReply(output.reason, outputScan)), calls)
            else ChatRun(Value(ResponseReply(text, inputScan, outputScan)), calls)
  }

  // ---------------------------------------------------------------------------
  // Gating
  // ---------------------------------------------------------------------------

  /**
   * The model is called exactly when the input scan passed, and then with
   * the user's message itself.
   */
  lemma GenerationGated(message: string, scan: string -> Json, generate: string -> Generation)
    ensures var calls := Chat(message, scan, generate).calls;
      (exists i :: 0 <= i < |calls| && calls[i].Generate?) <==> Passes(scan(message))
    ensures forall c :: c in Chat(message, scan, generate).calls && c.Generate? ==> c.prompt == message
  {
    var calls := Chat(message, scan, generate).calls;
    if Passes(scan(message)) {
      assert calls[1] == Generate(message);
      assert calls == [Scan(message), Generate(message)] || calls == [Scan(message), Generate(message), Scan(generate(message).text)];
    } else {
      assert calls == [Scan(message)];
    }
  }

  /**
   * A second scan happens exactly when the model produced text, and it scans
   * that text.
   */
  lemma OutputScanOfGenerated(message: string, scan: string -> Json, generate: string -> Generation)
    ensures var calls := Chat(message, scan, generate).calls;
      |calls| == 3 <==> Passes(scan(message)) && generate(message).Generated?
    ensures var calls := Chat(message, scan, generate).calls;
      |calls| == 3 ==> calls[2] == Scan(generate(message).text) && calls[1] == Generate(message)
    ensures |Chat(message, scan, generate).calls| <= 3
  {
  }

  // ---------------------------------------------------------------------------
  // The reply
  // ---------------------------------------------------------------------------

  /**
   * A response is released exactly when both verdicts are safe, and it is
   * the generated text with the two verdicts it passed.
   */
  lemma ResponseOnlyWhenBothSafe(message: string, scan: string -> Json, generate: string -> Generation)
    ensures var run := Chat(message, scan, generate);
      (run.reply.Value? && HasKey(run.reply.value.fields, "response")) <==>
      (Passes(scan(message)) && generate(message).Generated? && Passes(scan(generate(message).text)))
    ensures var run := Chat(message, scan, generate);
      run.reply.Value? && HasKey(run.reply.value.fields, "response") ==>
      var text := generate(message).text;
      run.reply.value == ResponseReply(text, scan(message), scan(text))
  {
    var run := Chat(message, scan, generate);
    if Passes(scan(message)) && generate(message).Generated? {
      var text := generate(message).text;
      if Passes(scan(text)) {
        assert run.reply == Value(ResponseReply(text, scan(message), scan(text)));
      } else if ProbeError(scan(text)).NoError? {
        assert run.reply == Value(BlockedReply(IsSafe(scan(text)).reason, scan(text)));
      }
    } else if Passes(scan(message)) {
      assert run.reply == Value(ErrorReply(Str("Gemini error: " + generate(message).error)));
    } else if ProbeError(scan(message)).NoError? {
      assert run.reply == Value(BlockedReply(IsSafe(scan(message)).reason, scan(message)));
    }
  }

  /**
   * A verdict accompanies an error only for a policy block: the error is
   * `is_safe`'s reason for that verdict, which `is_safe` found unsafe, and
   * the verdict is the scan of the message or of the generated text.
   */
  lemma VerdictOnlyOnPolicyBlock(message: string, scan: string -> Json, generate: string -> Generation)
    ensures var run := Chat(message, scan, generate);
      run.reply.Value? && HasKey(run.reply.value.fields, "verdict") ==>
      var v := Get(run.reply.value.fields, "verdict");
      && ProbeError(v).NoError? && !IsSafe(v).safe
      && Get(run.reply.value.fields, "error") == Str(IsSafe(v).reason)
      && (v == scan(message) || (generate(message).Generated? && v == scan(generate(message).text)))
  {
    var run := Chat(message, scan, generate);
    if run.reply.Value? && HasKey(run.reply.value.fields, "verdict") {
      if !Passes(scan(message)) {
        assert ProbeError(scan(message)).NoError?;
        assert run.reply.value == BlockedReply(IsSafe(scan(message)).reason, scan(message));
      } else {
        var text := generate(message).text;
        assert run.reply.value == BlockedReply(IsSafe(scan(text)).reason, scan(text));
      }
    }
  }

  /**
   * A scan result carrying an "error" key ends the request with that error
   * and no verdict; after the input scan the model is not called.
   */
  lemma ScanErrorIsReported(message: string, scan: string -> Json, generate: string -> Generation)
    requires scan(message).Object? && HasKey(scan(message).fields, "error")
    ensures Chat(message, scan, generate) ==
      ChatRun(Value(ErrorReply(Get(scan(message).fields, "error"))), [Scan(message)])
  {
  }

  /** An input `is_safe` rejects is answered with its reason and the verdict; the model is not called. */
  lemma InputBlockIsReported(message: string, scan: string -> Json, generate: string -> Generation)
    requires ProbeError(scan(message)).NoError? && !IsSafe(scan(message)).safe
    ensures Chat(message, scan, generate) ==
      ChatRun(Value(BlockedReply(IsSafe(scan(message)).reason, scan(message))), [Scan(message)])
  {
  }

  /** Generated text whose scan `is_safe` rejects is withheld: the reply is the reason and the output verdict. */
  lemma OutputBlockIsReported(message: string, scan: string -> Json, generate: string -> Generation)
    requires Passes(scan(message)) && generate(message).Generated?
    requires ProbeError(scan(generate(message).text)).NoError? && !IsSafe(scan(generate(message).text)).safe
    ensures var text := generate(message).text;
      Chat(message, scan, generate) ==
      ChatRun(Value(BlockedReply(IsSafe(scan(text)).reason, scan(text))), [Scan(message), Generate(message), Scan(text)])
  {
  }

  /** An output scan carrying an "error" key is answered with that error and no verdict. */
  lemma OutputScanErrorIsReported(message: string, scan: string -> Json, generate: string -> Generation)
    requires Passes(scan(message)) && generate(message).Generated?
    requires scan(generate(message).text).Object? && HasKey(scan(generate(message).text).fields, "error")
    ensures var text := generate(message).text;
      Chat(message, scan, generate) ==
      ChatRun(Value(ErrorReply(Get(scan(text).fields, "error"))), [Scan(message), Generate(message), Scan(text)])
  {
  }

  /**
   * The request raises exactly when the error guard raises, on the input
   * scan or on the scan of generated text; nothing is called after it.
   */
  lemma RaisedExactly(message: string, scan: string -> Json, generate: string -> Generation)
    ensures Chat(message, scan, generate).reply.Raised? <==>
      ProbeError(scan(message)).ProbeRaised? ||
      (Passes(scan(message)) && generate(message).Generated? &&
       ProbeError(scan(generate(message).text)).ProbeRaised?)
    ensures ProbeError(scan(message)).ProbeRaised? ==>
      Chat(message, scan, generate) == ChatRun(Raised, [Scan(message)])
    ensures (Passes(scan(message)) && generate(message).Generated? &&
             ProbeError(scan(generate(message).text)).ProbeRaised?) ==>
      Chat(message, scan, generate) ==
      ChatRun(Raised, [Scan(message), Generate(message), Scan(generate(message).text)])
  {
  }

  /** A failing model call ends the request with "Gemini error: ..." and no output scan. */
  lemma GenerationFailureIsReported(message: string, scan: string -> Json, generate: string -> Generation)
    requires Passes(scan(message)) && generate(message).GenerationFailed?
    ensures Chat(message, scan, generate) ==
      ChatRun(Value(ErrorReply(Str("Gemini error: " + generate(message).error))),
              [Scan(message), Generate(message)])
  {
  }

  // ---------------------------------------------------------------------------
  // Worked requests
  // ---------------------------------------------------------------------------

  const Benign := Object([("action", Str("allow")), ("category", Str("benign"))])

  /** An allow/benign verdict carries no error and passes. */
  lemma BenignPasses()
    ensures ProbeError(Benign) == NoError && IsSafe(Benign) == Decision(true, AllowedReason)
  {
    assert Get(Benign.fields, "action") == Str("allow") && Get(Benign.fields, "category") == Str("benign");
    assert !HasKey(Benign.fields, "error");
  }

  /** Both scans allow the traffic: the answer is returned with both verdicts. */
  lemma AllowedRequest()
    ensures Chat("hello", _ => Benign, _ => Generated("hi there")) ==
      ChatRun(Value(ResponseReply("hi there", Benign, Benign)),
              [Scan("hello"), Generate("hello"), Scan("hi there")])
  {
    BenignPasses();
  }

  /** The scanner is unreachable: its error is the reply, without a verdict. */
  lemma UnreachableScanner(e: string)
    ensures
      var failed := Object([("error", Str("Prisma AIRS scan failed: " + e))]);
      Chat("hello", _ => failed, _ => Generated("hi there")) ==
      ChatRun(Value(ErrorReply(Str("Prisma AIRS scan failed: " + e))), [Scan("hello")])
  {
  }
}
