/**
 * The Prisma AIRS verdict evaluator `is_safe`, identical in the synchronous
 * app and in the streaming agent, and the `"error" in scan` guard both
 * orchestrators put in front of it.
 */
module Verdict {
  import opened PyText
  import opened PyJson

  /** The pair `(is_safe, explanation)` that `is_safe` returns. */
  datatype Decision = Decision(safe: bool, reason: string)

  const AllowedReason := "Allowed"
  const GuardrailPrefix := "Blocked by Prisma AIRS guardrail: "
  const NoSignalReason := "malicious content"
  const UnknownPrefix := "Blocked due to unknown decision: action="
  const InvalidFormat := "Invalid Prisma AIRS response format."

  /** `k.replace("_", " ").title()`: a detection name as a reader sees it. */
  function Humanise(key: string): string
  {
    Title(ReplaceChar(key, '_', ' '))
  }

  /** `[humanise(k) for k, v in detected.items() if v]` */
  function Reasons(signals: seq<(string, Json)>): seq<string>
  {
    if signals == [] then []
    else (if Truthy(signals[0].1) then [Humanise(signals[0].0)] else []) + Reasons(signals[1..])
  }

  /**
   * `scan.get("prompt_detected") or scan.get("response_detected") or {}`:
   * the first truthy one of the two detection maps, else an empty dict.
   */
  function Detected(fields: seq<(string, Json)>): (d: Json)
    ensures Truthy(d) || d == Object([])
    ensures Truthy(Get(fields, "prompt_detected")) ==> d == Get(fields, "prompt_detected")
    ensures !Truthy(Get(fields, "prompt_detected")) && Truthy(Get(fields, "response_detected")) ==>
      d == Get(fields, "response_detected")
    ensures !Truthy(Get(fields, "prompt_detected")) && !Truthy(Get(fields, "response_detected")) ==>
      d == Object([])
  {
    var prompt := Get(fields, "prompt_detected");
    var response := Get(fields, "response_detected");
    if Truthy(prompt) then prompt else if Truthy(response) then response else Object([])
  }

  /** The reason text that follows GuardrailPrefix for a set of detection flags. */
  function ReasonText(signals: seq<(string, Json)>): string
  {
    var reasons := Reasons(signals);
    if reasons != [] then Join(", ", reasons) else NoSignalReason
  }

  /**
   * `is_safe(scan_result)`. It never raises: a result that is not a dict, or
   * whose detection value is not a dict, is reported as an invalid format.
   */
  function IsSafe(scan: Json): (d: Decision)
    ensures d.safe <==>
      scan.Object? && Get(scan.fields, "action") == Str("allow") && Get(scan.fields, "category") == Str("benign")
    ensures d.safe ==> d.reason == AllowedReason
    ensures !d.safe ==> (d.reason == InvalidFormat <==>
      !scan.Object? || (IsBlockMalicious(scan.fields) && !Detected(scan.fields).Object?))
    ensures !d.safe ==> (GuardrailPrefix <= d.reason <==>
      scan.Object? && IsBlockMalicious(scan.fields) && Detected(scan.fields).Object?)
    ensures !d.safe ==> (UnknownPrefix <= d.reason <==>
      scan.Object? && !IsBlockMalicious(scan.fields) && !IsAllowBenign(scan.fields))
  {
    match scan
    case Object(fields) =>
      var action := Get(fields, "action");
      var category := Get(fields, "category");
      if action == Str("allow") && category == Str("benign") then
        Decision(true, AllowedReason)
      else if action == Str("block") && category == Str("malicious") then
        match Detected(fields)
        case Object(signals) =>
          ReasonsDistinguishable(ReasonText(signals));
          Decision(false, GuardrailPrefix + ReasonText(signals))
        case _ =>
          ReasonsDistinguishable("");
          Decision(false, InvalidFormat)
      else
        var shown := ToStr(action) + ", category=" + ToStr(category);
        ReasonsDistinguishable(shown);
        Decision(false, UnknownPrefix + shown)
    case _ =>
      ReasonsDistinguishable("");
      Decision(false, InvalidFormat)
  }

  /** The reasons of the three blocking branches cannot be mistaken for one another. */
  lemma ReasonsDistinguishable(s: string)
    ensures !(UnknownPrefix <= GuardrailPrefix + s) && !(UnknownPrefix <= InvalidFormat)
    ensures !(GuardrailPrefix <= UnknownPrefix + s) && !(GuardrailPrefix <= InvalidFormat)
    ensures InvalidFormat != GuardrailPrefix + s && InvalidFormat != UnknownPrefix + s
  {
    assert (GuardrailPrefix + s)[8] == 'b' && (UnknownPrefix + s)[8] == 'd';
    assert InvalidFormat[0] == 'I' && InvalidFormat[8] == 'P';
  }

  predicate IsAllowBenign(fields: seq<(string, Json)>)
  {
    Get(fields, "action") == Str("allow") && Get(fields, "category") == Str("benign")
  }

  predicate IsBlockMalicious(fields: seq<(string, Json)>)
  {
    Get(fields, "action") == Str("block") && Get(fields, "category") == Str("malicious")
  }

  // ---------------------------------------------------------------------------
  // Properties of the block reason
  // ---------------------------------------------------------------------------

  /** The reasons follow the detection map's order: the comprehension distributes over concatenation. */
  lemma {:induction false} ReasonsAppend(a: seq<(string, Json)>, b: seq<(string, Json)>)
    ensures Reasons(a + b) == Reasons(a) + Reasons(b)
  {
    if a == [] {
      assert a + b == b;
    } else {
      assert (a + b)[1..] == a[1..] + b;
      ReasonsAppend(a[1..], b);
    }
  }

  /** A reason is listed exactly for each key whose flag is truthy. */
  lemma {:induction false} ReasonsListed(signals: seq<(string, Json)>, r: string)
    ensures r in Reasons(signals) <==>
      exists i :: 0 <= i < |signals| && Truthy(signals[i].1) && Humanise(signals[i].0) == r
  {
    if signals != [] {
      ReasonsListed(signals[1..], r);
      if r in Reasons(signals[1..]) {
        var i :| 0 <= i < |signals[1..]| && Truthy(signals[1..][i].1) && Humanise(signals[1..][i].0) == r;
        assert signals[i + 1] == signals[1..][i];
      }
      if exists i :: 0 <= i < |signals| && Truthy(signals[i].1) && Humanise(signals[i].0) == r {
        var i :| 0 <= i < |signals| && Truthy(signals[i].1) && Humanise(signals[i].0) == r;
        if i > 0 {
          assert signals[1..][i - 1] == signals[i];
        }
      }
    }
  }

  /** With no truthy flag the reason falls back to "malicious content". */
  lemma {:induction false} NoFlagReason(signals: seq<(string, Json)>)
    requires forall i :: 0 <= i < |signals| ==> !Truthy(signals[i].1)
    ensures ReasonText(signals) == NoSignalReason
  {
    if Reasons(signals) != [] {
      ReasonsListed(signals, Reasons(signals)[0]);
    }
  }

  /**
   * A humanised name has the detection's length, spaces where it had
   * underscores, no underscore left, and every word capitalised.
   */
  lemma HumaniseShape(key: string)
    ensures |Humanise(key)| == |key|
    ensures forall i :: 0 <= i < |key| ==> key[i] == '_' ==> Humanise(key)[i] == ' '
    ensures forall i :: 0 <= i < |key| ==> Humanise(key)[i] != '_'
    ensures forall i :: 0 <= i < |key| ==> (i == 0 || key[i - 1] == '_') ==> !IsLower(Humanise(key)[i])
  {
    var spaced := ReplaceChar(key, '_', ' ');
    var h := Humanise(key);
    assert |h| == |key|;
    forall i | 0 <= i < |key|
      ensures key[i] == '_' ==> h[i] == ' '
      ensures h[i] != '_'
      ensures (i == 0 || key[i - 1] == '_') ==> !IsLower(h[i])
    {
      TitleAt(spaced, i);
      assert spaced[i] == (if key[i] == '_' then ' ' else key[i]);
      if i > 0 {
        assert spaced[i - 1] == (if key[i - 1] == '_' then ' ' else key[i - 1]);
      }
    }
  }

  // ---------------------------------------------------------------------------
  // The decision table
  // ---------------------------------------------------------------------------

  /**
   * A block of malicious content names the truthy detections of the
   * detection map in use, in its order, humanised and comma-separated, or
   * "malicious content" when no detection is flagged.
   */
  lemma BlockedReason(fields: seq<(string, Json)>, signals: seq<(string, Json)>)
    requires IsBlockMalicious(fields) && Detected(fields) == Object(signals)
    ensures IsSafe(Object(fields)) == Decision(false, GuardrailPrefix + ReasonText(signals))
    ensures (exists i :: 0 <= i < |signals| && Truthy(signals[i].1)) ==>
      IsSafe(Object(fields)).reason == GuardrailPrefix + Join(", ", Reasons(signals))
    ensures (forall i :: 0 <= i < |signals| ==> !Truthy(signals[i].1)) ==>
      IsSafe(Object(fields)).reason == GuardrailPrefix + NoSignalReason
  {
    GuardrailDecision(fields, signals);
    if exists i :: 0 <= i < |signals| && Truthy(signals[i].1) {
      FlagGivesReason(signals);
    } else {
      NoFlagReason(signals);
    }
  }

  lemma GuardrailDecision(fields: seq<(string, Json)>, signals: seq<(string, Json)>)
    requires IsBlockMalicious(fields) && Detected(fields) == Object(signals)
    ensures IsSafe(Object(fields)) == Decision(false, GuardrailPrefix + ReasonText(signals))
  {
  }

  /** One truthy flag is enough for a reason to be listed. */
  lemma FlagGivesReason(signals: seq<(string, Json)>)
    requires exists i :: 0 <= i < |signals| && Truthy(signals[i].1)
    ensures ReasonText(signals) == Join(", ", Reasons(signals)) && Reasons(signals) != []
  {
    var i :| 0 <= i < |signals| && Truthy(signals[i].1);
    ReasonsListed(signals, Humanise(signals[i].0));
  }

  /**
   * The decision depends only on action, category and the detection map in
   * use: `response_detected` is not consulted while `prompt_detected` is
   * truthy.
   */
  lemma ResponseDetectedIgnored(f: seq<(string, Json)>, g: seq<(string, Json)>)
    requires Get(f, "action") == Get(g, "action") && Get(f, "category") == Get(g, "category")
    requires Get(f, "prompt_detected") == Get(g, "prompt_detected")
    requires Truthy(Get(f, "prompt_detected"))
    ensures IsSafe(Object(f)) == IsSafe(Object(g))
  {
  }

  /**
   * Any other action/category pair is blocked and echoes both as `str()`
   * prints them: a string as itself, a missing field or null as None, any
   * other value as its repr. The transport error `{"error": ...}` is one.
   */
  lemma UnknownDecision(fields: seq<(string, Json)>)
    requires !IsAllowBenign(fields) && !IsBlockMalicious(fields)
    ensures IsSafe(Object(fields)) == Decision(false,
      UnknownPrefix + (ToStr(Get(fields, "action")) + ", category=" + ToStr(Get(fields, "category"))))
    ensures !HasKey(fields, "action") ==> ToStr(Get(fields, "action")) == "None"
    ensures !HasKey(fields, "category") ==> ToStr(Get(fields, "category")) == "None"
  {
  }

  /** The scanner's own error result is never safe. */
  lemma ScanFailureIsUnsafe(message: Json)
    ensures IsSafe(Object([("error", message)])) ==
      Decision(false, UnknownPrefix + ("None" + ", category=" + "None"))
  {
    var fields := [("error", message)];
    assert !HasKey(fields, "action") && !HasKey(fields, "category");
    UnknownDecision(fields);
  }

  // ---------------------------------------------------------------------------
  // The error-key guard of both orchestrators
  // ---------------------------------------------------------------------------

  /** A scan result lets its text through the synchronous app: no "error" key, and `is_safe` accepts it. */
  predicate Passes(result: Json)
  {
    ProbeError(result).NoError? && IsSafe(result).safe
  }

  /** What `if "error" in scan: ... scan["error"]` does with a scan result. */
  datatype ErrorProbe = NoError | ErrorValue(value: Json) | ProbeRaised

  /**
   * Evaluate `"error" in scan` and, when it holds, `scan["error"]`: a dict
   * yields its error value; a list holding "error" or a string containing it
   * raises on the subscript; a number, bool or None raises on `in`.
   */
  function ProbeError(scan: Json): (p: ErrorProbe)
    ensures scan.Object? ==>
      p == if HasKey(scan.fields, "error") then ErrorValue(Get(scan.fields, "error")) else NoError
    ensures p.ProbeRaised? <==> !scan.Object? && Contains(scan, "error") != Value(false)
  {
    match Contains(scan, "error")
    case Raised => ProbeRaised
    case Value(present) =>
      if !present then NoError
      else
        match Subscript(scan, "error")
        case Raised => ProbeRaised
        case Value(v) => ErrorValue(v)
  }
}
