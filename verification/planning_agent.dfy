/**
 * The planning agent's ReAct loop: how a model reply becomes a thought, an
 * action and its input, how an action runs, how sources and steps are
 * recorded, the step bound, and the confidence given to a finished run;
 * and the policy table the `identify_policies` tool reads.
 *
 * The language model, the three regular expressions of `_parse_response`,
 * the JSON decoder and the tools are inputs.
 */
module PlanningAgent {
  import opened Common
  import opened PyStr

  datatype AgentAction =
    | SearchPrecedents | GetCaseDetails | AnalyseDocument | IdentifyPolicies | GenerateArgument
    | AssessRisk | CheckConservationArea | FindSimilarAddresses | CalculateApprovalRate | GenerateReport
    | Finish
  {
    function Value(): string
    {
      match this
      case SearchPrecedents => "search_precedents"
      case GetCaseDetails => "get_case_details"
      case AnalyseDocument => "analyse_document"
      case IdentifyPolicies => "identify_policies"
      case GenerateArgument => "generate_argument"
      case AssessRisk => "assess_risk"
      case CheckConservationArea => "check_conservation_area"
      case FindSimilarAddresses => "find_similar_addresses"
      case CalculateApprovalRate => "calculate_approval_rate"
      case GenerateReport => "generate_report"
      case Finish => "finish"
    }
  }

  /** Every action, in the order the enumeration declares them. */
  const Actions: seq<AgentAction> := [
    SearchPrecedents, GetCaseDetails, AnalyseDocument, IdentifyPolicies, GenerateArgument,
    AssessRisk, CheckConservationArea, FindSimilarAddresses, CalculateApprovalRate, GenerateReport,
    Finish]

  /** The action among the first `n` whose value is `name`, if any. */
  function FindAction(name: string, n: nat): Option<AgentAction>
    requires n <= |Actions|
  {
    if n == 0 then None
    else if Actions[n - 1].Value() == name then Some(Actions[n - 1])
    else FindAction(name, n - 1)
  }

  /** `AgentAction(name)`: the action with that value, if any. */
  function ActionFromValue(name: string): Option<AgentAction>
  {
    FindAction(name, |Actions|)
  }

  /** No two actions share a value. */
  lemma ValueInjective(a: AgentAction, b: AgentAction)
    requires a.Value() == b.Value()
    ensures a == b
  {
    match a
    case SearchPrecedents => assert a.Value()[0] == 's' && a.Value()[1] == 'e';
    case GetCaseDetails => assert a.Value()[0] == 'g' && a.Value()[4] == 'c';
    case AnalyseDocument => assert a.Value()[0] == 'a' && a.Value()[1] == 'n';
    case IdentifyPolicies => assert a.Value()[0] == 'i';
    case GenerateArgument => assert a.Value()[0] == 'g' && a.Value()[4] == 'r';
    case AssessRisk => assert a.Value()[0] == 'a' && a.Value()[1] == 's';
    case CheckConservationArea => assert a.Value()[0] == 'c' && a.Value()[1] == 'h';
    case FindSimilarAddresses => assert a.Value()[0] == 'f' && a.Value()[1] == 'i' && a.Value()[2] == 'n' && a.Value()[3] == 'd';
    case CalculateApprovalRate => assert a.Value()[0] == 'c' && a.Value()[1] == 'a';
    case GenerateReport => assert a.Value()[0] == 'g' && a.Value()[4] == 'r';
    case Finish => assert a.Value()[0] == 'f' && a.Value()[3] == 'i';
  }

  /** A name found among the first `n` actions is the value of the action found. */
  lemma {:induction false} FindActionSound(name: string, n: nat)
    requires n <= |Actions|
    ensures FindAction(name, n).Some? ==> FindAction(name, n).value.Value() == name
    decreases n
  {
    if n > 0 && Actions[n - 1].Value() != name {
      FindActionSound(name, n - 1);
    }
  }

  /** The action at `i` is found from its value among any first `n` that include it. */
  lemma {:induction false} FindActionComplete(i: nat, n: nat)
    requires i < n <= |Actions|
    ensures FindAction(Actions[i].Value(), n) == Some(Actions[i])
    decreases n
  {
    if Actions[n - 1].Value() == Actions[i].Value() {
      ValueInjective(Actions[i], Actions[n - 1]);
    } else {
      FindActionComplete(i, n - 1);
    }
  }

  /** Every action is found again from its value. */
  lemma ActionValueRoundTrip(a: AgentAction)
    ensures ActionFromValue(a.Value()) == Some(a)
  {
    var i := match a
      case SearchPrecedents => 0 case GetCaseDetails => 1 case AnalyseDocument => 2
      case IdentifyPolicies => 3 case GenerateArgument => 4 case AssessRisk => 5
      case CheckConservationArea => 6 case FindSimilarAddresses => 7
      case CalculateApprovalRate => 8 case GenerateReport => 9 case Finish => 10;
    FindActionComplete(i, |Actions|);
  }

  // ---------------------------------------------------------------------
  // Parsing a reply

  /** A JSON object's fields; the values' own structure is not modelled. */
  type ActionInput = map<string, string>

  /**
   * What the three searches of `_parse_response` find in a reply: the text
   * after "Thought:" up to "Action:", the word after "Action:", and the
   * braces after "Action Input:".
   */
  datatype ReplyMatches = ReplyMatches(thought: Option<string>, actionName: Option<string>, input: Option<string>)

  datatype Parsed = Parsed(thought: string, action: AgentAction, input: ActionInput)

  /**
   * `_parse_response`: the stripped thought, or ""; the action named by the
   * lower-cased word, FINISH when there is no word or it names no action;
   * the decoded input, `{"raw": text}` when it does not decode, `{}` when
   * there is none.
   */
  function ParseResponse(m: ReplyMatches, decode: string -> Option<ActionInput>): (p: Parsed)
  {
    var thought := if m.thought.Some? then Strip(m.thought.value) else "";
    var action :=
      if m.actionName.None? then Finish
      else match ActionFromValue(Lower(m.actionName.value))
        case Some(a) => a
        case None => Finish;
    var input :=
      if m.input.None? then map[]
      else match decode(m.input.value)
        case Some(obj) => obj
        case None => map["raw" := m.input.value];
    Parsed(thought, action, input)
  }

  /** The fields `_parse_response` reads out of each of the three searches. */
  lemma ParseResponseFields(m: ReplyMatches, decode: string -> Option<ActionInput>)
    ensures m.thought.None? ==> ParseResponse(m, decode).thought == ""
    ensures m.actionName.None? ==> ParseResponse(m, decode).action == Finish
    ensures m.actionName.Some? ==> (ParseResponse(m, decode).action == Finish <==> ActionFromValue(Lower(m.actionName.value)) in {None, Some(Finish)})
    ensures m.actionName.Some? && ParseResponse(m, decode).action != Finish ==> ParseResponse(m, decode).action.Value() == Lower(m.actionName.value)
    ensures m.input.None? ==> ParseResponse(m, decode).input == map[]
    ensures m.input.Some? && decode(m.input.value).None? ==> ParseResponse(m, decode).input == map["raw" := m.input.value]
    ensures m.input.Some? && decode(m.input.value).Some? ==> ParseResponse(m, decode).input == decode(m.input.value).value
  {
    if m.actionName.Some? {
      FindActionSound(Lower(m.actionName.value), |Actions|);
    }
  }

  /** A reply naming an action, in any case, is parsed as that action. */
  lemma ParseRecognisesAction(m: ReplyMatches, decode: string -> Option<ActionInput>, a: AgentAction)
    requires m.actionName.Some? && Lower(m.actionName.value) == a.Value()
    ensures ParseResponse(m, decode).action == a
  {
    ActionValueRoundTrip(a);
  }

  // ---------------------------------------------------------------------
  // Running an action

  const MaxObservation := 3000

  /** A tool's answer: its text, or the message of the exception it raised. */
  type Tools = (AgentAction, ActionInput) -> Result<string>

  /**
   * `_execute_action`: an unregistered tool is reported as not available;
   * a registered tool's text is cut to 3000 characters; a failing tool's
   * error is reported.
   */
  function ExecuteAction(action: AgentAction, input: ActionInput, registered: set<string>, tools: Tools): (obs: string)
  {
    if action.Value() !in registered then "Tool '" + action.Value() + "' not available."
    else match tools(action, input)
      case Ok(text) => Take(text, MaxObservation)
      case Err(e) => "Tool error: " + e
  }

  /** The three reports `_execute_action` can give. */
  lemma ExecuteActionReports(action: AgentAction, input: ActionInput, registered: set<string>, tools: Tools)
    ensures action.Value() !in registered ==> ExecuteAction(action, input, registered, tools) == "Tool '" + action.Value() + "' not available."
    ensures action.Value() in registered && tools(action, input).Ok? ==>
              ExecuteAction(action, input, registered, tools) == tools(action, input).value[..Min(|tools(action, input).value|, MaxObservation)]
    ensures action.Value() in registered && tools(action, input).Err? ==> ExecuteAction(action, input, registered, tools) == "Tool error: " + tools(action, input).msg
  {
  }

  /** A registered tool's observation never exceeds 3000 characters. */
  lemma ObservationBounded(action: AgentAction, input: ActionInput, registered: set<string>, tools: Tools)
    requires action.Value() in registered && tools(action, input).Ok?
    ensures |ExecuteAction(action, input, registered, tools)| <= MaxObservation
  {
  }

  // ---------------------------------------------------------------------
  // Steps, sources and confidence

  datatype AgentStep = AgentStep(thought: string, action: AgentAction, input: ActionInput, observation: Option<string>)

  function Get(input: ActionInput, key: string): string { if key in input then input[key] else "" }

  /** The source one executed step records: searches and case lookups only. */
  function SourceOf(step: AgentStep): Option<string>
  {
    if step.action == SearchPrecedents then Some("Search: " + Take(Get(step.input, "query"), 50))
    else if step.action == GetCaseDetails then Some("Case: " + Get(step.input, "case_reference"))
    else None
  }

  /** The sources a run's steps record, without repeats (`list(set(sources))`, order not modelled). */
  function SourcesOf(steps: seq<AgentStep>): (s: set<string>)
  {
    if steps == [] then {}
    else SourcesOf(steps[..|steps| - 1]) + (match SourceOf(steps[|steps| - 1]) case Some(x) => {x} case None => {})
  }

  /** Every source comes from a search or a case-detail step. */
  lemma {:induction false} SourcesFromLookups(steps: seq<AgentStep>, x: string)
    requires x in SourcesOf(steps)
    ensures exists i :: 0 <= i < |steps| && (steps[i].action == SearchPrecedents || steps[i].action == GetCaseDetails)
                        && SourceOf(steps[i]) == Some(x)
  {
    var last := steps[|steps| - 1];
    if SourceOf(last) == Some(x) {
      assert last.action == SearchPrecedents || last.action == GetCaseDetails;
    } else {
      SourcesFromLookups(steps[..|steps| - 1], x);
      var i :| 0 <= i < |steps| - 1 && (steps[..|steps| - 1][i].action == SearchPrecedents
                                         || steps[..|steps| - 1][i].action == GetCaseDetails)
                                     && SourceOf(steps[..|steps| - 1][i]) == Some(x);
      assert steps[i] == steps[..|steps| - 1][i];
    }
  }

  predicate IsAction(a: AgentAction, s: AgentStep) { s.action == a }

  function Did(a: AgentAction): AgentStep -> bool { s => IsAction(a, s) }

  /**
   * `_calculate_confidence`: 0.0 with no steps; otherwise 0.5, plus 0.15
   * for a search, 0.1 for two case lookups, 0.1 for a policy check and 0.1
   * for a risk assessment, less 0.1 beyond ten steps, clamped to [0.1, 0.95].
   */
  function CalculateConfidence(steps: seq<AgentStep>): (c: real)
    ensures steps == [] ==> c == 0.0
    ensures steps != [] ==> 0.1 <= c <= 0.95
  {
    if steps == [] then 0.0
    else
      var score := 0.5
        + (if CountWhere(steps, Did(SearchPrecedents)) >= 1 then 0.15 else 0.0)
        + (if CountWhere(steps, Did(GetCaseDetails)) >= 2 then 0.1 else 0.0)
        + (if CountWhere(steps, Did(IdentifyPolicies)) >= 1 then 0.1 else 0.0)
        + (if CountWhere(steps, Did(AssessRisk)) >= 1 then 0.1 else 0.0)
        - (if |steps| > 10 then 0.1 else 0.0);
      ClampReal(score, 0.1, 0.95)
  }

  /**
   * The score before clamping lies in [0.4, 0.95], so the clamp never
   * binds: a run with steps is at least 0.4 confident, and a run that only
   * finishes is exactly 0.5.
   */
  lemma ConfidenceRange(steps: seq<AgentStep>)
    requires steps != []
    ensures 0.4 <= CalculateConfidence(steps) <= 0.95
    ensures |steps| <= 10 && CountWhere(steps, Did(SearchPrecedents)) == 0 && CountWhere(steps, Did(GetCaseDetails)) < 2
            && CountWhere(steps, Did(IdentifyPolicies)) == 0 && CountWhere(steps, Did(AssessRisk)) == 0
            ==> CalculateConfidence(steps) == 0.5
  {
  }

  // ---------------------------------------------------------------------
  // The loop

  /** The step cap every new agent is given (`self.max_steps`). */
  const MaxSteps := 15

  const StepLimitAnswer := "I was unable to complete the " + "task within the step limit."

  /** The three speakers of a chat conversation. */
  datatype Role = System | User | Assistant

  datatype Message = Message(role: Role, content: string)

  /** What the agent tells the model after a failed call. */
  function ErrorNote(e: string): string { "Error: " + e + ". Try a different approach." }

  /** What the agent tells the model after running a tool. */
  function ObservationNote(observation: string): string { "Observation: " + observation }

  datatype AgentResult = AgentResult(
    success: bool,
    answer: string,
    steps: seq<AgentStep>,
    sourcesUsed: set<string>,
    confidence: real,
    executionTimeSeconds: real)

  /** Every step but a final FINISH ran a tool and holds its observation. */
  predicate Executed(steps: seq<AgentStep>, upTo: int)
  {
    forall k :: 0 <= k < upTo && k < |steps| ==> steps[k].action != Finish && steps[k].observation.Some?
  }

  /**
   * The agent as `run` sees it: the model it calls, the parser's view of a
   * reply, its registered tools, and its step cap, which a new agent sets
   * to MaxSteps.
   */
  datatype World = World(
    llm: seq<Message> -> Result<string>,
    matchesOf: string -> ReplyMatches,
    decode: string -> Option<ActionInput>,
    registered: set<string>,
    maxSteps: nat,
    tools: Tools)

  /** A new agent: `__init__` sets its step cap to MaxSteps. */
  function NewAgent(llm: seq<Message> -> Result<string>, matchesOf: string -> ReplyMatches,
                    decode: string -> Option<ActionInput>, registered: set<string>, tools: Tools): World
  {
    World(llm, matchesOf, decode, registered, MaxSteps, tools)
  }

  /** The conversation `run` opens with. */
  function OpeningMessages(task: string, contextText: string): seq<Message>
  {
    [Message(System, "You are an expert UK planning consultant agent."),
     Message(User, "Task: " + task + contextText)]
  }

  /** The opening conversation holds no reply of the model. */
  lemma OpeningReplies(task: string, contextText: string)
    ensures |OpeningMessages(task, contextText)| == 2 && Replies(OpeningMessages(task, contextText)) == []
  {
    var init := OpeningMessages(task, contextText);
    assert init[..1][..0] == [];
  }

  /** A run, or one round of it: whether it finished, its steps and its conversation. */
  datatype Trace = Trace(success: bool, steps: seq<AgentStep>, messages: seq<Message>)

  /** The reply of the model, as the agent reads it. */
  function ParseReply(w: World, reply: string): Parsed
  {
    ParseResponse(w.matchesOf(reply), w.decode)
  }

  /**
   * One round of `run`: a failed model call adds an error message; a
   * FINISH reply is recorded and finishes; any other reply runs its tool
   * and records the step with its observation.
   */
  function Round(w: World, messages: seq<Message>, steps: seq<AgentStep>): Trace
  {
    match w.llm(messages)
    case Err(e) => Trace(false, steps, messages + [Message(User, ErrorNote(e))])
    case Ok(reply) =>
      var parsed := ParseReply(w, reply);
      var step := AgentStep(parsed.thought, parsed.action, parsed.input, None);
      var msgs := messages + [Message(Assistant, reply)];
      if parsed.action == Finish then Trace(true, steps + [step], msgs)
      else
        var observation := ExecuteAction(parsed.action, parsed.input, w.registered, w.tools);
        Trace(false, steps + [step.(observation := Some(observation))], msgs + [Message(User, ObservationNote(observation))])
  }

  /** The last `left` rounds of `run`: rounds until one finishes or none are left. */
  function RunFrom(w: World, messages: seq<Message>, steps: seq<AgentStep>, left: nat): Trace
    decreases left
  {
    if left == 0 then Trace(false, steps, messages)
    else
      var t := Round(w, messages, steps);
      if t.success then t else RunFrom(w, t.messages, t.steps, left - 1)
  }

  /** The whole run on a task. */
  function RunTrace(task: string, contextText: string, w: World): Trace
  {
    RunFrom(w, OpeningMessages(task, contextText), [], w.maxSteps)
  }

  /** The result `run` reports for a trace. */
  function ResultOf(t: Trace, elapsed: real): AgentResult
  {
    if t.success && t.steps != [] then
      AgentResult(true, Get(t.steps[|t.steps| - 1].input, "answer"), t.steps, SourcesOf(t.steps),
                  CalculateConfidence(t.steps), elapsed)
    else AgentResult(false, StepLimitAnswer, t.steps, SourcesOf(t.steps), 0.3, elapsed)
  }

  /** The model's replies in a conversation, in order. */
  function Replies(ms: seq<Message>): (rs: seq<string>)
    ensures |rs| <= |ms|
  {
    if ms == [] then []
    else Replies(ms[..|ms| - 1]) + (if ms[|ms| - 1].role == Assistant then [ms[|ms| - 1].content] else [])
  }

  /** A step records what the model's reply said. */
  predicate StepOf(s: AgentStep, p: Parsed)
  {
    s.thought == p.thought && s.action == p.action && s.input == p.input
  }

  /** The steps are, one for one and in order, the parses of the model's replies. */
  predicate Traced(w: World, messages: seq<Message>, steps: seq<AgentStep>)
  {
    |Replies(messages)| == |steps| && forall k :: 0 <= k < |steps| ==> StepOf(steps[k], ParseReply(w, Replies(messages)[k]))
  }

  /** Every recorded observation is what the step's own tool call returned. */
  predicate Observed(w: World, steps: seq<AgentStep>)
  {
    forall k :: 0 <= k < |steps| && steps[k].observation.Some? ==>
      steps[k].observation.value == ExecuteAction(steps[k].action, steps[k].input, w.registered, w.tools)
  }

  lemma ExecutedExtend(steps: seq<AgentStep>, step: AgentStep)
    requires Executed(steps, |steps|) && step.action != Finish && step.observation.Some?
    ensures Executed(steps + [step], |steps| + 1)
  {
  }

  lemma ExecutedThenFinish(steps: seq<AgentStep>, step: AgentStep)
    requires Executed(steps, |steps|)
    ensures Executed(steps + [step], |steps|)
  {
  }

  lemma RepliesAppend(ms: seq<Message>, m: Message)
    ensures Replies(ms + [m]) == Replies(ms) + (if m.role == Assistant then [m.content] else [])
  {
    assert (ms + [m])[..|ms|] == ms;
  }

  lemma TracedExtend(w: World, messages: seq<Message>, steps: seq<AgentStep>, reply: string, step: AgentStep)
    requires Traced(w, messages, steps) && StepOf(step, ParseReply(w, reply))
    ensures Traced(w, messages + [Message(Assistant, reply)], steps + [step])
  {
    RepliesAppend(messages, Message(Assistant, reply));
  }

  lemma TracedUser(w: World, messages: seq<Message>, steps: seq<AgentStep>, text: string)
    requires Traced(w, messages, steps)
    ensures Traced(w, messages + [Message(User, text)], steps)
  {
    RepliesAppend(messages, Message(User, text));
  }

  lemma ObservedExtend(w: World, steps: seq<AgentStep>, step: AgentStep)
    requires Observed(w, steps)
    requires step.observation.Some? ==> step.observation.value == ExecuteAction(step.action, step.input, w.registered, w.tools)
    ensures Observed(w, steps + [step])
  {
    assert forall k :: 0 <= k < |steps| ==> (steps + [step])[k] == steps[k];
  }

  /**
   * A round adds at most one step and two messages; a round that does not
   * finish adds one message, plus one more when it recorded a step.
   */
  lemma RoundSize(w: World, messages: seq<Message>, steps: seq<AgentStep>)
    ensures var t := Round(w, messages, steps);
      |steps| <= |t.steps| <= |steps| + 1 && |t.messages| <= |messages| + 2
      && (!t.success ==> |t.messages| == |messages| + 1 + (|t.steps| - |steps|))
  {
  }

  /** A round either finishes on a FINISH step that ran no tool, or leaves every step having run its tool. */
  lemma RoundSteps(w: World, messages: seq<Message>, steps: seq<AgentStep>)
    requires Executed(steps, |steps|)
    ensures var t := Round(w, messages, steps);
      (t.success ==> |t.steps| > |steps| && t.steps[|t.steps| - 1].action == Finish
                     && t.steps[|t.steps| - 1].observation.None? && Executed(t.steps, |t.steps| - 1))
      && (!t.success ==> Executed(t.steps, |t.steps|))
  {
    match w.llm(messages)
    case Err(e) =>
    case Ok(reply) =>
      var parsed := ParseReply(w, reply);
      var step := AgentStep(parsed.thought, parsed.action, parsed.input, None);
      if parsed.action == Finish {
        ExecutedThenFinish(steps, step);
      } else {
        var observation := ExecuteAction(parsed.action, parsed.input, w.registered, w.tools);
        ExecutedExtend(steps, step.(observation := Some(observation)));
      }
  }

  /** A round keeps the steps the parses of the conversation's replies. */
  lemma RoundTraced(w: World, messages: seq<Message>, steps: seq<AgentStep>)
    requires Traced(w, messages, steps)
    ensures var t := Round(w, messages, steps); Traced(w, t.messages, t.steps)
  {
    match w.llm(messages)
    case Err(e) =>
      TracedUser(w, messages, steps, ErrorNote(e));
    case Ok(reply) =>
      var parsed := ParseReply(w, reply);
      var step := AgentStep(parsed.thought, parsed.action, parsed.input, None);
      if parsed.action == Finish {
        TracedExtend(w, messages, steps, reply, step);
      } else {
        var observation := ExecuteAction(parsed.action, parsed.input, w.registered, w.tools);
        var next := steps + [step.(observation := Some(observation))];
        TracedExtend(w, messages, steps, reply, step.(observation := Some(observation)));
        TracedUser(w, messages + [Message(Assistant, reply)], next, ObservationNote(observation));
      }
  }

  /** A round records only the observation its tool call returned. */
  lemma RoundObserved(w: World, messages: seq<Message>, steps: seq<AgentStep>)
    requires Observed(w, steps)
    ensures Observed(w, Round(w, messages, steps).steps)
  {
    match w.llm(messages)
    case Err(e) =>
    case Ok(reply) =>
      var parsed := ParseReply(w, reply);
      var step := AgentStep(parsed.thought, parsed.action, parsed.input, None);
      if parsed.action == Finish {
        ObservedExtend(w, steps, step);
      } else {
        var observation := ExecuteAction(parsed.action, parsed.input, w.registered, w.tools);
        ObservedExtend(w, steps, step.(observation := Some(observation)));
      }
  }

  /**
   * A run adds at most one step and two messages a round; a run without
   * success used every round: the conversation grew by one message per
   * round plus one observation per step.
   */
  lemma {:induction false} RunFromSize(w: World, messages: seq<Message>, steps: seq<AgentStep>, left: nat)
    ensures var t := RunFrom(w, messages, steps, left);
      |t.steps| <= |steps| + left && |t.messages| <= |messages| + 2 * left
      && (!t.success ==> |t.messages| == |messages| + left + (|t.steps| - |steps|))
    decreases left
  {
    if left > 0 {
      var t := Round(w, messages, steps);
      RoundSize(w, messages, steps);
      if !t.success {
        RunFromSize(w, t.messages, t.steps, left - 1);
      }
    }
  }

  /**
   * A run either ends on a FINISH step that ran no tool, every earlier
   * step having run its tool, or ends with every step having run its tool.
   */
  lemma {:induction false} RunFromSteps(w: World, messages: seq<Message>, steps: seq<AgentStep>, left: nat)
    requires Executed(steps, |steps|)
    ensures var t := RunFrom(w, messages, steps, left);
      (t.success ==> |t.steps| > |steps| && t.steps[|t.steps| - 1].action == Finish
                     && t.steps[|t.steps| - 1].observation.None? && Executed(t.steps, |t.steps| - 1))
      && (!t.success ==> Executed(t.steps, |t.steps|))
    decreases left
  {
    if left > 0 {
      var t := Round(w, messages, steps);
      RoundSteps(w, messages, steps);
      if !t.success {
        RunFromSteps(w, t.messages, t.steps, left - 1);
      }
    }
  }

  /** A run's steps stay the parses of its conversation's replies. */
  lemma {:induction false} RunFromTraced(w: World, messages: seq<Message>, steps: seq<AgentStep>, left: nat)
    requires Traced(w, messages, steps)
    ensures var t := RunFrom(w, messages, steps, left); Traced(w, t.messages, t.steps)
    decreases left
  {
    if left > 0 {
      var t := Round(w, messages, steps);
      RoundTraced(w, messages, steps);
      if !t.success {
        RunFromTraced(w, t.messages, t.steps, left - 1);
      }
    }
  }

  /** A run records only the observations its tool calls returned. */
  lemma {:induction false} RunFromObserved(w: World, messages: seq<Message>, steps: seq<AgentStep>, left: nat)
    requires Observed(w, steps)
    ensures Observed(w, RunFrom(w, messages, steps, left).steps)
    decreases left
  {
    if left > 0 {
      var t := Round(w, messages, steps);
      RoundObserved(w, messages, steps);
      if !t.success {
        RunFromObserved(w, t.messages, t.steps, left - 1);
      }
    }
  }

  /** Some reply of the model asks to FINISH. */
  predicate AsksToFinish(w: World, replies: seq<string>)
  {
    exists k :: 0 <= k < |replies| && ParseReply(w, replies[k]).action == Finish
  }

  /** What a run's result says, given what its trace satisfies. */
  lemma TraceResult(w: World, t: Trace, elapsed: real)
    requires Traced(w, t.messages, t.steps)
    requires t.success ==> t.steps != [] && t.steps[|t.steps| - 1].action == Finish
    requires !t.success ==> Executed(t.steps, |t.steps|)
    ensures ResultOf(t, elapsed).success <==> AsksToFinish(w, Replies(t.messages))
    ensures ResultOf(t, elapsed).success ==>
              ResultOf(t, elapsed).answer == Get(ParseReply(w, Replies(t.messages)[|Replies(t.messages)| - 1]).input, "answer")
  {
    var replies := Replies(t.messages);
    if t.success {
      var last := |replies| - 1;
      assert StepOf(t.steps[last], ParseReply(w, replies[last]));
      assert AsksToFinish(w, replies);
    } else {
      forall k | 0 <= k < |replies|
        ensures ParseReply(w, replies[k]).action != Finish
      {
        assert StepOf(t.steps[k], ParseReply(w, replies[k]));
      }
    }
  }

  /**
   * What `run` reports: its steps are the parses of the model's replies in
   * order; it succeeds exactly when one of those replies asks to FINISH,
   * and then answers with that reply's "answer" input; every observation
   * is its tool's output; a failed run went through every round it had.
   */
  lemma RunOutcome(task: string, contextText: string, w: World, elapsed: real)
    ensures var t := RunTrace(task, contextText, w);
      var r := ResultOf(t, elapsed);
      var replies := Replies(t.messages);
      |r.steps| == |replies| <= w.maxSteps
      && (forall k :: 0 <= k < |replies| ==> StepOf(r.steps[k], ParseReply(w, replies[k])))
      && (r.success <==> AsksToFinish(w, replies))
      && (r.success ==> r.answer == Get(ParseReply(w, replies[|replies| - 1]).input, "answer"))
      && Observed(w, r.steps)
      && (!r.success ==> |t.messages| == 2 + w.maxSteps + |r.steps|)
  {
    var init := OpeningMessages(task, contextText);
    OpeningReplies(task, contextText);
    RunFromSize(w, init, [], w.maxSteps);
    RunFromSteps(w, init, [], w.maxSteps);
    RunFromTraced(w, init, [], w.maxSteps);
    RunFromObserved(w, init, [], w.maxSteps);
    TraceResult(w, RunTrace(task, contextText, w), elapsed);
  }

  /**
   * The shape of what `run` reports: at most `maxSteps` steps and two
   * messages a step beyond the opening two; a success ends on a FINISH
   * step that ran no tool, after steps that all ran theirs; a failure ran
   * every step's tool.
   */
  lemma RunShape(task: string, contextText: string, w: World, elapsed: real)
    ensures var t := RunTrace(task, contextText, w);
      var r := ResultOf(t, elapsed);
      |r.steps| <= w.maxSteps && |t.messages| <= 2 + 2 * w.maxSteps
      && (r.success ==> |r.steps| >= 1 && r.steps[|r.steps| - 1].action == Finish
                        && r.steps[|r.steps| - 1].observation.None?
                        && Executed(r.steps, |r.steps| - 1))
      && (!r.success ==> Executed(r.steps, |r.steps|))
  {
    var init := OpeningMessages(task, contextText);
    RunFromSize(w, init, [], w.maxSteps);
    RunFromSteps(w, init, [], w.maxSteps);
  }

  /**
   * `run`: at most `maxSteps` rounds. A round whose model call fails adds an
   * error message and moves on. A FINISH step is recorded and answered
   * with success, without running any tool; any other action is run and
   * its observation recorded. Without a FINISH the run fails with
   * confidence 0.3.
   */
  method Run(task: string, contextText: string, w: World, elapsed: real) returns (r: AgentResult, messages: seq<Message>)
    ensures r == ResultOf(RunTrace(task, contextText, w), elapsed) && messages == RunTrace(task, contextText, w).messages
  {
    var steps: seq<AgentStep> := [];
    messages := OpeningMessages(task, contextText);
    var round := 0;
    var finished := false;
    while round < w.maxSteps && !finished
      invariant 0 <= round <= w.maxSteps
      invariant finished ==> steps != [] && Trace(true, steps, messages) == RunTrace(task, contextText, w)
      invariant !finished ==> RunFrom(w, messages, steps, w.maxSteps - round) == RunTrace(task, contextText, w)
    {
      ghost var next := Round(w, messages, steps);
      var reply := w.llm(messages);
      if reply.Err? {
        messages := messages + [Message(User, ErrorNote(reply.msg))];
      } else {
        messages := messages + [Message(Assistant, reply.value)];
        var parsed := ParseResponse(w.matchesOf(reply.value), w.decode);
        var step := AgentStep(parsed.thought, parsed.action, parsed.input, None);
        if parsed.action == Finish {
          steps := steps + [step];
          finished := true;
        } else {
          var observation := ExecuteAction(parsed.action, parsed.input, w.registered, w.tools);
          step := step.(observation := Some(observation));
          steps := steps + [step];
          messages := messages + [Message(User, ObservationNote(observation))];
        }
      }
      assert next == Trace(finished, steps, messages);
      round := round + 1;
    }
    if finished {
      r := AgentResult(true, Get(steps[|steps| - 1].input, "answer"), steps, SourcesOf(steps), CalculateConfidence(steps), elapsed);
    } else {
      r := AgentResult(false, StepLimitAnswer, steps, SourcesOf(steps), 0.3, elapsed);
    }
  }

  // ---------------------------------------------------------------------
  // The policy tool

  const Section72 := "Section 72 P(LBCA) Act 1990"

  /** The policy table: keys looked for in the lower-cased development type, and their policies. */
  const PolicyTable: seq<(string, seq<string>)> := [
    ("extensions", ["D1", "D3", "A1"]),
    ("dormers", ["D1", "D3"]),
    ("basements", ["D1", "D3", "A1", "Camden Basement SPD"]),
    ("change_of_use", ["D1", "E1", "E2"]),
    ("new_build", ["D1", "D2", "H1"])]

  /** The policies of the table entries whose key occurs in `dev`. */
  function TablePolicies(table: seq<(string, seq<string>)>, dev: string): set<string>
  {
    if table == [] then {}
    else
      var last := table[|table| - 1];
      TablePolicies(table[..|table| - 1], dev) + (if Contains(dev, last.0) then set p | p in last.1 else {})
  }

  /**
   * `identify_policies`: the policies for every key in the lower-cased
   * type, plus D2 and section 72 when a conservation area other than
   * "None" is given; reported once each.
   */
  method IdentifyPoliciesFor(developmentType: string, conservationArea: Option<string>) returns (policies: set<string>)
    ensures policies == TablePolicies(PolicyTable, Lower(developmentType))
                        + (if conservationArea.Some? && conservationArea.value != "" && conservationArea.value != "None"
                           then {"D2", Section72} else {})
  {
    var dev := Lower(developmentType);
    var relevant: seq<string> := [];
    var i := 0;
    while i < |PolicyTable|
      invariant 0 <= i <= |PolicyTable|
      invariant (set p | p in relevant) == TablePolicies(PolicyTable[..i], dev)
    {
      assert PolicyTable[..i + 1][..i] == PolicyTable[..i];
      if Contains(dev, PolicyTable[i].0) {
        relevant := relevant + PolicyTable[i].1;
      }
      i := i + 1;
    }
    assert PolicyTable[..i] == PolicyTable;
    if conservationArea.Some? && conservationArea.value != "" && conservationArea.value != "None" {
      relevant := relevant + ["D2", Section72];
    }
    policies := set p | p in relevant;
  }

  /** Section 72 is reported exactly when a real conservation area is given, and D2 is then reported too. */
  lemma ConservationPolicies(developmentType: string, conservationArea: Option<string>)
    ensures var areaGiven := conservationArea.Some? && conservationArea.value != "" && conservationArea.value != "None";
      var ps := TablePolicies(PolicyTable, Lower(developmentType)) + (if areaGiven then {"D2", Section72} else {});
      && (Section72 in ps <==> areaGiven)
      && (areaGiven ==> "D2" in ps)
  {
    TableNoSection72(PolicyTable, Lower(developmentType));
  }

  lemma {:induction false} TableNoSection72(table: seq<(string, seq<string>)>, dev: string)
    requires forall k :: 0 <= k < |table| ==> Section72 !in table[k].1
    ensures Section72 !in TablePolicies(table, dev)
  {
    if table != [] {
      TableNoSection72(table[..|table| - 1], dev);
    }
  }
}
