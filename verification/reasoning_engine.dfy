/**
 * The chain-of-thought reasoning engine: six model-backed steps that fill a
 * shared reasoning context (understand the proposal, identify policies,
 * analyse precedent similarities, assess risks, generate arguments, verify
 * citations), then a synthesis that scores confidence, picks a
 * recommendation tier and assembles the output.
 *
 * The language model is not modelled: each step's decoded reply is given
 * as a `Result`, `Err` standing for a failed call, a reply that is not JSON,
 * or a reply whose shape makes the step raise. Each step calls the model
 * exactly once per run, so one reply per step covers every run.
 */
module ReasoningEngine {
  import opened Common
  import opened PyStr

  datatype ReasoningStep =
    | Understand | GatherContext | IdentifyPolicies | FindPrecedents | AnalyseSimilarities
    | AssessRisks | GenerateArguments | VerifyCitations | Synthesize
  {
    function Value(): string
    {
      match this
      case Understand => "understand"
      case GatherContext => "gather_context"
      case IdentifyPolicies => "identify_policies"
      case FindPrecedents => "find_precedents"
      case AnalyseSimilarities => "analyse_similarities"
      case AssessRisks => "assess_risks"
      case GenerateArguments => "generate_arguments"
      case VerifyCitations => "verify_citations"
      case Synthesize => "synthesize"
    }
  }

  /** The steps a run performs, in the order it performs them. */
  const StepOrder: seq<ReasoningStep> :=
    [Understand, IdentifyPolicies, AnalyseSimilarities, AssessRisks, GenerateArguments, VerifyCitations]

  /** A decoded JSON object whose contents only reach prompts and the trace. */
  type Doc = map<string, string>

  /** An entry of a policy category: a record with a code (missing code is ""), a bare string, or anything else. */
  datatype PolicyEntry = PolicyRecord(code: string) | PolicyName(name: string) | PolicyOther

  /** The identified policies, by category name. */
  datatype Policies = Policies(categories: map<string, seq<PolicyEntry>>)

  /** A risk as the model reports it: a bare string or a record. */
  datatype RiskItem = RiskText(text: string) | RiskRecord(fields: Doc)

  datatype RiskReport = RiskReport(risks: seq<RiskItem>, overallConfidence: Option<real>)

  datatype Argument = Argument(caseReferences: seq<string>, policyReferences: seq<string>)

  /** The verifier's reply; `citations` is its citation-to-verdict object, in order. */
  datatype Verification = Verification(citations: seq<(string, bool)>)

  /** What a step records in the trace. */
  datatype Output =
    | Requirements(requirements: Doc)
    | PolicyOutput(policies: Policies)
    | Analysis(analysis: Doc)
    | RiskOutput(report: RiskReport)
    | ArgumentOutput(arguments: seq<Argument>)
    | VerificationOutput(verification: Verification)

  datatype TraceEntry = TraceEntry(step: ReasoningStep, output: Output)

  /** A precedent case; only its reference reaches the output. */
  datatype Precedent = Precedent(caseReference: Option<string>)

  /** The model's decoded reply to each step, and the summary text. */
  datatype Replies = Replies(
    understand: Result<Doc>,
    policies: Result<Policies>,
    similarities: Result<Doc>,
    risks: Result<RiskReport>,
    arguments: Result<seq<Argument>>,
    verification: Result<Verification>,
    summary: Result<string>)

  datatype ReasoningOutput = ReasoningOutput(
    summary: string,
    recommendation: string,
    confidence: real,
    arguments: seq<Argument>,
    risks: seq<Doc>,
    precedentsCited: seq<string>,
    policiesReferenced: seq<string>,
    reasoningTrace: seq<TraceEntry>,
    verificationStatus: Verification,
    generatedAt: int)

  /** The steps recorded in a trace, in order. */
  function TraceSteps(trace: seq<TraceEntry>): (r: seq<ReasoningStep>)
    ensures |r| == |trace|
  {
    if trace == [] then [] else TraceSteps(trace[..|trace| - 1]) + [trace[|trace| - 1].step]
  }

  lemma TraceStepsAppend(trace: seq<TraceEntry>, e: TraceEntry)
    ensures TraceSteps(trace + [e]) == TraceSteps(trace) + [e.step]
  {
    assert (trace + [e])[..|trace|] == trace;
  }

  /** The names `steps_completed` holds for a sequence of steps. */
  function StepValues(steps: seq<ReasoningStep>): (r: seq<string>)
    ensures |r| == |steps|
  {
    if steps == [] then [] else StepValues(steps[..|steps| - 1]) + [steps[|steps| - 1].Value()]
  }

  lemma StepValuesPrefix(k: nat)
    requires k < |StepOrder|
    ensures StepValues(StepOrder[..k + 1]) == StepValues(StepOrder[..k]) + [StepOrder[k].Value()]
  {
    assert StepOrder[..k + 1][..k] == StepOrder[..k];
  }

  /** The run performs each of its steps once, and never the context-gathering, precedent-finding or synthesis steps. */
  lemma StepOrderShape()
    ensures forall i, j :: 0 <= i < j < |StepOrder| ==> StepOrder[i] != StepOrder[j]
    ensures GatherContext !in StepOrder && FindPrecedents !in StepOrder && Synthesize !in StepOrder
  {
  }

  /** How many steps complete: the index of the first step whose reply fails, or all six. */
  function Completed(replies: Replies): (k: nat)
    ensures k <= |StepOrder|
  {
    if replies.understand.Err? then 0
    else if replies.policies.Err? then 1
    else if replies.similarities.Err? then 2
    else if replies.risks.Err? then 3
    else if replies.arguments.Err? then 4
    else if replies.verification.Err? then 5
    else 6
  }

  /** The context a run accumulates; each step updates it in place. */
  class ReasoningContext {
    const query: string
    const siteAddress: Option<string>
    const ward: Option<string>
    const conservationArea: Option<string>
    var understoodRequirements: Doc
    var relevantPolicies: Policies
    var precedents: seq<Precedent>
    var riskFactors: seq<RiskItem>
    var arguments: seq<Argument>
    var stepsCompleted: seq<string>
    var reasoningTrace: seq<TraceEntry>
    var confidenceScores: map<string, real>

    constructor(query: string, siteAddress: Option<string>, ward: Option<string>,
                conservationArea: Option<string>, precedents: seq<Precedent>)
      ensures this.query == query && this.siteAddress == siteAddress && this.ward == ward
      ensures this.conservationArea == conservationArea && this.precedents == precedents
      ensures understoodRequirements == map[] && relevantPolicies == Policies(map[])
      ensures riskFactors == [] && arguments == [] && confidenceScores == map[]
      ensures stepsCompleted == [] && reasoningTrace == []
    {
      this.query := query;
      this.siteAddress := siteAddress;
      this.ward := ward;
      this.conservationArea := conservationArea;
      this.precedents := precedents;
      understoodRequirements := map[];
      relevantPolicies := Policies(map[]);
      riskFactors := [];
      arguments := [];
      stepsCompleted := [];
      reasoningTrace := [];
      confidenceScores := map[];
    }
  }

  const RiskAssessment := "risk_assessment"

  /** The score the risk step records: the reported overall confidence, else 0.5. */
  function RiskScore(report: RiskReport): real
  {
    match report.overallConfidence
    case Some(c) => c
    case None => 0.5
  }

  method StepUnderstand(context: ReasoningContext, reply: Result<Doc>) returns (ok: bool)
    modifies context
    ensures ok == reply.Ok?
    ensures !ok ==> unchanged(context)
    ensures ok ==> context.understoodRequirements == reply.value
    ensures ok ==> context.stepsCompleted == old(context.stepsCompleted) + [Understand.Value()]
    ensures ok ==> context.reasoningTrace == old(context.reasoningTrace) + [TraceEntry(Understand, Requirements(reply.value))]
    ensures ok ==> context.relevantPolicies == old(context.relevantPolicies) && context.precedents == old(context.precedents)
    ensures ok ==> context.riskFactors == old(context.riskFactors) && context.arguments == old(context.arguments)
    ensures ok ==> context.confidenceScores == old(context.confidenceScores)
  {
    if reply.Err? {
      return false;
    }
    context.understoodRequirements := reply.value;
    context.stepsCompleted := context.stepsCompleted + [Understand.Value()];
    context.reasoningTrace := context.reasoningTrace + [TraceEntry(Understand, Requirements(reply.value))];
    return true;
  }

  method StepIdentifyPolicies(context: ReasoningContext, reply: Result<Policies>) returns (ok: bool)
    modifies context
    ensures ok == reply.Ok?
    ensures !ok ==> unchanged(context)
    ensures ok ==> context.relevantPolicies == reply.value
    ensures ok ==> context.stepsCompleted == old(context.stepsCompleted) + [IdentifyPolicies.Value()]
    ensures ok ==> context.reasoningTrace == old(context.reasoningTrace) + [TraceEntry(IdentifyPolicies, PolicyOutput(reply.value))]
    ensures ok ==> context.understoodRequirements == old(context.understoodRequirements) && context.precedents == old(context.precedents)
    ensures ok ==> context.riskFactors == old(context.riskFactors) && context.arguments == old(context.arguments)
    ensures ok ==> context.confidenceScores == old(context.confidenceScores)
  {
    if reply.Err? {
      return false;
    }
    context.relevantPolicies := reply.value;
    context.stepsCompleted := context.stepsCompleted + [IdentifyPolicies.Value()];
    context.reasoningTrace := context.reasoningTrace + [TraceEntry(IdentifyPolicies, PolicyOutput(reply.value))];
    return true;
  }

  method StepAnalyseSimilarities(context: ReasoningContext, reply: Result<Doc>) returns (ok: bool)
    modifies context
    ensures ok == reply.Ok?
    ensures !ok ==> unchanged(context)
    ensures ok ==> context.stepsCompleted == old(context.stepsCompleted) + [AnalyseSimilarities.Value()]
    ensures ok ==> context.reasoningTrace == old(context.reasoningTrace) + [TraceEntry(AnalyseSimilarities, Analysis(reply.value))]
    ensures ok ==> context.understoodRequirements == old(context.understoodRequirements) && context.precedents == old(context.precedents)
    ensures ok ==> context.relevantPolicies == old(context.relevantPolicies)
    ensures ok ==> context.riskFactors == old(context.riskFactors) && context.arguments == old(context.arguments)
    ensures ok ==> context.confidenceScores == old(context.confidenceScores)
  {
    if reply.Err? {
      return false;
    }
    context.reasoningTrace := context.reasoningTrace + [TraceEntry(AnalyseSimilarities, Analysis(reply.value))];
    context.stepsCompleted := context.stepsCompleted + [AnalyseSimilarities.Value()];
    return true;
  }

  method StepAssessRisks(context: ReasoningContext, reply: Result<RiskReport>) returns (ok: bool)
    modifies context
    ensures ok == reply.Ok?
    ensures !ok ==> unchanged(context)
    ensures ok ==> context.riskFactors == reply.value.risks
    ensures ok ==> context.confidenceScores == old(context.confidenceScores)[RiskAssessment := RiskScore(reply.value)]
    ensures ok ==> context.stepsCompleted == old(context.stepsCompleted) + [AssessRisks.Value()]
    ensures ok ==> context.reasoningTrace == old(context.reasoningTrace) + [TraceEntry(AssessRisks, RiskOutput(reply.value))]
    ensures ok ==> context.understoodRequirements == old(context.understoodRequirements) && context.precedents == old(context.precedents)
    ensures ok ==> context.relevantPolicies == old(context.relevantPolicies) && context.arguments == old(context.arguments)
  {
    if reply.Err? {
      return false;
    }
    context.riskFactors := reply.value.risks;
    context.confidenceScores := context.confidenceScores[RiskAssessment := RiskScore(reply.value)];
    context.reasoningTrace := context.reasoningTrace + [TraceEntry(AssessRisks, RiskOutput(reply.value))];
    context.stepsCompleted := context.stepsCompleted + [AssessRisks.Value()];
    return true;
  }

  method StepGenerateArguments(context: ReasoningContext, reply: Result<seq<Argument>>) returns (ok: bool)
    modifies context
    ensures ok == reply.Ok?
    ensures !ok ==> unchanged(context)
    ensures ok ==> context.arguments == reply.value
    ensures ok ==> context.stepsCompleted == old(context.stepsCompleted) + [GenerateArguments.Value()]
    ensures ok ==> context.reasoningTrace == old(context.reasoningTrace) + [TraceEntry(GenerateArguments, ArgumentOutput(reply.value))]
    ensures ok ==> context.understoodRequirements == old(context.understoodRequirements) && context.precedents == old(context.precedents)
    ensures ok ==> context.relevantPolicies == old(context.relevantPolicies) && context.riskFactors == old(context.riskFactors)
    ensures ok ==> context.confidenceScores == old(context.confidenceScores)
  {
    if reply.Err? {
      return false;
    }
    context.arguments := reply.value;
    context.reasoningTrace := context.reasoningTrace + [TraceEntry(GenerateArguments, ArgumentOutput(reply.value))];
    context.stepsCompleted := context.stepsCompleted + [GenerateArguments.Value()];
    return true;
  }

  /** The reply is returned and recorded; the citations gathered only reach the prompt. */
  method StepVerifyCitations(context: ReasoningContext, reply: Result<Verification>) returns (v: Result<Verification>)
    modifies context
    ensures v == reply
    ensures v.Err? ==> unchanged(context)
    ensures v.Ok? ==> context.stepsCompleted == old(context.stepsCompleted) + [VerifyCitations.Value()]
    ensures v.Ok? ==> context.reasoningTrace == old(context.reasoningTrace) + [TraceEntry(VerifyCitations, VerificationOutput(v.value))]
    ensures v.Ok? ==> context.understoodRequirements == old(context.understoodRequirements) && context.precedents == old(context.precedents)
    ensures v.Ok? ==> context.relevantPolicies == old(context.relevantPolicies) && context.riskFactors == old(context.riskFactors)
    ensures v.Ok? ==> context.arguments == old(context.arguments) && context.confidenceScores == old(context.confidenceScores)
  {
    if reply.Err? {
      return reply;
    }
    context.reasoningTrace := context.reasoningTrace + [TraceEntry(VerifyCitations, VerificationOutput(reply.value))];
    context.stepsCompleted := context.stepsCompleted + [VerifyCitations.Value()];
    return reply;
  }

  /**
   * Steps 1 to 6. The run stops at the first failing reply, so exactly the
   * steps before it have completed, each with one trace entry.
   */
  method RunSteps(context: ReasoningContext, replies: Replies) returns (v: Result<Verification>)
    modifies context
    ensures v.Ok? <==> Completed(replies) == |StepOrder|
    ensures v.Ok? ==> v == replies.verification
    ensures context.stepsCompleted == old(context.stepsCompleted) + StepValues(StepOrder[..Completed(replies)])
    ensures TraceSteps(context.reasoningTrace) == TraceSteps(old(context.reasoningTrace)) + StepOrder[..Completed(replies)]
    ensures v.Ok? ==> context.relevantPolicies == replies.policies.value && context.riskFactors == replies.risks.value.risks
    ensures v.Ok? ==> context.arguments == replies.arguments.value
    ensures v.Ok? ==> context.confidenceScores == old(context.confidenceScores)[RiskAssessment := RiskScore(replies.risks.value)]
    ensures context.precedents == old(context.precedents)
  {
    assert StepOrder[..0] == [];
    var ok := StepUnderstand(context, replies.understand);
    if !ok {
      return Err("understand");
    }
    StepValuesPrefix(0);
    TraceStepsAppend(old(context.reasoningTrace), TraceEntry(Understand, Requirements(replies.understand.value)));
    ghost var t1 := context.reasoningTrace;
    ok := StepIdentifyPolicies(context, replies.policies);
    if !ok {
      return Err("identify_policies");
    }
    StepValuesPrefix(1);
    TraceStepsAppend(t1, TraceEntry(IdentifyPolicies, PolicyOutput(replies.policies.value)));
    ghost var t2 := context.reasoningTrace;
    ok := StepAnalyseSimilarities(context, replies.similarities);
    if !ok {
      return Err("analyse_similarities");
    }
    StepValuesPrefix(2);
    TraceStepsAppend(t2, TraceEntry(AnalyseSimilarities, Analysis(replies.similarities.value)));
    v := RunLaterSteps(context, replies, old(context.stepsCompleted), TraceSteps(old(context.reasoningTrace)));
  }

  /** Steps 4 to 6, once the first three have completed on top of `steps0` and `trace0`. */
  method RunLaterSteps(context: ReasoningContext, replies: Replies, ghost steps0: seq<string>,
                       ghost trace0: seq<ReasoningStep>)
    returns (v: Result<Verification>)
    requires replies.understand.Ok? && replies.policies.Ok? && replies.similarities.Ok?
    requires context.stepsCompleted == steps0 + StepValues(StepOrder[..3])
    requires TraceSteps(context.reasoningTrace) == trace0 + StepOrder[..3]
    modifies context
    ensures v.Ok? <==> Completed(replies) == |StepOrder|
    ensures v.Ok? ==> v == replies.verification
    ensures context.stepsCompleted == steps0 + StepValues(StepOrder[..Completed(replies)])
    ensures TraceSteps(context.reasoningTrace) == trace0 + StepOrder[..Completed(replies)]
    ensures context.relevantPolicies == old(context.relevantPolicies) && context.precedents == old(context.precedents)
    ensures v.Ok? ==> context.riskFactors == replies.risks.value.risks && context.arguments == replies.arguments.value
    ensures v.Ok? ==> context.confidenceScores == old(context.confidenceScores)[RiskAssessment := RiskScore(replies.risks.value)]
  {
    ghost var t3 := context.reasoningTrace;
    var ok := StepAssessRisks(context, replies.risks);
    if !ok {
      return Err("assess_risks");
    }
    StepValuesPrefix(3);
    TraceStepsAppend(t3, TraceEntry(AssessRisks, RiskOutput(replies.risks.value)));
    ghost var t4 := context.reasoningTrace;
    ok := StepGenerateArguments(context, replies.arguments);
    if !ok {
      return Err("generate_arguments");
    }
    StepValuesPrefix(4);
    TraceStepsAppend(t4, TraceEntry(GenerateArguments, ArgumentOutput(replies.arguments.value)));
    ghost var t5 := context.reasoningTrace;
    v := StepVerifyCitations(context, replies.verification);
    if v.Ok? {
      StepValuesPrefix(5);
      TraceStepsAppend(t5, TraceEntry(VerifyCitations, VerificationOutput(v.value)));
      assert StepOrder[..6] == StepOrder;
    }
  }

  /** 1.0 only for the literal area name "None"; 0.8 otherwise, including when no area is given. */
  function AreaFactor(conservationArea: Option<string>): real
  {
    if conservationArea == Some("None") then 1.0 else 0.8
  }

  function IsVerified(c: (string, bool)): bool { c.1 }

  /** Verified citations over all citations, dividing by at least one. */
  function CitationFactor(citations: seq<(string, bool)>): (r: real)
    ensures 0.0 <= r <= 1.0
  {
    CountWhere(citations, IsVerified) as real / Max(|citations|, 1) as real
  }

  lemma {:induction false} CountWhereAll<T>(s: seq<T>, p: T -> bool)
    ensures CountWhere(s, p) == |s| <==> forall k :: 0 <= k < |s| ==> p(s[k])
  {
    if s != [] {
      CountWhereAll(s[..|s| - 1], p);
      if !p(s[|s| - 1]) {
        assert CountWhere(s[..|s| - 1], p) <= |s| - 1;
      }
    }
  }

  /** The citation factor is 0 with no citations, and 1 exactly when there are some and all are verified. */
  lemma CitationFactorSpec(citations: seq<(string, bool)>)
    ensures citations == [] ==> CitationFactor(citations) == 0.0
    ensures CitationFactor(citations) == 1.0 <==> citations != [] && forall k :: 0 <= k < |citations| ==> citations[k].1
  {
    CountWhereAll(citations, IsVerified);
  }

  /** The mean of the precedent, risk, conservation-area and citation factors. */
  function Confidence(precedentCount: nat, riskScore: real, conservationArea: Option<string>,
                      citations: seq<(string, bool)>): real
  {
    (precedentCount as real / 10.0 + riskScore + AreaFactor(conservationArea) + CitationFactor(citations)) / 4.0
  }

  /** With a risk score in [0, 1] and at most ten precedents, confidence lies in [0.2, 1]. */
  lemma ConfidenceBounds(precedentCount: nat, riskScore: real, conservationArea: Option<string>,
                         citations: seq<(string, bool)>)
    requires precedentCount <= 10 && 0.0 <= riskScore <= 1.0
    ensures 0.2 <= Confidence(precedentCount, riskScore, conservationArea, citations) <= 1.0
  {
  }

  /** More precedents, a higher risk score, or more verified citations never lower confidence. */
  lemma ConfidenceMonotone(n1: nat, n2: nat, s1: real, s2: real, area: Option<string>,
                           c1: seq<(string, bool)>, c2: seq<(string, bool)>)
    requires n1 <= n2 && s1 <= s2 && CitationFactor(c1) <= CitationFactor(c2)
    ensures Confidence(n1, s1, area, c1) <= Confidence(n2, s2, area, c2)
  {
  }

  /** Each precedent adds 0.025, and an unset area is scored like a named conservation area. */
  lemma ConfidenceFactors(n: nat, score: real, citations: seq<(string, bool)>)
    ensures Confidence(n + 1, score, None, citations) == Confidence(n, score, None, citations) + 0.025
    ensures Confidence(n, score, Some("None"), citations) == Confidence(n, score, None, citations) + 0.05
  {
  }

  datatype Recommendation = Proceed | Caution | Amend
  {
    function Text(): string
    {
      match this
      case Proceed => ProceedText
      case Caution => CautionText
      case Amend => AmendText
    }

    function Rank(): nat
    {
      match this
      case Amend => 0
      case Caution => 1
      case Proceed => 2
    }
  }

  const ProceedText := "Proceed with application. Strong precedent support exists."
  const CautionText := "Proceed with caution. Consider pre-application advice to address identified risks."
  const AmendText := "Design amendments recommended before submission. Significant risks identified."

  /** Proceed at 0.7 and above, caution from 0.5, amendments below. */
  function RecommendationFor(confidence: real): (r: Recommendation)
    ensures r == Proceed <==> confidence >= 0.7
    ensures r == Caution <==> 0.5 <= confidence < 0.7
    ensures r == Amend <==> confidence < 0.5
  {
    if confidence >= 0.7 then Proceed
    else if confidence >= 0.5 then Caution
    else Amend
  }

  /** Higher confidence never gives a weaker recommendation. */
  lemma RecommendationMonotone(c1: real, c2: real)
    requires c1 <= c2
    ensures RecommendationFor(c1).Rank() <= RecommendationFor(c2).Rank()
  {
  }

  const PrimaryPolicies := "primary_policies"
  const SecondaryPolicies := "secondary_policies"
  const HeritagePolicies := "heritage_policies"

  /** The entries of a category; an absent category has none. */
  function Category(policies: Policies, name: string): seq<PolicyEntry>
  {
    if name in policies.categories then policies.categories[name] else []
  }

  /** The reference an entry contributes: a record's code, a string itself, nothing otherwise. */
  function EntryRef(e: PolicyEntry): Option<string>
  {
    match e
    case PolicyRecord(code) => Some(code)
    case PolicyName(name) => Some(name)
    case PolicyOther => None
  }

  function EntryRefs(es: seq<PolicyEntry>): (r: seq<string>)
    ensures forall x :: x in r <==> exists k :: 0 <= k < |es| && EntryRef(es[k]) == Some(x)
  {
    if es == [] then []
    else
      var last := es[|es| - 1];
      var init := EntryRefs(es[..|es| - 1]);
      var r := init + (match EntryRef(last) case Some(x) => [x] case None => []);
      assert forall k :: 0 <= k < |es| - 1 ==> es[..|es| - 1][k] == es[k];
      r
  }

  function IsNonEmpty(s: string): bool { s != "" }

  /** The policy codes of the primary, secondary and heritage categories, in that order, empty ones dropped. */
  function ExtractPolicyRefs(policies: Policies): seq<string>
  {
    Filter(EntryRefs(Category(policies, PrimaryPolicies))
           + EntryRefs(Category(policies, SecondaryPolicies))
           + EntryRefs(Category(policies, HeritagePolicies)), IsNonEmpty)
  }

  predicate InCategories(policies: Policies, x: string)
  {
    || (exists k :: 0 <= k < |Category(policies, PrimaryPolicies)| && EntryRef(Category(policies, PrimaryPolicies)[k]) == Some(x))
    || (exists k :: 0 <= k < |Category(policies, SecondaryPolicies)| && EntryRef(Category(policies, SecondaryPolicies)[k]) == Some(x))
    || (exists k :: 0 <= k < |Category(policies, HeritagePolicies)| && EntryRef(Category(policies, HeritagePolicies)[k]) == Some(x))
  }

  /** A reference is extracted exactly when it is non-empty and one of the three categories supplies it. */
  lemma PolicyRefsSpec(policies: Policies, x: string)
    ensures x in ExtractPolicyRefs(policies) <==> x != "" && InCategories(policies, x)
  {
    var all := EntryRefs(Category(policies, PrimaryPolicies))
           + EntryRefs(Category(policies, SecondaryPolicies))
           + EntryRefs(Category(policies, HeritagePolicies));
    if x != "" && x in all {
      var i :| 0 <= i < |all| && all[i] == x;
      FilterKeepsWitness(all, IsNonEmpty, i);
      FilterMember(all, IsNonEmpty, x);
    }
  }

  /** Only the primary, secondary and heritage categories are read. */
  lemma PolicyRefsOnlyCategories(a: Policies, b: Policies)
    requires Category(a, PrimaryPolicies) == Category(b, PrimaryPolicies)
    requires Category(a, SecondaryPolicies) == Category(b, SecondaryPolicies)
    requires Category(a, HeritagePolicies) == Category(b, HeritagePolicies)
    ensures ExtractPolicyRefs(a) == ExtractPolicyRefs(b)
  {
  }

  /** A string risk becomes the record {"risk": text}; a record is kept. */
  function WrapRisk(r: RiskItem): (d: Doc)
    ensures r.RiskText? ==> d.Keys == {"risk"} && d["risk"] == r.text
  {
    match r
    case RiskText(s) => map["risk" := s]
    case RiskRecord(fields) => fields
  }

  function WrapRisks(risks: seq<RiskItem>): (r: seq<Doc>)
    ensures |r| == |risks|
    ensures forall i :: 0 <= i < |risks| ==> r[i] == WrapRisk(risks[i])
  {
    if risks == [] then [] else WrapRisks(risks[..|risks| - 1]) + [WrapRisk(risks[|risks| - 1])]
  }

  function CaseReference(p: Precedent): string
  {
    match p.caseReference
    case Some(ref) => ref
    case None => ""
  }

  /** The references of the first ten precedents, "" where a precedent has none. */
  function PrecedentsCited(precedents: seq<Precedent>): (r: seq<string>)
    ensures |r| == Min(|precedents|, 10)
    ensures forall i :: 0 <= i < |r| ==> r[i] == CaseReference(precedents[i])
  {
    var firstTen := Take(precedents, 10);
    seq(|firstTen|, i requires 0 <= i < |firstTen| => CaseReference(firstTen[i]))
  }

  /** The final output; the summary model call may fail. */
  method SynthesizeOutput(context: ReasoningContext, verification: Verification, summary: Result<string>, now: int)
    returns (r: Result<ReasoningOutput>)
    ensures r.Ok? <==> summary.Ok?
    ensures r.Ok? ==> r.value.summary == Strip(summary.value)
    ensures r.Ok? ==> r.value.confidence == Confidence(|context.precedents|,
      if RiskAssessment in context.confidenceScores then context.confidenceScores[RiskAssessment] else 0.5,
      context.conservationArea, verification.citations)
    ensures r.Ok? ==> r.value.recommendation == RecommendationFor(r.value.confidence).Text()
    ensures r.Ok? ==> r.value.arguments == context.arguments && r.value.risks == WrapRisks(context.riskFactors)
    ensures r.Ok? ==> r.value.precedentsCited == PrecedentsCited(context.precedents)
    ensures r.Ok? ==> r.value.policiesReferenced == ExtractPolicyRefs(context.relevantPolicies)
    ensures r.Ok? ==> r.value.reasoningTrace == context.reasoningTrace && r.value.verificationStatus == verification
    ensures r.Ok? ==> r.value.generatedAt == now
  {
    var riskScore := if RiskAssessment in context.confidenceScores then context.confidenceScores[RiskAssessment] else 0.5;
    var confidence := Confidence(|context.precedents|, riskScore, context.conservationArea, verification.citations);
    if summary.Err? {
      return Err(summary.msg);
    }
    var recommendation := RecommendationFor(confidence);
    r := Ok(ReasoningOutput(
      Strip(summary.value), recommendation.Text(), confidence, context.arguments,
      WrapRisks(context.riskFactors), PrecedentsCited(context.precedents),
      ExtractPolicyRefs(context.relevantPolicies), context.reasoningTrace, verification, now));
  }

  /**
   * The full chain. A run succeeds exactly when every reply does; its trace
   * then records the six steps in order, and the output draws its figures
   * from the replies.
   */
  method Reason(query: string, precedents: seq<Precedent>, siteAddress: Option<string>, ward: Option<string>,
                conservationArea: Option<string>, replies: Replies, now: int)
    returns (r: Result<ReasoningOutput>)
    ensures r.Ok? <==> Completed(replies) == |StepOrder| && replies.summary.Ok?
    ensures r.Ok? ==> TraceSteps(r.value.reasoningTrace) == StepOrder
    ensures r.Ok? ==> r.value.precedentsCited == PrecedentsCited(precedents)
    ensures r.Ok? ==> r.value.policiesReferenced == ExtractPolicyRefs(replies.policies.value)
    ensures r.Ok? ==> r.value.risks == WrapRisks(replies.risks.value.risks)
    ensures r.Ok? ==> r.value.arguments == replies.arguments.value
    ensures r.Ok? ==> r.value.confidence == Confidence(|precedents|, RiskScore(replies.risks.value),
                                                       conservationArea, replies.verification.value.citations)
    ensures r.Ok? ==> r.value.recommendation == RecommendationFor(r.value.confidence).Text()
    ensures r.Ok? ==> r.value.verificationStatus == replies.verification.value
  {
    var context := new ReasoningContext(query, siteAddress, ward, conservationArea, precedents);
    var v := RunSteps(context, replies);
    if v.Err? {
      return Err(v.msg);
    }
    assert StepOrder[..|StepOrder|] == StepOrder;
    r := SynthesizeOutput(context, v.value, replies.summary, now);
  }
}
