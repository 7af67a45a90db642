/**
 * The precedent analysis service: it builds a numbered context from the
 * best precedents, asks the language model for arguments, a risk
 * assessment and a summary, collects every policy reference into a sorted
 * list, and picks a recommendation from the assessed likelihood and the
 * number of strong precedents.
 *
 * The model's replies are parameters (decoded JSON, `Err` for a failed call
 * or undecodable reply); regular-expression matching is a `findall`
 * parameter.
 */
module AnalysisService {
  import opened Common
  import opened PyStr
  import opened Planning
  import opened StrOrder

  // ---------------------------------------------------------------------
  // Strong precedents and the recommendation

  /** A precedent is strong when its similarity exceeds 0.8. */
  predicate IsStrong(p: PrecedentMatch) { p.similarityScore > 0.8 }

  function StrongPrecedents(precedents: seq<PrecedentMatch>): seq<PrecedentMatch>
  {
    Filter(precedents, IsStrong)
  }

  /** The strong precedents are exactly those scoring above 0.8. */
  lemma StrongPrecedentsSpec(precedents: seq<PrecedentMatch>, p: PrecedentMatch)
    ensures p in StrongPrecedents(precedents) <==> p in precedents && p.similarityScore > 0.8
  {
    if p in precedents && IsStrong(p) {
      FilterMember(precedents, IsStrong, p);
    }
  }

  const High := "High"
  const Medium := "Medium"

  datatype Advice = ProceedConfidently | ProceedCautiously | ConsiderAmendments
  {
    function Text(): string
    {
      match this
      case ProceedConfidently => ConfidentText
      case ProceedCautiously => CautiousText
      case ConsiderAmendments => AmendmentsText
    }

    function Rank(): nat
    {
      match this
      case ConsiderAmendments => 0
      case ProceedCautiously => 1
      case ProceedConfidently => 2
    }
  }

  const ConfidentText := "Proceed with confidence. Strong precedent support exists for this type of development."
  const CautiousText := "Proceed with caution. Pre-application advice recommended to address identified risks."
  const AmendmentsText := "Consider design amendments or pre-application discussions before submitting a formal application."

  /**
   * Confidence needs a high likelihood and three strong precedents; caution
   * follows a medium likelihood or any strong precedent; otherwise amendments.
   */
  function DetermineRecommendation(likelihood: string, strongCount: int): (r: Advice)
    ensures r == ProceedConfidently <==> likelihood == High && strongCount >= 3
    ensures r == ProceedCautiously <==> !(likelihood == High && strongCount >= 3) && (likelihood == Medium || strongCount >= 1)
    ensures r == ConsiderAmendments <==> likelihood != Medium && strongCount < 1
  {
    if likelihood == High && strongCount >= 3 then ProceedConfidently
    else if likelihood == Medium || strongCount >= 1 then ProceedCautiously
    else ConsiderAmendments
  }

  /** A "High" likelihood without strong precedents gets the amendments advice, below a "Medium" one. */
  lemma HighWithoutStrongPrecedents()
    ensures DetermineRecommendation(High, 0) == ConsiderAmendments
    ensures DetermineRecommendation(Medium, 0) == ProceedCautiously
  {
  }

  /** More strong precedents never weaken the advice. */
  lemma RecommendationMonotone(likelihood: string, a: int, b: int)
    requires a <= b
    ensures DetermineRecommendation(likelihood, a).Rank() <= DetermineRecommendation(likelihood, b).Rank()
  {
  }

  // ---------------------------------------------------------------------
  // The precedent context

  const PrecedentHeader := "\nPRECEDENT "

  /** The number block `k` (from 0) carries. */
  function Label(k: nat): string { NatToString(k + 1) }

  /**
   * The block for the precedent numbered `i`; `details` renders the rest of
   * the block (reference, address, date, outcome, type, score, extract and
   * key policies).
   */
  function ContextPart(i: nat, p: PrecedentMatch, details: PrecedentMatch -> string): string
  {
    PrecedentHeader + NatToString(i) + ":" + details(p)
  }

  /** The blocks of the first ten precedents, numbered from 1. */
  function ContextParts(precedents: seq<PrecedentMatch>, details: PrecedentMatch -> string): (r: seq<string>)
    ensures |r| == Min(|precedents|, 10)
  {
    var firstTen := Take(precedents, 10);
    seq(|firstTen|, k requires 0 <= k < |firstTen| => ContextPart(k + 1, firstTen[k], details))
  }

  method BuildPrecedentContext(precedents: seq<PrecedentMatch>, details: PrecedentMatch -> string)
    returns (context: string)
    ensures context == Join(ContextParts(precedents, details), "\n")
  {
    var firstTen := Take(precedents, 10);
    var parts: seq<string> := [];
    var i := 0;
    while i < |firstTen|
      invariant 0 <= i <= |firstTen|
      invariant parts == seq(i, k requires 0 <= k < i => ContextPart(k + 1, firstTen[k], details))
    {
      parts := parts + [ContextPart(i + 1, firstTen[i], details)];
      i := i + 1;
    }
    context := Join(parts, "\n");
  }

  /** At most ten blocks, block k carries the number k + 1 and the k-th precedent, and the numbers differ. */
  lemma ContextNumbering(precedents: seq<PrecedentMatch>, details: PrecedentMatch -> string)
    ensures |ContextParts(precedents, details)| <= 10
    ensures forall k :: 0 <= k < |ContextParts(precedents, details)| ==>
      ContextParts(precedents, details)[k] == ContextPart(k + 1, precedents[k], details)
    ensures forall j, k :: 0 <= j < k < |ContextParts(precedents, details)| ==> Label(j) != Label(k)
  {
    forall j, k | 0 <= j < k < |ContextParts(precedents, details)|
      ensures Label(j) != Label(k)
    {
      NatToStringRoundTrip(j + 1);
      NatToStringRoundTrip(k + 1);
    }
  }

  // ---------------------------------------------------------------------
  // Arguments

  /** An argument section as the model returns it; absent fields are `None`. */
  datatype ArgumentReply = ArgumentReply(
    heading: Option<string>,
    content: Option<string>,
    supportingCases: Option<seq<string>>,
    policyReferences: Option<seq<string>>,
    officerQuotes: Option<seq<map<string, string>>>)

  datatype ArgumentSection = ArgumentSection(
    heading: string,
    content: string,
    supportingCases: seq<string>,
    policyReferences: seq<string>,
    officerQuotes: seq<map<string, string>>)

  /** A section from a reply: missing text fields become "", missing lists []. */
  function ToArgument(a: ArgumentReply): (s: ArgumentSection)
    ensures a.heading.Some? ==> s.heading == a.heading.value
    ensures a.heading.None? ==> s.heading == ""
    ensures a.content.Some? ==> s.content == a.content.value
    ensures a.content.None? ==> s.content == ""
    ensures a.policyReferences.Some? ==> s.policyReferences == a.policyReferences.value
    ensures a.policyReferences.None? ==> s.policyReferences == []
    ensures a.supportingCases.None? ==> s.supportingCases == []
    ensures a.officerQuotes.None? ==> s.officerQuotes == []
  {
    ArgumentSection(OrElse(a.heading, ""), OrElse(a.content, ""), OrElse(a.supportingCases, []),
                    OrElse(a.policyReferences, []), OrElse(a.officerQuotes, []))
  }

  /** One section per reply entry, in order. */
  method GenerateArguments(reply: Result<seq<ArgumentReply>>) returns (r: Result<seq<ArgumentSection>>)
    ensures r.Ok? <==> reply.Ok?
    ensures r.Ok? ==> |r.value| == |reply.value|
    ensures r.Ok? ==> forall k :: 0 <= k < |r.value| ==> r.value[k] == ToArgument(reply.value[k])
  {
    if reply.Err? {
      return Err(reply.msg);
    }
    var arguments: seq<ArgumentSection> := [];
    var i := 0;
    while i < |reply.value|
      invariant 0 <= i <= |reply.value|
      invariant |arguments| == i
      invariant forall k :: 0 <= k < i ==> arguments[k] == ToArgument(reply.value[k])
    {
      arguments := arguments + [ToArgument(reply.value[i])];
      i := i + 1;
    }
    return Ok(arguments);
  }

  // ---------------------------------------------------------------------
  // Risk statistics and assessment

  function SumScores(precedents: seq<PrecedentMatch>): real
  {
    if precedents == [] then 0.0
    else SumScores(precedents[..|precedents| - 1]) + precedents[|precedents| - 1].similarityScore
  }

  predicate IsGranted(p: PrecedentMatch) { p.decision.outcome == Granted }

  /** Comparing the outcome's value with "Granted" is comparing the outcome with Granted. */
  lemma GrantedByValue(o: Outcome)
    ensures o.Value() == "Granted" <==> o == Granted
  {
    OutcomeRoundTrip(o);
  }

  datatype PrecedentStats = PrecedentStats(avgSimilarity: real, grantedRatio: real)

  /** The mean similarity and the share granted; both 0 with no precedents. */
  function RiskStats(precedents: seq<PrecedentMatch>): (s: PrecedentStats)
    ensures precedents == [] ==> s == PrecedentStats(0.0, 0.0)
    ensures 0.0 <= s.grantedRatio <= 1.0
  {
    if precedents == [] then PrecedentStats(0.0, 0.0)
    else PrecedentStats(SumScores(precedents) / |precedents| as real,
                        CountWhere(precedents, IsGranted) as real / |precedents| as real)
  }

  predicate AllValidScores(precedents: seq<PrecedentMatch>)
  {
    forall k :: 0 <= k < |precedents| ==> ValidSimilarity(precedents[k].similarityScore)
  }

  lemma {:induction false} SumScoresBounds(precedents: seq<PrecedentMatch>)
    requires AllValidScores(precedents)
    ensures 0.0 <= SumScores(precedents) <= |precedents| as real
  {
    if precedents != [] {
      SumScoresBounds(precedents[..|precedents| - 1]);
    }
  }

  /** With scores in [0, 1], the mean similarity is in [0, 1] too. */
  lemma RiskStatsBounds(precedents: seq<PrecedentMatch>)
    requires AllValidScores(precedents)
    ensures 0.0 <= RiskStats(precedents).avgSimilarity <= 1.0
  {
    SumScoresBounds(precedents);
  }

  /** The model's risk reply; absent or non-numeric fields are `None`. */
  datatype RiskReply = RiskReply(
    approvalLikelihood: Option<string>,
    confidenceScore: Option<real>,
    keyRisks: Option<seq<string>>,
    mitigationSuggestions: Option<seq<string>>,
    similarRefusals: Option<seq<string>>)

  datatype RiskAssessment = RiskAssessment(
    approvalLikelihood: string,
    confidenceScore: real,
    keyRisks: seq<string>,
    mitigationSuggestions: seq<string>,
    similarRefusals: seq<string>)

  const ConfidenceOutOfRange := "confidence_score must be between 0 and 1"

  /**
   * The assessment, with "Medium", 0.5 and empty lists for missing fields;
   * the record refuses a confidence outside [0, 1].
   */
  function ToRiskAssessment(reply: RiskReply): (r: Result<RiskAssessment>)
    ensures r.Ok? <==> 0.0 <= OrElse(reply.confidenceScore, 0.5) <= 1.0
    ensures r.Ok? ==> 0.0 <= r.value.confidenceScore <= 1.0
    ensures r.Ok? ==> r.value.confidenceScore == OrElse(reply.confidenceScore, 0.5)
    ensures r.Ok? ==> r.value.approvalLikelihood == OrElse(reply.approvalLikelihood, Medium)
    ensures r.Ok? ==> r.value.keyRisks == OrElse(reply.keyRisks, [])
  {
    var confidence := OrElse(reply.confidenceScore, 0.5);
    if confidence < 0.0 || confidence > 1.0 then Err(ConfidenceOutOfRange)
    else Ok(RiskAssessment(OrElse(reply.approvalLikelihood, Medium), confidence,
                           OrElse(reply.keyRisks, []), OrElse(reply.mitigationSuggestions, []),
                           OrElse(reply.similarRefusals, [])))
  }

  /** An empty reply gives a valid medium-likelihood assessment at 0.5. */
  lemma EmptyRiskReply()
    ensures ToRiskAssessment(RiskReply(None, None, None, None, None))
      == Ok(RiskAssessment(Medium, 0.5, [], [], []))
  {
  }

  // ---------------------------------------------------------------------
  // Policy references

  /** The three context patterns, matched case-insensitively. */
  const PolicyPatterns: seq<string> := [@"Policy\s+[A-Z]\d+", @"NPPF\s+(?:paragraph\s+)?\d+", @"London\s+Plan\s+Policy\s+\w+"]

  /** `set(s)` */
  function Elements(s: seq<string>): (r: set<string>)
    ensures forall x :: x in r <==> x in s
  {
    set k | 0 <= k < |s| :: s[k]
  }

  function ArgumentPolicies(arguments: seq<ArgumentSection>): set<string>
  {
    if arguments == [] then {}
    else ArgumentPolicies(arguments[..|arguments| - 1]) + Elements(arguments[|arguments| - 1].policyReferences)
  }

  function ContextPolicies(patterns: seq<string>, context: string, findall: (string, string) -> seq<string>): set<string>
  {
    if patterns == [] then {}
    else ContextPolicies(patterns[..|patterns| - 1], context, findall) + Elements(findall(patterns[|patterns| - 1], context))
  }

  /** Every argument's references and every pattern hit in the context, once each, sorted. */
  method ExtractAllPolicies(arguments: seq<ArgumentSection>, context: string, findall: (string, string) -> seq<string>)
    returns (r: seq<string>)
    ensures r == Sorted(ArgumentPolicies(arguments) + ContextPolicies(PolicyPatterns, context, findall))
  {
    var policies: set<string> := {};
    var i := 0;
    while i < |arguments|
      invariant 0 <= i <= |arguments|
      invariant policies == ArgumentPolicies(arguments[..i])
    {
      assert arguments[..i + 1][..i] == arguments[..i];
      policies := policies + Elements(arguments[i].policyReferences);
      i := i + 1;
    }
    assert arguments[..i] == arguments;
    var j := 0;
    while j < |PolicyPatterns|
      invariant 0 <= j <= |PolicyPatterns|
      invariant policies == ArgumentPolicies(arguments) + ContextPolicies(PolicyPatterns[..j], context, findall)
    {
      assert PolicyPatterns[..j + 1][..j] == PolicyPatterns[..j];
      policies := policies + Elements(findall(PolicyPatterns[j], context));
      j := j + 1;
    }
    assert PolicyPatterns[..j] == PolicyPatterns;
    r := Sorted(policies);
  }

  lemma {:induction false} ArgumentPoliciesSpec(arguments: seq<ArgumentSection>, x: string)
    ensures x in ArgumentPolicies(arguments) <==> exists k :: 0 <= k < |arguments| && x in arguments[k].policyReferences
  {
    if arguments != [] {
      var init := arguments[..|arguments| - 1];
      ArgumentPoliciesSpec(init, x);
      if exists k :: 0 <= k < |init| && x in init[k].policyReferences {
        var k :| 0 <= k < |init| && x in init[k].policyReferences;
        assert arguments[k] == init[k];
      }
      if exists k :: 0 <= k < |arguments| && x in arguments[k].policyReferences {
        var k :| 0 <= k < |arguments| && x in arguments[k].policyReferences;
        if k < |init| {
          assert init[k] == arguments[k];
        }
      }
    }
  }

  lemma {:induction false} ContextPoliciesSpec(patterns: seq<string>, context: string,
                                               findall: (string, string) -> seq<string>, x: string)
    ensures x in ContextPolicies(patterns, context, findall) <==> exists p :: p in patterns && x in findall(p, context)
  {
    if patterns != [] {
      var init := patterns[..|patterns| - 1];
      ContextPoliciesSpec(init, context, findall, x);
      assert patterns == init + [patterns[|patterns| - 1]];
    }
  }

  /**
   * The list is ascending, hence free of repeats, and holds exactly the
   * references some argument gives and the hits of some pattern.
   */
  lemma ExtractAllPoliciesSpec(arguments: seq<ArgumentSection>, context: string,
                               findall: (string, string) -> seq<string>, x: string)
    ensures Ascending(Sorted(ArgumentPolicies(arguments) + ContextPolicies(PolicyPatterns, context, findall)))
    ensures x in Sorted(ArgumentPolicies(arguments) + ContextPolicies(PolicyPatterns, context, findall)) <==>
      (exists k :: 0 <= k < |arguments| && x in arguments[k].policyReferences)
      || (exists p :: p in PolicyPatterns && x in findall(p, context))
  {
    SortedAscending(ArgumentPolicies(arguments) + ContextPolicies(PolicyPatterns, context, findall));
    ArgumentPoliciesSpec(arguments, x);
    ContextPoliciesSpec(PolicyPatterns, context, findall, x);
  }

  // ---------------------------------------------------------------------
  // The analysis

  datatype AnalysisResponse = AnalysisResponse(
    summary: string,
    recommendation: string,
    arguments: seq<ArgumentSection>,
    riskAssessment: RiskAssessment,
    precedentsUsed: seq<PrecedentMatch>,
    policiesReferenced: seq<string>,
    generatedAt: int,
    modelVersion: string)

  /** The model's replies to the argument, risk and summary requests. */
  datatype Replies = Replies(
    arguments: Result<seq<ArgumentReply>>,
    risk: Result<RiskReply>,
    summary: Result<string>)

  /**
   * `analyse_precedents`: fails when a reply does or the risk confidence is
   * out of range; otherwise the advice follows the assessed likelihood and
   * the number of strong precedents, and the references are the sorted union.
   */
  method AnalysePrecedents(precedents: seq<PrecedentMatch>, replies: Replies,
                           details: PrecedentMatch -> string, findall: (string, string) -> seq<string>,
                           now: int, modelVersion: string)
    returns (r: Result<AnalysisResponse>)
    ensures r.Ok? <==> replies.arguments.Ok? && replies.risk.Ok? && ToRiskAssessment(replies.risk.value).Ok?
                       && replies.summary.Ok?
    ensures r.Ok? ==> r.value.riskAssessment == ToRiskAssessment(replies.risk.value).value
    ensures r.Ok? ==> (r.value.recommendation
      == DetermineRecommendation(r.value.riskAssessment.approvalLikelihood, |StrongPrecedents(precedents)|).Text())
    ensures r.Ok? ==> (r.value.policiesReferenced == Sorted(ArgumentPolicies(r.value.arguments)
      + ContextPolicies(PolicyPatterns, Join(ContextParts(precedents, details), "\n"), findall)))
    ensures r.Ok? ==> |r.value.arguments| == |replies.arguments.value|
    ensures r.Ok? ==> forall k :: 0 <= k < |r.value.arguments| ==> r.value.arguments[k] == ToArgument(replies.arguments.value[k])
    ensures r.Ok? ==> r.value.summary == Strip(replies.summary.value)
    ensures r.Ok? ==> r.value.precedentsUsed == precedents && r.value.generatedAt == now && r.value.modelVersion == modelVersion
  {
    var context := BuildPrecedentContext(precedents, details);
    var arguments := GenerateArguments(replies.arguments);
    if arguments.Err? {
      return Err(arguments.msg);
    }
    if replies.risk.Err? {
      return Err(replies.risk.msg);
    }
    var risk := ToRiskAssessment(replies.risk.value);
    if risk.Err? {
      return Err(risk.msg);
    }
    var policies := ExtractAllPolicies(arguments.value, context, findall);
    if replies.summary.Err? {
      return Err(replies.summary.msg);
    }
    var advice := DetermineRecommendation(risk.value.approvalLikelihood, |StrongPrecedents(precedents)|);
    r := Ok(AnalysisResponse(Strip(replies.summary.value), advice.Text(), arguments.value, risk.value,
                             precedents, policies, now, modelVersion));
  }
}
