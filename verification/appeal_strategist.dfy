/**
 * The appeal strategist's rules: which grounds an appeal rests on, which
 * procedure to recommend, the estimated chance of success, the risks and
 * recommendations listed, which similar approvals count as inconsistent
 * decisions, and the appeal timetable.
 *
 * The model's analyses of the refusal reasons and its verdicts on each
 * similar approval are inputs; so is the similarity search.
 */
module AppealStrategist {
  import opened Common
  import opened PyStr
  import opened Planning
  import opened StableSort
  import AnalysisApi

  // ---------------------------------------------------------------------
  // Types

  datatype AppealType = WrittenRepresentations | InformalHearing | PublicInquiry
  {
    function Value(): string
    {
      match this
      case WrittenRepresentations => "written_representations"
      case InformalHearing => "informal_hearing"
      case PublicInquiry => "public_inquiry"
    }
  }

  datatype AppealGround =
    | PolicyCompliance | InconsistentDecisions | MaterialConsiderations
    | InsufficientReasons | ProceduralError | ChangedCircumstances

  /** The analysis of one refusal reason; the assessment is the model's word, "strong", "moderate" or "weak". */
  datatype RefusalReasonAnalysis = RefusalReasonAnalysis(
    reasonNumber: int,
    originalText: string,
    policiesCited: seq<string>,
    keyIssues: seq<string>,
    weaknessAssessment: string,
    counterArguments: seq<string>,
    recommendedApproach: string)

  datatype InconsistencyFinding = InconsistencyFinding(
    approvedCaseRef: string,
    approvedCaseAddress: string,
    similarityScore: real,
    keySimilarities: seq<string>,
    approvalReasoning: string,
    inconsistencyArgument: string,
    strength: string)

  /** `APPEAL_COSTS`: the cost range in pounds. */
  function Costs(t: AppealType): (int, int)
  {
    match t
    case WrittenRepresentations => (500, 2000)
    case InformalHearing => (2000, 5000)
    case PublicInquiry => (10000, 50000)
  }

  /** `APPEAL_TIMELINES`: weeks from submission to decision. */
  function Weeks(t: AppealType): int
  {
    match t
    case WrittenRepresentations => 16
    case InformalHearing => 24
    case PublicInquiry => 40
  }

  predicate WeakReason(r: RefusalReasonAnalysis) { r.weaknessAssessment == "weak" }

  predicate StrongReason(r: RefusalReasonAnalysis) { r.weaknessAssessment == "strong" }

  /** No policy cited, or an approach that calls the reasons insufficient. */
  predicate VagueReason(r: RefusalReasonAnalysis)
  {
    |r.policiesCited| == 0 || Contains(Lower(r.recommendedApproach), "insufficient")
  }

  predicate MaterialReason(r: RefusalReasonAnalysis) { Contains(Lower(r.recommendedApproach), "material") }

  predicate AnyWeak(analysis: seq<RefusalReasonAnalysis>) { exists r :: r in analysis && WeakReason(r) }

  predicate AnyStrong(analysis: seq<RefusalReasonAnalysis>) { exists r :: r in analysis && StrongReason(r) }

  predicate AnyVague(analysis: seq<RefusalReasonAnalysis>) { exists r :: r in analysis && VagueReason(r) }

  predicate AnyMaterial(analysis: seq<RefusalReasonAnalysis>) { exists r :: r in analysis && MaterialReason(r) }

  predicate StrongFinding(f: InconsistencyFinding) { f.strength == "strong" }

  predicate ModerateFinding(f: InconsistencyFinding) { f.strength == "moderate" }

  predicate AnyStrongFinding(findings: seq<InconsistencyFinding>) { exists f :: f in findings && StrongFinding(f) }

  predicate NoRepeats<T(==)>(s: seq<T>) { forall i, j :: 0 <= i < j < |s| ==> s[i] != s[j] }

  // ---------------------------------------------------------------------
  // Grounds and appeal type

  /**
   * `_determine_grounds`. Policy compliance is primary when some reason is
   * weak, and also when nothing else applies; inconsistent decisions are
   * primary when some finding is strong, else secondary when there is any
   * finding; insufficient reasons and material considerations are
   * secondary when some reason calls for them.
   */
  method DetermineGrounds(analysis: seq<RefusalReasonAnalysis>, findings: seq<InconsistencyFinding>)
    returns (primary: seq<AppealGround>, secondary: seq<AppealGround>)
    ensures var weak := AnyWeak(analysis);
      var vague := AnyVague(analysis);
      var material := AnyMaterial(analysis);
      && (PolicyCompliance in primary <==> weak || (findings == [] && !vague && !material))
      && (InconsistentDecisions in primary <==> AnyStrongFinding(findings))
      && (InconsistentDecisions in secondary <==> findings != [] && !AnyStrongFinding(findings))
      && (InsufficientReasons in secondary <==> vague)
      && (MaterialConsiderations in secondary <==> material)
    ensures forall g :: g in primary ==> g == PolicyCompliance || g == InconsistentDecisions
    ensures forall g :: g in secondary ==> g != PolicyCompliance && g != ProceduralError && g != ChangedCircumstances
    ensures NoRepeats(primary) && NoRepeats(secondary)
    ensures forall g :: g in primary ==> g !in secondary
    ensures 1 <= |primary| + |secondary| && |primary| <= 2
  {
    primary := [];
    secondary := [];
    if AnyWeak(analysis) {
      primary := primary + [PolicyCompliance];
    }
    if AnyStrongFinding(findings) {
      primary := primary + [InconsistentDecisions];
    } else if findings != [] {
      secondary := secondary + [InconsistentDecisions];
    }
    if AnyVague(analysis) {
      secondary := secondary + [InsufficientReasons];
    }
    if AnyMaterial(analysis) {
      secondary := secondary + [MaterialConsiderations];
    }
    if primary == [] && secondary == [] {
      primary := primary + [PolicyCompliance];
    }
  }

  /** The reasons given for each recommendation. */
  const WhyFewReasons := "Written representations recommended - straightforward issues that can be addressed in writing"
  const WhyStrongFindings := "Written representations with strong inconsistency evidence - inspector can assess without hearing"
  const WhyComplex := "Informal hearing recommended - complex issues benefit from discussion"
  const WhyCheapest := "Written representations is the most cost-effective approach for this appeal"

  /**
   * `_recommend_appeal_type`: written representations for at most two
   * reasons with a weak one, or for two strong findings; an informal
   * hearing for more than three grounds or a strong reason; written
   * representations otherwise. A public inquiry is never recommended.
   */
  function RecommendAppealType(analysis: seq<RefusalReasonAnalysis>, findings: seq<InconsistencyFinding>,
                               grounds: seq<AppealGround>): (r: (AppealType, string))
    ensures r.0 != PublicInquiry
    ensures r.0 == InformalHearing <==>
              !(|analysis| <= 2 && CountWhere(analysis, WeakReason) >= 1)
              && CountWhere(findings, StrongFinding) < 2
              && (|grounds| > 3 || AnyStrong(analysis))
  {
    if |analysis| <= 2 && CountWhere(analysis, WeakReason) >= 1 then
      (WrittenRepresentations, WhyFewReasons)
    else if CountWhere(findings, StrongFinding) >= 2 then
      (WrittenRepresentations, WhyStrongFindings)
    else if |grounds| > 3 || AnyStrong(analysis) then
      (InformalHearing, WhyComplex)
    else
      (WrittenRepresentations, WhyCheapest)
  }

  /**
   * Called with the primary grounds (at most two), the ground count never
   * decides: a hearing is recommended only because some reason is strong.
   */
  lemma HearingNeedsStrongReason(analysis: seq<RefusalReasonAnalysis>, findings: seq<InconsistencyFinding>,
                                 grounds: seq<AppealGround>)
    requires |grounds| <= 2
    ensures RecommendAppealType(analysis, findings, grounds).0 == InformalHearing
            ==> AnyStrong(analysis)
    ensures RecommendAppealType(analysis, findings, grounds) == RecommendAppealType(analysis, findings, [])
  {
  }

  // ---------------------------------------------------------------------
  // Success rate

  /**
   * `_estimate_success_rate`: 0.35, plus 0.10 per weak reason, minus 0.10
   * per strong reason, plus 0.12 per strong and 0.05 per moderate finding,
   * clamped to [0.15, 0.80].
   */
  function EstimateSuccessRate(analysis: seq<RefusalReasonAnalysis>, findings: seq<InconsistencyFinding>): (rate: real)
    ensures 0.15 <= rate <= 0.80
  {
    var raw := 0.35 + (CountWhere(analysis, WeakReason) as real) * 0.1
                    - (CountWhere(analysis, StrongReason) as real) * 0.1
                    + (CountWhere(findings, StrongFinding) as real) * 0.12
                    + (CountWhere(findings, ModerateFinding) as real) * 0.05;
    ClampReal(raw, 0.15, 0.80)
  }

  /** With nothing to go on, the estimate is the 35% base rate. */
  lemma SuccessRateBase()
    ensures EstimateSuccessRate([], []) == 0.35
  {
  }

  /** Another weak reason never lowers the estimate, another strong one never raises it. */
  lemma SuccessRateMonotone(analysis: seq<RefusalReasonAnalysis>, findings: seq<InconsistencyFinding>,
                            r: RefusalReasonAnalysis)
    ensures WeakReason(r) ==> EstimateSuccessRate(analysis + [r], findings) >= EstimateSuccessRate(analysis, findings)
    ensures StrongReason(r) ==> EstimateSuccessRate(analysis + [r], findings) <= EstimateSuccessRate(analysis, findings)
  {
    assert (analysis + [r])[..|analysis + [r]| - 1] == analysis;
  }

  /** A strong finding never lowers the estimate. */
  lemma SuccessRateFindingMonotone(analysis: seq<RefusalReasonAnalysis>, findings: seq<InconsistencyFinding>,
                                   f: InconsistencyFinding)
    requires StrongFinding(f)
    ensures EstimateSuccessRate(analysis, findings + [f]) >= EstimateSuccessRate(analysis, findings)
  {
    assert (findings + [f])[..|findings + [f]| - 1] == findings;
  }

  // ---------------------------------------------------------------------
  // Risks and recommendations

  /** Some reason's text mentions `word`, in any case. */
  predicate AnyMentions(analysis: seq<RefusalReasonAnalysis>, word: string)
  {
    exists r :: r in analysis && Contains(Lower(r.originalText), word)
  }

  /** The risks the strategist can name; `Text` is the sentence shown. */
  datatype Risk = StrongReasons(count: nat) | NoPrecedent | Heritage | Neighbour | Unrecoverable | AwardAgainst
  {
    function Text(): string
    {
      match this
      case StrongReasons(n) => NatToString(n) + " refusal reason(s) are strong and may be difficult to overcome"
      case NoPrecedent => "No clear precedent inconsistencies found - appeal relies on policy arguments alone"
      case Heritage => "Heritage/conservation issues are given significant weight by inspectors"
      case Neighbour => "Neighbour amenity concerns must be carefully addressed"
      case Unrecoverable => "Appeal costs are not recoverable even if successful"
      case AwardAgainst => "If unsuccessful, costs of any subsequent appeal may be awarded against appellant"
    }
  }

  /**
   * `_identify_risks`: the count of strong reasons when there are any, the
   * missing-precedent risk exactly when there are no findings, the heritage
   * and neighbour risks when a reason mentions them, and always the two
   * cost risks last.
   */
  function IdentifyRisks(analysis: seq<RefusalReasonAnalysis>, findings: seq<InconsistencyFinding>): (risks: seq<Risk>)
    ensures |risks| == 2 + (if CountWhere(analysis, StrongReason) > 0 then 1 else 0) + (if findings == [] then 1 else 0)
                    + (if AnyMentions(analysis, "heritage") then 1 else 0) + (if AnyMentions(analysis, "neighbour") then 1 else 0)
    ensures risks[|risks| - 2..] == [Unrecoverable, AwardAgainst]
    ensures CountWhere(analysis, StrongReason) > 0 <==> risks[0] == StrongReasons(CountWhere(analysis, StrongReason))
  {
    var strong := CountWhere(analysis, StrongReason);
    (if strong > 0 then [StrongReasons(strong)] else [])
    + (if findings == [] then [NoPrecedent] else [])
    + (if AnyMentions(analysis, "heritage") then [Heritage] else [])
    + (if AnyMentions(analysis, "neighbour") then [Neighbour] else [])
    + [Unrecoverable, AwardAgainst]
  }

  /** Only the first risk can be the count risk. */
  lemma RisksCounted(analysis: seq<RefusalReasonAnalysis>, findings: seq<InconsistencyFinding>)
    ensures var risks := IdentifyRisks(analysis, findings);
      forall i :: 1 <= i < |risks| ==> !risks[i].StrongReasons?
  {
    var risks := IdentifyRisks(analysis, findings);
    var strong := CountWhere(analysis, StrongReason);
    var head := if strong > 0 then [StrongReasons(strong)] else [];
    var rest := (if findings == [] then [NoPrecedent] else [])
      + (if AnyMentions(analysis, "heritage") then [Heritage] else [])
      + (if AnyMentions(analysis, "neighbour") then [Neighbour] else [])
      + [Unrecoverable, AwardAgainst];
    assert risks == head + rest;
    assert forall r :: r in rest ==> !r.StrongReasons?;
  }

  /** The missing-precedent risk is listed exactly when there are no findings. */
  lemma RisksUnprecedented(analysis: seq<RefusalReasonAnalysis>, findings: seq<InconsistencyFinding>)
    ensures NoPrecedent in IdentifyRisks(analysis, findings) <==> findings == []
  {
  }

  /** The heritage and neighbour risks are listed exactly when some reason mentions them. */
  lemma RisksMentioned(analysis: seq<RefusalReasonAnalysis>, findings: seq<InconsistencyFinding>)
    ensures var risks := IdentifyRisks(analysis, findings);
      && (Heritage in risks <==> AnyMentions(analysis, "heritage"))
      && (Neighbour in risks <==> AnyMentions(analysis, "neighbour"))
  {
  }

  /** The procedure's name: its value with underscores as spaces. */
  function Procedure(t: AppealType): string { Replace(t.Value(), "_", " ") }

  function UseProcedure(t: AppealType): string { "Use " + Procedure(t) + " procedure as recommended" }

  const Proceed := "Appeal has reasonable prospects - proceed if development is important"
  const Discuss := "Consider pre-appeal discussions with LPA to resolve issues"
  const Amend := "Design amendments may strengthen appeal case"
  const Redesign := "Significant redesign may be more effective than appeal"
  const SeekAdvice := "Seek professional planning advice before proceeding"
  const Deadline := "Submit appeal within 6 months of decision date"
  const Consultant := "Engage planning consultant experienced in Camden appeals"

  /** The opening lines for an estimated success rate. */
  function Opening(successRate: real): seq<string>
  {
    if successRate >= 0.6 then [Proceed] else if successRate >= 0.4 then [Discuss, Amend] else [Redesign, SeekAdvice]
  }

  /**
   * `_generate_recommendations`: one line from 0.6 up, two lines from 0.4
   * up, two other lines below; then the procedure, the six-month deadline
   * and the consultant, always last.
   */
  method GenerateRecommendations(appealType: AppealType, successRate: real, risks: seq<Risk>) returns (recs: seq<string>)
    ensures |recs| == (if successRate >= 0.6 then 4 else 5)
    ensures recs[|recs| - 3..] == [UseProcedure(appealType), Deadline, Consultant]
    ensures successRate >= 0.6 ==> recs[0] == Proceed
    ensures 0.4 <= successRate < 0.6 ==> recs[..2] == [Discuss, Amend]
    ensures successRate < 0.4 ==> recs[..2] == [Redesign, SeekAdvice]
  {
    var opening := Opening(successRate);
    recs := opening + [UseProcedure(appealType), Deadline, Consultant];
    assert recs[..|opening|] == opening;
  }

  // ---------------------------------------------------------------------
  // Evidence

  const Documents := "Original application documents"
  const Notice := "Decision notice with refusal reasons"
  const Photographs := "Site photographs"
  const Policies := "Copy of relevant policies cited"
  const ComparableNotices := "Decision notices for comparable approved cases"
  const Similarities := "Analysis of similarities between cases"
  const DesignStatement := "Design and Access Statement"
  const HeritageAssessment := "Heritage Impact Assessment"
  const DaylightAssessment := "Daylight/Sunlight assessment if applicable"
  const MaterialSamples := "Material samples or specifications"

  const BaseEvidence := {Documents, Notice, Photographs, Policies}

  const ComparisonEvidence := {ComparableNotices, Similarities}

  /** The evidence one key issue calls for, by the words it contains. */
  function IssueEvidence(issue: string): set<string>
  {
    var l := Lower(issue);
    (if Contains(l, "design") then {DesignStatement} else {})
    + (if Contains(l, "heritage") || Contains(l, "conservation") then {HeritageAssessment} else {})
    + (if Contains(l, "neighbour") || Contains(l, "amenity") then {DaylightAssessment} else {})
    + (if Contains(l, "material") then {MaterialSamples} else {})
  }

  function IssuesEvidence(issues: seq<string>): set<string>
  {
    if issues == [] then {} else IssuesEvidence(issues[..|issues| - 1]) + IssueEvidence(issues[|issues| - 1])
  }

  function AnalysisEvidence(analysis: seq<RefusalReasonAnalysis>): set<string>
  {
    if analysis == [] then {}
    else AnalysisEvidence(analysis[..|analysis| - 1]) + IssuesEvidence(analysis[|analysis| - 1].keyIssues)
  }

  /**
   * `_identify_evidence_needs`: the four base items, the two comparison
   * items when inconsistent decisions is a ground, and what each key issue
   * calls for, without repeats.
   */
  method IdentifyEvidenceNeeds(analysis: seq<RefusalReasonAnalysis>, grounds: seq<AppealGround>) returns (evidence: set<string>)
    ensures evidence == BaseEvidence + (if InconsistentDecisions in grounds then ComparisonEvidence else {})
                        + AnalysisEvidence(analysis)
  {
    evidence := BaseEvidence;
    if InconsistentDecisions in grounds {
      evidence := evidence + ComparisonEvidence;
    }
    var base := evidence;
    var i := 0;
    while i < |analysis|
      invariant 0 <= i <= |analysis|
      invariant evidence == base + AnalysisEvidence(analysis[..i])
    {
      assert analysis[..i + 1][..i] == analysis[..i];
      evidence := AddIssueEvidence(evidence, analysis[i].keyIssues);
      i := i + 1;
    }
    assert analysis[..i] == analysis;
  }

  /** The loop over one reason's key issues. */
  method AddIssueEvidence(items: set<string>, issues: seq<string>) returns (r: set<string>)
    ensures r == items + IssuesEvidence(issues)
  {
    r := items;
    var j := 0;
    while j < |issues|
      invariant 0 <= j <= |issues|
      invariant r == items + IssuesEvidence(issues[..j])
    {
      assert issues[..j + 1][..j] == issues[..j];
      r := r + IssueEvidence(issues[j]);
      j := j + 1;
    }
    assert issues[..j] == issues;
  }

  /** A key issue that mentions design, in any case, brings the design and access statement. */
  lemma {:induction false} EvidenceFromIssues(analysis: seq<RefusalReasonAnalysis>, k: nat, issue: string)
    requires k < |analysis| && issue in analysis[k].keyIssues && Contains(Lower(issue), "design")
    ensures DesignStatement in AnalysisEvidence(analysis)
  {
    if k < |analysis| - 1 {
      EvidenceFromIssues(analysis[..|analysis| - 1], k, issue);
    } else {
      IssueInIssuesEvidence(analysis[k].keyIssues, issue);
    }
  }

  lemma {:induction false} IssueInIssuesEvidence(issues: seq<string>, issue: string)
    requires issue in issues
    ensures IssueEvidence(issue) <= IssuesEvidence(issues)
  {
    if issues[|issues| - 1] != issue {
      assert issue in issues[..|issues| - 1];
      IssueInIssuesEvidence(issues[..|issues| - 1], issue);
    }
  }

  // ---------------------------------------------------------------------
  // Inconsistent decisions

  /** The search for similar approvals: the ward's granted cases, ten at 0.65. */
  function InconsistencySearch(ward: string): (c: AnalysisApi.SearchCall)
    ensures c.filters == NoFilters.(wards := Some([ward]), outcome := Some(Granted))
    ensures c.limit == 10 && c.threshold == 0.65 && !c.includeRefused
  {
    AnalysisApi.SearchCall(NoFilters.(wards := Some([ward]), outcome := Some(Granted)), 10, 0.65, false)
  }

  /** The text the search embeds: the proposal and the first two refusal reasons. */
  function InconsistencyQuery(proposal: string, reasons: seq<string>): string
  {
    proposal + " " + JoinSpace(reasons[..Min(|reasons|, 2)])
  }

  /** The model's verdict on one approved case. */
  datatype Verdict = Verdict(keySimilarities: seq<string>, approvalReasoning: string, argument: string,
                             strength: Option<string>)

  /** A verdict that is kept: the call succeeded and rated the case strong or moderate. */
  predicate Kept(v: Result<Verdict>)
  {
    v.Ok? && (v.value.strength == Some("strong") || v.value.strength == Some("moderate"))
  }

  function FindingOf(m: PrecedentMatch, v: Verdict): InconsistencyFinding
    requires v.strength.Some?
  {
    InconsistencyFinding(m.decision.caseReference, m.decision.address, m.similarityScore, v.keySimilarities,
                         v.approvalReasoning, v.argument, v.strength.value)
  }

  /** The findings in search order: cases at 0.7 or above whose verdict is kept. */
  function Candidates(cases: seq<PrecedentMatch>, judge: PrecedentMatch -> Result<Verdict>): seq<InconsistencyFinding>
  {
    if cases == [] then []
    else
      var m := cases[|cases| - 1];
      Candidates(cases[..|cases| - 1], judge)
      + (if m.similarityScore >= 0.7 && Kept(judge(m)) then [FindingOf(m, judge(m).value)] else [])
  }

  /** `strength_order`: strong first, then moderate, anything else last. */
  function Rank(f: InconsistencyFinding): real
  {
    if f.strength == "strong" then 0.0 else if f.strength == "moderate" then 1.0 else 2.0
  }

  /** `findings.sort(key=...)` then `findings[:5]`. */
  function TopFindings(fs: seq<InconsistencyFinding>): seq<InconsistencyFinding>
  {
    var sorted := SortBy(fs, Rank);
    sorted[..Min(|sorted|, 5)]
  }

  /**
   * `_find_inconsistencies` after the search: each case below 0.7 is
   * skipped, each other case is judged and kept when rated strong or
   * moderate, then the findings are sorted by strength and cut to five.
   */
  method FindInconsistencies(cases: seq<PrecedentMatch>, judge: PrecedentMatch -> Result<Verdict>)
    returns (r: seq<InconsistencyFinding>)
    ensures r == TopFindings(Candidates(cases, judge))
  {
    var findings: seq<InconsistencyFinding> := [];
    var i := 0;
    while i < |cases|
      invariant 0 <= i <= |cases|
      invariant findings == Candidates(cases[..i], judge)
    {
      var m := cases[i];
      assert cases[..i + 1][..i] == cases[..i];
      if m.similarityScore >= 0.7 {
        var v := judge(m);
        if Kept(v) {
          findings := findings + [FindingOf(m, v.value)];
        }
      }
      i := i + 1;
    }
    assert cases[..i] == cases;
    findings := SortBy(findings, Rank);
    r := findings[..Min(|findings|, 5)];
  }

  lemma {:induction false} CandidatesShape(cases: seq<PrecedentMatch>, judge: PrecedentMatch -> Result<Verdict>)
    ensures forall f :: f in Candidates(cases, judge) ==>
              f.similarityScore >= 0.7 && (f.strength == "strong" || f.strength == "moderate")
              && exists m :: m in cases && m.decision.caseReference == f.approvedCaseRef
  {
    if cases != [] {
      CandidatesShape(cases[..|cases| - 1], judge);
      forall f | f in Candidates(cases, judge)
        ensures exists m :: m in cases && m.decision.caseReference == f.approvedCaseRef
      {
        if f !in Candidates(cases[..|cases| - 1], judge) {
          assert cases[|cases| - 1] in cases;
        } else {
          var m :| m in cases[..|cases| - 1] && m.decision.caseReference == f.approvedCaseRef;
          assert m in cases;
        }
      }
    }
  }

  /**
   * At most five findings, each from a case at 0.7 or above rated strong or
   * moderate, every strong one ahead of every moderate one, and the strong
   * ones in search order.
   */
  lemma TopFindingsSpec(cases: seq<PrecedentMatch>, judge: PrecedentMatch -> Result<Verdict>)
    ensures var r := TopFindings(Candidates(cases, judge));
      && |r| <= 5
      && (forall f :: f in r ==> f.similarityScore >= 0.7 && (f.strength == "strong" || f.strength == "moderate"))
      && (forall i, j :: 0 <= i < j < |r| && r[j].strength == "strong" ==> r[i].strength == "strong")
      && Filter(SortBy(Candidates(cases, judge), Rank), KeyIs(Rank, 0.0)) == Filter(Candidates(cases, judge), KeyIs(Rank, 0.0))
  {
    var c := Candidates(cases, judge);
    var s := SortBy(c, Rank);
    var r := TopFindings(c);
    assert forall f :: f in r ==> f.similarityScore >= 0.7 && (f.strength == "strong" || f.strength == "moderate") by {
      CandidatesShape(cases, judge);
      SortByMembers(c, Rank);
    }
    assert forall i, j :: 0 <= i < j < |r| && r[j].strength == "strong" ==> r[i].strength == "strong" by {
      SortBySorted(c, Rank);
    }
    SortByStable(c, Rank, 0.0);
  }

  // ---------------------------------------------------------------------
  // Key arguments

  /** One entry of `key_arguments`: a counter to a refusal reason, or a decision it is inconsistent with. */
  datatype KeyArgument =
    | CounterToRefusal(refusalReason: int, argument: string, supportingPolicies: seq<string>)
    | Inconsistency(approvedCase: string, argument: string, strength: string)

  /** The arguments one analysed reason contributes: its first two counter-arguments. */
  function CountersOf(r: RefusalReasonAnalysis): seq<KeyArgument>
  {
    seq(Min(|r.counterArguments|, 2), k requires 0 <= k < Min(|r.counterArguments|, 2) =>
      CounterToRefusal(r.reasonNumber, r.counterArguments[k], r.policiesCited))
  }

  function CounterArguments(analysis: seq<RefusalReasonAnalysis>): seq<KeyArgument>
  {
    if analysis == [] then [] else CounterArguments(analysis[..|analysis| - 1]) + CountersOf(analysis[|analysis| - 1])
  }

  /** The arguments from the first three findings. */
  function FindingArguments(findings: seq<InconsistencyFinding>): seq<KeyArgument>
  {
    seq(Min(|findings|, 3), k requires 0 <= k < Min(|findings|, 3) =>
      Inconsistency(findings[k].approvedCaseRef, findings[k].inconsistencyArgument, findings[k].strength))
  }

  function KeyArguments(analysis: seq<RefusalReasonAnalysis>, findings: seq<InconsistencyFinding>): seq<KeyArgument>
  {
    CounterArguments(analysis) + FindingArguments(findings)
  }

  /** `_generate_key_arguments`: the counters reason by reason, then the findings. */
  method GenerateKeyArguments(analysis: seq<RefusalReasonAnalysis>, findings: seq<InconsistencyFinding>)
    returns (args: seq<KeyArgument>)
    ensures args == KeyArguments(analysis, findings)
  {
    args := [];
    var i := 0;
    while i < |analysis|
      invariant 0 <= i <= |analysis|
      invariant args == CounterArguments(analysis[..i])
    {
      var r := analysis[i];
      var counters := r.counterArguments[..Min(|r.counterArguments|, 2)];
      var j := 0;
      while j < |counters|
        invariant 0 <= j <= |counters|
        invariant args == CounterArguments(analysis[..i]) + CountersOf(r)[..j]
      {
        args := args + [CounterToRefusal(r.reasonNumber, counters[j], r.policiesCited)];
        j := j + 1;
      }
      assert CountersOf(r)[..j] == CountersOf(r);
      assert analysis[..i + 1][..i] == analysis[..i];
      i := i + 1;
    }
    assert analysis[..i] == analysis;
    var top := findings[..Min(|findings|, 3)];
    var k := 0;
    while k < |top|
      invariant 0 <= k <= |top|
      invariant args == CounterArguments(analysis) + FindingArguments(findings)[..k]
    {
      args := args + [Inconsistency(top[k].approvedCaseRef, top[k].inconsistencyArgument, top[k].strength)];
      k := k + 1;
    }
    assert FindingArguments(findings)[..k] == FindingArguments(findings);
  }

  /** `a` counters reason `r` with one of its first two counter-arguments and cites its policies. */
  predicate CounterOf(a: KeyArgument, r: RefusalReasonAnalysis)
  {
    && a.CounterToRefusal?
    && a.refusalReason == r.reasonNumber
    && a.argument in r.counterArguments[..Min(|r.counterArguments|, 2)]
    && a.supportingPolicies == r.policiesCited
  }

  /**
   * Each counter argument comes from an analysed reason, is among that
   * reason's first two counter-arguments and cites that reason's
   * policies; a reason gives at most two.
   */
  lemma {:induction false} CounterArgumentsFrom(analysis: seq<RefusalReasonAnalysis>)
    ensures |CounterArguments(analysis)| <= 2 * |analysis|
    ensures forall a :: a in CounterArguments(analysis) ==> exists r :: r in analysis && CounterOf(a, r)
  {
    if analysis != [] {
      var front := analysis[..|analysis| - 1];
      var r := analysis[|analysis| - 1];
      CounterArgumentsFrom(front);
      forall a | a in CounterArguments(analysis)
        ensures exists r :: r in analysis && CounterOf(a, r)
      {
        if a in CountersOf(r) {
          var k :| 0 <= k < |CountersOf(r)| && CountersOf(r)[k] == a;
          assert r.counterArguments[..Min(|r.counterArguments|, 2)][k] == a.argument;
          assert r in analysis;
        } else {
          var q :| q in front && CounterOf(a, q);
          assert q in analysis;
        }
      }
    }
  }

  /**
   * The counters come first and the findings after them: exactly the first
   * three findings, in order.
   */
  lemma KeyArgumentsSpec(analysis: seq<RefusalReasonAnalysis>, findings: seq<InconsistencyFinding>)
    ensures var args := KeyArguments(analysis, findings);
            var n := |CounterArguments(analysis)|;
      && |args| == n + Min(|findings|, 3) && n <= 2 * |analysis|
      && (forall i :: 0 <= i < n ==> args[i].CounterToRefusal?)
      && (forall k :: 0 <= k < Min(|findings|, 3) ==>
            args[n + k] == Inconsistency(findings[k].approvedCaseRef, findings[k].inconsistencyArgument, findings[k].strength))
  {
    CounterArgumentsFrom(analysis);
    var c := CounterArguments(analysis);
    forall i | 0 <= i < |c| ensures KeyArguments(analysis, findings)[i].CounterToRefusal? {
      assert c[i] in c;
      var r :| r in analysis && CounterOf(c[i], r);
    }
  }

  // ---------------------------------------------------------------------
  // Timetable (dates are day numbers)

  datatype Milestone = Milestone(name: string, date: int, complete: bool)

  datatype AppealTimeline = AppealTimeline(
    appealDeadline: int,
    submissionTarget: int,
    milestones: seq<Milestone>,
    criticalDates: seq<(string, int)>,
    checklist: seq<(string, bool)>)

  /**
   * `calculate_appeal_timeline`: the deadline 180 days after the decision,
   * submission four weeks before it, nine milestones from the decision to
   * the expected decision, and a nine-item checklist.
   */
  function CalculateAppealTimeline(decisionDate: int, appealType: AppealType): (t: AppealTimeline)
    ensures t.appealDeadline == decisionDate + 180
    ensures t.submissionTarget == t.appealDeadline - 28
    ensures |t.milestones| == 9
    ensures forall i, j :: 0 <= i < j < 9 ==> t.milestones[i].date < t.milestones[j].date
    ensures t.milestones[0] == Milestone("Decision received", decisionDate, true)
    ensures forall i :: 1 <= i < 9 ==> !t.milestones[i].complete
    ensures t.milestones[5].date == t.submissionTarget < t.appealDeadline
    ensures t.milestones[8].date == t.submissionTarget + 7 * Weeks(appealType)
    ensures t.criticalDates == [("Appeal deadline", t.appealDeadline), ("Recommended submission", t.submissionTarget)]
    ensures |t.checklist| == 9 && forall i :: 0 <= i < 9 ==> !t.checklist[i].1
  {
    var deadline := decisionDate + 180;
    var submission := deadline - 4 * 7;
    var milestones := [
      Milestone("Decision received", decisionDate, true),
      Milestone("Initial assessment", decisionDate + 7, false),
      Milestone("Evidence gathering", decisionDate + 30, false),
      Milestone("Statement drafting", decisionDate + 60, false),
      Milestone("Review and finalise", submission - 2 * 7, false),
      Milestone("Appeal submission", submission, false),
      Milestone("PINS acknowledgement", submission + 2 * 7, false),
      Milestone("LPA response deadline", submission + 6 * 7, false),
      Milestone("Expected decision", submission + Weeks(appealType) * 7, false)];
    var checklist := [
      ("Review decision notice", false), ("Gather application documents", false),
      ("Take site photographs", false), ("Research precedent cases", false),
      ("Draft statement of case", false), ("Prepare evidence bundle", false),
      ("Complete appeal form", false), ("Pay appeal fee (if applicable)", false),
      ("Submit via Planning Portal", false)];
    AppealTimeline(deadline, submission, milestones,
                   [("Appeal deadline", deadline), ("Recommended submission", submission)], checklist)
  }

  // ---------------------------------------------------------------------
  // Strategy

  datatype AppealStrategy = AppealStrategy(
    recommendedAppealType: AppealType,
    appealTypeReasoning: string,
    primaryGrounds: seq<AppealGround>,
    secondaryGrounds: seq<AppealGround>,
    refusalAnalysis: seq<RefusalReasonAnalysis>,
    inconsistencyFindings: seq<InconsistencyFinding>,
    keyArguments: seq<KeyArgument>,
    evidenceRequired: set<string>,
    estimatedSuccessRate: real,
    estimatedTimelineWeeks: int,
    estimatedCostRange: (int, int),
    risks: seq<Risk>,
    recommendations: seq<string>)

  /**
   * The rule-based part of `generate_strategy`, once the reasons are
   * analysed and the findings collected: never a public inquiry, a hearing
   * only for a strong reason, the weeks and costs of the recommended
   * procedure, and an estimate within [0.15, 0.80].
   */
  method AssembleStrategy(analysis: seq<RefusalReasonAnalysis>, findings: seq<InconsistencyFinding>)
    returns (s: AppealStrategy)
    ensures s.recommendedAppealType != PublicInquiry
    ensures s.recommendedAppealType == InformalHearing ==> AnyStrong(analysis)
    ensures s.estimatedTimelineWeeks == Weeks(s.recommendedAppealType) <= 24
    ensures s.estimatedCostRange == Costs(s.recommendedAppealType)
    ensures s.estimatedSuccessRate == EstimateSuccessRate(analysis, findings)
    ensures 1 <= |s.primaryGrounds| + |s.secondaryGrounds|
    ensures s.refusalAnalysis == analysis && s.inconsistencyFindings == findings
    ensures s.keyArguments == KeyArguments(analysis, findings)
    ensures |s.risks| >= 2 && s.risks[|s.risks| - 2..] == [Unrecoverable, AwardAgainst]
    ensures |s.recommendations| == (if s.estimatedSuccessRate >= 0.6 then 4 else 5)
  {
    var primary, secondary := DetermineGrounds(analysis, findings);
    var typeAndReason := RecommendAppealType(analysis, findings, primary);
    HearingNeedsStrongReason(analysis, findings, primary);
    var keyArguments := GenerateKeyArguments(analysis, findings);
    var evidence := IdentifyEvidenceNeeds(analysis, primary);
    var rate := EstimateSuccessRate(analysis, findings);
    var risks := IdentifyRisks(analysis, findings);
    var recs := GenerateRecommendations(typeAndReason.0, rate, risks);
    s := AppealStrategy(typeAndReason.0, typeAndReason.1, primary, secondary, analysis, findings, keyArguments, evidence, rate,
                        Weeks(typeAndReason.0), Costs(typeAndReason.0), risks, recs);
  }
}
