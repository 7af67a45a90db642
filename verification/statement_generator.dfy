// Design-statement builder: the design justification list, the policy
// arguments drawn from the Camden Local Plan table, the neighbour-impact
// assessments and the evidence gatherers. The generated prose is kept as the
// values it interpolates (see Explanation), not as text.

module StatementGenerator {
  import opened Common
  import opened PyStr

  /** The fields of the proposal dictionary the generator reads. */
  datatype Proposal = Proposal(
    materials: seq<string>,
    heightMeters: Option<real>,
    depthMeters: Option<real>)

  /** The fields of the site dictionary the generator reads. */
  datatype Site = Site(conservationArea: Option<string>)

  /** The fields of a precedent dictionary the evidence gatherer reads. */
  datatype PrecedentRecord = PrecedentRecord(
    outcome: Option<string>,
    address: Option<string>,
    reference: Option<string>)

  datatype Principle = ContextAndCharacter | ScaleAndMassing | MaterialsAndDetailing | Sustainability
  {
    function Text(): string
    {
      match this
      case ContextAndCharacter => "Context and Character"
      case ScaleAndMassing => "Scale and Massing"
      case MaterialsAndDetailing => "Materials and Detailing"
      case Sustainability => "Sustainability"
    }
  }

  /**
   * What each explanation paragraph says, by the values it depends on:
   * the conservation area it names (or the host-building wording), the
   * depth and height it quotes, whether the materials paragraph uses the
   * conservation-area wording and which materials it lists (at most three;
   * none means the fixed "finishes" phrase), and the fixed sustainability
   * paragraph.
   */
  datatype Explanation =
    | WithinConservationArea(area: string)
    | HostBuildingContext
    | ScaleResponse(depth: real, height: real)
    | MaterialsResponse(conservationWording: bool, named: seq<string>)
    | SustainabilityResponse

  datatype DesignJustification = DesignJustification(
    principle: Principle,
    explanation: Explanation,
    evidence: seq<string>)

  // ---------------------------------------------------------------------
  // Explanations
  // ---------------------------------------------------------------------

  /** A named conservation area is quoted; otherwise the host-building paragraph is used. */
  function ContextResponse(site: Site): (r: Explanation)
    ensures r.WithinConservationArea? <==> Truthy(site.conservationArea)
    ensures r.WithinConservationArea? ==> r.area == site.conservationArea.value
  {
    if Truthy(site.conservationArea) then WithinConservationArea(site.conservationArea.value)
    else HostBuildingContext
  }

  /** A missing height or depth is quoted as 3.0 m. */
  function ScaleResponseFor(proposal: Proposal): (r: Explanation)
    ensures r.ScaleResponse?
    ensures proposal.depthMeters.Some? ==> r.depth == proposal.depthMeters.value
    ensures proposal.depthMeters.None? ==> r.depth == 3.0
    ensures proposal.heightMeters.Some? ==> r.height == proposal.heightMeters.value
    ensures proposal.heightMeters.None? ==> r.height == 3.0
  {
    ScaleResponse(OrElse(proposal.depthMeters, 3.0), OrElse(proposal.heightMeters, 3.0))
  }

  /** The first three materials are listed, in the conservation-area wording when the site has one. */
  function MaterialsResponseFor(proposal: Proposal, site: Site): (r: Explanation)
    ensures r.MaterialsResponse?
    ensures r.conservationWording <==> Truthy(site.conservationArea)
    ensures |r.named| == Min(3, |proposal.materials|)
    ensures r.named == proposal.materials[..|r.named|]
  {
    MaterialsResponse(Truthy(site.conservationArea), Take(proposal.materials, 3))
  }

  // ---------------------------------------------------------------------
  // Evidence gatherers
  // ---------------------------------------------------------------------

  const ApprovedAt: string := "Similar development approved at "
  const RefOpen: string := " (Ref: "
  const NearbySite: string := "nearby site"
  const NoReference: string := "N/A"

  /** The outcome, missing read as "", lower-cased, is "granted". */
  predicate IsGranted(p: PrecedentRecord)
  {
    Lower(OrElse(p.outcome, "")) == "granted"
  }

  function Citation(p: PrecedentRecord): string
  {
    ApprovedAt + OrElse(p.address, NearbySite) + RefOpen + OrElse(p.reference, NoReference) + ")"
  }

  /** One citation per granted precedent of `ps`, in order. */
  function Cited(ps: seq<PrecedentRecord>): seq<string>
  {
    if ps == [] then []
    else Cited(ps[..|ps| - 1]) + (if IsGranted(ps[|ps| - 1]) then [Citation(ps[|ps| - 1])] else [])
  }

  /** Context evidence only looks at the first three precedents. */
  function ContextEvidence(precedents: seq<PrecedentRecord>): seq<string>
  {
    Cited(Take(precedents, 3))
  }

  method GatherContextEvidence(precedents: seq<PrecedentRecord>) returns (evidence: seq<string>)
    ensures evidence == ContextEvidence(precedents)
  {
    evidence := [];
    var firsts := Take(precedents, 3);
    var i := 0;
    while i < |firsts|
      invariant 0 <= i <= |firsts|
      invariant evidence == Cited(firsts[..i])
    {
      assert firsts[..i + 1][..i] == firsts[..i];
      if IsGranted(firsts[i]) {
        evidence := evidence + [Citation(firsts[i])];
      }
      i := i + 1;
    }
    assert firsts[..i] == firsts;
  }

  /** Some granted precedent among the first `n` of `ps` is cited as `e`. */
  predicate CitesGrantedBefore(ps: seq<PrecedentRecord>, n: nat, e: string)
  {
    exists k :: 0 <= k < n && k < |ps| && IsGranted(ps[k]) && Citation(ps[k]) == e
  }

  lemma {:induction false} CitedSpec(ps: seq<PrecedentRecord>)
    ensures |Cited(ps)| == CountWhere(ps, IsGranted)
    ensures forall e :: e in Cited(ps) <==> CitesGrantedBefore(ps, |ps|, e)
    decreases |ps|
  {
    if ps != [] {
      var init := ps[..|ps| - 1];
      CitedSpec(init);
      forall e
        ensures e in Cited(ps) <==> CitesGrantedBefore(ps, |ps|, e)
      {
        if CitesGrantedBefore(init, |init|, e) {
          var k :| 0 <= k < |init| && IsGranted(init[k]) && Citation(init[k]) == e;
          assert ps[k] == init[k];
        }
        if CitesGrantedBefore(ps, |ps|, e) {
          var k :| 0 <= k < |ps| && IsGranted(ps[k]) && Citation(ps[k]) == e;
          if k < |init| {
            assert init[k] == ps[k];
            assert CitesGrantedBefore(init, |init|, e);
          }
        }
      }
    }
  }

  /**
   * At most three citations, one per granted precedent among the first
   * three, and every granted precedent among them is cited.
   */
  lemma ContextEvidenceSpec(precedents: seq<PrecedentRecord>)
    ensures |ContextEvidence(precedents)| <= 3
    ensures |ContextEvidence(precedents)| == CountWhere(Take(precedents, 3), IsGranted)
    ensures forall e :: e in ContextEvidence(precedents) <==> CitesGrantedBefore(precedents, 3, e)
  {
    var firsts := Take(precedents, 3);
    CitedSpec(firsts);
    forall e
      ensures CitesGrantedBefore(firsts, |firsts|, e) <==> CitesGrantedBefore(precedents, 3, e)
    {
      if CitesGrantedBefore(precedents, 3, e) {
        var k :| 0 <= k < 3 && k < |precedents| && IsGranted(precedents[k]) && Citation(precedents[k]) == e;
        assert firsts[k] == precedents[k];
      }
      if CitesGrantedBefore(firsts, |firsts|, e) {
        var k :| 0 <= k < |firsts| && IsGranted(firsts[k]) && Citation(firsts[k]) == e;
        assert firsts[k] == precedents[k];
      }
    }
  }

  const RearExtensionLimit: real := 3.0
  const DepthEvidence: string := "Depth within established precedent (3m or less)"
  const HeightEvidence: string := "Height within permitted development parameters"

  /** Python's `x and x <= 3.0`: a missing or zero measurement does not count. */
  predicate WithinLimit(x: Option<real>)
  {
    x.Some? && x.value != 0.0 && x.value <= RearExtensionLimit
  }

  method GatherScaleEvidence(proposal: Proposal) returns (evidence: seq<string>)
    ensures DepthEvidence in evidence <==> WithinLimit(proposal.depthMeters)
    ensures HeightEvidence in evidence <==> WithinLimit(proposal.heightMeters)
    ensures |evidence| == (if WithinLimit(proposal.depthMeters) then 1 else 0)
                          + (if WithinLimit(proposal.heightMeters) then 1 else 0)
    ensures WithinLimit(proposal.depthMeters) ==> evidence[0] == DepthEvidence
  {
    evidence := [];
    var depth := proposal.depthMeters;
    if depth.Some? && depth.value != 0.0 && depth.value <= RearExtensionLimit {
      evidence := evidence + [DepthEvidence];
    }
    var height := proposal.heightMeters;
    if height.Some? && height.value != 0.0 && height.value <= RearExtensionLimit {
      evidence := evidence + [HeightEvidence];
    }
  }

  // ---------------------------------------------------------------------
  // Design justification
  // ---------------------------------------------------------------------

  method GenerateDesignJustification(proposal: Proposal, site: Site, precedents: seq<PrecedentRecord>)
    returns (js: seq<DesignJustification>)
    ensures |js| == if proposal.materials != [] then 4 else 3
    ensures js[0] == DesignJustification(ContextAndCharacter, ContextResponse(site), ContextEvidence(precedents))
    ensures js[1].principle == ScaleAndMassing && js[1].explanation == ScaleResponseFor(proposal)
    ensures (DepthEvidence in js[1].evidence <==> WithinLimit(proposal.depthMeters))
         && (HeightEvidence in js[1].evidence <==> WithinLimit(proposal.heightMeters))
    ensures proposal.materials != [] ==>
              js[2] == DesignJustification(MaterialsAndDetailing, MaterialsResponseFor(proposal, site), [])
    ensures js[|js| - 1] == DesignJustification(Sustainability, SustainabilityResponse, [])
    ensures forall i, j :: 0 <= i < j < |js| ==> js[i].principle != js[j].principle
  {
    var contextEvidence := GatherContextEvidence(precedents);
    js := [DesignJustification(ContextAndCharacter, ContextResponse(site), contextEvidence)];
    var scaleEvidence := GatherScaleEvidence(proposal);
    js := js + [DesignJustification(ScaleAndMassing, ScaleResponseFor(proposal), scaleEvidence)];
    if proposal.materials != [] {
      js := js + [DesignJustification(MaterialsAndDetailing, MaterialsResponseFor(proposal, site), [])];
    }
    js := js + [DesignJustification(Sustainability, SustainabilityResponse, [])];
  }

  // ---------------------------------------------------------------------
  // Policy arguments
  // ---------------------------------------------------------------------

  /** The five Camden Local Plan policies the generator knows. */
  datatype KnownPolicy = D1 | D2 | A1 | A2 | A3
  {
    function Code(): string
    {
      match this
      case D1 => "D1"
      case D2 => "D2"
      case A1 => "A1"
      case A2 => "A2"
      case A3 => "A3"
    }

    function Name(): string
    {
      match this
      case D1 => "Design"
      case D2 => "Heritage"
      case A1 => "Managing the Impact of Development"
      case A2 => "Biodiversity"
      case A3 => "Basements and Light Wells"
    }

    function StandardArgument(): string
    {
      match this
      case D1 => D1Argument
      case D2 => D2Argument
      case A1 => A1Argument
      case A2 => A2Argument
      case A3 => A3Argument
    }

    function SupportingPoints(): seq<string>
    {
      match this
      case D1 => ["Appropriate scale and massing", "High-quality materials", "Sensitive response to context"]
      case D2 => ["Preservation of significance", "Sympathetic materials", "Reversible interventions"]
      case A1 => ["No significant loss of light", "Privacy maintained", "No overbearing impact"]
      case A2 => []
      case A3 => ["Appropriate depth and extent", "Garden retention", "Structural considerations addressed"]
    }
  }

  const D1Argument: string :=
    "The proposal demonstrates high-quality design that respects context and creates a positive addition to the street scene."
  const D2Argument: string :=
    "The proposal preserves the character and appearance of the heritage asset through sensitive design."
  const A1Argument: string :=
    "The proposal will not result in unacceptable harm to neighbouring amenity."
  const A2Argument: string :=
    "The proposal maintains and where possible enhances biodiversity value."
  const A3Argument: string :=
    "The basement proposal accords with Camden's guidance on subterranean development."

  /** The policy table lookup: a code is known exactly when it is one of the five. */
  function PolicyInfo(code: string): (r: Option<KnownPolicy>)
    ensures r.Some? ==> r.value.Code() == code
  {
    if code == "D1" then Some(D1)
    else if code == "D2" then Some(D2)
    else if code == "A1" then Some(A1)
    else if code == "A2" then Some(A2)
    else if code == "A3" then Some(A3)
    else None
  }

  lemma PolicyInfoRoundTrip(p: KnownPolicy)
    ensures PolicyInfo(p.Code()) == Some(p)
  {
  }

  /** Exactly the five codes D1, D2, A1, A2 and A3 are known. */
  lemma PolicyInfoKnownCodes(code: string)
    ensures PolicyInfo(code).Some? <==> code in ["D1", "D2", "A1", "A2", "A3"]
  {
  }

  datatype PolicyArgument = PolicyArgument(
    policyName: string,
    policyReference: string,
    argument: string,
    supportingPoints: seq<string>,
    precedentSupport: seq<string>)

  const ReferencePrefix: string := "Camden Local Plan Policy "

  function PolicyReference(code: string): (r: string)
    ensures |r| == |ReferencePrefix| + |code|
    ensures r[..|ReferencePrefix|] == ReferencePrefix && r[|ReferencePrefix|..] == code
  {
    ReferencePrefix + code
  }

  predicate IsKnownCode(code: string) { PolicyInfo(code).Some? }

  /** The argument for a known policy: its name, reference, standard argument and points. */
  function ArgumentOf(p: KnownPolicy): PolicyArgument
  {
    PolicyArgument(p.Name(), PolicyReference(p.Code()), p.StandardArgument(), p.SupportingPoints(), [])
  }

  /** One argument per known code, whose reference names that code; an unknown code gives none. */
  function GeneratePolicyArgument(code: string): (r: Option<PolicyArgument>)
    ensures r.Some? <==> IsKnownCode(code)
    ensures r.Some? ==> (r.value.policyName == PolicyInfo(code).value.Name()
                         && r.value.policyReference == PolicyReference(code)
                         && r.value.argument == PolicyInfo(code).value.StandardArgument()
                         && r.value.supportingPoints == PolicyInfo(code).value.SupportingPoints()
                         && r.value.precedentSupport == [])
  {
    match PolicyInfo(code)
    case None => None
    case Some(p) => Some(ArgumentOf(p))
  }

  const DefaultPolicies: seq<string> := ["D1", "D2", "A1"]

  /** An empty (or missing) policy list means the three default policies. */
  function EffectivePolicies(policies: seq<string>): seq<string>
  {
    if policies == [] then DefaultPolicies else policies
  }

  /** The arguments generated for `codes`, in order, skipping unknown codes. */
  function ArgumentsFor(codes: seq<string>): seq<PolicyArgument>
  {
    if codes == [] then []
    else
      var a := GeneratePolicyArgument(codes[|codes| - 1]);
      ArgumentsFor(codes[..|codes| - 1]) + (if a.Some? then [a.value] else [])
  }

  method GeneratePolicyArguments(policies: seq<string>) returns (args: seq<PolicyArgument>)
    ensures args == ArgumentsFor(EffectivePolicies(policies))
  {
    var codes := policies;
    if codes == [] {
      codes := DefaultPolicies;
    }
    args := [];
    var i := 0;
    while i < |codes|
      invariant 0 <= i <= |codes|
      invariant args == ArgumentsFor(codes[..i])
    {
      assert codes[..i + 1][..i] == codes[..i];
      var a := GeneratePolicyArgument(codes[i]);
      if a.Some? {
        args := args + [a.value];
      }
      i := i + 1;
    }
    assert codes[..i] == codes;
  }

  /**
   * The k-th argument belongs to the k-th known code of the input: unknown
   * codes are dropped and the order of the rest is kept.
   */
  lemma {:induction false} ArgumentsForSpec(codes: seq<string>)
    ensures |ArgumentsFor(codes)| == |Filter(codes, IsKnownCode)|
    ensures forall k :: 0 <= k < |ArgumentsFor(codes)| ==>
              Some(ArgumentsFor(codes)[k]) == GeneratePolicyArgument(Filter(codes, IsKnownCode)[k])
    decreases |codes|
  {
    if codes != [] {
      ArgumentsForSpec(codes[..|codes| - 1]);
    }
  }

  lemma ArgumentsForSnoc(codes: seq<string>, c: string)
    ensures ArgumentsFor(codes + [c])
            == ArgumentsFor(codes) + (if IsKnownCode(c) then [GeneratePolicyArgument(c).value] else [])
  {
    assert (codes + [c])[..|codes|] == codes;
  }

  lemma KnownArgument(p: KnownPolicy)
    ensures IsKnownCode(p.Code()) && GeneratePolicyArgument(p.Code()).value == ArgumentOf(p)
  {
    PolicyInfoRoundTrip(p);
  }

  /** Appending a known code appends its argument. */
  lemma ArgumentsForKnown(codes: seq<string>, p: KnownPolicy)
    ensures ArgumentsFor(codes + [p.Code()]) == ArgumentsFor(codes) + [ArgumentOf(p)]
  {
    KnownArgument(p);
    ArgumentsForSnoc(codes, p.Code());
  }

  /** With no policies given, the arguments are those of D1, D2 and A1, in that order. */
  lemma DefaultArguments()
    ensures ArgumentsFor(EffectivePolicies([])) == [ArgumentOf(D1), ArgumentOf(D2), ArgumentOf(A1)]
  {
    var one, two, three := [D1.Code()], [D1.Code(), D2.Code()], [D1.Code(), D2.Code(), A1.Code()];
    ArgumentsForKnown([], D1);
    assert [] + [D1.Code()] == one;
    ArgumentsForKnown(one, D2);
    assert one + [D2.Code()] == two;
    ArgumentsForKnown(two, A1);
    assert two + [A1.Code()] == three;
    assert EffectivePolicies([]) == three;
  }

  // ---------------------------------------------------------------------
  // Neighbour impact
  // ---------------------------------------------------------------------

  datatype ImpactType = Daylight | Sunlight | Privacy | Outlook
  {
    function Text(): string
    {
      match this
      case Daylight => "Daylight"
      case Sunlight => "Sunlight"
      case Privacy => "Privacy"
      case Outlook => "Outlook"
    }
  }

  datatype NeighbourImpactAssessment = NeighbourImpactAssessment(
    impactType: ImpactType,
    assessment: string,
    mitigation: Option<string>,
    conclusion: string)

  const DaylightAssessment: string :=
    "Analysis of the proposal against the BRE Guidelines indicates that neighbouring windows will continue to receive adequate daylight."
  const SunlightAssessment: string :=
    "Neighbouring habitable rooms will continue to receive adequate sunlight."
  const PrivacyAssessment: string :=
    "The proposal does not introduce any new windows or openings that would overlook neighbouring properties."
  const OutlookAssessment: string :=
    "The proposal does not create an overbearing relationship with neighbouring properties."

  const DaylightMitigation: string := "Design minimises projection beyond established building line"
  const PrivacyMitigation: string := "No new windows overlooking neighbouring properties"

  const StandardAssessments: seq<NeighbourImpactAssessment> := [
    NeighbourImpactAssessment(Daylight, DaylightAssessment, Some(DaylightMitigation),
      "No significant loss of daylight to neighbouring properties"),
    NeighbourImpactAssessment(Sunlight, SunlightAssessment, None,
      "No material loss of sunlight to neighbouring habitable rooms"),
    NeighbourImpactAssessment(Privacy, PrivacyAssessment, Some(PrivacyMitigation),
      "Privacy of neighbours is maintained"),
    NeighbourImpactAssessment(Outlook, OutlookAssessment, None,
      "No overbearing impact on neighbouring outlook")
  ]

  /** The four assessments do not depend on the proposal or the neighbours. */
  method GenerateNeighbourImpact(proposal: Proposal, neighbours: seq<string>)
    returns (assessments: seq<NeighbourImpactAssessment>)
    ensures assessments == StandardAssessments
  {
    assessments := [];
    assessments := assessments + [StandardAssessments[0]];
    assessments := assessments + [StandardAssessments[1]];
    assessments := assessments + [StandardAssessments[2]];
    assessments := assessments + [StandardAssessments[3]];
  }

  /** Daylight, sunlight, privacy and outlook, in that order; only daylight and privacy carry a mitigation. */
  lemma StandardAssessmentsShape()
    ensures |StandardAssessments| == 4
    ensures forall k :: 0 <= k < 4 ==>
              StandardAssessments[k].impactType == [Daylight, Sunlight, Privacy, Outlook][k]
    ensures forall k :: 0 <= k < 4 ==>
              (StandardAssessments[k].mitigation.Some? <==> StandardAssessments[k].impactType in {Daylight, Privacy})
    ensures forall k :: 0 <= k < 4 ==> StandardAssessments[k].conclusion != ""
  {
  }
}
