/**
 * The planning application generator: which documents an application gets,
 * which supporting documents the council requires, the application fee,
 * and the structured form data.
 *
 * The markdown bodies of the letters and statements, and the JSON text of
 * the form, are rendered by parameters; the model keeps which documents are
 * produced, in which order, with which type, title and format.
 */
module ApplicationGenerator {
  import opened Common

  datatype ApplicationType =
    | Householder | Full | Outline | ListedBuilding | ConservationArea
    | PriorApproval | LawfulDevelopment | TreeWorks
  {
    function Value(): string
    {
      match this
      case Householder => "householder"
      case Full => "full"
      case Outline => "outline"
      case ListedBuilding => "listed_building"
      case ConservationArea => "conservation_area"
      case PriorApproval => "prior_approval"
      case LawfulDevelopment => "lawful_development"
      case TreeWorks => "tree_works"
    }
  }

  /** The document kinds, in the order `generate_application` emits them. */
  datatype DocumentType =
    | CoveringLetter | DesignStatement | HeritageStatement | PlanningStatement
    | ApplicationForm | TreeReport | CilForm
  {
    function Value(): string
    {
      match this
      case ApplicationForm => "application_form"
      case DesignStatement => "design_statement"
      case PlanningStatement => "planning_statement"
      case HeritageStatement => "heritage_statement"
      case TreeReport => "tree_report"
      case CoveringLetter => "covering_letter"
      case CilForm => "cil_form"
    }

    function Rank(): nat
    {
      match this
      case CoveringLetter => 0
      case DesignStatement => 1
      case HeritageStatement => 2
      case PlanningStatement => 3
      case ApplicationForm => 4
      case TreeReport => 5
      case CilForm => 6
    }
  }

  datatype Applicant = Applicant(name: string, email: string, phone: Option<string>, address: Option<string>, isAgent: bool)

  datatype SiteDetails = SiteDetails(
    address: string,
    postcode: string,
    ward: Option<string>,
    conservationArea: Option<string>,
    listedBuilding: Option<string>,
    article4Direction: bool,
    treePreservationOrder: bool,
    easting: Option<int>,
    northing: Option<int>)

  datatype ProposalDetails = ProposalDetails(
    description: string,
    developmentType: string,
    existingFloorAreaSqm: Option<real>,
    proposedFloorAreaSqm: Option<real>,
    materials: seq<string>)

  datatype ApplicationData = ApplicationData(
    applicationType: ApplicationType,
    applicant: Applicant,
    site: SiteDetails,
    proposal: ProposalDetails,
    agent: Option<Applicant>,
    policyReferences: seq<string>)

  datatype GeneratedDocument = GeneratedDocument(documentType: DocumentType, title: string, content: string, format: string)

  // ---------------------------------------------------------------------
  // Fees

  /** The fee table covers every type except outline and tree works. */
  predicate InFeeTable(t: ApplicationType) { !t.Outline? && !t.TreeWorks? }

  /** The 2024 fee table, 0 for a type absent from it. */
  function TableFee(t: ApplicationType): (fee: nat)
    ensures !InFeeTable(t) ==> fee == 0
  {
    match t
    case Householder => 258
    case Full => 528
    case ListedBuilding => 0
    case ConservationArea => 0
    case PriorApproval => 120
    case LawfulDevelopment => 129
    case Outline => 0
    case TreeWorks => 0
  }

  /** Python truthiness of an optional area: present and non-zero. */
  predicate AreaGiven(area: Option<real>) { area.Some? && area.value != 0.0 }

  /** `int(x)` for a non-negative `x`: truncation is the floor. */
  function Truncate(x: real): int
    requires x >= 0.0
  {
    x.Floor
  }

  /**
   * The table fee, plus, for a full application over 40 square metres,
   * 528 for every 75 square metres above 40, pro rata and truncated.
   */
  function CalculateFee(t: ApplicationType, area: Option<real>): (fee: int)
    ensures fee >= TableFee(t)
    ensures !(t == Full && AreaGiven(area) && area.value > 40.0) ==> fee == TableFee(t)
  {
    var base := TableFee(t);
    if t == Full && AreaGiven(area) && area.value > 40.0 then
      base + Truncate((area.value - 40.0) / 75.0 * 528.0)
    else base
  }

  /** Above 40 square metres a full application pays the base plus the truncated pro-rata supplement. */
  lemma FullFeeAbove40(area: real)
    requires area > 40.0
    ensures CalculateFee(Full, Some(area)) == 528 + ((area - 40.0) / 75.0 * 528.0).Floor
    ensures 528.0 + (area - 40.0) * 528.0 / 75.0 - 1.0 < CalculateFee(Full, Some(area)) as real
    ensures CalculateFee(Full, Some(area)) as real <= 528.0 + (area - 40.0) * 528.0 / 75.0
  {
  }

  /** A larger area never lowers the fee. */
  lemma FeeMonotone(t: ApplicationType, a: real, b: real)
    requires 0.0 < a <= b
    ensures CalculateFee(t, Some(a)) <= CalculateFee(t, Some(b))
  {
  }

  /** Outline and tree-works applications cost nothing, whatever the area. */
  lemma UntabledFree(area: Option<real>)
    ensures CalculateFee(Outline, area) == 0 && CalculateFee(TreeWorks, area) == 0
  {
  }

  // ---------------------------------------------------------------------
  // Required documents

  datatype RequiredDocument =
    | FormDocument | SiteLocationPlan | BlockPlan | FloorPlans | Elevations | DesignAndAccess
    | Heritage | ListedHeritage | Photographs | PlanningStatementDoc | CilFormDoc | Arboricultural
  {
    function Text(): string
    {
      match this
      case FormDocument => "Application form"
      case SiteLocationPlan => "Site location plan (1:1250 or 1:2500)"
      case BlockPlan => "Block plan (1:500 or 1:200)"
      case FloorPlans => "Existing and proposed floor plans"
      case Elevations => "Existing and proposed elevations"
      case DesignAndAccess => "Design and Access Statement"
      case Heritage => "Heritage Statement"
      case ListedHeritage => "Listed Building Heritage Statement"
      case Photographs => "Photographs of existing building"
      case PlanningStatementDoc => "Planning Statement"
      case CilFormDoc => "CIL Form"
      case Arboricultural => "Arboricultural Impact Assessment"
    }

    /** Position in the council's list. */
    function Rank(): nat
    {
      match this
      case FormDocument => 0
      case SiteLocationPlan => 1
      case BlockPlan => 2
      case FloorPlans => 3
      case Elevations => 4
      case DesignAndAccess => 5
      case Heritage => 6
      case ListedHeritage => 7
      case Photographs => 8
      case PlanningStatementDoc => 9
      case CilFormDoc => 10
      case Arboricultural => 11
    }
  }

  const BaseDocuments: seq<RequiredDocument> :=
    [FormDocument, SiteLocationPlan, BlockPlan, FloorPlans, Elevations, DesignAndAccess]

  predicate InRankOrder(docs: seq<RequiredDocument>)
  {
    forall i, j :: 0 <= i < j < |docs| ==> docs[i].Rank() < docs[j].Rank()
  }

  /** Every rank lies in [lo, hi). */
  predicate RanksIn(docs: seq<RequiredDocument>, lo: nat, hi: nat)
  {
    forall i :: 0 <= i < |docs| ==> lo <= docs[i].Rank() < hi
  }

  lemma RankOrderAppend(docs: seq<RequiredDocument>, more: seq<RequiredDocument>, lo: nat, mid: nat, hi: nat)
    requires lo <= mid <= hi
    requires InRankOrder(docs) && RanksIn(docs, lo, mid)
    requires InRankOrder(more) && RanksIn(more, mid, hi)
    ensures InRankOrder(docs + more) && RanksIn(docs + more, lo, hi)
  {
    var all := docs + more;
    forall i, j | 0 <= i < j < |all|
      ensures all[i].Rank() < all[j].Rank()
    {
      if j < |docs| {
        assert all[i] == docs[i] && all[j] == docs[j];
      } else if i >= |docs| {
        assert all[i] == more[i - |docs|] && all[j] == more[j - |docs|];
      } else {
        assert all[i] == docs[i] && all[j] == more[j - |docs|];
      }
    }
    forall i | 0 <= i < |all|
      ensures lo <= all[i].Rank() < hi
    {
      if i < |docs| {
        assert all[i] == docs[i];
      } else {
        assert all[i] == more[i - |docs|];
      }
    }
  }

  lemma BaseInRankOrder()
    ensures InRankOrder(BaseDocuments) && RanksIn(BaseDocuments, 0, 6)
  {
  }

  lemma HeritagePartInRankOrder(c: bool)
    ensures InRankOrder(When(c, [Heritage])) && RanksIn(When(c, [Heritage]), 6, 7)
  {
  }

  lemma ListedPartInRankOrder(c: bool)
    ensures InRankOrder(When(c, [ListedHeritage, Photographs]))
    ensures RanksIn(When(c, [ListedHeritage, Photographs]), 7, 9)
  {
  }

  lemma FullPartInRankOrder(c: bool)
    ensures InRankOrder(When(c, [PlanningStatementDoc, CilFormDoc]))
    ensures RanksIn(When(c, [PlanningStatementDoc, CilFormDoc]), 9, 11)
  {
  }

  lemma TreePartInRankOrder(c: bool)
    ensures InRankOrder(When(c, [Arboricultural])) && RanksIn(When(c, [Arboricultural]), 11, 12)
  {
  }

  function When<T>(c: bool, s: seq<T>): seq<T> { if c then s else [] }

  /**
   * The six base documents, then the heritage statement for a conservation
   * area, the two listed-building items, the planning statement and CIL form
   * for a full application, and the arboricultural assessment under a tree
   * preservation order.
   */
  function RequiredFor(t: ApplicationType, site: SiteDetails): seq<RequiredDocument>
  {
    BaseDocuments
      + When(Truthy(site.conservationArea), [Heritage])
      + When(Truthy(site.listedBuilding), [ListedHeritage, Photographs])
      + When(t == Full, [PlanningStatementDoc, CilFormDoc])
      + When(site.treePreservationOrder, [Arboricultural])
  }

  method GetRequiredDocuments(t: ApplicationType, site: SiteDetails) returns (docs: seq<RequiredDocument>)
    ensures docs == RequiredFor(t, site)
  {
    docs := BaseDocuments;
    if Truthy(site.conservationArea) {
      docs := docs + [Heritage];
    }
    if Truthy(site.listedBuilding) {
      docs := docs + [ListedHeritage, Photographs];
    }
    if t == Full {
      docs := docs + [PlanningStatementDoc, CilFormDoc];
    }
    if site.treePreservationOrder {
      docs := docs + [Arboricultural];
    }
  }

  /** The list starts with the six base documents, then holds the heritage items exactly when their conditions hold. */
  lemma RequiredForHeritage(t: ApplicationType, site: SiteDetails)
    ensures |RequiredFor(t, site)| >= 6 && RequiredFor(t, site)[..6] == BaseDocuments
    ensures Heritage in RequiredFor(t, site) <==> Truthy(site.conservationArea)
    ensures ListedHeritage in RequiredFor(t, site) <==> Truthy(site.listedBuilding)
    ensures Photographs in RequiredFor(t, site) <==> Truthy(site.listedBuilding)
  {
    assert RequiredFor(t, site)[..6] == BaseDocuments;
  }

  /** The planning statement and CIL form come with a full application, the tree assessment with a preservation order. */
  lemma RequiredForFullAndTrees(t: ApplicationType, site: SiteDetails)
    ensures PlanningStatementDoc in RequiredFor(t, site) <==> t == Full
    ensures CilFormDoc in RequiredFor(t, site) <==> t == Full
    ensures Arboricultural in RequiredFor(t, site) <==> site.treePreservationOrder
  {
  }

  /** The documents follow the council's list order, so none appears twice. */
  lemma RequiredForOrder(t: ApplicationType, site: SiteDetails)
    ensures InRankOrder(RequiredFor(t, site))
  {
    var h := When(Truthy(site.conservationArea), [Heritage]);
    var l := When(Truthy(site.listedBuilding), [ListedHeritage, Photographs]);
    var f := When(t == Full, [PlanningStatementDoc, CilFormDoc]);
    var p := When(site.treePreservationOrder, [Arboricultural]);
    BaseInRankOrder();
    HeritagePartInRankOrder(Truthy(site.conservationArea));
    ListedPartInRankOrder(Truthy(site.listedBuilding));
    FullPartInRankOrder(t == Full);
    TreePartInRankOrder(site.treePreservationOrder);
    RankOrderAppend(BaseDocuments, h, 0, 6, 7);
    RankOrderAppend(BaseDocuments + h, l, 0, 7, 9);
    RankOrderAppend(BaseDocuments + h + l, f, 0, 9, 11);
    RankOrderAppend(BaseDocuments + h + l + f, p, 0, 11, 12);
  }

  /** The list has no repeats, so its length counts the triggered additions. */
  lemma RequiredDocumentsDistinct(docs: seq<RequiredDocument>)
    requires InRankOrder(docs)
    ensures forall i, j :: 0 <= i < j < |docs| ==> docs[i] != docs[j]
  {
  }

  // ---------------------------------------------------------------------
  // Form data

  datatype SiteForm = SiteForm(address: string, postcode: string, ward: Option<string>, easting: Option<int>, northing: Option<int>)
  datatype ApplicantForm = ApplicantForm(name: string, email: string, phone: Option<string>, address: Option<string>)
  datatype AgentForm = AgentForm(name: string, email: string)
  datatype ProposalForm = ProposalForm(description: string, existingUse: string, proposedUse: string,
                                       existingFloorArea: Option<real>, proposedFloorArea: Option<real>)

  /** The structured form; the declarations are always ownership certificate A and no agricultural holding. */
  datatype FormData = FormData(
    applicationType: string,
    site: SiteForm,
    applicant: ApplicantForm,
    agent: Option<AgentForm>,
    proposal: ProposalForm,
    fee: nat,
    ownershipCertificate: string,
    agriculturalHolding: bool)

  const Residential := "Residential"

  /** The form carries the table fee, and an agent block only when there is an agent. */
  function FormDataOf(data: ApplicationData): (f: FormData)
    ensures f.fee == TableFee(data.applicationType)
    ensures f.agent.Some? <==> data.agent.Some?
    ensures f.agent.Some? ==> f.agent.value == AgentForm(data.agent.value.name, data.agent.value.email)
    ensures f.applicationType == data.applicationType.Value()
  {
    var site := data.site;
    var applicant := data.applicant;
    FormData(
      data.applicationType.Value(),
      SiteForm(site.address, site.postcode, site.ward, site.easting, site.northing),
      ApplicantForm(applicant.name, applicant.email, applicant.phone, applicant.address),
      if data.agent.Some? then Some(AgentForm(data.agent.value.name, data.agent.value.email)) else None,
      ProposalForm(data.proposal.description, Residential, Residential,
                   data.proposal.existingFloorAreaSqm, data.proposal.proposedFloorAreaSqm),
      TableFee(data.applicationType),
      "A",
      false)
  }

  /** The form's fee ignores floor area: a 190 square metre full application is charged 1584 but its form says 528. */
  lemma FormFeeIgnoresArea(data: ApplicationData)
    requires data.applicationType == Full && data.proposal.proposedFloorAreaSqm == Some(190.0)
    ensures FormDataOf(data).fee == 528
    ensures CalculateFee(Full, data.proposal.proposedFloorAreaSqm) == 1584
  {
  }

  const FormTitle := "Application Form Data"

  function GenerateFormData(data: ApplicationData, dump: FormData -> string): (d: GeneratedDocument)
    ensures d.documentType == ApplicationForm && d.format == "json"
    ensures d.content == dump(FormDataOf(data))
  {
    GeneratedDocument(ApplicationForm, FormTitle, dump(FormDataOf(data)), "json")
  }

  // ---------------------------------------------------------------------
  // The application

  function Title(t: DocumentType): string
  {
    match t
    case CoveringLetter => "Covering Letter"
    case DesignStatement => "Design and Access Statement"
    case HeritageStatement => "Heritage Statement"
    case PlanningStatement => "Planning Statement"
    case ApplicationForm => FormTitle
    case TreeReport => "Tree Report"
    case CilForm => "CIL Form"
  }

  /** A markdown document of kind `t`, its body rendered by `render`. */
  function Markdown(t: DocumentType, data: ApplicationData, render: (DocumentType, ApplicationData) -> string): GeneratedDocument
  {
    GeneratedDocument(t, Title(t), render(t, data), "markdown")
  }

  /** The kinds of document an application gets, in order. */
  function ApplicationTypes(data: ApplicationData): seq<DocumentType>
  {
    [CoveringLetter, DesignStatement]
      + When(Truthy(data.site.conservationArea), [HeritageStatement])
      + When(data.applicationType in {Full, Outline}, [PlanningStatement])
      + [ApplicationForm]
  }

  predicate InTypeOrder(ts: seq<DocumentType>)
  {
    forall i, j :: 0 <= i < j < |ts| ==> ts[i].Rank() < ts[j].Rank()
  }

  /**
   * Three to five documents: covering letter and design statement first, the
   * heritage statement iff a conservation area is given, the planning
   * statement iff the application is full or outline, the form last, and no
   * kind twice.
   */
  lemma ApplicationTypesSpec(data: ApplicationData)
    ensures 3 <= |ApplicationTypes(data)| <= 5
    ensures ApplicationTypes(data)[0] == CoveringLetter && ApplicationTypes(data)[1] == DesignStatement
    ensures ApplicationTypes(data)[|ApplicationTypes(data)| - 1] == ApplicationForm
    ensures HeritageStatement in ApplicationTypes(data) <==> Truthy(data.site.conservationArea)
    ensures PlanningStatement in ApplicationTypes(data) <==> data.applicationType in {Full, Outline}
    ensures InTypeOrder(ApplicationTypes(data))
  {
  }

  /** Every document but the last is markdown rendered for its kind; the last is the form data. */
  method GenerateApplication(data: ApplicationData, render: (DocumentType, ApplicationData) -> string,
                             dump: FormData -> string)
    returns (documents: seq<GeneratedDocument>)
    ensures |documents| == |ApplicationTypes(data)|
    ensures forall k :: 0 <= k < |documents| ==> documents[k].documentType == ApplicationTypes(data)[k]
    ensures forall k :: 0 <= k < |documents| - 1 ==> documents[k] == Markdown(documents[k].documentType, data, render)
    ensures documents[|documents| - 1] == GenerateFormData(data, dump)
  {
    documents := [Markdown(CoveringLetter, data, render), Markdown(DesignStatement, data, render)];
    if Truthy(data.site.conservationArea) {
      documents := documents + [Markdown(HeritageStatement, data, render)];
    }
    if data.applicationType in {Full, Outline} {
      documents := documents + [Markdown(PlanningStatement, data, render)];
    }
    documents := documents + [GenerateFormData(data, dump)];
  }
}
