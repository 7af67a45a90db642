// The fixed registry of planning-document templates, the category listing,
// the Markdown skeleton a template renders to, and the per-section prompt and
// word-count tables.

module DocumentTemplates {
  import opened Common
  import opened PyStr

  datatype TemplateCategory = Householder | Commercial | ListedBuilding | Conservation | Appeal
  {
    function Value(): string
    {
      match this
      case Householder => "householder"
      case Commercial => "commercial"
      case ListedBuilding => "listed_building"
      case Conservation => "conservation"
      case Appeal => "appeal"
    }
  }

  datatype Section = Section(id: string, title: string, required: bool)

  datatype DocumentTemplate = DocumentTemplate(
    id: string,
    name: string,
    category: TemplateCategory,
    description: string,
    sections: seq<Section>,
    variables: seq<string>)

  const RearExtension: DocumentTemplate := DocumentTemplate(
    "rear_extension", "Rear Extension Design Statement", Householder,
    "Design statement for single/double storey rear extensions",
    [Section("intro", "Introduction", true), Section("site", "Site Analysis", true),
     Section("proposal", "The Proposal", true), Section("design", "Design Rationale", true),
     Section("materials", "Materials", true), Section("impact", "Neighbour Impact", true),
     Section("policy", "Policy Compliance", true), Section("conclusion", "Conclusion", true)],
    ["site_address", "postcode", "ward", "extension_depth", "extension_height", "materials", "conservation_area"])

  const BasementExtension: DocumentTemplate := DocumentTemplate(
    "basement_extension", "Basement Extension Statement", Householder,
    "Design and impact statement for basement developments",
    [Section("intro", "Introduction", true), Section("site", "Site Analysis", true),
     Section("basement", "Basement Proposal", true), Section("lightwell", "Lightwell Design", true),
     Section("garden", "Garden Retention", true), Section("structural", "Structural Approach", true),
     Section("drainage", "Drainage Strategy", true), Section("construction", "Construction Management", true),
     Section("policy", "Policy Compliance", true)],
    ["site_address", "basement_depth", "basement_extent", "lightwell_dimensions", "garden_retention_percentage"])

  const LoftConversion: DocumentTemplate := DocumentTemplate(
    "loft_conversion", "Loft Conversion Statement", Householder,
    "Design statement for loft conversions and dormers",
    [Section("intro", "Introduction", true), Section("site", "Site and Street Context", true),
     Section("proposal", "The Proposal", true), Section("dormer", "Dormer Design", true),
     Section("roofscape", "Roofscape Analysis", true), Section("materials", "Materials", true),
     Section("policy", "Policy Compliance", true)],
    ["site_address", "dormer_width", "dormer_type", "roof_materials", "window_type"])

  const HeritageStatement: DocumentTemplate := DocumentTemplate(
    "heritage_statement", "Heritage Impact Assessment", Conservation,
    "Heritage statement for conservation areas and listed buildings",
    [Section("intro", "Introduction", true), Section("statutory", "Statutory Framework", true),
     Section("history", "Historical Development", true), Section("significance", "Heritage Significance", true),
     Section("impact", "Impact Assessment", true), Section("justification", "Justification", true),
     Section("conclusion", "Conclusion", true)],
    ["site_address", "conservation_area", "listed_grade", "designation_date", "special_interest"])

  const AppealStatement: DocumentTemplate := DocumentTemplate(
    "appeal_statement", "Appeal Statement", Appeal,
    "Statement in support of planning appeal",
    [Section("intro", "Introduction", true), Section("background", "Application Background", true),
     Section("refusal", "Reason for Refusal", true), Section("grounds", "Grounds of Appeal", true),
     Section("precedents", "Relevant Precedents", true), Section("inspector", "Appeal Decisions", true),
     Section("conclusion", "Conclusion", true)],
    ["site_address", "application_reference", "refusal_date", "refusal_reasons", "appeal_type"])

  const CoveringLetter: DocumentTemplate := DocumentTemplate(
    "covering_letter", "Application Covering Letter", Householder,
    "Standard covering letter for planning applications",
    [Section("addressee", "Addressee", true), Section("subject", "Subject", true),
     Section("application", "Application Details", true), Section("documents", "Enclosed Documents", true),
     Section("fee", "Fee", true), Section("summary", "Proposal Summary", true),
     Section("closing", "Closing", true)],
    ["site_address", "application_type", "proposal_description", "fee_amount", "applicant_name", "agent_name"])

  /** The registry, in the dictionary's insertion order. */
  const Registry: seq<DocumentTemplate> :=
    [RearExtension, BasementExtension, LoftConversion, HeritageStatement, AppealStatement, CoveringLetter]

  // ---------------------------------------------------------------------
  // Lookup and listing
  // ---------------------------------------------------------------------

  /** The first template of `ts` with the given id (a dictionary `get`). */
  function Find(ts: seq<DocumentTemplate>, id: string): (r: Option<DocumentTemplate>)
    ensures r.Some? ==> r.value in ts && r.value.id == id
    ensures r.None? <==> forall k :: 0 <= k < |ts| ==> ts[k].id != id
  {
    if ts == [] then None
    else if ts[0].id == id then Some(ts[0])
    else Find(ts[1..], id)
  }

  predicate IdsDistinct(ts: seq<DocumentTemplate>)
  {
    forall i, j :: 0 <= i < j < |ts| ==> ts[i].id != ts[j].id
  }

  lemma {:induction false} FindDistinct(ts: seq<DocumentTemplate>, k: nat)
    requires IdsDistinct(ts) && k < |ts|
    ensures Find(ts, ts[k].id) == Some(ts[k])
    decreases k
  {
    if k > 0 {
      assert ts[0].id != ts[k].id;
      FindDistinct(ts[1..], k - 1);
    }
  }

  lemma RegistryIdsDistinct()
    ensures |Registry| == 6 && IdsDistinct(Registry)
  {
  }

  /** A dictionary `get`: None exactly when no template has the id. */
  function GetTemplate(id: string): (r: Option<DocumentTemplate>)
    ensures r.Some? ==> r.value in Registry && r.value.id == id
    ensures r.None? <==> forall k :: 0 <= k < |Registry| ==> Registry[k].id != id
  {
    Find(Registry, id)
  }

  /** Every registered template is found under its own id. */
  lemma GetTemplateRoundTrip(k: nat)
    requires k < |Registry|
    ensures GetTemplate(Registry[k].id) == Some(Registry[k])
  {
    RegistryIdsDistinct();
    FindDistinct(Registry, k);
  }

  predicate InCategory(c: TemplateCategory, t: DocumentTemplate) { t.category == c }

  /** All templates without a category, else that category's templates, in registry order. */
  function ListTemplates(category: Option<TemplateCategory>): seq<DocumentTemplate>
  {
    if category.None? then Registry else Filter(Registry, t => InCategory(category.value, t))
  }

  lemma ListTemplatesSpec(category: Option<TemplateCategory>)
    ensures category.None? ==> ListTemplates(category) == Registry
    ensures category.Some? ==>
              forall t :: t in ListTemplates(category) <==> t in Registry && t.category == category.value
  {
    if category.Some? {
      var p := t => InCategory(category.value, t);
      forall t | t in Registry && t.category == category.value
        ensures t in ListTemplates(category)
      {
        FilterMember(Registry, p, t);
      }
    }
  }

  /** Position of the template with this id in `ts` (|ts| when absent). */
  function IndexOfId(ts: seq<DocumentTemplate>, id: string): nat
  {
    if ts == [] then 0 else if ts[0].id == id then 0 else 1 + IndexOfId(ts[1..], id)
  }

  lemma {:induction false} IndexOfDistinct(ts: seq<DocumentTemplate>, k: nat)
    requires IdsDistinct(ts) && k < |ts|
    ensures IndexOfId(ts, ts[k].id) == k
    decreases k
  {
    if k > 0 {
      assert ts[0].id != ts[k].id;
      IndexOfDistinct(ts[1..], k - 1);
    }
  }

  function RegistryIndex(t: DocumentTemplate): int { IndexOfId(Registry, t.id) }

  /** Listed templates come in registry order. */
  lemma ListTemplatesOrder(category: Option<TemplateCategory>)
    ensures forall i, j :: 0 <= i < j < |ListTemplates(category)| ==>
              RegistryIndex(ListTemplates(category)[i]) < RegistryIndex(ListTemplates(category)[j])
  {
    RegistryIdsDistinct();
    forall k | 0 <= k < |Registry|
      ensures RegistryIndex(Registry[k]) == k
    {
      IndexOfDistinct(Registry, k);
    }
    if category.Some? {
      FilterIncreasing(Registry, t => InCategory(category.value, t), RegistryIndex);
    }
  }

  // ---------------------------------------------------------------------
  // Rendering
  // ---------------------------------------------------------------------

  const AddressPlaceholder: string := "[Address]"

  /** The supplied site address, even an empty one, else the placeholder. */
  function SiteLine(variables: map<string, string>): (r: string)
    ensures "site_address" in variables ==> r == "**Site:** " + variables["site_address"]
    ensures "site_address" !in variables ==> r == "**Site:** " + AddressPlaceholder
  {
    "**Site:** " + (if "site_address" in variables then variables["site_address"] else AddressPlaceholder)
  }

  function HeaderLines(t: DocumentTemplate, variables: map<string, string>): seq<string>
  {
    ["# " + t.name, "", SiteLine(variables), "**Date:** [Date]", "", "---", ""]
  }

  /** Supplied non-empty content, else a placeholder naming the section. */
  function SectionBody(s: Section, content: map<string, string>): (r: string)
    ensures s.id in content && content[s.id] != "" ==> r == content[s.id]
    ensures !(s.id in content && content[s.id] != "") ==> r == "[" + s.title + " content]"
  {
    if s.id in content && content[s.id] != "" then content[s.id] else "[" + s.title + " content]"
  }

  function Heading(n: nat, s: Section): string
  {
    "## " + NatToString(n) + ". " + s.title
  }

  /** The four lines of the section numbered `n`. */
  function SectionLines(n: nat, s: Section, content: map<string, string>): seq<string>
  {
    [Heading(n, s), "", SectionBody(s, content), ""]
  }

  function BodyLines(sections: seq<Section>, content: map<string, string>): seq<string>
  {
    if sections == [] then []
    else BodyLines(sections[..|sections| - 1], content)
         + SectionLines(|sections|, sections[|sections| - 1], content)
  }

  function RenderedLines(t: DocumentTemplate, variables: map<string, string>, content: map<string, string>)
    : seq<string>
  {
    HeaderLines(t, variables) + BodyLines(t.sections, content)
  }

  method RenderSections(sections: seq<Section>, content: map<string, string>) returns (body: seq<string>)
    ensures body == BodyLines(sections, content)
  {
    body := [];
    var i := 0;
    while i < |sections|
      invariant 0 <= i <= |sections|
      invariant body == BodyLines(sections[..i], content)
    {
      assert sections[..i + 1][..i] == sections[..i];
      body := body + SectionLines(i + 1, sections[i], content);
      i := i + 1;
    }
    assert sections[..i] == sections;
  }

  /** An unknown id renders to None; otherwise the lines joined with newlines. */
  method RenderTemplate(templateId: string, variables: map<string, string>, content: map<string, string>)
    returns (r: Option<string>)
    ensures r.None? <==> GetTemplate(templateId).None?
    ensures r.Some? ==> r.value == Join(RenderedLines(GetTemplate(templateId).value, variables, content), "\n")
  {
    var template := GetTemplate(templateId);
    if template.None? {
      return None;
    }
    var t := template.value;
    var header := HeaderLines(t, variables);
    var body := RenderSections(t.sections, content);
    r := Some(Join(header + body, "\n"));
  }

  /** Section k (from 0) occupies lines 4k .. 4k + 4 of the body, numbered k + 1. */
  lemma {:induction false} BodyLayout(sections: seq<Section>, content: map<string, string>)
    ensures |BodyLines(sections, content)| == 4 * |sections|
    ensures forall k :: 0 <= k < |sections| ==>
              BodyLines(sections, content)[4 * k .. 4 * k + 4] == SectionLines(k + 1, sections[k], content)
    decreases |sections|
  {
    if sections != [] {
      var init := sections[..|sections| - 1];
      BodyLayout(init, content);
      var b := BodyLines(sections, content);
      forall k | 0 <= k < |sections|
        ensures b[4 * k .. 4 * k + 4] == SectionLines(k + 1, sections[k], content)
      {
        if k < |init| {
          assert b[4 * k .. 4 * k + 4] == BodyLines(init, content)[4 * k .. 4 * k + 4];
          assert sections[k] == init[k];
        }
      }
    }
  }

  /**
   * Seven header lines (title, site, date, rule) and four lines per section:
   * the numbered heading, a blank, the body and a blank.
   */
  lemma RenderedLayout(t: DocumentTemplate, variables: map<string, string>, content: map<string, string>)
    ensures |RenderedLines(t, variables, content)| == 7 + 4 * |t.sections|
    ensures RenderedLines(t, variables, content)[0] == "# " + t.name
    ensures RenderedLines(t, variables, content)[2] == SiteLine(variables)
    ensures forall k :: 0 <= k < |t.sections| ==>
              RenderedLines(t, variables, content)[7 + 4 * k .. 7 + 4 * k + 4]
              == SectionLines(k + 1, t.sections[k], content)
  {
    BodyLayout(t.sections, content);
    var lines := RenderedLines(t, variables, content);
    var body := BodyLines(t.sections, content);
    forall k | 0 <= k < |t.sections|
      ensures lines[7 + 4 * k .. 7 + 4 * k + 4] == SectionLines(k + 1, t.sections[k], content)
    {
      assert lines[7 + 4 * k .. 7 + 4 * k + 4] == body[4 * k .. 4 * k + 4];
    }
  }

  // ---------------------------------------------------------------------
  // Section prompts and word counts
  // ---------------------------------------------------------------------

  const SectionPromptTable: map<string, string> := map[
    "intro" := "Introduce the application, identifying the site and proposal briefly.",
    "site" := "Describe the site location, existing building, and surrounding context.",
    "proposal" := "Describe the proposed development in detail.",
    "design" := "Explain the design approach and how it responds to context.",
    "materials" := "Specify proposed materials and justify their selection.",
    "impact" := "Assess impact on neighbouring amenity (daylight, privacy, outlook).",
    "policy" := "Demonstrate compliance with relevant planning policies.",
    "conclusion" := "Summarise why the proposal should be approved.",
    "significance" := "Explain the heritage significance of the asset.",
    "justification" := "Justify any impact on heritage significance.",
    "refusal" := "Set out the Council's reasons for refusal.",
    "grounds" := "Present the grounds on which the appeal is made.",
    "precedents" := "Present relevant precedent cases that support the proposal."
  ]

  const WordCountTable: map<string, int> := map[
    "intro" := 150, "site" := 300, "proposal" := 400, "design" := 500, "materials" := 200,
    "impact" := 400, "policy" := 600, "conclusion" := 200, "significance" := 500,
    "justification" := 400, "refusal" := 300, "grounds" := 800, "precedents" := 500
  ]

  /** The template id is not consulted. */
  function GetSectionPrompts(templateId: string): map<string, string>
  {
    SectionPromptTable
  }

  /** The template id is not consulted. */
  function GetWordCounts(templateId: string): map<string, int>
  {
    WordCountTable
  }

  const TableIds: set<string> := {
    "intro", "site", "proposal", "design", "materials", "impact", "policy", "conclusion",
    "significance", "justification", "refusal", "grounds", "precedents"
  }

  lemma PromptTableKeys()
    ensures SectionPromptTable.Keys == TableIds
  {
  }

  lemma WordCountTableKeys()
    ensures WordCountTable.Keys == TableIds
  {
  }

  /** Whatever the template, prompts and word counts cover the same section ids. */
  lemma PromptAndCountTablesAgree(templateId: string)
    ensures GetSectionPrompts(templateId).Keys == GetWordCounts(templateId).Keys
  {
    PromptTableKeys();
    WordCountTableKeys();
  }

  /** Every recommended count lies in 150..800. */
  lemma WordCountsInRange(templateId: string)
    ensures forall id :: id in GetWordCounts(templateId) ==> 150 <= GetWordCounts(templateId)[id] <= 800
  {
  }

  /** Every section of the rear-extension template has a prompt and a word count. */
  lemma RearExtensionCovered()
    ensures forall k :: 0 <= k < |RearExtension.sections| ==>
              RearExtension.sections[k].id in SectionPromptTable && RearExtension.sections[k].id in WordCountTable
  {
  }
}
