/**
 * The case endpoints: the detail view of one decision (its text, related
 * and similar cases, policy references and the officer's conclusion), the
 * filtered and paged case list, the planning history of a site, and the
 * document links.
 *
 * The database and the embedding search are inputs: a lookup result, the
 * rows a listing returns, the matches a search returns. The regular
 * expressions are given as oracles that return their captures.
 */
module Cases {
  import opened Common
  import opened PyStr
  import opened StrOrder
  import opened Planning
  import opened StableSort

  // ---------------------------------------------------------------------
  // Paging

  /** `(total + page_size - 1) // page_size`: the least number of pages that holds `total` rows. */
  function TotalPages(total: nat, pageSize: int): (r: nat)
    requires pageSize >= 1
    ensures r * pageSize >= total
    ensures r == 0 || (r - 1) * pageSize < total
  {
    var q := (total + pageSize - 1) / pageSize;
    var m := (total + pageSize - 1) % pageSize;
    assert q * pageSize + m == total + pageSize - 1;
    assert 0 <= m < pageSize;
    assert q * pageSize >= total;
    assert (q - 1) * pageSize == q * pageSize - pageSize;
    q
  }

  // ---------------------------------------------------------------------
  // Policy references

  /** The four reference patterns, each with the template its capture is written into. */
  datatype PolicyPattern = CamdenPolicy | NppfParagraph | LondonPlanPolicy | SectionRef
  {
    function Prefix(): string
    {
      match this
      case CamdenPolicy => "Camden Policy "
      case NppfParagraph => "NPPF paragraph "
      case LondonPlanPolicy => "London Plan Policy "
      case SectionRef => "Section "
    }

    /** `template.format(match)` */
    function Format(capture: string): string { Prefix() + capture }
  }

  const PolicyPatterns := [CamdenPolicy, NppfParagraph, LondonPlanPolicy, SectionRef]

  /** The references one pattern yields from its captures. */
  function Formatted(p: PolicyPattern, captures: seq<string>): set<string>
  {
    set c | c in captures :: p.Format(c)
  }

  /** The references the patterns `ps` yield from `text`, `findall` giving each pattern's captures. */
  function RefsOf(ps: seq<PolicyPattern>, text: string, findall: (PolicyPattern, string) -> seq<string>): set<string>
  {
    if ps == [] then {} else RefsOf(ps[..|ps| - 1], text, findall) + Formatted(ps[|ps| - 1], findall(ps[|ps| - 1], text))
  }

  /** `sorted(list(policies))[:20]` */
  function PolicyList(refs: set<string>): seq<string>
  {
    Sorted(refs)[..Min(|refs|, 20)]
  }

  /**
   * `_extract_policies`: every capture of every pattern, written into its
   * template, collected into a set, then the twenty least in order.
   */
  method ExtractPolicies(text: string, findall: (PolicyPattern, string) -> seq<string>) returns (r: seq<string>)
    ensures r == PolicyList(RefsOf(PolicyPatterns, text, findall))
  {
    var policies: set<string> := {};
    var i := 0;
    while i < |PolicyPatterns|
      invariant 0 <= i <= |PolicyPatterns|
      invariant policies == RefsOf(PolicyPatterns[..i], text, findall)
    {
      var p := PolicyPatterns[i];
      var matches := findall(p, text);
      var j := 0;
      while j < |matches|
        invariant 0 <= j <= |matches|
        invariant policies == RefsOf(PolicyPatterns[..i], text, findall) + Formatted(p, matches[..j])
      {
        assert matches[..j + 1] == matches[..j] + [matches[j]];
        policies := policies + {p.Format(matches[j])};
        j := j + 1;
      }
      assert matches[..j] == matches;
      assert PolicyPatterns[..i + 1][..i] == PolicyPatterns[..i];
      i := i + 1;
    }
    assert PolicyPatterns[..i] == PolicyPatterns;
    r := Sorted(policies)[..Min(|policies|, 20)];
  }

  /** Every reference is a capture written into one of the four templates. */
  lemma {:induction false} RefsFormatted(ps: seq<PolicyPattern>, text: string,
                                         findall: (PolicyPattern, string) -> seq<string>, x: string)
    requires x in RefsOf(ps, text, findall)
    ensures exists p, c :: p in ps && c in findall(p, text) && x == p.Format(c)
  {
    if x !in RefsOf(ps[..|ps| - 1], text, findall) {
      var p := ps[|ps| - 1];
      var c :| c in findall(p, text) && x == p.Format(c);
    } else {
      RefsFormatted(ps[..|ps| - 1], text, findall, x);
    }
  }

  /**
   * The list is ascending (so free of repeats), holds at most twenty
   * references, all of them collected ones, and is cut only when more than
   * twenty were found, keeping the least.
   */
  lemma PolicyListSpec(refs: set<string>)
    ensures var r := PolicyList(refs);
      && Ascending(r)
      && |r| == Min(|refs|, 20)
      && (forall x :: x in r ==> x in refs)
      && (|refs| <= 20 ==> forall x :: x in refs ==> x in r)
      && (forall x, y :: x in refs && x !in r && y in r ==> Less(y, x))
  {
    var s := Sorted(refs);
    SortedAscending(refs);
    forall x, y | x in refs && x !in PolicyList(refs) && y in PolicyList(refs)
      ensures Less(y, x)
    {
      SortedPrefixLeast(refs, 20, x);
    }
    assert |refs| <= 20 ==> PolicyList(refs) == s;
  }

  // ---------------------------------------------------------------------
  // Officer conclusions

  /** The three conclusion patterns, tried in this order. */
  datatype ConclusionPattern = ConclusionHeading | ConcludingPhrase | RecommendationSentence

  const ConclusionPatterns := [ConclusionHeading, ConcludingPhrase, RecommendationSentence]

  /** The capture of the first pattern that matches, `search` giving each pattern's first capture. */
  function FirstCapture(ps: seq<ConclusionPattern>, text: string,
                        search: (ConclusionPattern, string) -> Option<string>): (r: Option<string>)
    ensures r.None? <==> forall p :: p in ps ==> search(p, text).None?
    ensures r.Some? ==> exists k :: 0 <= k < |ps| && search(ps[k], text) == r
                                    && forall j :: 0 <= j < k ==> search(ps[j], text).None?
  {
    if ps == [] then None
    else if search(ps[0], text).Some? then search(ps[0], text)
    else
      var r := FirstCapture(ps[1..], text, search);
      assert forall p :: p in ps[1..] ==> p in ps;
      assert forall p :: p in ps ==> p == ps[0] || p in ps[1..];
      if r.Some? then
        var k :| 0 <= k < |ps| - 1 && search(ps[1..][k], text) == r
                 && forall j :: 0 <= j < k ==> search(ps[1..][j], text).None?;
        assert search(ps[k + 1], text) == r;
        r
      else r
  }

  /** The capture stripped, its whitespace runs made single spaces, cut to 500 characters. */
  function Tidy(capture: string): string
  {
    var c := CollapseSpace(Strip(capture));
    c[..Min(|c|, 500)]
  }

  /** `_extract_conclusions` */
  function ExtractConclusions(text: string, search: (ConclusionPattern, string) -> Option<string>): (r: Option<string>)
    ensures r.None? <==> forall p :: p in ConclusionPatterns ==> search(p, text).None?
    ensures r.Some? ==> FirstCapture(ConclusionPatterns, text, search).Some?
                        && r.value == Tidy(FirstCapture(ConclusionPatterns, text, search).value)
  {
    match FirstCapture(ConclusionPatterns, text, search)
    case None => None
    case Some(c) => Some(Tidy(c))
  }

  /**
   * A conclusion is at most 500 characters, starts with a non-space, and
   * holds no whitespace but single plain spaces; it is empty only for a
   * blank capture.
   */
  lemma TidyShape(capture: string)
    ensures var t := Tidy(capture);
      && |t| <= 500
      && (t == [] <==> IsBlank(capture))
      && (t != [] ==> !IsSpace(t[0]))
      && (forall i :: 0 <= i < |t| && IsSpace(t[i]) ==> t[i] == ' ')
      && (forall i :: 0 <= i < |t| - 1 ==> !(IsSpace(t[i]) && IsSpace(t[i + 1])))
  {
    StripShape(capture);
    CollapseSpaceShape(Strip(capture));
    var c := CollapseSpace(Strip(capture));
    var t := Tidy(capture);
    assert forall i :: 0 <= i < |t| ==> t[i] == c[i];
  }

  /** Up to the cut, the conclusion keeps every non-whitespace character of the capture. */
  lemma TidyKeepsText(capture: string)
    requires |CollapseSpace(Strip(capture))| <= 500
    ensures NonSpace(Tidy(capture)) == NonSpace(Strip(capture))
  {
    CollapseKeepsText(Strip(capture));
    var c := CollapseSpace(Strip(capture));
    assert c[..|c|] == c;
  }

  // ---------------------------------------------------------------------
  // Case detail

  /** At most five of `xs`, in order, skipping the requested case. */
  function OtherCases(xs: seq<PlanningDecision>, caseReference: string): (r: seq<PlanningDecision>)
    ensures |r| <= 5
    ensures forall d :: d in r ==> d in xs && d.caseReference != caseReference
  {
    var kept := Filter(xs, (d: PlanningDecision) => d.caseReference != caseReference);
    kept[..Min(|kept|, 5)]
  }

  /** At most five of the matches, in order, skipping the requested case. */
  function OtherMatches(xs: seq<PrecedentMatch>, caseReference: string): (r: seq<PrecedentMatch>)
    ensures |r| <= 5
    ensures forall m :: m in r ==> m in xs && m.decision.caseReference != caseReference
  {
    var kept := Filter(xs, (m: PrecedentMatch) => m.decision.caseReference != caseReference);
    kept[..Min(|kept|, 5)]
  }

  /** Only a shortage of other cases makes the list shorter than five. */
  lemma OtherCasesFull(xs: seq<PlanningDecision>, caseReference: string)
    ensures |OtherCases(xs, caseReference)| == Min(|Filter(xs, (d: PlanningDecision) => d.caseReference != caseReference)|, 5)
    ensures (forall d :: d in xs ==> d.caseReference != caseReference) && |xs| >= 5 ==> |OtherCases(xs, caseReference)| == 5
  {
    if forall d :: d in xs ==> d.caseReference != caseReference {
      assert forall k :: 0 <= k < |xs| ==> xs[k] in xs;
      FilterKeepsAll(xs, (d: PlanningDecision) => d.caseReference != caseReference);
    }
  }

  /**
   * The filter for cases at the same site: only a postcode prefix, and that
   * prefix is the postcode's first four characters (all of a shorter one).
   */
  function RelatedFilter(postcode: string): (f: SearchFilters)
    ensures f == NoFilters.(postcodePrefix := f.postcodePrefix)
    ensures f.postcodePrefix.Some? && f.postcodePrefix.value <= postcode
    ensures |f.postcodePrefix.value| == Min(|postcode|, 4)
  {
    NoFilters.(postcodePrefix := Some(postcode[..Min(|postcode|, 4)]))
  }

  datatype CaseDetail = CaseDetail(
    decision: PlanningDecision,
    fullText: string,
    relatedCases: seq<PlanningDecision>,
    similarCases: seq<PrecedentMatch>,
    keyPolicies: seq<string>,
    officerConclusions: Option<string>)

  /** What the similarity search is asked for: the description and the start of the first chunk. */
  function SimilarQuery(decision: PlanningDecision, firstChunk: string): string
  {
    decision.description + " " + firstChunk[..Min(|firstChunk|, 500)]
  }

  /**
   * `get_case_detail`. `decision` is the lookup by reference, `chunks` the
   * stored chunk texts, `listTen` the first ten decisions of a listing
   * under a filter, and `similar` the search for a query text with a limit
   * and a threshold (an error when the embedding call fails).
   */
  function GetCaseDetail(caseReference: string, includeSimilar: bool, decision: Option<PlanningDecision>,
                         chunks: seq<string>, listTen: SearchFilters -> seq<PlanningDecision>,
                         similar: (string, int, real) -> Result<seq<PrecedentMatch>>,
                         findall: (PolicyPattern, string) -> seq<string>,
                         search: (ConclusionPattern, string) -> Option<string>): (r: Response<CaseDetail>)
    ensures decision.None? ==> r == Fail(404, "Case not found")
    ensures r.Done? ==> decision.Some? && r.value.decision == decision.value
    ensures r.Done? ==> r.value.fullText == Join(chunks, "\n\n")
    ensures r.Done? ==> |r.value.relatedCases| <= 5 && |r.value.similarCases| <= 5
    ensures r.Done? ==> forall d :: d in r.value.relatedCases ==> d.caseReference != caseReference
    ensures r.Done? ==> forall m :: m in r.value.similarCases ==> m.decision.caseReference != caseReference
    ensures r.Done? && !IsSet(decision.value.postcode) ==> r.value.relatedCases == []
    ensures r.Done? && IsSet(decision.value.postcode) ==>
              forall d :: d in r.value.relatedCases ==> d in listTen(RelatedFilter(decision.value.postcode.value))
    ensures r.Done? && (!includeSimilar || chunks == []) ==> r.value.similarCases == []
    ensures r.Done? ==> r.value.keyPolicies == PolicyList(RefsOf(PolicyPatterns, Join(chunks, "\n\n"), findall))
    ensures r.Done? ==> r.value.officerConclusions == ExtractConclusions(Join(chunks, "\n\n"), search)
    ensures r.Fail? && decision.Some? ==> includeSimilar && chunks != [] && r.status == 500
  {
    if decision.None? then Fail(404, "Case not found")
    else
      var d := decision.value;
      var fullText := if chunks != [] then Join(chunks, "\n\n") else "";
      var related := if IsSet(d.postcode) then OtherCases(listTen(RelatedFilter(d.postcode.value)), caseReference) else [];
      var found := if includeSimilar && chunks != [] then similar(SimilarQuery(d, chunks[0]), 6, 0.65) else Ok([]);
      if found.Err? then Fail(500, found.msg)
      else
        Done(CaseDetail(d, fullText, related, OtherMatches(found.value, caseReference),
                        PolicyList(RefsOf(PolicyPatterns, fullText, findall)),
                        ExtractConclusions(fullText, search)))
  }

  // ---------------------------------------------------------------------
  // Case list

  const InvalidOutcome := "Invalid outcome. Valid values: ['Granted', 'Refused', 'Withdrawn', 'Pending', 'Appeal Allowed', 'Appeal Dismissed']"

  /**
   * The filters `list_cases` builds: the dates and the listed-building flag
   * as given, the ward when one is given, and the outcome and development
   * type when given and valid; an invalid one is 400, the outcome checked
   * first. The conservation-area flag is accepted and not used.
   */
  function ListFilters(ward: Option<string>, outcome: Option<string>, developmentType: Option<string>,
                       dateFrom: Option<int>, dateTo: Option<int>, conservationArea: bool,
                       listedBuilding: bool): (r: Response<SearchFilters>)
    ensures r.Fail? <==> (IsSet(outcome) && OutcomeFromValue(outcome.value).None?)
                         || (IsSet(developmentType) && DevelopmentTypeFromValue(developmentType.value).None?)
    ensures r.Fail? ==> r.status == 400
    ensures r.Fail? && IsSet(outcome) && OutcomeFromValue(outcome.value).None? ==> r.detail == InvalidOutcome
    ensures r.Done? ==> var f := r.value;
      && f.dateFrom == dateFrom && f.dateTo == dateTo && f.listedBuildingOnly == listedBuilding
      && f.wards == (if IsSet(ward) then Some([ward.value]) else None)
      && f.outcome == (if IsSet(outcome) then OutcomeFromValue(outcome.value) else None)
      && f.developmentTypes == (if IsSet(developmentType) then Some([DevelopmentTypeFromValue(developmentType.value).value]) else None)
      && f.propertyTypes.None? && f.conservationAreas.None? && f.postcodePrefix.None?
  {
    var f := NoFilters.(dateFrom := dateFrom, dateTo := dateTo, listedBuildingOnly := listedBuilding);
    var f := if IsSet(ward) then f.(wards := Some([ward.value])) else f;
    if IsSet(outcome) && OutcomeFromValue(outcome.value).None? then Fail(400, InvalidOutcome)
    else
      var f := if IsSet(outcome) then f.(outcome := OutcomeFromValue(outcome.value)) else f;
      if IsSet(developmentType) && DevelopmentTypeFromValue(developmentType.value).None? then
        Fail(400, "Invalid development type")
      else if IsSet(developmentType) then Done(f.(developmentTypes := Some([DevelopmentTypeFromValue(developmentType.value).value])))
      else Done(f)
  }

  /** Every outcome's own name is accepted, and the filter then holds that outcome. */
  lemma ListFiltersAcceptOutcomes(o: Outcome)
    ensures var r := ListFilters(None, Some(o.Value()), None, None, None, false, false);
      r.Done? && r.value.outcome == Some(o)
  {
    OutcomeRoundTrip(o);
  }

  /** The conservation-area flag changes nothing. */
  lemma ListFiltersIgnoreConservationArea(ward: Option<string>, outcome: Option<string>, developmentType: Option<string>,
                                          dateFrom: Option<int>, dateTo: Option<int>, listedBuilding: bool)
    ensures ListFilters(ward, outcome, developmentType, dateFrom, dateTo, true, listedBuilding)
         == ListFilters(ward, outcome, developmentType, dateFrom, dateTo, false, listedBuilding)
  {
  }

  datatype CasePage = CasePage(cases: seq<PlanningDecision>, total: nat, page: int, pageSize: int, totalPages: nat)

  /** `list_cases` once the listing has returned its page and the total count. */
  function ListCases(filters: Response<SearchFilters>, page: int, pageSize: int,
                     list: (SearchFilters, int, int) -> (seq<PlanningDecision>, nat)): (r: Response<CasePage>)
    requires page >= 1 && 1 <= pageSize <= 100
    ensures r.Fail? <==> filters.Fail?
    ensures r.Done? ==> var res := list(filters.value, page, pageSize);
      && r.value.cases == res.0 && r.value.total == res.1 && r.value.page == page && r.value.pageSize == pageSize
      && r.value.totalPages * pageSize >= res.1 && (r.value.totalPages == 0 || (r.value.totalPages - 1) * pageSize < res.1)
  {
    if filters.Fail? then Fail(filters.status, filters.detail)
    else
      var res := list(filters.value, page, pageSize);
      Done(CasePage(res.0, res.1, page, pageSize, TotalPages(res.1, pageSize)))
  }

  // ---------------------------------------------------------------------
  // Timeline

  /** Same site: either lower-cased address contains the other, or both have the same postcode. */
  predicate SameSite(site: PlanningDecision, d: PlanningDecision)
  {
    Contains(Lower(d.address), Lower(site.address))
    || Contains(Lower(site.address), Lower(d.address))
    || (IsSet(d.postcode) && IsSet(site.postcode) && d.postcode == site.postcode)
  }

  /** The sort key of `timeline.sort`. */
  function DateKey(d: PlanningDecision): real { d.decisionDate as real }

  datatype TimelineEntry = TimelineEntry(caseReference: string, date: int, description: string,
                                         outcome: string, developmentType: Option<string>)

  datatype Timeline = Timeline(address: string, postcode: Option<string>, entries: seq<TimelineEntry>, totalApplications: nat)

  function Entry(d: PlanningDecision): TimelineEntry
  {
    TimelineEntry(d.caseReference, d.decisionDate, d.description[..Min(|d.description|, 200)], d.outcome.Value(),
                  if d.developmentType.Some? then Some(d.developmentType.value.Value()) else None)
  }

  /** The listed decisions at the same site as `site`, sorted by date. */
  function SiteHistory(site: PlanningDecision, listed: seq<PlanningDecision>): seq<PlanningDecision>
  {
    SortBy(Filter(listed, d => SameSite(site, d)), DateKey)
  }

  /**
   * The history holds exactly the listed decisions at the same site, oldest
   * first, and decisions of the same day stay in listing order.
   */
  lemma SiteHistorySpec(site: PlanningDecision, listed: seq<PlanningDecision>, day: real)
    ensures var h := SiteHistory(site, listed);
      && multiset(h) == multiset(Filter(listed, d => SameSite(site, d)))
      && (forall d :: d in h ==> d in listed && SameSite(site, d))
      && (forall i, j :: 0 <= i < j < |h| ==> h[i].decisionDate <= h[j].decisionDate)
      && Filter(h, KeyIs(DateKey, day)) == Filter(Filter(listed, d => SameSite(site, d)), KeyIs(DateKey, day))
  {
    var kept := Filter(listed, d => SameSite(site, d));
    var h := SiteHistory(site, listed);
    SortBySorted(kept, DateKey);
    SortByStable(kept, DateKey, day);
    forall d | d in h ensures d in listed && SameSite(site, d) {
      assert d in multiset(h);
      assert d in multiset(kept);
    }
  }

  /**
   * `get_case_timeline`: 404 for an unknown case; otherwise one entry per
   * decision of the site's history, in its order.
   */
  function GetCaseTimeline(decision: Option<PlanningDecision>, listed: seq<PlanningDecision>): (r: Response<Timeline>)
    ensures r.Fail? <==> decision.None?
    ensures r.Fail? ==> r.status == 404
    ensures r.Done? ==> var site := decision.value; var h := SiteHistory(site, listed);
      && r.value.address == site.address && r.value.postcode == site.postcode
      && r.value.totalApplications == |r.value.entries| == |h|
      && (forall i :: 0 <= i < |h| ==> r.value.entries[i] == Entry(h[i]))
      && (forall e :: e in r.value.entries ==> |e.description| <= 200)
  {
    if decision.None? then Fail(404, "Case not found")
    else
      var site := decision.value;
      var timeline := SiteHistory(site, listed);
      var entries := seq(|timeline|, i requires 0 <= i < |timeline| => Entry(timeline[i]));
      Done(Timeline(site.address, site.postcode, entries, |entries|))
  }

  // ---------------------------------------------------------------------
  // Documents

  datatype DocumentLink = DocumentLink(kind: string, url: string, description: string)

  const PortalBase := "https://planningrecords.camden.gov.uk/Northgate/PlanningExplorer/Generic/StdDetails.aspx?PT=Planning%20Applications%20702&PARAM0="

  /**
   * `get_case_documents`: 404 for an unknown case; otherwise the decision
   * notice and the officer report when their links are known, then always
   * the council-portal page of the case.
   */
  method GetCaseDocuments(caseReference: string, decision: Option<PlanningDecision>) returns (r: Response<seq<DocumentLink>>)
    ensures r.Fail? <==> decision.None?
    ensures r.Fail? ==> r.status == 404
    ensures r.Done? ==> var docs := r.value; var d := decision.value;
      && |docs| == 1 + (if IsSet(d.decisionNoticeUrl) then 1 else 0) + (if IsSet(d.officerReportUrl) then 1 else 0)
      && docs[|docs| - 1] == DocumentLink("Council Portal", PortalBase + caseReference, "View on Camden Council's planning portal")
      && (IsSet(d.decisionNoticeUrl) ==> docs[0].kind == "Decision Notice" && docs[0].url == d.decisionNoticeUrl.value)
      && (IsSet(d.officerReportUrl) ==> docs[|docs| - 2].kind == "Officer Report" && docs[|docs| - 2].url == d.officerReportUrl.value)
  {
    if decision.None? {
      return Fail(404, "Case not found");
    }
    var d := decision.value;
    var documents: seq<DocumentLink> := [];
    if IsSet(d.decisionNoticeUrl) {
      documents := documents + [DocumentLink("Decision Notice", d.decisionNoticeUrl.value, "The formal decision notice from Camden Council")];
    }
    if IsSet(d.officerReportUrl) {
      documents := documents + [DocumentLink("Officer Report", d.officerReportUrl.value, "The delegated report with officer assessment")];
    }
    documents := documents + [DocumentLink("Council Portal", PortalBase + caseReference, "View on Camden Council's planning portal")];
    r := Done(documents);
  }
}
