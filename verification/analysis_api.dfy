/**
 * The analysis endpoints: how each handler turns its request into a
 * precedent search, the guards that reject a request before any work, and
 * the rule that rates the strength of an appeal from the approved
 * precedents found.
 *
 * The embedding, the search and the written analysis are what the other
 * services return; here they are inputs.
 */
module AnalysisApi {
  import opened Common
  import opened Planning
  import opened Retriever
  import PyStr

  // ---------------------------------------------------------------------
  // Dates

  /**
   * The calendar year of a day number, day 1 being 0001-01-01 in the
   * proleptic Gregorian calendar (the numbering of `date.toordinal()`).
   */
  function YearOf(ordinal: int): int
  {
    var n := ordinal - 1;
    var n400 := n / 146097;
    var r400 := n % 146097;
    var n100 := r400 / 36524;
    var r100 := r400 % 36524;
    var n4 := r100 / 1461;
    var r4 := r100 % 1461;
    var n1 := r4 / 365;
    var year := n400 * 400 + 1 + n100 * 100 + n4 * 4 + n1;
    if n1 == 4 || n100 == 4 then year - 1 else year
  }

  /** 2022-01-01 is day 738156 and 2021-12-31 the day before; 2024-12-31 is day 739251. */
  lemma YearOfExamples()
    ensures YearOf(738155) == 2021 && YearOf(738156) == 2022 && YearOf(739251) == 2024
  {
  }

  // ---------------------------------------------------------------------
  // Appeal strength

  datatype Rating = Strong | Moderate | Weak

  datatype Strength = Strength(rating: Rating, score: real, reason: string)

  /** The year the handler counts back from. */
  const ReferenceYear := 2024

  /** Decided in 2022 or later: at most two years before the fixed reference year. */
  predicate Recent(p: PrecedentMatch)
  {
    ReferenceYear - YearOf(p.decision.decisionDate) <= 2
  }

  function SimilaritySum(ps: seq<PrecedentMatch>): real
  {
    if ps == [] then 0.0 else SimilaritySum(ps[..|ps| - 1]) + ps[|ps| - 1].similarityScore
  }

  /** A mean above `c` is a sum above `c` times the count. */
  lemma MeanAbove(sum: real, n: nat, c: real)
    requires n > 0
    ensures sum / (n as real) > c <==> sum > c * (n as real)
  {
  }

  /** Similarity above 0.8 on average (stated without division) and three recent precedents. */
  predicate StrongSupport(ps: seq<PrecedentMatch>)
  {
    SimilaritySum(ps) > 0.8 * (|ps| as real) && CountWhere(ps, Recent) >= 3
  }

  /** Similarity above 0.7 on average, or two recent precedents. */
  predicate ModerateSupport(ps: seq<PrecedentMatch>)
  {
    SimilaritySum(ps) > 0.7 * (|ps| as real) || CountWhere(ps, Recent) >= 2
  }

  const NoPrecedents := "No similar approved precedents found"

  const StrongReasonTail := " recent similar approvals with high similarity"

  /** The reason of a strong rating, naming how many precedents are recent. */
  function StrongReason(recent: nat): string
  {
    "Found " + PyStr.NatToString(recent) + StrongReasonTail
  }

  /** The count a strong rating's reason names can be read back from it. */
  lemma StrongReasonNamesCount(recent: nat)
    ensures var reason := StrongReason(recent);
      |reason| > 6 + |StrongReasonTail|
      && PyStr.DigitsValue(reason[6..|reason| - |StrongReasonTail|]) == recent
  {
    var reason := StrongReason(recent);
    assert reason[6..|reason| - |StrongReasonTail|] == PyStr.NatToString(recent);
    PyStr.NatToStringRoundTrip(recent);
  }

  /**
   * `_assess_appeal_strength`: Weak (0.2) with no precedents; otherwise
   * Strong (0.85) when the mean similarity exceeds 0.8 and at least three
   * are recent, else Moderate (0.6) when the mean exceeds 0.7 or at least
   * two are recent, else Weak (0.35).
   */
  function AssessAppealStrength(ps: seq<PrecedentMatch>): (r: Strength)
    ensures ps == [] ==> r == Strength(Weak, 0.2, NoPrecedents)
    ensures ps != [] ==> (r.rating == Strong <==> StrongSupport(ps))
    ensures ps != [] ==> (r.rating == Moderate <==> !StrongSupport(ps) && ModerateSupport(ps))
    ensures ps != [] ==> r.score == (match r.rating case Strong => 0.85 case Moderate => 0.6 case Weak => 0.35)
    ensures ps != [] && r.rating == Strong ==> r.reason == StrongReason(CountWhere(ps, Recent))
  {
    if ps == [] then Strength(Weak, 0.2, NoPrecedents)
    else
      var avg := SimilaritySum(ps) / (|ps| as real);
      var recent := CountWhere(ps, Recent);
      MeanAbove(SimilaritySum(ps), |ps|, 0.8);
      MeanAbove(SimilaritySum(ps), |ps|, 0.7);
      if avg > 0.8 && recent >= 3 then Strength(Strong, 0.85, StrongReason(recent))
      else if avg > 0.7 || recent >= 2 then Strength(Moderate, 0.6, "Reasonable precedent support exists")
      else Strength(Weak, 0.35, "Limited precedent support - design amendments recommended")
  }

  /** A strong rating needs three precedents from 2022 on, and any precedent lifts the score above the empty case. */
  lemma StrongNeedsRecentCases(ps: seq<PrecedentMatch>)
    ensures AssessAppealStrength(ps).rating == Strong ==> |ps| >= 3
    ensures AssessAppealStrength(ps).rating == Strong ==> exists i :: 0 <= i < |ps| && YearOf(ps[i].decision.decisionDate) >= 2022
    ensures ps != [] ==> AssessAppealStrength(ps).score > AssessAppealStrength([]).score
  {
    if AssessAppealStrength(ps).rating == Strong {
      var i := RecentWitness(ps);
    }
  }

  /** The position of a recent precedent, when some precedent is recent. */
  lemma {:induction false} RecentWitness(ps: seq<PrecedentMatch>) returns (i: nat)
    requires CountWhere(ps, Recent) > 0
    ensures i < |ps| && Recent(ps[i])
  {
    if Recent(ps[|ps| - 1]) {
      i := |ps| - 1;
    } else {
      i := RecentWitness(ps[..|ps| - 1]);
    }
  }

  // ---------------------------------------------------------------------
  // Handlers

  datatype AnalysisRequest = AnalysisRequest(query: string, address: Option<string>, ward: Option<string>,
                                             conservationArea: Option<ConservationAreaStatus>,
                                             includeCounterArguments: bool)

  /** How a handler calls `search_similar`. */
  datatype SearchCall = SearchCall(filters: SearchFilters, limit: int, threshold: real, includeRefused: bool)

  /** The search of `analyse_development`: ten results at 0.65, refused cases only when counter-arguments are wanted. */
  function AnalyseSearch(req: AnalysisRequest): (c: SearchCall)
    ensures c.limit == 10 && c.threshold == 0.65 && c.includeRefused == req.includeCounterArguments
    ensures c.filters.wards == (if IsSet(req.ward) then Some([req.ward.value]) else None)
    ensures c.filters.conservationAreas == (if req.conservationArea.Some? then Some([req.conservationArea.value]) else None)
    ensures c.filters == NoFilters.(wards := c.filters.wards, conservationAreas := c.filters.conservationAreas)
  {
    var f := NoFilters;
    var f := if IsSet(req.ward) then f.(wards := Some([req.ward.value])) else f;
    var f := if req.conservationArea.Some? then f.(conservationAreas := Some([req.conservationArea.value])) else f;
    SearchCall(f, 10, 0.65, req.includeCounterArguments)
  }

  /**
   * The RPC parameters `analyse_development` ends up sending: twenty rows
   * at 0.65, the ward when one is given, and the outcome filter "Granted"
   * exactly when counter-arguments are not wanted.
   */
  lemma AnalyseSearchParams(req: AnalysisRequest, embedding: seq<real>)
    ensures var c := AnalyseSearch(req);
      var p := SearchParams(embedding, Some(c.filters), c.limit, c.threshold, c.includeRefused);
      && p["match_count"] == Count(20) && p["match_threshold"] == Number(0.65)
      && ("filter_outcome" in p <==> !req.includeCounterArguments)
      && ("filter_wards" in p <==> IsSet(req.ward))
      && (IsSet(req.ward) ==> p["filter_wards"] == Names([req.ward.value]))
      && "filter_date_from" !in p && "filter_date_to" !in p && "filter_development_types" !in p
  {
    var c := AnalyseSearch(req);
    SearchParamsBase(embedding, Some(c.filters), c.limit, c.threshold, c.includeRefused);
    var base := map["query_embedding" := Embedding(embedding), "match_threshold" := Number(c.threshold),
                     "match_count" := Count(c.limit * 2)];
    FilterParamsSpec(base, c.filters);
  }

  /** `analyse_development` after the search: 404 when nothing was found, else the analysis of the precedents. */
  function AnalyseOutcome<T>(precedents: seq<PrecedentMatch>, analyse: seq<PrecedentMatch> -> T): (r: Response<T>)
    ensures r.Fail? <==> precedents == []
    ensures r.Fail? ==> r.status == 404
    ensures r.Done? ==> r.value == analyse(precedents)
  {
    if precedents == [] then Fail(404, "No relevant precedents found. Try broadening your search criteria.")
    else Done(analyse(precedents))
  }

  /** `quick_analysis`'s guard and request: under twenty characters is 400; otherwise no counter-arguments. */
  function QuickRequest(query: string, ward: Option<string>): (r: Response<AnalysisRequest>)
    ensures r.Fail? <==> |query| < 20
    ensures r.Fail? ==> r.status == 400
    ensures r.Done? ==> r.value.query == query && r.value.ward == ward && !r.value.includeCounterArguments
  {
    if |query| < 20 then Fail(400, "Query too short. Please provide more details about your proposal.")
    else Done(AnalysisRequest(query, None, ward, None, false))
  }

  /** A quick analysis never searches refused decisions: the outcome filter is always sent. */
  lemma QuickSearchGrantedOnly(query: string, ward: Option<string>, embedding: seq<real>)
    requires QuickRequest(query, ward).Done?
    ensures var c := AnalyseSearch(QuickRequest(query, ward).value);
      "filter_outcome" in SearchParams(embedding, Some(c.filters), c.limit, c.threshold, c.includeRefused)
  {
    AnalyseSearchParams(QuickRequest(query, ward).value, embedding);
  }

  /** The quick answer lists at most five precedents and three risks. */
  function QuickSummary<P, K>(precedents: seq<P>, risks: seq<K>): (r: (seq<P>, seq<K>))
    ensures |r.0| == Min(|precedents|, 5) && r.0 == precedents[..|r.0|]
    ensures |r.1| == Min(|risks|, 3) && r.1 == risks[..|r.1|]
  {
    (precedents[..Min(|precedents|, 5)], risks[..Min(|risks|, 3)])
  }

  /** `batch_analysis`'s guard: more than ten queries is 400. */
  function BatchGuard(queries: seq<string>): (r: Response<seq<string>>)
    ensures r.Fail? <==> |queries| > 10
    ensures r.Fail? ==> r.status == 400
    ensures r.Done? ==> r.value == queries
  {
    if |queries| > 10 then Fail(400, "Maximum 10 queries per batch") else Done(queries)
  }

  /** The search of `generate_appeal_argument`: granted decisions only, in the refused case's ward when it has one. */
  function AppealSearch(decision: PlanningDecision): (c: SearchCall)
    ensures c.limit == 10 && c.threshold == 0.6 && !c.includeRefused
    ensures c.filters == NoFilters.(wards := if decision.ward != [] then Some([decision.ward]) else None)
  {
    SearchCall(NoFilters.(wards := if decision.ward != [] then Some([decision.ward]) else None), 10, 0.6, false)
  }

  /** What the appeal endpoint answers once the search is done. */
  datatype AppealAnswer<A> =
    | FewPrecedents(found: nat)
    | Argument(argument: A, strength: Strength)

  /**
   * `generate_appeal_argument`: 404 for an unknown case; fewer than two
   * approved precedents give a warning instead of an argument; otherwise
   * the argument with the strength rating of those precedents.
   */
  function AppealOutcome<A>(decision: Option<PlanningDecision>, approved: seq<PrecedentMatch>,
                            argue: seq<PrecedentMatch> -> A): (r: Response<AppealAnswer<A>>)
    ensures r.Fail? <==> decision.None?
    ensures r.Fail? ==> r.status == 404
    ensures r.Done? ==> (r.value.FewPrecedents? <==> |approved| < 2)
    ensures r.Done? && r.value.FewPrecedents? ==> r.value.found == |approved|
    ensures r.Done? && r.value.Argument? ==> r.value.argument == argue(approved)
                                             && r.value.strength == AssessAppealStrength(approved)
  {
    if decision.None? then Fail(404, "Case not found")
    else if |approved| < 2 then Done(FewPrecedents(|approved|))
    else Done(Argument(argue(approved), AssessAppealStrength(approved)))
  }
}
